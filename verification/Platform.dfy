/** What the operator sees of its surroundings: the API server, the clock and the Go library
    functions it calls. Everything the operator cannot control is a field of `Env`, indexed by
    the number of calls made so far, so a statement about every `Env` is a statement about
    every pattern of API failures, every passage of time and every listing order. */
module Platform {

  datatype Option<+T> = None | Some(value: T)

  /** An optional boolean field defaults to true. */
  predicate Flag(f: Option<bool>) { f.None? || f.value }

  /** What happened to an API call. A write that is `Unacknowledged` reached the API server,
      but the operator was told that it failed. A read succeeds exactly when it is `Done`. */
  datatype Outcome = Done | Rejected | Unacknowledged

  datatype Env = Env(
    outcome: nat -> Outcome,
    clock: nat -> int,
    parseDuration: string -> Option<int>,
    listing: (nat, set<string>) -> seq<string>,
    listingPairs: (nat, set<(string, string)>) -> seq<(string, string)>,
    matches: (seq<string>, string) -> bool)

  /** One second; the clock and all durations count nanoseconds. */
  const SECOND: int := 1_000_000_000

  /** The premises on the surroundings: time never goes back and starts after the first second
      of the Unix epoch, "0h" and "0" parse as no time at all, and listing some objects returns exactly
      those objects. */
  ghost predicate Sane(env: Env)
  {
    && (forall i: nat, j: nat :: i <= j ==> env.clock(i) <= env.clock(j))
    && env.clock(0) >= SECOND
    && env.parseDuration("0h") == Some(0) && env.parseDuration("0") == Some(0)
    && (forall n: nat, s: set<string>, x: string :: x in env.listing(n, s) <==> x in s)
  }

  /** Listing gives every object once. */
  ghost predicate ListsOnce(env: Env)
  {
    && (forall n: nat, s: set<string>, x: string :: x in env.listing(n, s) <==> x in s)
    && (forall n: nat, s: set<string>, i: nat, j: nat :: i < j < |env.listing(n, s)| ==>
          env.listing(n, s)[i] != env.listing(n, s)[j])
    && (forall n: nat, s: set<(string, string)>, x: (string, string) :: x in env.listingPairs(n, s) <==> x in s)
  }

  /** Every call from `n` up to but not including `m` succeeded. */
  ghost predicate ErrorFree(env: Env, n: nat, m: nat)
  {
    forall i: nat | n <= i < m :: env.outcome(i).Done?
  }

  /** Unix seconds of an instant, as Go's `Time.Unix` truncates them (instants after the epoch). */
  function UnixSeconds(t: int): (s: int)
    ensures s * SECOND <= t < (s + 1) * SECOND
  {
    t / SECOND
  }

  predicate HasPrefix(s: string, p: string)
  {
    |p| <= |s| && s[..|p|] == p
  }

  predicate HasSuffix(s: string, p: string)
  {
    |p| <= |s| && s[|s| - |p|..] == p
  }

  predicate Contains(s: string, p: string)
  {
    exists i | 0 <= i <= |s| :: HasPrefix(s[i..], p)
  }

  /** The code points `unicode.IsSpace` accepts. */
  predicate IsSpace(c: char)
  {
    || '\t' <= c <= '\r'
    || c == ' '
    || c == 0x85 as char || c == 0xA0 as char || c == 0x1680 as char
    || 0x2000 as char <= c <= 0x200A as char
    || c == 0x2028 as char || c == 0x2029 as char
    || c == 0x202F as char || c == 0x205F as char || c == 0x3000 as char
  }

  /** `strings.TrimSpace`. */
  function TrimSpace(s: string): (r: string)
    ensures r != "" ==> !IsSpace(r[0]) && !IsSpace(r[|r| - 1])
    ensures s != "" && !IsSpace(s[0]) && !IsSpace(s[|s| - 1]) ==> r == s
  {
    if s == "" then ""
    else if IsSpace(s[0]) then TrimSpace(s[1..])
    else if IsSpace(s[|s| - 1]) then TrimSpace(s[..|s| - 1])
    else s
  }
}
