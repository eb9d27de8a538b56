/** Comma-separated lists and shortened names. */
module Text {
  import opened Platform

  /** `strings.Split` with a comma. */
  function SplitComma(s: string): (parts: seq<string>)
    ensures |parts| >= 1
  {
    if s == "" then [""]
    else
      var rest := SplitComma(s[1..]);
      if s[0] == ',' then [""] + rest else [[s[0]] + rest[0]] + rest[1..]
  }

  /** `strings.Join` with a comma. */
  function JoinComma(parts: seq<string>): (r: string)
    requires |parts| >= 1
  {
    if |parts| == 1 then parts[0] else parts[0] + "," + JoinComma(parts[1..])
  }

  lemma SplitStep(c: char, s: string)
    ensures SplitComma([c] + s) ==
      if c == ',' then [""] + SplitComma(s) else [[c] + SplitComma(s)[0]] + SplitComma(s)[1..]
  {
    assert ([c] + s)[1..] == s;
  }

  /** Splitting loses nothing ... */
  lemma {:induction false} JoinSplit(s: string)
    ensures JoinComma(SplitComma(s)) == s
  {
    if s != "" {
      var rest := SplitComma(s[1..]);
      JoinSplit(s[1..]);
      if s[0] == ',' {
        assert ([""] + rest)[1..] == rest;
      } else {
        assert ([[s[0]] + rest[0]] + rest[1..])[1..] == rest[1..];
        assert s == [s[0]] + s[1..];
        if |rest| > 1 {
          assert [s[0]] + (rest[0] + "," + JoinComma(rest[1..])) == ([s[0]] + rest[0]) + "," + JoinComma(rest[1..]);
        }
      }
    }
  }

  /** ... and invents no part. */
  lemma {:induction false} SplitJoin(parts: seq<string>)
    requires |parts| >= 1
    requires forall p | p in parts :: ',' !in p
    ensures SplitComma(JoinComma(parts)) == parts
    decreases |parts|, |parts[0]|
  {
    var s := JoinComma(parts);
    if parts[0] == "" {
      if |parts| > 1 {
        assert s[1..] == JoinComma(parts[1..]);
        SplitJoin(parts[1..]);
        assert parts == [""] + parts[1..];
      } else {
        assert parts == [""];
      }
    } else {
      var shorter := [parts[0][1..]] + parts[1..];
      assert forall p | p in shorter :: ',' !in p by {
        forall p | p in shorter ensures ',' !in p {
          if p == parts[0][1..] { assert parts[0] in parts; } else { assert p in parts; }
        }
      }
      assert shorter[1..] == parts[1..];
      assert s == [parts[0][0]] + JoinComma(shorter);
      assert parts[0][0] != ',' by { assert parts[0] in parts; }
      SplitJoin(shorter);
      assert s[1..] == JoinComma(shorter);
      assert [s[0]] + shorter[0] == parts[0];
      assert [[s[0]] + shorter[0]] + shorter[1..] == parts;
    }
  }

  predicate IsItem(parts: seq<string>, x: string)
  {
    x != "" && exists i | 0 <= i < |parts| :: x == TrimSpace(parts[i])
  }

  /** The parts of a comma-separated list, trimmed, without the empty ones. */
  function Items(parts: seq<string>): (xs: seq<string>)
    ensures forall x :: x in xs <==> IsItem(parts, x)
  {
    if parts == [] then []
    else
      var x := TrimSpace(parts[0]);
      var rest := Items(parts[1..]);
      assert parts[0] == [parts[0]][0];
      assert forall i | 0 <= i < |parts[1..]| :: parts[1..][i] == parts[i + 1];
      assert forall y | IsItem(parts[1..], y) :: IsItem(parts, y);
      assert forall y | IsItem(parts, y) && y != x :: IsItem(parts[1..], y) by {
        forall y | IsItem(parts, y) && y != x ensures IsItem(parts[1..], y) {
          var i :| 0 <= i < |parts| && y == TrimSpace(parts[i]);
          assert y == TrimSpace(parts[1..][i - 1]);
        }
      }
      (if x == "" then [] else [x]) + rest
  }

  const MAX_NAME := 63
  const MAX_CR_NAME := 37

  /** A hyphen and seven hexadecimal digits. */
  type Suffix = s: string | |s| == 8 && '_' !in s witness "-0000000"

  /** TruncateWithHash */
  function TruncateWithHash(hash: string -> Suffix, s: string, limit: nat): (r: string)
    requires limit >= 8
    ensures |r| <= limit
    ensures |s| <= limit ==> r == s
    ensures '_' !in s ==> '_' !in r
    ensures |s| > limit ==> |r| == limit && r[..limit - 8] == s[..limit - 8] && r[limit - 8..] == hash(s)
  {
    if |s| <= limit then s else s[..limit - 8] + hash(s)
  }

  /** NameWithSuffix */
  function NameWithSuffix(hash: string -> Suffix, name: string, suffix: string): (r: string)
    ensures '_' !in name && '_' !in suffix ==> '_' !in r
  {
    TruncateWithHash(hash, TruncateWithHash(hash, name, MAX_CR_NAME) + "-" + suffix, MAX_NAME)
  }

  /** A short name is not cut. */
  lemma NameWithSuffixShort(hash: string -> Suffix, name: string, suffix: string)
    requires |name| <= 37 && |name| + 1 + |suffix| <= 63
    ensures NameWithSuffix(hash, name, suffix) == name + "-" + suffix
  {
  }

  /** `s` without `i` spaces at the front and `j` at the end. */
  predicate Trims(s: string, r: string, i: nat, j: nat)
  {
    && i + j <= |s| && r == s[i..|s| - j]
    && (forall k | 0 <= k < i :: IsSpace(s[k])) && (forall k | |s| - j <= k < |s| :: IsSpace(s[k]))
  }

  /** Trimming takes away spaces at both ends and nothing else. */
  lemma {:induction false} TrimIsExact(s: string)
    returns (i: nat, j: nat)
    ensures Trims(s, TrimSpace(s), i, j)
    decreases |s|
  {
    if s == "" || (!IsSpace(s[0]) && !IsSpace(s[|s| - 1])) {
      i, j := 0, 0;
    } else if IsSpace(s[0]) {
      i, j := TrimIsExact(s[1..]);
      TrimsFront(s, TrimSpace(s[1..]), i, j);
      i := i + 1;
    } else {
      i, j := TrimIsExact(s[..|s| - 1]);
      TrimsBack(s, TrimSpace(s[..|s| - 1]), i, j);
      j := j + 1;
    }
  }

  lemma TrimsFront(s: string, r: string, i: nat, j: nat)
    requires s != "" && IsSpace(s[0]) && Trims(s[1..], r, i, j)
    ensures Trims(s, r, i + 1, j)
  {
    var t := s[1..];
    assert forall k | 0 < k < |s| :: s[k] == t[k - 1];
    assert t[i..|t| - j] == s[i + 1..|s| - j];
  }

  lemma TrimsBack(s: string, r: string, i: nat, j: nat)
    requires s != "" && IsSpace(s[|s| - 1]) && Trims(s[..|s| - 1], r, i, j)
    ensures Trims(s, r, i, j + 1)
  {
    var t := s[..|s| - 1];
    assert forall k | 0 <= k < |t| :: s[k] == t[k];
    assert t[i..|t| - j] == s[i..|t| - j];
  }
}
