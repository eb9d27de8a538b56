/** The namespace list on the ApplicationSet controller's command line is the desired set, in order. */
module SourceNamespaceCommand {
  import opened Platform
  import opened SourceNamespaces
  import opened SourceNamespaceLoops

  /** The list that getArgoApplicationSetCommand passes with --applicationset-namespaces; `listing` is what
      listing the namespaces returned. */
  function CommandNamespaces(env: Env, c: Cluster, cr: Instance, listing: seq<string>): (r: seq<string>)
  {
    AppsOnly(env, c, cr, Expanded(env, cr, listing))
  }

  ghost predicate InOrder(xs: seq<string>)
  {
    forall i, j | 0 <= i < j < |xs| :: Less(xs[i], xs[j])
  }

  ghost predicate Once(xs: seq<string>)
  {
    forall i, j | 0 <= i < j < |xs| :: xs[i] != xs[j]
  }

  lemma {:induction false} LessTotal(a: string, b: string)
    ensures Less(a, b) || a == b || Less(b, a)
    decreases |a|
  {
    if a != "" && b != "" && a[0] == b[0] {
      LessTotal(a[1..], b[1..]);
      assert a == [a[0]] + a[1..] && b == [b[0]] + b[1..];
    }
  }

  lemma {:induction false} LessTrans(a: string, b: string, c: string)
    requires Less(a, b) && Less(b, c)
    ensures Less(a, c)
    decreases |a|
  {
    if a != "" && a[0] == b[0] && b[0] == c[0] { LessTrans(a[1..], b[1..], c[1..]); }
  }

  lemma {:induction false} InsertInOrder(x: string, xs: seq<string>)
    requires InOrder(xs) && x !in xs
    ensures InOrder(Insert(x, xs))
    decreases |xs|
  {
    if xs == [] {
    } else if !Less(xs[0], x) {
      LessTotal(xs[0], x);
      forall j | 0 < j < |xs| ensures Less(x, xs[j]) { LessTrans(x, xs[0], xs[j]); }
    } else {
      var rest := Insert(x, xs[1..]);
      InsertInOrder(x, xs[1..]);
      forall j | 0 <= j < |rest| ensures Less(xs[0], rest[j]) {
        assert rest[j] in multiset(rest);
        assert rest[j] in multiset(xs[1..]) + multiset{x};
      }
    }
  }

  lemma {:induction false} SortedInOrder(xs: seq<string>)
    requires Once(xs)
    ensures InOrder(Sorted(xs))
    decreases |xs|
  {
    if xs != [] {
      SortedInOrder(xs[1..]);
      assert xs[0] !in xs[1..];
      assert xs[0] !in multiset(Sorted(xs[1..]));
      InsertInOrder(xs[0], Sorted(xs[1..]));
    }
  }

  lemma {:induction false} MatchingOnce(env: Env, patterns: seq<string>, xs: seq<string>)
    requires Once(xs)
    ensures Once(Matching(env, patterns, xs))
    decreases |xs|
  {
    if xs != [] {
      MatchingOnce(env, patterns, xs[1..]);
      assert xs[0] !in Matching(env, patterns, xs[1..]);
    }
  }

  lemma {:induction false} AppsInOrder(env: Env, c: Cluster, cr: Instance, xs: seq<string>)
    requires InOrder(xs)
    ensures InOrder(AppsOnly(env, c, cr, xs))
    decreases |xs|
  {
    if xs != [] {
      var rest := AppsOnly(env, c, cr, xs[1..]);
      AppsInOrder(env, c, cr, xs[1..]);
      forall j | 0 <= j < |rest| ensures Less(xs[0], rest[j]) { assert rest[j] in xs[1..]; }
    }
  }

  /** The command-line list is in strictly ascending order and holds exactly the desired namespaces of a
      cluster-scoped instance. There is only one such list. */
  lemma CommandListIsDesired(env: Env, c: Cluster, cr: Instance, n: nat)
    requires ListsOnce(env) && cr.clusterScoped && !cr.deleting
    ensures var xs := CommandNamespaces(env, c, cr, env.listing(n, c.namespaces.Keys));
      && InOrder(xs)
      && (forall y :: y in xs <==> Desired(env, ApplicationSet, c, cr, y))
  {
    var listing := env.listing(n, c.namespaces.Keys);
    if cr.applicationSet.Some? {
      MatchingOnce(env, cr.applicationSet.value, listing);
      SortedInOrder(Matching(env, cr.applicationSet.value, listing));
      ExpandedIsMatching(env, cr, listing);
    }
    AppsInOrder(env, c, cr, Expanded(env, cr, listing));
  }

  /** Two lists in strictly ascending order with the same members are the same list. */
  lemma {:induction false} OrderedListIsUnique(a: seq<string>, b: seq<string>)
    requires InOrder(a) && InOrder(b) && forall y :: y in a <==> y in b
    ensures a == b
    decreases |a|
  {
    assert a != [] ==> a[0] in b;
    assert b != [] ==> b[0] in a;
    if a != [] {
      FirstIsLeast(a, b);
      forall y ensures y in a[1..] <==> y in b[1..] {
        TailHolds(a, y);
        TailHolds(b, y);
      }
      OrderedListIsUnique(a[1..], b[1..]);
      assert a == [a[0]] + a[1..] && b == [b[0]] + b[1..];
    }
  }

  lemma {:induction false} NotLessThanItself(a: string)
    ensures !Less(a, a)
    decreases |a|
  {
    if a != "" { NotLessThanItself(a[1..]); }
  }

  lemma FirstIsLeast(a: seq<string>, b: seq<string>)
    requires InOrder(a) && InOrder(b) && a != [] && b != [] && forall y :: y in a <==> y in b
    ensures a[0] == b[0]
  {
    assert a[0] in b && b[0] in a;
    NotLessThanItself(a[0]);
    if Less(a[0], b[0]) && Less(b[0], a[0]) { LessTrans(a[0], b[0], a[0]); }
  }

  lemma TailHolds(a: seq<string>, y: string)
    requires InOrder(a) && a != []
    ensures y in a[1..] <==> y in a && y != a[0]
  {
    NotLessThanItself(a[0]);
  }
}
