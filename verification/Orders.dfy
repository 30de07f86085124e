/** Recorded lists in another order: `shouldUpdateVmmrq` compares lists, but a status is the sets that
    they list. Go's maps give the lists in any order. */
module Orders {
  import opened Protocol
  import opened Passes
  import opened Invariant
  import opened Records
  import opened Visits

  lemma SameEntries(a: seq<NameAndSpec>, b: seq<NameAndSpec>)
    requires UniqueNames(a) && UniqueNames(b) && |a| == |b|
    requires forall i | 0 <= i < |a| :: a[i].name == b[i].name && a[i].hard.m == b[i].hard.m
    ensures Originals(a) == Originals(b)
  {
    EachRecorded(a);
    EachRecorded(b);
    forall n ensures n in Originals(a) <==> n in Originals(b) {
      if n in Originals(a) { var i :| 0 <= i < |a| && a[i].name == n; assert b[i] in b; }
      if n in Originals(b) { var i :| 0 <= i < |b| && b[i].name == n; assert a[i] in a; }
    }
    forall n | n in Originals(a) ensures Originals(a)[n] == Originals(b)[n] {
      var i :| 0 <= i < |a| && a[i].name == n;
    }
  }

  lemma SmallerSet(a: set<Name>, b: set<Name>)
    requires a <= b
    ensures |a| <= |b|
  {
    assert |b| == |a| + |b - a| by { assert b == a + (b - a); }
  }

  lemma TwoKeys(originals: Hards, x: Name, y: Name)
    requires x in originals && y in originals && x != y
    ensures |originals| >= 2
  {
    assert |{x, y}| == 2;
    SmallerSet({x, y}, originals.Keys);
  }

  /** A record can be reordered exactly if it has two different names. */
  lemma ReorderableExactly(status: Status)
    ensures Reorderable(status) <==> exists x, y :: x in status.originals && y in status.originals && x != y
  {
    if Reorderable(status) {
      var x :| x in status.originals;
      var rest := status.originals.Keys - {x};
      assert |rest| >= 1;
      var y :| y in rest;
      assert y in status.originals && x != y;
    }
    if x, y :| x in status.originals && y in status.originals && x != y {
      TwoKeys(status.originals, x, y);
    }
  }

  /** Two lists of the same names, without duplicates, differ only if there are two names. */
  lemma TwoNames(a: seq<Name>, b: seq<Name>) returns (x: Name, y: Name)
    requires NoDups(a) && NoDups(b) && a != b && forall n :: n in a <==> n in b
    ensures x in a && y in a && x != y
  {
    if |a| >= 2 {
      x, y := a[0], a[1];
    } else if |b| >= 2 {
      x, y := b[0], b[1];
    } else {
      AtMostOne(a, b);
      assert false;
    }
  }

  lemma AtMostOne(a: seq<Name>, b: seq<Name>)
    requires |a| <= 1 && |b| <= 1 && forall n :: n in a <==> n in b
    ensures a == b
  {
    if a != [] { assert a[0] in b; }
    if b != [] { assert b[0] in a; }
  }

  /** Two lists of the same originals differ only if there are two of them. */
  lemma TwoOriginals(a: seq<NameAndSpec>, b: seq<NameAndSpec>)
    requires UniqueNames(a) && UniqueNames(b) && Originals(a) == Originals(b)
    requires !(|a| == |b| && forall i | 0 <= i < |a| :: a[i].name == b[i].name && a[i].hard.m == b[i].hard.m)
    ensures |Originals(a)| >= 2
  {
    EachRecorded(a);
    EachRecorded(b);
    if |a| >= 2 {
      TwoKeys(Originals(a), a[0].name, a[1].name);
    } else if |b| >= 2 {
      TwoKeys(Originals(a), b[0].name, b[1].name);
    } else {
      AtMostOneOriginal(a, b);
      assert false;
    }
  }

  lemma AtMostOneOriginal(a: seq<NameAndSpec>, b: seq<NameAndSpec>)
    requires UniqueNames(a) && UniqueNames(b) && Originals(a) == Originals(b) && |a| <= 1 && |b| <= 1
    ensures |a| == |b| && forall i | 0 <= i < |a| :: a[i].name == b[i].name && a[i].hard.m == b[i].hard.m
  {
    EachRecorded(a);
    EachRecorded(b);
    if a != [] {
      assert b == [b[0]] && b[0].name == a[0].name;
    }
  }

  /** Two ways to list the same migrations differ only if their quotas are two. */
  lemma TwoListings(a: map<Name, seq<Name>>, b: map<Name, seq<Name>>, status: Status)
    requires Tidy(a) && Tidy(b) && Sets(a) == Sets(b) == status.migrations && a != b && Agrees(status)
    ensures Reorderable(status)
  {
    assert Sets(a).Keys == a.Keys && Sets(b).Keys == b.Keys;
    var k :| k in a && a[k] != b[k];
    assert forall n :: n in a[k] <==> n in Sets(a)[k];
    assert forall n :: n in b[k] <==> n in Sets(b)[k];
    var x, y := TwoNames(a[k], b[k]);
    TwoKeys(status.originals, x, y);
  }
}
