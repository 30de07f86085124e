/** Draining one recorded migration after the other, each under a cache of its own. */
module DrainChains {
  import opened Protocol
  import opened Invariant
  import opened Reconciles
  import opened Passes
  import opened Blind
  import opened Lag

  // ---------------------------------------------------------------- one drain of several

  /** A failure-free reconcile of a migration that is not blocked any more leads from `s` to `s'`. */
  ghost predicate Drains(s: State, s': State) {
    Starts(s, NotBlocked) && exists states, steps :: WholeBlind(states, steps, s, NotBlocked) && states[|steps|] == s'
  }

  /** Between two drains the server stays as it is; the controller's memory may change. */
  predicate SameServer(p: Space, p': Space) {
    p'.live == p.live && p'.vmmrqs == p.vmmrqs && p'.webhook == p.webhook && p'.tenant == p.tenant
  }

  /** What the drain forgets. */
  function Dropped(s: State): Hards
    requires Starts(s, NotBlocked)
  {
    map n | n in Log(s.space) && n !in PlanOf(s, NotBlocked).originals :: Log(s.space)[n]
  }

  /** If the drain forgets a loan of `n`, its cache shows the loan. */
  predicate DropsSeen(s: State, n: Name)
    requires Starts(s, NotBlocked)
  {
    n in Dropped(s) && n in s.space.live && s.space.live[n] != Dropped(s)[n] ==>
      n in s.space.cache && s.space.cache[n] != Dropped(s)[n]
  }

  /** Downstream of a true record: what is left of it, in the same namespace. */
  predicate Follows(p0: Space, p: Space) {
    && |p.vmmrqs| == 1 && Agrees(p.vmmrqs[0].status)
    && p.tenant == p0.tenant && p.live.Keys == p0.live.Keys
    && (forall n | n in Log(p) :: n in Log(p0) && Log(p)[n] == Log(p0)[n])
    && Entries(p).Keys <= Entries(p0).Keys
  }

  lemma DrainEndsAt(s: State, s': State)
    requires Drains(s, s')
    ensures EndsAt(s'.space, BlindEnd(s.space, s.job.key, NotBlocked)) && Framed(s.space, s'.space)
  {
    var states, steps :| WholeBlind(states, steps, s, NotBlocked) && states[|steps|] == s';
    BlindEnds(states, steps, s, NotBlocked);
  }

  /** One drain takes its entry, and what only that entry named, off the record. */
  lemma DrainShrinks(p0: Space, s: State, s': State)
    requires Follows(p0, s.space) && Drains(s, s')
    ensures Follows(p0, s'.space) && Entries(s'.space) == Entries(s.space) - {s.job.key}
    ensures Log(s'.space) == PlanOf(s, NotBlocked).originals && s'.space.webhook == (Log(s'.space) != map[])
    ensures forall n | n in Log(s'.space) :: n in Log(s.space)
  {
    DrainEndsAt(s, s');
    hide WholeBlind;
    var prev, next := Synced(s.space.vmmrqs[0]), PlanOf(s, NotBlocked);
    PlanShrinks(prev, s.job.key, s.space.cache);
    ReplanAgrees(s.space, prev, s.job.key, NotBlocked);
    assert s'.space.vmmrqs == [Vmmrq(s.space.vmmrqs[0].spec, next)];
    assert s'.space.live.Keys == s.space.live.Keys;
  }

  lemma PlanShrinks(prev: Status, key: Name, cache: Hards)
    requires Agrees(prev)
    ensures var next := Replan(prev, key, NotBlocked, cache);
      && next.migrations == prev.migrations - {key}
      && forall n | n in next.originals :: n in prev.originals && next.originals[n] == prev.originals[n]
  {
    var next := Replan(prev, key, NotBlocked, cache);
    forall n | n in next.originals ensures n in prev.originals {
      var m :| m in next.migrations && n in next.migrations[m];
      FlatHas(prev.migrations, m, n);
    }
  }

  lemma DroppedQuota(s: State, n: Name)
    requires Starts(s, NotBlocked) && n in s.space.live && n !in PlanOf(s, NotBlocked).originals
    ensures var live := BlindEnd(s.space, s.job.key, NotBlocked).quotas.live;
      && n in live
      && (n in Log(s.space) ==> (live[n] == Log(s.space)[n] <==> DropsSeen(s, n)))
      && (n !in Log(s.space) ==> live[n] == s.space.live[n] && DropsSeen(s, n))
  {
    QuotaAtTheEnd(s.space, s.job.key, NotBlocked, n);
    hide BlindEnd;
  }

  /** And gives one quota back exactly if it had seen the loan. */
  lemma DrainGivesBack(p0: Space, s: State, s': State, n: Name)
    requires Follows(p0, s.space) && Drains(s, s') && n in s.space.live && n !in Log(s'.space)
    ensures n in s'.space.live
    ensures n in Log(s.space) ==> (s'.space.live[n] == Log(s.space)[n] <==> DropsSeen(s, n))
    ensures n !in Log(s.space) ==> s'.space.live[n] == s.space.live[n] && DropsSeen(s, n)
  {
    DrainEndsAt(s, s');
    DrainShrinks(p0, s, s');
    hide WholeBlind, Follows, DropsSeen, BlindEnd;
    DroppedQuota(s, n);
  }

  // ---------------------------------------------------------------- the chain

  predicate AllStart(starts: seq<State>) {
    forall i | 0 <= i < |starts| :: Starts(starts[i], NotBlocked)
  }

  ghost predicate Chain(starts: seq<State>, ends: seq<State>) {
    && |starts| == |ends| > 0 && AllStart(starts)
    && (forall i | 0 <= i < |starts| :: Drains(starts[i], ends[i]))
    && (forall i | 0 < i < |starts| :: SameServer(ends[i - 1].space, starts[i].space))
  }

  /** The namespace before the `i`-th drain, and after the last one. */
  function Before(starts: seq<State>, ends: seq<State>, i: nat): Space
    requires |starts| == |ends| > 0 && i <= |starts|
  {
    if i == 0 then starts[0].space else ends[i - 1].space
  }

  lemma {:induction false} ChainFollows(starts: seq<State>, ends: seq<State>, i: nat)
    requires Chain(starts, ends) && Inv(starts[0]) && i <= |starts|
    ensures Follows(starts[0].space, Before(starts, ends, i))
    ensures i < |starts| ==> Follows(starts[0].space, starts[i].space)
  {
    if i == 0 {
      assert Drains(starts[0], ends[0]);
      FollowsItself(starts[0]);
    } else {
      ChainFollows(starts, ends, i - 1);
      assert Drains(starts[i - 1], ends[i - 1]);
      assert i < |starts| ==> SameServer(ends[i - 1].space, starts[i].space);
      hide Chain, Drains, Follows;
      DrainShrinks(starts[0].space, starts[i - 1], ends[i - 1]);
      if i < |starts| { FollowsOn(starts[0].space, ends[i - 1].space, starts[i].space); }
    }
  }

  /** A drained key has no entry any more. */
  lemma {:induction false} KeysGone(starts: seq<State>, ends: seq<State>, i: nat, j: nat)
    requires Chain(starts, ends) && Inv(starts[0]) && j < i <= |starts|
    ensures starts[j].job.key !in Entries(Before(starts, ends, i))
  {
    ChainFollows(starts, ends, i - 1);
    assert Drains(starts[i - 1], ends[i - 1]);
    assert i > 1 ==> SameServer(ends[i - 2].space, starts[i - 1].space);
    if j < i - 1 { KeysGone(starts, ends, i - 1, j); }
    hide Chain, Drains, Follows;
    DrainShrinks(starts[0].space, starts[i - 1], ends[i - 1]);
  }

  lemma FollowsItself(s: State)
    requires Inv(s) && |s.space.vmmrqs| == 1
    ensures Follows(s.space, s.space)
  {
    assert s.space.vmmrqs[0] in s.space.vmmrqs;
  }

  lemma FollowsOn(p0: Space, p: Space, p': Space)
    requires Follows(p0, p) && SameServer(p, p')
    ensures Follows(p0, p')
  {
  }

  /** One quota so far: still on record, or the tenant's exactly if every drain that forgot a loan of
      it had seen the loan. */
  ghost predicate SoFar(starts: seq<State>, ends: seq<State>, i: nat, n: Name)
    requires Chain(starts, ends) && i <= |starts|
  {
    var p := Before(starts, ends, i);
    && n in p.live && n in p.tenant
    && (if n in Log(p) then AllSeen(starts, i, n) else (p.live[n] == p.tenant[n] <==> AllSeen(starts, i, n)))
  }

  ghost predicate AllSeen(starts: seq<State>, i: nat, n: Name)
    requires i <= |starts| && AllStart(starts)
  {
    forall j | 0 <= j < i :: DropsSeen(starts[j], n)
  }

  lemma {:induction false} QuotaSoFar(starts: seq<State>, ends: seq<State>, i: nat, n: Name)
    requires Chain(starts, ends) && Inv(starts[0]) && i <= |starts| && n in starts[0].space.live
    ensures SoFar(starts, ends, i, n)
  {
    hide Chain, SoFar, Follows;
    if i == 0 {
      NoneYet(starts, ends, n);
    } else {
      ChainFollows(starts, ends, i);
      QuotaSoFar(starts, ends, i - 1, n);
      ChainFollows(starts, ends, i - 1);
      OneMoreDrain(starts, ends, i, n);
    }
  }

  lemma NoneYet(starts: seq<State>, ends: seq<State>, n: Name)
    requires Chain(starts, ends) && Inv(starts[0]) && n in starts[0].space.live
    ensures SoFar(starts, ends, 0, n)
  {
    InitialQuota(starts[0].space, n);
  }

  lemma InitialQuota(p: Space, n: Name)
    requires Books(p) && Logged(p) && n in p.live
    ensures n in p.tenant && (n !in Log(p) ==> p.live[n] == p.tenant[n])
  {
  }

  lemma OneMoreDrain(starts: seq<State>, ends: seq<State>, i: nat, n: Name)
    requires Chain(starts, ends) && Inv(starts[0]) && 0 < i <= |starts| && n in starts[0].space.live
    requires SoFar(starts, ends, i - 1, n) && Follows(starts[0].space, starts[i - 1].space)
    requires Follows(starts[0].space, Before(starts, ends, i))
    ensures SoFar(starts, ends, i, n)
  {
    var s, s' := starts[i - 1], ends[i - 1];
    assert Drains(s, s');
    assert i > 1 ==> SameServer(ends[i - 2].space, s.space);
    DrainShrinks(starts[0].space, s, s');
    if n !in Log(s'.space) { DrainGivesBack(starts[0].space, s, s', n); }
    assert AllSeen(starts, i, n) <==> AllSeen(starts, i - 1, n) && DropsSeen(s, n);
  }

  /** Draining under lag, entry by entry: from a true record the chain empties the record and unlocks
      the namespace in any case; every quota is the tenant's again if and only if every drain's cache
      had shown the loans that it forgot. */
  lemma ChainUnderLag(starts: seq<State>, ends: seq<State>)
    requires Chain(starts, ends) && Inv(starts[0])
    requires forall m | m in Entries(starts[0].space) :: exists i :: 0 <= i < |starts| && starts[i].job.key == m
    ensures var p := ends[|ends| - 1].space;
      && Log(p) == map[] && !p.webhook
      && (p.live == p.tenant <==> AllLoansSeen(starts))
  {
    ChainEmpties(starts, ends);
    ChainGivesBack(starts, ends);
  }

  lemma ChainEmpties(starts: seq<State>, ends: seq<State>)
    requires Chain(starts, ends) && Inv(starts[0])
    requires forall m | m in Entries(starts[0].space) :: exists i :: 0 <= i < |starts| && starts[i].job.key == m
    ensures Log(ends[|ends| - 1].space) == map[] && !ends[|ends| - 1].space.webhook
  {
    var r := |starts|;
    var p := ends[r - 1].space;
    ChainFollows(starts, ends, r);
    ChainFollows(starts, ends, r - 1);
    assert Drains(starts[r - 1], ends[r - 1]);
    DrainShrinks(starts[0].space, starts[r - 1], ends[r - 1]);
    forall j | 0 <= j < r ensures starts[j].job.key !in Entries(p) { KeysGone(starts, ends, r, j); }
    assert Entries(p).Keys == {};
    assert Log(p).Keys == {};
  }

  lemma ChainGivesBack(starts: seq<State>, ends: seq<State>)
    requires Chain(starts, ends) && Inv(starts[0]) && Log(ends[|ends| - 1].space) == map[]
    ensures ends[|ends| - 1].space.live == ends[|ends| - 1].space.tenant <==> AllLoansSeen(starts)
  {
    var r := |starts|;
    var p := ends[r - 1].space;
    ChainFollows(starts, ends, r);
    forall n | n in p.live ensures p.live[n] == p.tenant[n] <==> AllSeen(starts, r, n) {
      QuotaSoFar(starts, ends, r, n);
    }
    forall i | 0 <= i < r ensures starts[i].space.live.Keys == p.live.Keys { ChainFollows(starts, ends, i); }
    SeenTogether(starts, p.live.Keys);
    SameNames(starts[0], p);
  }

  lemma LoansSeenAt(s: State)
    requires Starts(s, NotBlocked)
    ensures LoansAreSeen(s.space.live, s.space.cache, Dropped(s)) <==> forall n | n in s.space.live :: DropsSeen(s, n)
  {
  }

  lemma SameNames(s: State, p: Space)
    requires Inv(s) && Follows(s.space, p)
    ensures p.live.Keys == p.tenant.Keys
  {
  }

  /** Every drain had seen the loans that it forgot. */
  predicate AllLoansSeen(starts: seq<State>)
    requires AllStart(starts)
  {
    forall i | 0 <= i < |starts| :: LoansAreSeen(starts[i].space.live, starts[i].space.cache, Dropped(starts[i]))
  }

  lemma SeenTogether(starts: seq<State>, names: set<Name>)
    requires AllStart(starts) && forall i | 0 <= i < |starts| :: starts[i].space.live.Keys == names
    ensures AllLoansSeen(starts) <==> forall n | n in names :: AllSeen(starts, |starts|, n)
  {
    forall i | 0 <= i < |starts|
      ensures LoansAreSeen(starts[i].space.live, starts[i].space.cache, Dropped(starts[i])) <==>
              forall n | n in names :: DropsSeen(starts[i], n)
    {
      LoansSeenAt(starts[i]);
    }
    hide LoansAreSeen, DropsSeen, Starts, Dropped;
    if AllLoansSeen(starts) {
      forall n | n in names ensures AllSeen(starts, |starts|, n) {}
    }
    if forall n | n in names :: AllSeen(starts, |starts|, n) {
      forall i | 0 <= i < |starts| ensures forall n | n in names :: DropsSeen(starts[i], n) {
        assert forall n | n in names :: AllSeen(starts, |starts|, n);
      }
    }
  }
}
