/** What a lagging informer cache costs: exactly when loans are still given back and quotas still
    raised. `restoreOriginalRQs` and `addResourcesToRQs` trust the cache, and a failed Update leaves
    the cached quota looking as if it had succeeded. */
module Lag {
  import opened Resources
  import opened Protocol
  import opened Invariant
  import opened Reconciles
  import opened Passes
  import opened Blind

  // ---------------------------------------------------------------- draining

  lemma DrainedPlan(prev: Status, key: Name, cache: Hards)
    requires prev.migrations.Keys <= {key}
    ensures Replan(prev, key, NotBlocked, cache).originals == map[]
  {
    var next := Replan(prev, key, NotBlocked, cache);
    assert next.migrations.Keys == {};
    assert next.originals.Keys == {};
  }

  /** The quotas at the end of a drain: the restoring run over the whole record. */
  lemma DrainEnd(p: Space, key: Name)
    requires |p.vmmrqs| == 1 && Entries(p).Keys <= {key}
    ensures var end := BlindEnd(p, key, NotBlocked);
      end.quotas.live == RestoreLive(p.live, p.cache, Log(p)) && end.vmmrqs[0].status.originals == map[] && !end.webhook
  {
    var prev := Synced(p.vmmrqs[0]);
    var next := Replan(prev, key, NotBlocked, p.cache);
    DrainedPlan(prev, key, p.cache);
    assert Visited(prev.originals, ToRestore(prev, next)) == Log(p);
    assert Visited(next.originals, next.originals.Keys) == map[];
    NothingVisited(RestoreLive(p.live, p.cache, Log(p)), RestoreCache(p.cache, Log(p)), map[], next.additional);
  }

  /** Draining under lag, exactly: the reconcile reports success, empties the record and unlocks
      the namespace in any case; from a true record, every quota is the tenant's again if and only if
      the cache had shown every loan. */
  lemma DrainUnderLag(states: seq<State>, steps: seq<JobStep>, s: State)
    requires WholeBlind(states, steps, s, NotBlocked) && Inv(s) && s.job.Listing?
    requires |s.space.vmmrqs| == 1 && Entries(s.space).Keys <= {s.job.key}
    ensures var p, p' := s.space, states[|steps|].space;
      && Log(p') == map[] && !p'.webhook
      && p'.live == RestoreLive(p.live, p.cache, Log(p))
      && (p'.live == p'.tenant <==> LoansAreSeen(p.live, p.cache, Log(p)))
  {
    var p := s.space;
    BlindEnds(states, steps, s, NotBlocked);
    DrainEnd(p, s.job.key);
    RestoreUnderLag(p.live, p.cache, Log(p));
    GivenBack(p, RestoreLive(p.live, p.cache, Log(p)));
  }

  lemma GivenBack(p: Space, goal: Hards)
    requires Books(p) && Logged(p) && goal == RestoreLive(p.live, p.cache, Log(p))
    ensures goal == p.tenant <==> forall n | n in Log(p) && n in p.live :: goal[n] == Log(p)[n]
  {
    forall n | n in p.live && n !in Log(p) ensures goal[n] == p.tenant[n] {
      assert n !in p.lent;
    }
  }

  // ---------------------------------------------------------------- a retry that keeps a loan

  /** A restoring reconcile, about to give back the loan of `n`, of the last recorded migration. */
  predicate GivingBack(s: State, n: Name) {
    && Inv(s) && s.job.Acting? && s.job.stage.Restoring? && n in s.job.stage.todo
    && RestoreSends(s.space, s.job.prev, n) && n in s.space.live
    && Entries(s.space).Keys <= {s.job.key} && s.space.cache.Keys <= s.space.live.Keys
  }

  /** After the update of `n` has failed: the key is queued, and the cached quota looks restored. */
  function Failed(s: State, n: Name): State
    requires GivingBack(s, n)
  {
    Abort(s.space.(cache := s.space.cache[n := s.job.prev.originals[n]]), s.job.key)
  }

  lemma FailsAndIsTaken(s: State, n: Name)
    requires GivingBack(s, n)
    ensures Moves(s, Do(FailUpdate(n)), Failed(s, n))
    ensures Moves(Failed(s, n), Queue(Pop(s.job.key)), Popped(Failed(s, n), s.job.key))
    ensures Moves(Popped(Failed(s, n), s.job.key), Queue(Take(s.job.key)), TakenAgain(s, n))
  {
    StartsByTheQueue(Failed(s, n), s.job.key);
  }

  /** The key is taken again before the informer has caught up. */
  function TakenAgain(s: State, n: Name): State
    requires GivingBack(s, n)
  {
    Started(Failed(s, n), s.job.key)
  }

  lemma RetryLooksDone(s: State, n: Name)
    requires GivingBack(s, n)
    ensures var p := TakenAgain(s, n).space;
      && Starts(TakenAgain(s, n), NotBlocked) && p.cache.Keys <= p.live.Keys && Entries(p).Keys <= {s.job.key}
      && n in p.live && RestoreLive(p.live, p.cache, Log(p))[n] == s.space.live[n]
      && n in s.space.tenant && s.space.live[n] != s.space.tenant[n]
  {
    var p := s.space;
    assert Log(p) == s.job.prev.originals && p.cache[n] == p.live[n];
    assert n in p.tenant && Truthful(Log(p), p);
  }

  /** The loan that is kept: whatever order the retry's loops run in, it reports success, empties the
      record and unlocks the namespace, and the quota stays raised. */
  lemma RetryKeepsLoan(s: State, n: Name, states: seq<State>, steps: seq<JobStep>)
    requires GivingBack(s, n) && WholeBlind(states, steps, TakenAgain(s, n), NotBlocked)
    ensures var p' := states[|steps|].space;
      && Log(p') == map[] && !p'.webhook
      && n in p'.live && n in p'.tenant && p'.live[n] == s.space.live[n] != p'.tenant[n] == s.space.tenant[n]
  {
    RetryLooksDone(s, n);
    BlindEnds(states, steps, TakenAgain(s, n), NotBlocked);
    DrainEnd(TakenAgain(s, n).space, s.job.key);
  }

  /** And there is such a retry. */
  lemma RetryExists(s: State, n: Name) returns (states: seq<State>, steps: seq<JobStep>)
    requires GivingBack(s, n)
    ensures WholeBlind(states, steps, TakenAgain(s, n), NotBlocked)
  {
    RetryLooksDone(s, n);
    states, steps := BlindCompletes(TakenAgain(s, n), NotBlocked);
  }

  // ---------------------------------------------------------------- recording

  /** The plan of the reconcile that starts in `s`. */
  function PlanOf(s: State, m: Migration): Status
    requires Starts(s, m)
  {
    Replan(Synced(s.space.vmmrqs[0]), s.job.key, m, s.space.cache)
  }

  /** Every snapshot that the plan takes shows the quota as it is. */
  predicate SnapshotsAreRight(p: Space, next: Status) {
    forall n | n in next.originals && n !in Log(p) && n in p.live :: n in p.cache && p.cache[n] == p.live[n]
  }

  /** Recording under lag, exactly: after a reconcile the record is the tenant's values if and only if
      every snapshot that it took was right. */
  lemma RecordUnderLag(states: seq<State>, steps: seq<JobStep>, s: State, m: Migration)
    requires Inv(s) && Starts(s, m) && WholeBlind(states, steps, s, m)
    ensures Log(states[|steps|].space) == PlanOf(s, m).originals
    ensures Truthful(Log(states[|steps|].space), states[|steps|].space) <==> SnapshotsAreRight(s.space, PlanOf(s, m))
  {
    RecordAtTheEnd(states, steps, s, m);
    hide WholeBlind;
    PlanIsTrueExactly(s.space, Synced(s.space.vmmrqs[0]), s.job.key, m);
  }

  lemma RecordAtTheEnd(states: seq<State>, steps: seq<JobStep>, s: State, m: Migration)
    requires Starts(s, m) && WholeBlind(states, steps, s, m)
    ensures Log(states[|steps|].space) == PlanOf(s, m).originals && Framed(s.space, states[|steps|].space)
  {
    BlindEnds(states, steps, s, m);
  }

  lemma PlanIsTrueExactly(p: Space, prev: Status, key: Name, m: Migration)
    requires Books(p) && Logged(p) && prev.originals == Log(p) && Plannable(p, m)
    ensures Truthful(Replan(prev, key, m, p.cache).originals, p) <==> SnapshotsAreRight(p, Replan(prev, key, m, p.cache))
  {
    var next := Replan(prev, key, m, p.cache);
    forall n | n in next.originals && n in p.tenant
      ensures next.originals[n] == p.tenant[n] <==> (n !in Log(p) ==> p.cache[n] == p.live[n])
    {
      assert n in p.live && (n !in Log(p) ==> n !in p.lent);
    }
  }

  /** What a false record costs: the last drain overwrites the tenant's value with it, when its cache
      shows every quota that is off the record. */
  lemma FalseRecordOverwrites(states: seq<State>, steps: seq<JobStep>, s: State, n: Name)
    requires Starts(s, NotBlocked) && WholeBlind(states, steps, s, NotBlocked) && Entries(s.space).Keys <= {s.job.key}
    requires LoansAreSeen(s.space.live, s.space.cache, Log(s.space))
    requires n in Log(s.space) && n in s.space.live && n in s.space.tenant && Log(s.space)[n] != s.space.tenant[n]
    ensures var p' := states[|steps|].space;
      && Log(p') == map[] && !p'.webhook
      && n in p'.live && n in p'.tenant && p'.live[n] == Log(s.space)[n] != p'.tenant[n]
  {
    BlindEnds(states, steps, s, NotBlocked);
    DrainEnd(s.space, s.job.key);
    RestoreUnderLag(s.space.live, s.space.cache, Log(s.space));
  }

  // ---------------------------------------------------------------- raising

  /** Raising under lag, exactly: every planned quota that is at its original is raised if and only if
      the cache shows it there. */
  lemma RaiseUnderLagExactly(states: seq<State>, steps: seq<JobStep>, s: State, m: Migration)
    requires Starts(s, m) && WholeBlind(states, steps, s, m)
    ensures var p, p', next := s.space, states[|steps|].space, PlanOf(s, m);
      && p'.live.Keys == p.live.Keys
      && ((forall n | n in next.originals && n in p.live && p.live[n] == next.originals[n] ::
             p'.live[n] == Plus(next.originals[n], next.additional)) <==>
          BasesAreSeen(p.live, p.cache, next.originals, next.additional))
  {
    var p, p', next := s.space, states[|steps|].space, PlanOf(s, m);
    BlindEnds(states, steps, s, m);
    forall n | n in next.originals && n in p.live && p.live[n] == next.originals[n]
      ensures p'.live[n] == Plus(next.originals[n], next.additional) <==>
              (Plus(next.originals[n], next.additional) != next.originals[n] ==> n in p.cache && p.cache[n] == next.originals[n])
    {
      QuotaAtTheEnd(p, s.job.key, m, n);
    }
  }

  /** What it means for the release: a quota that blocks the target pod at its original, and would let
      it in when raised, lets it in after the reconcile if and only if the cache shows it at its original. */
  lemma ReleaseUnderLag(states: seq<State>, steps: seq<JobStep>, s: State, m: Migration, n: Name, used: ResourceList)
    requires Starts(s, m) && m.Blocked? && WholeBlind(states, steps, s, m)
    requires n in PlanOf(s, m).originals && n in s.space.live && s.space.live[n] == PlanOf(s, m).originals[n]
    requires Check(Applies, s.space.live[n], used, m.request) == Exceeded
    requires Check(Applies, Plus(s.space.live[n], PlanOf(s, m).additional), used, m.request) == Admitted
    ensures n in states[|steps|].space.live
    ensures Check(Applies, states[|steps|].space.live[n], used, m.request) == Admitted <==>
            n in s.space.cache && s.space.cache[n] == s.space.live[n]
  {
    BlindEnds(states, steps, s, m);
    QuotaAtTheEnd(s.space, s.job.key, m, n);
  }

  /** A reconcile about to raise `n`. */
  predicate AboutToRaise(s: State, n: Name) {
    && Inv(s) && s.job.Acting? && s.job.stage.Boosting? && n in s.job.stage.todo && n in s.space.live
    && BoostSends(s.space, s.job.next, n) && Plus(s.space.cache[n], s.job.next.additional) != s.space.cache[n]
  }

  /** After the update of `n` has failed: the key is queued, and the cached quota looks raised. */
  function RaiseFailed(s: State, n: Name): State
    requires AboutToRaise(s, n)
  {
    Abort(s.space.(cache := s.space.cache[n := Plus(s.space.cache[n], s.job.next.additional)]), s.job.key)
  }

  lemma RaiseFails(s: State, n: Name)
    requires AboutToRaise(s, n)
    ensures Moves(s, Do(FailUpdate(n)), RaiseFailed(s, n))
    ensures var p := RaiseFailed(s, n).space;
      && |p.vmmrqs| == 1 && n in Log(p) && p.live == s.space.live && n in p.cache && p.cache[n] != Log(p)[n]
      && s.space.live[n] == Log(p)[n] == s.job.next.originals[n]
  {
  }

  /** A failed raise: the update of `n` fails, and the key is taken again before the informer has
      caught up. While the quota stays planned with, the retry skips it and still reports success. */
  lemma RetrySkipsRaise(s: State, n: Name, states: seq<State>, steps: seq<JobStep>, m: Migration)
    requires AboutToRaise(s, n)
    requires var again := Started(RaiseFailed(s, n), s.job.key);
      Starts(again, m) && n in PlanOf(again, m).originals && WholeBlind(states, steps, again, m)
    ensures n in states[|steps|].space.live && states[|steps|].space.live[n] == s.space.live[n] == s.job.next.originals[n]
  {
    var again := Started(RaiseFailed(s, n), s.job.key);
    RaiseFails(s, n);
    hide AboutToRaise;
    BlindEnds(states, steps, again, m);
    QuotaAtTheEnd(again.space, s.job.key, m, n);
  }
}
