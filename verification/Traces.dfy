/** Runs of the protocol that the calls of one reconcile amount to. */
module Traces {
  import opened Resources
  import opened Protocol
  import opened Invariant
  import opened Reconciles
  import opened Passes
  import opened Visits

  /** What is asked of a run beside that the code permits it. With `sound`, the assumptions hold;
      with `clean`, no call fails and the decision is about this migration. */
  datatype Mode = Mode(sound: bool, clean: bool, migration: Migration)

  function Dirty(mode: Mode): Mode {
    mode.(clean := false)
  }

  /** A run of calls of one worker inside a reconcile. */
  ghost predicate Trace(states: seq<State>, steps: seq<JobStep>, mode: Mode) {
    |states| == |steps| + 1 && forall i | 0 <= i < |steps| :: StepAt(states, steps, i, mode)
  }

  predicate StepAt(states: seq<State>, steps: seq<JobStep>, i: nat, mode: Mode)
    requires i < |steps| == |states| - 1
  {
    !states[i].job.Idle? && Permits(states[i], Do(steps[i]), states[i + 1]) && Allows(mode, states[i], steps[i])
  }

  predicate Allows(mode: Mode, s: State, st: JobStep) {
    && (mode.sound ==> Assumed(s, Do(st)))
    && (mode.clean ==> st.Succeeds() && (st.Decide? ==> st.migration == mode.migration))
  }

  ghost predicate RunsTo(s: State, s': State, mode: Mode) {
    exists states, steps :: Trace(states, steps, mode) && states[0] == s && states[|steps|] == s'
  }

  lemma Stays(s: State, mode: Mode)
    ensures RunsTo(s, s, mode)
  {
    assert Trace([s], [], mode);
  }

  lemma OneMove(s: State, st: JobStep, s': State, mode: Mode)
    requires !s.job.Idle? && Permits(s, Do(st), s') && Allows(mode, s, st)
    ensures RunsTo(s, s', mode)
  {
    assert StepAt([s, s'], [st], 0, mode);
    assert Trace([s, s'], [st], mode);
  }

  lemma {:induction false} Joined(a: seq<State>, m: seq<JobStep>, b: seq<State>, n: seq<JobStep>, mode: Mode)
    requires Trace(a, m, mode) && Trace(b, n, mode) && a[|m|] == b[0]
    ensures Trace(a + b[1..], m + n, mode)
  {
    forall i | 0 <= i < |m + n| ensures StepAt(a + b[1..], m + n, i, mode) {
      if i < |m| {
        assert StepAt(a, m, i, mode);
      } else {
        assert StepAt(b, n, i - |m|, mode);
        assert (a + b[1..])[i] == b[i - |m|];
      }
    }
  }

  lemma Then(s: State, s1: State, s2: State, mode: Mode)
    requires RunsTo(s, s1, mode) && RunsTo(s1, s2, mode)
    ensures RunsTo(s, s2, mode)
  {
    var a, m :| Trace(a, m, mode) && a[0] == s && a[|m|] == s1;
    var b, n :| Trace(b, n, mode) && b[0] == s1 && b[|n|] == s2;
    Joined(a, m, b, n, mode);
    assert (a + b[1..])[|m + n|] == s2;
  }

  /** A clean run is a run. */
  lemma Loosen(s: State, s': State, mode: Mode)
    requires RunsTo(s, s', mode)
    ensures RunsTo(s, s', Dirty(mode))
  {
    var a, m :| Trace(a, m, mode) && a[0] == s && a[|m|] == s';
    forall i | 0 <= i < |m| ensures StepAt(a, m, i, Dirty(mode)) {
      assert StepAt(a, m, i, mode);
    }
  }

  /** How a run that was meant to be clean has gone on. */
  function After(mode: Mode, ok: bool): Mode {
    if ok then mode else Dirty(mode)
  }

  lemma ThenAfter(s: State, s1: State, s2: State, mode: Mode, ok: bool)
    requires RunsTo(s, s1, mode) && RunsTo(s1, s2, After(mode, ok))
    ensures RunsTo(s, s2, After(mode, ok))
  {
    if !ok { Loosen(s, s1, mode); }
    Then(s, s1, s2, After(mode, ok));
  }

  /** Whatever runs soundly between an invariant state and another keeps the invariant. */
  lemma RunKeepsInv(s: State, s': State, mode: Mode)
    requires RunsTo(s, s', mode) && mode.sound && Inv(s)
    ensures Inv(s')
  {
    var states: seq<State>, steps: seq<JobStep> :| Trace(states, steps, mode) && states[0] == s && states[|steps|] == s';
    TraceKeepsInv(states, steps, mode, |steps|);
  }

  lemma {:induction false} TraceKeepsInv(states: seq<State>, steps: seq<JobStep>, mode: Mode, i: nat)
    requires Trace(states, steps, mode) && mode.sound && Inv(states[0]) && i < |states|
    ensures Inv(states[i])
  {
    if i > 0 {
      TraceKeepsInv(states, steps, mode, i - 1);
      assert StepAt(states, steps, i - 1, mode);
      StepKeepsInv(states[i - 1], Do(steps[i - 1]), states[i]);
    }
  }

  /** Runs of calls leave the tenant's wishes, usage and offers alone. */
  lemma RunFrame(s: State, s': State, mode: Mode)
    requires RunsTo(s, s', mode)
    ensures Framed(s.space, s'.space)
  {
    var states: seq<State>, steps: seq<JobStep> :| Trace(states, steps, mode) && states[0] == s && states[|steps|] == s';
    TraceFrame(states, steps, mode, |steps|);
  }

  lemma {:induction false} TraceFrame(states: seq<State>, steps: seq<JobStep>, mode: Mode, i: nat)
    requires Trace(states, steps, mode) && i < |states|
    ensures Framed(states[0].space, states[i].space)
  {
    if i > 0 {
      TraceFrame(states, steps, mode, i - 1);
      assert StepAt(states, steps, i - 1, mode);
      JobFrame(states[i - 1].space, states[i - 1].job, steps[i - 1]);
    }
  }

  /** A sound and clean run that ends the reconcile is a failure-free reconcile. */
  lemma CleanRunLeads(s: State, s': State, mode: Mode)
    requires RunsTo(s, s', mode) && mode.sound && mode.clean && s'.job.Idle?
    ensures LeadsTo(s, mode.migration, s')
  {
    var states: seq<State>, steps: seq<JobStep> :| Trace(states, steps, mode) && states[0] == s && states[|steps|] == s';
    forall i | 0 <= i < |steps|
      ensures steps[i].Succeeds() && (steps[i].Decide? ==> steps[i].migration == mode.migration)
      ensures !states[i].job.Idle? && Moves(states[i], Do(steps[i]), states[i + 1])
    {
      assert StepAt(states, steps, i, mode);
    }
  }

  // ---------------------------------------------------------------- the loops, for any part of their list

  function AfterRestore(s: State, names: set<Name>): State
    requires s.job.Acting? && s.job.stage.Restoring?
  {
    var p, job := s.space, s.job;
    var part := Visited(job.prev.originals, names);
    State(p.(live := RestoreLive(p.live, p.cache, part), cache := RestoreCache(p.cache, part), lent := p.lent - names),
          job.(stage := Restoring(job.stage.held, job.stage.todo - names)))
  }

  lemma {:induction false} RestoreRun(s: State, names: set<Name>, mode: Mode)
    requires s.job.Acting? && s.job.stage.Restoring? && names <= s.job.stage.todo && names <= s.job.prev.originals.Keys
    requires forall n | n in names && RestoreSends(s.space, s.job.prev, n) :: n in s.space.live
    ensures RunsTo(s, AfterRestore(s, names), mode)
    decreases names
  {
    var p, job := s.space, s.job;
    if names == {} {
      assert AfterRestore(s, {}) == s by { RestoreNothing(s); }
      Stays(s, mode);
    } else {
      var n :| n in names;
      var s1 := State(Restored(p, job.prev, n), job.(stage := Restoring(job.stage.held, job.stage.todo - {n})));
      OneMove(s, Restore(n), s1, mode);
      RestoreRun(s1, names - {n}, mode);
      RestoreOneMore(s, n, names);
      Then(s, s1, AfterRestore(s, names), mode);
    }
  }

  lemma RestoreNothing(s: State)
    requires s.job.Acting? && s.job.stage.Restoring?
    ensures AfterRestore(s, {}) == s
  {
    NothingVisited(s.space.live, s.space.cache, s.job.prev.originals, map[]);
  }

  lemma RestoreOneMore(s: State, n: Name, names: set<Name>)
    requires s.job.Acting? && s.job.stage.Restoring? && n in names && n in s.job.prev.originals
    requires RestoreSends(s.space, s.job.prev, n) ==> n in s.space.live
    ensures var job := s.job;
      AfterRestore(State(Restored(s.space, job.prev, n), job.(stage := Restoring(job.stage.held, job.stage.todo - {n}))), names - {n})
        == AfterRestore(s, names)
  {
    var p, job := s.space, s.job;
    assert p.lent - {n} - (names - {n}) == p.lent - names;
    assert job.stage.todo - {n} - (names - {n}) == job.stage.todo - names;
    RestoreMapsOneMore(p.live, p.cache, job.prev.originals, n, names);
  }

  predicate LooksBase(cache: Hards, part: Hards, n: Name) {
    n in part && n in cache && cache[n] == part[n]
  }

  function Lent(lent: Hards, cache: Hards, part: Hards, add: ResourceList): Hards {
    map n | n in lent.Keys + part.Keys && (n in lent || LooksBase(cache, part, n)) ::
      if LooksBase(cache, part, n) then add else lent[n]
  }

  function AfterBoost(s: State, names: set<Name>): State
    requires s.job.Acting? && s.job.stage.Boosting?
  {
    var p, job := s.space, s.job;
    var part := Visited(job.next.originals, names);
    State(p.(live := BoostLive(p.live, p.cache, part, job.next.additional), cache := BoostCache(p.cache, part, job.next.additional),
             lent := Lent(p.lent, p.cache, part, job.next.additional)),
          job.(stage := Boosting(job.stage.held, job.stage.todo - names)))
  }

  lemma {:induction false} BoostRun(s: State, names: set<Name>, mode: Mode)
    requires s.job.Acting? && s.job.stage.Boosting? && names <= s.job.stage.todo && names <= s.job.next.originals.Keys
    requires forall n | n in names && BoostSends(s.space, s.job.next, n) :: n in s.space.live
    ensures RunsTo(s, AfterBoost(s, names), mode)
    decreases names
  {
    var p, job := s.space, s.job;
    if names == {} {
      assert AfterBoost(s, {}) == s by { BoostNothing(s); }
      Stays(s, mode);
    } else {
      var n :| n in names;
      var s1 := State(Boosted(p, job.next, n), job.(stage := Boosting(job.stage.held, job.stage.todo - {n})));
      OneMove(s, Boost(n), s1, mode);
      BoostRun(s1, names - {n}, mode);
      BoostOneMore(s, n, names);
      Then(s, s1, AfterBoost(s, names), mode);
    }
  }

  lemma BoostNothing(s: State)
    requires s.job.Acting? && s.job.stage.Boosting?
    ensures AfterBoost(s, {}) == s
  {
    NothingVisited(s.space.live, s.space.cache, s.job.next.originals, s.job.next.additional);
    assert Lent(s.space.lent, s.space.cache, map[], s.job.next.additional) == s.space.lent;
  }

  lemma BoostOneMore(s: State, n: Name, names: set<Name>)
    requires s.job.Acting? && s.job.stage.Boosting? && n in names && n in s.job.next.originals
    requires BoostSends(s.space, s.job.next, n) ==> n in s.space.live
    ensures var job := s.job;
      AfterBoost(State(Boosted(s.space, job.next, n), job.(stage := Boosting(job.stage.held, job.stage.todo - {n}))), names - {n})
        == AfterBoost(s, names)
  {
    var p, job := s.space, s.job;
    var p1 := Boosted(p, job.next, n);
    var add := job.next.additional;
    var part, rest := Visited(job.next.originals, names), Visited(job.next.originals, names - {n});
    assert job.stage.todo - {n} - (names - {n}) == job.stage.todo - names;
    BoostMapsOneMore(p.live, p.cache, job.next.originals, add, n, names);
    LentOneMore(p.lent, p.cache, job.next.originals, add, n, names);
  }

  lemma LentOneMore(lent: Hards, cache: Hards, originals: Hards, add: ResourceList, n: Name, names: set<Name>)
    requires n in names && n in originals
    ensures var sends := n in cache && cache[n] == originals[n];
      var lent1 := if sends then lent[n := add] else lent;
      var cache1 := if sends then cache[n := Plus(cache[n], add)] else cache;
      Lent(lent1, cache1, Visited(originals, names - {n}), add) == Lent(lent, cache, Visited(originals, names), add)
  {
    var sends := n in cache && cache[n] == originals[n];
    var lent1 := if sends then lent[n := add] else lent;
    var cache1 := if sends then cache[n := Plus(cache[n], add)] else cache;
    var part, rest := Visited(originals, names), Visited(originals, names - {n});
    assert part == rest[n := originals[n]] && n !in rest;
    LentLater(lent, cache, rest, add, n, originals[n], lent1, cache1);
  }

  lemma LentAt(lent: Hards, cache: Hards, part: Hards, add: ResourceList, n: Name)
    ensures n in Lent(lent, cache, part, add) <==> n in lent || LooksBase(cache, part, n)
    ensures LooksBase(cache, part, n) ==> Lent(lent, cache, part, add)[n] == add
    ensures n in lent && !LooksBase(cache, part, n) ==> Lent(lent, cache, part, add)[n] == lent[n]
  {
  }

  lemma LentLater(lent: Hards, cache: Hards, rest: Hards, add: ResourceList, n: Name, original: ResourceList, lent1: Hards, cache1: Hards)
    requires n !in rest
    requires n in cache && cache[n] == original ==> lent1 == lent[n := add] && n in cache1
    requires !(n in cache && cache[n] == original) ==> lent1 == lent
    requires forall k | k != n :: (k in cache1 <==> k in cache) && (k in cache ==> cache1[k] == cache[k])
    ensures Lent(lent1, cache1, rest, add) == Lent(lent, cache, rest[n := original], add)
  {
    var a, b := Lent(lent1, cache1, rest, add), Lent(lent, cache, rest[n := original], add);
    forall k ensures (k in a <==> k in b) && (k in a ==> a[k] == b[k]) {
      LentAt(lent1, cache1, rest, add, k);
      LentAt(lent, cache, rest[n := original], add, k);
      assert k != n ==> (LooksBase(cache1, rest, k) <==> LooksBase(cache, rest[n := original], k));
    }
  }

  // ---------------------------------------------------------------- the other calls, one by one

  lemma CallFails(s: State, mode: Mode)
    requires !s.job.Idle? && !mode.clean
    ensures RunsTo(s, Abort(s.space, s.job.key), mode)
  {
    OneMove(s, Fail, Abort(s.space, s.job.key), mode);
  }

  /** An update of `n` fails after the cached quota was given the value `hard`. */
  lemma UpdateFails(s: State, n: Name, hard: ResourceList, mode: Mode)
    requires s.job.Acting? && !mode.clean
    requires (s.job.stage.Restoring? && n in s.job.stage.todo && RestoreSends(s.space, s.job.prev, n) && hard == s.job.prev.originals[n]) ||
             (s.job.stage.Boosting? && n in s.job.stage.todo && BoostSends(s.space, s.job.next, n) &&
              hard == Plus(s.space.cache[n], s.job.next.additional))
    ensures RunsTo(s, Abort(s.space.(cache := s.space.cache[n := hard]), s.job.key), mode)
  {
    OneMove(s, FailUpdate(n), Abort(s.space.(cache := s.space.cache[n := hard]), s.job.key), mode);
  }

  lemma Lists(s: State, mode: Mode)
    requires s.job.Listing?
    ensures |s.space.vmmrqs| != 1 ==> RunsTo(s, State(s.space.(taken := s.space.taken - {s.job.key}), Idle), mode)
    ensures |s.space.vmmrqs| == 1 ==> RunsTo(s, State(s.space.(listed := At(0)), Syncing(s.job.key, s.space.vmmrqs[0])), mode)
  {
    OneMove(s, ListVmmrqs, JobNext(s.space, s.job, ListVmmrqs), mode);
  }

  lemma Syncs(s: State, mode: Mode)
    requires s.job.Syncing? && s.space.vmmrqs == [s.job.vmmrq] && s.space.listed == At(0)
    ensures var status := s.job.vmmrq.status.(additional := s.job.vmmrq.spec);
      RunsTo(s, State(SetStatus(s.space, status), Deciding(s.job.key, status)), mode)
  {
    SameStatus(s.space);
    OneMove(s, SyncAdditional, JobNext(s.space, s.job, SyncAdditional), mode);
  }

  lemma Decides(s: State, m: Migration, mode: Mode)
    requires s.job.Deciding? && (m.Blocked? ==> s.space.cache.Keys <= m.seen.Keys)
    requires (mode.sound ==> DecidesFresh(s.space, s.job, m)) && (mode.clean ==> m == mode.migration)
    ensures RunsTo(s, State(s.space, Acting(s.job.key, s.job.prev, Replan(s.job.prev, s.job.key, m, s.space.cache), OutcomeOf(m), Looking)), mode)
  {
    OneMove(s, Decide(m), JobNext(s.space, s.job, Decide(m)), mode);
  }

  /** Looking the lock up and taking it if need be. */
  lemma TakesLock(s: State, mode: Mode)
    requires s.job.Acting? && s.job.stage.Looking?
    requires ShouldLock(s.job.next) && !LookedUp(s.space) ==> !s.space.webhook
    ensures var held := LookedUp(s.space);
      RunsTo(s, State(Locks(s.space, s.job.next, held), s.job.(stage := Restoring(held, ToRestore(s.job.prev, s.job.next)))), mode)
  {
    var s1 := State(s.space, s.job.(stage := Stage.Locking(LookedUp(s.space))));
    OneMove(s, LookUpLock, s1, mode);
    var s2 := JobNext(s1.space, s1.job, Lock);
    OneMove(s1, Lock, s2, mode);
    Then(s, s1, s2, mode);
  }

  lemma Writes(s: State, mode: Mode)
    requires s.job.Acting? && s.job.stage.Restoring? && s.job.stage.todo == {}
    requires Alone(s.space) && s.space.vmmrqs[0].status == s.job.prev
    ensures RunsTo(s, State(SetStatus(s.space, s.job.next), s.job.(stage := Boosting(s.job.stage.held, s.job.next.originals.Keys))), mode)
  {
    SameStatus(s.space);
    OneMove(s, Write, JobNext(s.space, s.job, Write), mode);
  }

  lemma Finishes(s: State, mode: Mode)
    requires s.job.Acting? && s.job.stage.Boosting? && s.job.stage.todo == {}
    requires !ShouldLock(s.job.next) && s.job.stage.held ==> s.space.webhook
    ensures var p' := Unlocks(s.space, s.job.next, s.job.stage.held);
      RunsTo(s, State(p'.(pending := Requeue(s.space.pending, s.job.key, s.job.outcome), taken := s.space.taken - {s.job.key}), Idle), mode)
  {
    OneMove(s, Finish, JobNext(s.space, s.job, Finish), mode);
  }

  // ---------------------------------------------------------------- a whole loop

  /** Where the restore loop leaves the state. */
  function RestoreEnd(s: State, ok: bool, done: set<Name>, live: Hards, cache: Hards): State
    requires s.job.Acting? && s.job.stage.Restoring?
  {
    var p' := s.space.(live := live, cache := cache, lent := s.space.lent - done);
    if ok then State(p', s.job.(stage := Restoring(s.job.stage.held, {}))) else Abort(p', s.job.key)
  }

  lemma RestoreLoop(s: State, run: Pass, ok: bool, done: set<Name>, failed: Name, live: Hards, cache: Hards, mode: Mode)
    requires s.job.Acting? && s.job.stage.Restoring? && s.job.stage.todo <= s.job.prev.originals.Keys
    requires run.live == s.space.live && run.cache == s.space.cache
    requires run.originals == Visited(s.job.prev.originals, s.job.stage.todo)
    requires RestoringEnds(run, ok, done, failed, live, cache) && (mode.clean ==> ok)
    ensures RunsTo(s, RestoreEnd(s, ok, done, live, cache), mode)
  {
    var s1 := AfterRestore(s, done);
    assert Visited(run.originals, done) == Visited(s.job.prev.originals, done);
    RestoreRun(s, done, mode);
    if ok {
      assert s.job.stage.todo - done == {};
    } else {
      assert s1.space.live == live;
      UpdateFails(s1, failed, run.originals[failed], mode);
      Then(s, s1, RestoreEnd(s, ok, done, live, cache), mode);
    }
  }

  /** Where the boost loop leaves the state. */
  function BoostEnd(s: State, ok: bool, done: set<Name>, live: Hards, cache: Hards): State
    requires s.job.Acting? && s.job.stage.Boosting?
  {
    var part := Visited(s.job.next.originals, done);
    var p' := s.space.(live := live, cache := cache, lent := Lent(s.space.lent, s.space.cache, part, s.job.next.additional));
    if ok then State(p', s.job.(stage := Boosting(s.job.stage.held, {}))) else Abort(p', s.job.key)
  }

  lemma BoostLoop(s: State, run: Pass, ok: bool, done: set<Name>, failed: Name, live: Hards, cache: Hards, mode: Mode)
    requires s.job.Acting? && s.job.stage.Boosting? && s.job.stage.todo == s.job.next.originals.Keys
    requires run.live == s.space.live && run.cache == s.space.cache && run.originals == s.job.next.originals
    requires RaisingEnds(run, s.job.next.additional, ok, done, failed, live, cache) && (mode.clean ==> ok)
    ensures RunsTo(s, BoostEnd(s, ok, done, live, cache), mode)
  {
    var s1 := AfterBoost(s, done);
    BoostRun(s, done, mode);
    if ok {
      assert s.job.stage.todo - done == {};
    } else {
      assert s1.space.live == live;
      UpdateFails(s1, failed, Plus(run.originals[failed], s.job.next.additional), mode);
      Then(s, s1, BoostEnd(s, ok, done, live, cache), mode);
    }
  }
}
