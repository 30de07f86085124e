/** A VMMRQ created or deleted while a reconcile runs. The controller relies on it not happening;
    here is exactly when it is harmless, and what is lost otherwise. */
module Adrift {
  import opened Resources
  import opened Admission
  import opened Protocol
  import opened Invariant
  import opened Runs
  import opened Traces

  // ---------------------------------------------------------------- a reconcile that is not alone

  /** A status that records nothing. */
  predicate Blank(status: Status) {
    Agrees(status) && status.originals == map[]
  }

  /** The invariant of a running reconcile, but for the one VMMRQ that it began with: it is gone, or
      there is another. */
  predicate Drifting(s: State) {
    var p, job := s.space, s.job;
    && !job.Idle? && job.key in p.taken && Books(p) && Logged(p) && p.lockState.Agrees(p.webhook)
    && !p.webhook && |p.vmmrqs| != 1
    && match job
       case Idle => false
       case Listing(_) => false
       case Syncing(_, v) => Blank(v.status) && v.spec in p.offered
       case Deciding(_, prev) => Blank(prev)
       case Acting(_, prev, next, _, stage) =>
         && (!stage.Boosting? ==> Blank(prev) && Agrees(next) && next.additional == prev.additional)
         && match stage
            case Looking => true
            case Locking(held) => !held
            case Restoring(held, todo) => !held && todo == {} && !ShouldLock(next)
            case Boosting(held, todo) => !held && todo == {} && !ShouldLock(next)
  }

  /** Creating or deleting a VMMRQ sets a running reconcile adrift. */
  lemma SetsAdrift(s: State, user: string, act: Act)
    requires Inv(s) && !s.job.Idle? && !s.job.Listing?
    requires ActPossible(s.space, user, act) && (act.CreateVmmrq? || act.DeleteVmmrq?)
    ensures Drifting(State(ActNext(s.space, user, act), s.job))
  {
    VmmrqsChange(s.space, user, act);
    assert s.space.vmmrqs[0] in s.space.vmmrqs;
    if s.job.Acting? && s.job.stage.Restoring? { assert s.job.stage.todo == {}; }
    if s.job.Acting? && s.job.stage.Boosting? { assert s.job.stage.todo == {}; }
  }

  /** The answers `m` make the reconcile plan a lock. */
  predicate PlansLock(cache: map<Name, ResourceList>, key: Name, prev: Status, m: Migration) {
    (m.Blocked? ==> cache.Keys <= m.seen.Keys) && ShouldLock(Replan(prev, key, m, cache))
  }

  /** The reconcile's plan, or one that it can still make, has originals to record. The update that
      comes before the plan is refused only if the listed VMMRQ is gone. */
  ghost predicate MayLock(s: State) {
    match s.job
    case Idle => false
    case Listing(_) => false
    case Syncing(key, v) =>
      (SyncSends(s.job) ==> Present(s.space)) &&
      exists m :: PlansLock(s.space.cache, key, v.status.(additional := v.spec), m)
    case Deciding(key, prev) => exists m :: PlansLock(s.space.cache, key, prev, m)
    case Acting(_, _, next, _, _) => ShouldLock(next)
  }

  // ---------------------------------------------------------------- harmless without a lock

  /** An update of the listed VMMRQ that records nothing, beside others. */
  lemma BlankUpdate(p: Space, status: Status)
    requires Books(p) && Logged(p) && |p.vmmrqs| != 1 && Present(p) && Blank(status) && status.additional in p.offered
    ensures Books(SetStatus(p, status)) && Logged(SetStatus(p, status))
  {
    var p' := SetStatus(p, status);
    forall v | v in p'.vmmrqs
      ensures Agrees(v.status) && v.status.additional in p'.offered && v.spec in p'.offered && v.status.originals == map[]
    {
      var i :| 0 <= i < |p'.vmmrqs| && p'.vmmrqs[i] == v;
      assert p.vmmrqs[i] in p.vmmrqs;
    }
  }

  lemma SyncDrifts(s: State)
    requires Drifting(s) && JobPossible(s.space, s.job, SyncAdditional)
    ensures Drifting(JobNext(s.space, s.job, SyncAdditional))
    ensures JobNext(s.space, s.job, SyncAdditional).space.cache == s.space.cache
  {
    var status := s.job.vmmrq.status.(additional := s.job.vmmrq.spec);
    if SyncSends(s.job) { BlankUpdate(s.space, status); }
  }

  /** A plan without originals leaves a blank record as it is, so there is nothing to write. */
  lemma NothingToWrite(prev: Status, next: Status)
    requires Blank(prev) && Blank(next) && next.additional == prev.additional
    ensures next == prev
  {
    EmptyOriginals(prev);
    EmptyOriginals(next);
  }

  lemma DriftsOn(s: State, st: JobStep)
    requires Drifting(s) && !MayLock(s) && JobPossible(s.space, s.job, st)
    ensures var s' := JobNext(s.space, s.job, st);
      if s'.job.Idle? then Inv(s') else Drifting(s') && !MayLock(s')
  {
    var p, job := s.space, s.job;
    match st
    case SyncAdditional => SyncDrifts(s);
    case Decide(m) => DecideDrifts(s, m);
    case Write => NothingToWrite(job.prev, job.next);
    case Finish => Unchanged(p, JobNext(p, job, st).space);
    case Fail => Unchanged(p, JobNext(p, job, st).space);
    case _ =>
  }

  lemma DecideDrifts(s: State, m: Migration)
    requires Drifting(s) && JobPossible(s.space, s.job, Decide(m))
    ensures Drifting(JobNext(s.space, s.job, Decide(m)))
    ensures MayLock(JobNext(s.space, s.job, Decide(m))) <==> PlansLock(s.space.cache, s.job.key, s.job.prev, m)
  {
    ReplanAgrees(s.space, s.job.prev, s.job.key, m);
  }

  lemma Unchanged(p: Space, p': Space)
    requires Books(p) && Logged(p) && |p.vmmrqs| != 1 && p.lockState.Agrees(p.webhook)
    requires p' == p.(pending := p'.pending, taken := p'.taken)
    ensures Inv(State(p', Idle))
  {
  }

  lemma {:induction false} DriftsHome(states: seq<State>, steps: seq<JobStep>, mode: Mode, i: nat)
    requires Trace(states, steps, mode) && Drifting(states[0]) && !MayLock(states[0]) && i < |states|
    ensures if states[i].job.Idle? then Inv(states[i]) else Drifting(states[i]) && !MayLock(states[i])
  {
    if i > 0 {
      DriftsHome(states, steps, mode, i - 1);
      assert StepAt(states, steps, i - 1, mode);
      DriftsOn(states[i - 1], steps[i - 1]);
    }
  }

  // ---------------------------------------------------------------- and stuck with one

  /** Locked without exactly one VMMRQ: no reconcile gets past the list. */
  predicate Stuck(s: State) {
    s.space.webhook && |s.space.vmmrqs| != 1 && (s.job.Idle? || s.job.Listing?)
  }

  /** Any calls of one reconcile, as long as the code permits them. */
  const ANY := Mode(false, false, NotBlocked)

  lemma LocksAndFails(s: State) returns (s': State)
    requires Drifting(s) && s.job.Acting? && ShouldLock(s.job.next)
    ensures RunsTo(s, s', ANY) && s'.job.Idle? && Stuck(s')
  {
    var s1 := State(Locks(s.space, s.job.next, false), s.job.(stage := Restoring(false, ToRestore(s.job.prev, s.job.next))));
    if s.job.stage.Looking? { TakesLock(s, ANY); } else { OneMove(s, Lock, s1, ANY); }
    s' := Abort(s1.space, s.job.key);
    CallFails(s1, ANY);
    Then(s, s1, s', ANY);
  }

  lemma PlansAndLocks(s: State, m: Migration) returns (s': State)
    requires Drifting(s) && s.job.Deciding? && PlansLock(s.space.cache, s.job.key, s.job.prev, m)
    ensures RunsTo(s, s', ANY) && s'.job.Idle? && Stuck(s')
  {
    var s1 := State(s.space, Acting(s.job.key, s.job.prev, Replan(s.job.prev, s.job.key, m, s.space.cache), OutcomeOf(m), Looking));
    DecideDrifts(s, m);
    Decides(s, m, ANY);
    s' := LocksAndFails(s1);
    Then(s, s1, s', ANY);
  }

  lemma GetsStuck(s: State) returns (s': State)
    requires Drifting(s) && MayLock(s)
    ensures RunsTo(s, s', ANY) && s'.job.Idle? && Stuck(s')
  {
    match s.job
    case Acting(_, _, _, _, _) => s' := LocksAndFails(s);
    case Deciding(key, prev) =>
      var m :| PlansLock(s.space.cache, key, prev, m);
      s' := PlansAndLocks(s, m);
    case Syncing(key, v) =>
      var m :| PlansLock(s.space.cache, key, v.status.(additional := v.spec), m);
      var s1 := JobNext(s.space, s.job, SyncAdditional);
      SyncDrifts(s);
      OneMove(s, SyncAdditional, s1, ANY);
      s' := PlansAndLocks(s1, m);
      Then(s, s1, s', ANY);
  }

  /** A VMMRQ that comes or goes during a reconcile is harmless, whatever fails, exactly when the
      reconcile has not planned, and can no longer plan, to record a quota. */
  lemma VmmrqChangeExactly(s: State, user: string, act: Act)
    requires Inv(s) && !s.job.Idle? && !s.job.Listing?
    requires ActPossible(s.space, user, act) && (act.CreateVmmrq? || act.DeleteVmmrq?)
    ensures var adrift := State(ActNext(s.space, user, act), s.job);
      (forall s' | RunsTo(adrift, s', ANY) && s'.job.Idle? :: Inv(s')) <==> !MayLock(adrift)
  {
    var adrift := State(ActNext(s.space, user, act), s.job);
    SetsAdrift(s, user, act);
    if MayLock(adrift) {
      var s' := GetsStuck(adrift);
      assert RunsTo(adrift, s', ANY) && !Inv(s');
    } else {
      forall s' | RunsTo(adrift, s', ANY) && s'.job.Idle? ensures Inv(s') {
        var states: seq<State>, steps: seq<JobStep> :| Trace(states, steps, ANY) && states[0] == adrift && states[|steps|] == s';
        DriftsHome(states, steps, ANY, |steps|);
      }
    }
  }

  // ---------------------------------------------------------------- for good

  lemma StuckStays(s: State, st: Step, s': State)
    requires Stuck(s) && Permits(s, st, s')
    ensures Stuck(s')
  {
    match st
    case Do(js) => StuckCalls(s, js);
    case Queue(q) => StuckInQueue(s, q);
    case Other(user, act) => ActWhenLocked(s.space, user, act);
    case Refresh =>
    case Crash =>
  }

  lemma StuckCalls(s: State, st: JobStep)
    requires Stuck(s) && JobPossible(s.space, s.job, st)
    ensures Stuck(JobNext(s.space, s.job, st))
  {
    assert st == ListVmmrqs || st == Fail;
  }

  lemma StuckInQueue(s: State, st: QueueStep)
    requires Stuck(s) && QueuePossible(s.space, s.job, st)
    ensures Stuck(QueueNext(s.space, s.job, st))
  {
    QueueFrame(s.space, s.job, st);
  }

  /** Nobody but the controller creates or deletes a VMMRQ in a locked namespace. */
  lemma ActWhenLocked(p: Space, user: string, act: Act)
    requires ActPossible(p, user, act) && p.webhook
    ensures ActNext(p, user, act).webhook && |ActNext(p, user, act).vmmrqs| == |p.vmmrqs|
  {
    LockGuards(user, Unreadable, if act.CreateVmmrq? then Create else Delete, p.kubevirtNs, p.mtqNs);
  }

  /** What is lost: a stuck namespace stays locked in every run, whatever anybody does. */
  lemma {:induction false} StuckForGood(states: seq<State>, steps: seq<Step>, i: nat)
    requires |states| == |steps| + 1 && i < |states| && Stuck(states[0])
    requires forall k | 0 <= k < |steps| :: Permits(states[k], steps[k], states[k + 1])
    ensures Stuck(states[i])
  {
    if i > 0 {
      StuckForGood(states, steps, i - 1);
      StuckStays(states[i - 1], steps[i - 1], states[i]);
    }
  }
}
