/** What one failure-free reconcile achieves, whatever order its loops visit the quotas in. */
module Reconciles {
  import opened Resources
  import opened Protocol
  import opened Invariant

  // ---------------------------------------------------------------- the result, in one go

  /** The namespace as a reconcile leaves it. */
  datatype Goal = Goal(live: map<Name, ResourceList>, vmmrqs: seq<Vmmrq>, webhook: bool)

  function GoalLive(live: map<Name, ResourceList>, prev: Status, next: Status): map<Name, ResourceList> {
    map n | n in live ::
      if n in next.originals then
        (if live[n] == next.originals[n] then Plus(live[n], next.additional) else live[n])
      else if n in prev.originals then prev.originals[n]
      else live[n]
  }

  /** The status after the copy of the VMMRQ's spec. */
  function Synced(v: Vmmrq): Status {
    v.status.(additional := v.spec)
  }

  /** The whole reconcile as a function of the namespace and of what is known of the migration. */
  function Reconciled(p: Space, key: Name, m: Migration): Goal
    requires |p.vmmrqs| == 1
    requires m.Blocked? ==> p.live.Keys <= m.seen.Keys
  {
    var prev := Synced(p.vmmrqs[0]);
    var next := Replan(prev, key, m, p.live);
    Goal(GoalLive(p.live, prev, next), [Vmmrq(p.vmmrqs[0].spec, next)], ShouldLock(next))
  }

  predicate Reaches(p: Space, goal: Goal) {
    p.live == goal.live && p.vmmrqs == goal.vmmrqs && p.webhook == goal.webhook
  }

  // ---------------------------------------------------------------- how it begins

  function Popped(s: State, key: Name): State {
    State(s.space.(pending := s.space.pending - {key}, taken := s.space.taken + {key}), Idle)
  }

  /** A worker has taken `key` from the queue and entered its namespace. */
  function Started(s: State, key: Name): State {
    State(Popped(s, key).space, Listing(key))
  }

  lemma StartsByTheQueue(s: State, key: Name)
    requires s.job.Idle? && key in s.space.pending && key !in s.space.taken
    ensures Moves(s, Queue(Pop(key)), Popped(s, key)) && Moves(Popped(s, key), Queue(Take(key)), Started(s, key))
  {
  }

  // ---------------------------------------------------------------- on the way

  /** The informer is up to date and the remembered lock state is right. */
  predicate Settled(p: Space, m: Migration) {
    && p.cache == p.live && p.lockState.Agrees(p.webhook)
    && (m.Blocked? ==> p.live.Keys <= m.seen.Keys)
  }

  /** A started reconcile of `key` that will end in `goal`. */
  predicate OnTheWay(s: State, key: Name, m: Migration, goal: Goal) {
    var p, job := s.space, s.job;
    && Settled(p, m) && |p.vmmrqs| == 1 && (!job.Listing? ==> p.listed == At(0))
    && match job
       case Idle => false
       case Listing(k) => k == key && goal == Reconciled(p, key, m)
       case Syncing(k, v) => k == key && v == p.vmmrqs[0] && goal == Reconciled(p, key, m)
       case Deciding(k, prev) => k == key && prev == Synced(p.vmmrqs[0]) && prev == p.vmmrqs[0].status && goal == Reconciled(p, key, m)
       case Acting(k, prev, next, _, stage) =>
         && k == key
         && goal == Goal(GoalLive(p.live, prev, next), [Vmmrq(p.vmmrqs[0].spec, next)], ShouldLock(next))
         && StageOk(p, prev, next, stage)
  }

  predicate StageOk(p: Space, prev: Status, next: Status, stage: Stage)
    requires |p.vmmrqs| == 1
  {
    match stage
    case Looking => p.vmmrqs[0].status == prev
    case Locking(held) => p.vmmrqs[0].status == prev && held == p.webhook
    case Restoring(held, todo) =>
      p.vmmrqs[0].status == prev && p.webhook == (held || ShouldLock(next)) && todo <= ToRestore(prev, next) && RestoredBut(p.live, prev, next, todo)
    case Boosting(held, todo) =>
      p.webhook == (held || ShouldLock(next)) && todo <= next.originals.Keys && RestoredBut(p.live, prev, next, {}) &&
      BoostedBut(p.live, next, todo) && p.vmmrqs[0].status == next
  }

  predicate RestoredBut(live: map<Name, ResourceList>, prev: Status, next: Status, todo: set<Name>) {
    forall n | n in ToRestore(prev, next) && n in live && n !in todo :: live[n] == prev.originals[n]
  }

  predicate BoostedBut(live: map<Name, ResourceList>, next: Status, todo: set<Name>) {
    forall n | n in next.originals && n in live && n !in todo ::
      live[n] == next.originals[n] ==> Plus(live[n], next.additional) == live[n]
  }

  lemma RestoreOnTheWay(p: Space, job: Job, n: Name)
    requires JobPossible(p, job, Restore(n)) && p.cache == p.live
    requires |p.vmmrqs| == 1 && StageOk(p, job.prev, job.next, job.stage)
    ensures var p' := Restored(p, job.prev, n);
      && p'.cache == p'.live
      && GoalLive(p'.live, job.prev, job.next) == GoalLive(p.live, job.prev, job.next)
      && RestoredBut(p'.live, job.prev, job.next, job.stage.todo - {n})
  {
    RestoredQuota(p.live, job.prev, job.next, job.stage.todo, n);
  }

  /** Restoring one quota does not change where the reconcile is headed. */
  lemma RestoredQuota(live: map<Name, ResourceList>, prev: Status, next: Status, todo: set<Name>, n: Name)
    requires n in ToRestore(prev, next) && RestoredBut(live, prev, next, todo)
    ensures var live' := if n in live && live[n] != prev.originals[n] then live[n := prev.originals[n]] else live;
      GoalLive(live', prev, next) == GoalLive(live, prev, next) && RestoredBut(live', prev, next, todo - {n})
  {
  }

  lemma BoostOnTheWay(p: Space, job: Job, n: Name)
    requires JobPossible(p, job, Boost(n)) && p.cache == p.live
    requires |p.vmmrqs| == 1 && StageOk(p, job.prev, job.next, job.stage)
    ensures var p' := Boosted(p, job.next, n);
      && p'.cache == p'.live
      && GoalLive(p'.live, job.prev, job.next) == GoalLive(p.live, job.prev, job.next)
      && RestoredBut(p'.live, job.prev, job.next, {})
      && BoostedBut(p'.live, job.next, job.stage.todo - {n})
  {
    if BoostSends(p, job.next, n) {
      RaisedQuota(p.live, job.prev, job.next, job.stage.todo, n);
    }
  }

  /** Raising one quota from its original does not change where the reconcile is headed. */
  lemma RaisedQuota(live: map<Name, ResourceList>, prev: Status, next: Status, todo: set<Name>, n: Name)
    requires n in live && n in next.originals && live[n] == next.originals[n]
    requires RestoredBut(live, prev, next, {}) && BoostedBut(live, next, todo)
    ensures var live' := live[n := Plus(live[n], next.additional)];
      && GoalLive(live', prev, next) == GoalLive(live, prev, next)
      && RestoredBut(live', prev, next, {}) && BoostedBut(live', next, todo - {n})
  {
    PlusTwice(live[n], next.additional);
  }

  lemma AtTheEnd(live: map<Name, ResourceList>, prev: Status, next: Status)
    requires RestoredBut(live, prev, next, {}) && BoostedBut(live, next, {})
    ensures GoalLive(live, prev, next) == live
  {
    forall n | n in live ensures GoalLive(live, prev, next)[n] == live[n] {
      if n in prev.originals && n !in next.originals { assert n in ToRestore(prev, next); }
    }
  }

  /** Every successful step leads on, and the last one arrives. */
  lemma StepOnTheWay(s: State, st: JobStep, key: Name, m: Migration, goal: Goal)
    requires OnTheWay(s, key, m, goal) && JobPossible(s.space, s.job, st) && st.Succeeds()
    requires st.Decide? ==> st.migration == m
    ensures var s' := JobNext(s.space, s.job, st);
      if s'.job.Idle? then Reaches(s'.space, goal) && Settled(s'.space, m) && st == Finish else OnTheWay(s', key, m, goal)
  {
    var p, job := s.space, s.job;
    match st
    case Restore(n) => RestoreOnTheWay(p, job, n);
    case Boost(n) => BoostOnTheWay(p, job, n);
    case Finish => AtTheEnd(p.live, job.prev, job.next);
    case SyncAdditional => assert Synced(SetStatus(p, Synced(p.vmmrqs[0])).vmmrqs[0]) == Synced(p.vmmrqs[0]);
    case _ =>
  }

  /** A reconcile touches neither the tenant's wishes nor usage nor what was offered. */
  predicate Framed(p: Space, p': Space) {
    p'.tenant == p.tenant && p'.used == p.used && p'.offered == p.offered
  }

  lemma JobFrame(p: Space, job: Job, st: JobStep)
    requires JobPossible(p, job, st)
    ensures Framed(p, JobNext(p, job, st).space)
  {
    if st.Restore? || st.Boost? { VisitFrame(p, job, st); } else { CallFrame(p, job, st); }
  }

  lemma VisitFrame(p: Space, job: Job, st: JobStep)
    requires JobPossible(p, job, st) && (st.Restore? || st.Boost?)
    ensures Framed(p, JobNext(p, job, st).space)
  {
  }

  predicate FramedLoans(p: Space, p': Space) {
    Framed(p, p') && p'.lent == p.lent
  }

  lemma CallFrame(p: Space, job: Job, st: JobStep)
    requires JobPossible(p, job, st) && !st.Restore? && !st.Boost?
    ensures FramedLoans(p, JobNext(p, job, st).space)
  {
    hide FramedLoans;
    if st.ListVmmrqs? || st.FailUpdate? || st.Fail? { EarlyEndFrame(p, job, st); }
    else if st.Lock? || st.Finish? { LockingFrame(p, job, st); }
    else { PlanningFrame(p, job, st); }
  }

  lemma EarlyEndFrame(p: Space, job: Job, st: JobStep)
    requires JobPossible(p, job, st) && (st.ListVmmrqs? || st.FailUpdate? || st.Fail?)
    ensures FramedLoans(p, JobNext(p, job, st).space)
  {
  }

  lemma LockingFrame(p: Space, job: Job, st: JobStep)
    requires JobPossible(p, job, st) && (st.Lock? || st.Finish?)
    ensures FramedLoans(p, JobNext(p, job, st).space)
  {
  }

  lemma PlanningFrame(p: Space, job: Job, st: JobStep)
    requires JobPossible(p, job, st) && (st.SyncAdditional? || st.Decide? || st.LookUpLock? || st.Write?)
    ensures FramedLoans(p, JobNext(p, job, st).space)
  {
  }

  /** What is lent after a step was lent before it, or is lent by it. */
  predicate LentBy(p: Space, p': Space, lends: bool, add: ResourceList, n: Name) {
    n in p'.lent ==> if lends then p'.lent[n] == add else n in p.lent && p'.lent[n] == p.lent[n]
  }

  predicate Lends(p: Space, job: Job, st: JobStep, n: Name) {
    job.Acting? && st == Boost(n) && BoostSends(p, job.next, n)
  }

  lemma JobLends(p: Space, job: Job, st: JobStep, n: Name)
    requires JobPossible(p, job, st)
    ensures LentBy(p, JobNext(p, job, st).space, Lends(p, job, st, n), if job.Acting? then job.next.additional else map[], n)
  {
    match st
    case Restore(k) => RestoreLends(p, job, k, n);
    case Boost(k) => BoostLends(p, job, k, n);
    case _ => CallFrame(p, job, st);
  }

  lemma RestoreLends(p: Space, job: Job, k: Name, n: Name)
    requires JobPossible(p, job, Restore(k))
    ensures LentBy(p, JobNext(p, job, Restore(k)).space, false, map[], n)
  {
  }

  lemma BoostLends(p: Space, job: Job, k: Name, n: Name)
    requires JobPossible(p, job, Boost(k))
    ensures LentBy(p, JobNext(p, job, Boost(k)).space, Lends(p, job, Boost(k), n), job.next.additional, n)
  {
  }

  /** The worker keeps its key until the reconcile is over. */
  lemma JobKey(p: Space, job: Job, st: JobStep)
    requires JobPossible(p, job, st)
    ensures var s' := JobNext(p, job, st);
      if s'.job.Idle? then s'.space.taken == p.taken - {job.key} else s'.space.taken == p.taken && s'.job.key == job.key
  {
  }

  // ---------------------------------------------------------------- runs of one reconcile

  /** An uninterrupted, failure-free piece of a reconcile of a migration known to be `m`. */
  predicate Quiet(states: seq<State>, steps: seq<JobStep>, m: Migration) {
    && |states| == |steps| + 1
    && forall i | 0 <= i < |steps| ::
         && steps[i].Succeeds() && (steps[i].Decide? ==> steps[i].migration == m)
         && !states[i].job.Idle?
         && Moves(states[i], Do(steps[i]), states[i + 1])
  }

  /** `s'` is where a failure-free reconcile from `s` ends, for some order of its loops. */
  ghost predicate LeadsTo(s: State, m: Migration, s': State) {
    s'.job.Idle? && exists states, steps :: Quiet(states, steps, m) && states[0] == s && states[|steps|] == s'
  }

  lemma {:induction false} QuietOnTheWay(states: seq<State>, steps: seq<JobStep>, i: nat, key: Name, m: Migration, goal: Goal)
    requires Quiet(states, steps, m) && OnTheWay(states[0], key, m, goal) && i < |states|
    ensures if states[i].job.Idle? then Reaches(states[i].space, goal) && Settled(states[i].space, m)
            else OnTheWay(states[i], key, m, goal)
    ensures states[i].space.used == states[0].space.used && states[i].space.tenant == states[0].space.tenant
  {
    if i > 0 {
      QuietOnTheWay(states, steps, i - 1, key, m, goal);
      assert Moves(states[i - 1], Do(steps[i - 1]), states[i]);
      JobFrame(states[i - 1].space, states[i - 1].job, steps[i - 1]);
      StepOnTheWay(states[i - 1], steps[i - 1], key, m, goal);
    }
  }

  lemma {:induction false} QuietKeepsInv(states: seq<State>, steps: seq<JobStep>, m: Migration, i: nat)
    requires Quiet(states, steps, m) && Inv(states[0]) && i < |states|
    ensures Inv(states[i])
  {
    if i > 0 {
      QuietKeepsInv(states, steps, m, i - 1);
      StepKeepsInv(states[i - 1], Do(steps[i - 1]), states[i]);
    }
  }

  /** Confluence: every failure-free reconcile of a fresh namespace ends in the same place. */
  lemma ReconcileEnds(s: State, m: Migration, s': State)
    requires s.job.Listing? && |s.space.vmmrqs| == 1 && Settled(s.space, m) && LeadsTo(s, m, s')
    ensures Reaches(s'.space, Reconciled(s.space, s.job.key, m)) && Settled(s'.space, m)
    ensures s'.space.used == s.space.used && s'.space.tenant == s.space.tenant
    ensures Inv(s) ==> Inv(s')
  {
    var states, steps :| Quiet(states, steps, m) && states[0] == s && states[|steps|] == s';
    QuietOnTheWay(states, steps, |steps|, s.job.key, m, Reconciled(s.space, s.job.key, m));
    if Inv(s) { QuietKeepsInv(states, steps, m, |steps|); }
  }

  // ---------------------------------------------------------------- it does end

  /** How many API calls a failure-free reconcile has still to make at most. */
  function Rank(job: Job): (int, nat) {
    match job
    case Idle => (0, 0)
    case Listing(_) => (7, 0)
    case Syncing(_, _) => (6, 0)
    case Deciding(_, _) => (5, 0)
    case Acting(_, _, _, _, stage) =>
      match stage
      case Looking => (4, 0)
      case Locking(_) => (3, 0)
      case Restoring(_, todo) => (2, |todo|)
      case Boosting(_, todo) => (1, |todo|)
  }

  predicate Below(a: (int, nat), b: (int, nat)) {
    a.0 < b.0 || (a.0 == b.0 && a.1 < b.1)
  }

  /** A reconcile on its way is never stuck, and every success brings it closer to its end. */
  lemma NextCall(s: State, key: Name, m: Migration, goal: Goal) returns (st: JobStep)
    requires OnTheWay(s, key, m, goal)
    ensures st.Succeeds() && (st.Decide? ==> st.migration == m)
    ensures JobPossible(s.space, s.job, st)
    ensures Moves(s, Do(st), JobNext(s.space, s.job, st))
  {
    match s.job
    case Listing(_) => st := ListVmmrqs;
    case Syncing(_, _) => st := SyncAdditional;
    case Deciding(_, _) => st := Decide(m);
    case Acting(_, prev, next, _, stage) =>
      match stage
      case Looking => st := LookUpLock;
      case Locking(_) => st := Lock;
      case Restoring(_, todo) =>
        if todo == {} { st := Write; } else { var n :| n in todo; st := Restore(n); }
      case Boosting(_, todo) =>
        if todo == {} { st := Finish; } else { var n :| n in todo; st := Boost(n); }
  }

  lemma RankFalls(p: Space, job: Job, st: JobStep)
    requires JobPossible(p, job, st) && st.Succeeds()
    ensures Below(Rank(JobNext(p, job, st).job), Rank(job))
  {
    if st.Restore? || st.Boost? { VisitsFall(p, job, st); } else { CallsFall(p, job, st); }
  }

  lemma VisitsFall(p: Space, job: Job, st: JobStep)
    requires JobPossible(p, job, st) && (st.Restore? || st.Boost?)
    ensures Below(Rank(JobNext(p, job, st).job), Rank(job))
  {
    assert |job.stage.todo - {st.name}| < |job.stage.todo|;
  }

  lemma CallsFall(p: Space, job: Job, st: JobStep)
    requires JobPossible(p, job, st) && st.Succeeds() && !st.Restore? && !st.Boost?
    ensures Below(Rank(JobNext(p, job, st).job), Rank(job))
  {
  }

  lemma {:induction false} Complete(s: State, key: Name, m: Migration, goal: Goal) returns (states: seq<State>, steps: seq<JobStep>)
    requires OnTheWay(s, key, m, goal)
    ensures Quiet(states, steps, m) && states[0] == s && states[|steps|].job.Idle?
    decreases Rank(s.job).0, Rank(s.job).1
  {
    hide OnTheWay, Reaches;
    var st := NextCall(s, key, m, goal);
    var s' := JobNext(s.space, s.job, st);
    StepOnTheWay(s, st, key, m, goal);
    RankFalls(s.space, s.job, st);
    if s'.job.Idle? {
      states, steps := [s, s'], [st];
    } else {
      var states', steps' := Complete(s', key, m, goal);
      states, steps := [s] + states', [st] + steps';
      forall i | 0 <= i < |steps|
        ensures steps[i].Succeeds() && (steps[i].Decide? ==> steps[i].migration == m)
        ensures !states[i].job.Idle? && Moves(states[i], Do(steps[i]), states[i + 1])
      {
        if i > 0 { assert steps[i] == steps'[i - 1] && states[i] == states'[i - 1] && states[i + 1] == states'[i]; }
      }
    }
  }

  /** Termination: a failure-free reconcile of a fresh namespace can always be completed. */
  lemma ReconcileCompletes(s: State, m: Migration) returns (s': State)
    requires s.job.Listing? && |s.space.vmmrqs| == 1 && Settled(s.space, m)
    ensures LeadsTo(s, m, s')
  {
    var states, steps := Complete(s, s.job.key, m, Reconciled(s.space, s.job.key, m));
    s' := states[|steps|];
  }
}
