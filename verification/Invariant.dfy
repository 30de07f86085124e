/** The inductive invariant of the protocol: the VMMRQ status is a crash-safe undo log. */
module Invariant {
  import opened Resources
  import opened Admission
  import opened LockStates
  import opened Protocol

  // ---------------------------------------------------------------- the invariant

  /** Every quota is what its tenant asked for, plus what it has been lent, once. */
  predicate Books(p: Space) {
    p.used.Keys == p.live.Keys && Balanced(p.live, p.tenant, p.lent, p.offered)
  }

  predicate Balanced(live: map<Name, ResourceList>, tenant: map<Name, ResourceList>,
                     lent: map<Name, ResourceList>, offered: set<ResourceList>) {
    && live.Keys == tenant.Keys
    && (forall n | n in live :: live[n] == if n in lent then Plus(tenant[n], lent[n]) else tenant[n])
    && (forall n | n in lent :: n in live && lent[n] in offered)
  }

  /** A status whose originals are exactly the quotas that its migrations name. */
  predicate Agrees(status: Status) {
    && status.originals.Keys == Flat(status.migrations)
    && forall m | m in status.migrations :: status.migrations[m] != {}
  }

  /** The originals are the tenant's values. */
  predicate Truthful(originals: map<Name, ResourceList>, p: Space) {
    forall n | n in originals && n in p.tenant :: originals[n] == p.tenant[n]
  }

  /** What is lent is recorded; what is recorded is true, kept in one VMMRQ and locked in;
      a locked namespace always has its one VMMRQ. */
  predicate Logged(p: Space) {
    && p.lent.Keys <= Log(p).Keys
    && Truthful(Log(p), p)
    && (Log(p) != map[] ==> p.webhook)
    && (p.webhook ==> |p.vmmrqs| == 1)
    && VmmrqsOk(p.vmmrqs, p.offered)
  }

  predicate VmmrqsOk(vmmrqs: seq<Vmmrq>, offered: set<ResourceList>) {
    && (forall v | v in vmmrqs :: Agrees(v.status) && v.status.additional in offered && v.spec in offered)
    && (|vmmrqs| != 1 ==> forall v | v in vmmrqs :: v.status.originals == map[])
    && map[] in offered
  }

  /** Every recorded migration is queued or in the hands of a worker. */
  predicate KeysPending(s: State) {
    s.space.started ==>
      forall m | m in Entries(s.space) :: m in s.space.pending || m in s.space.taken
  }

  /** The plan against the log it was made from. */
  predicate PlanOk(p: Space, prev: Status, next: Status) {
    && next.additional == prev.additional
    && Agrees(next)
    && Truthful(next.originals, p)
    && (forall n | n in prev.originals && n in next.originals :: next.originals[n] == prev.originals[n])
  }

  predicate ActingOk(p: Space, job: Job)
    requires job.Acting?
  {
    var prev, next := job.prev, job.next;
    && Alone(p)
    && PlanOk(p, prev, next)
    && (job.outcome == Forget ==> job.key !in next.migrations)
    && (forall m | m in next.migrations :: m in prev.migrations || m == job.key)
    && (!job.stage.Boosting? ==> p.vmmrqs[0].status == prev && Fresh(p, prev.originals.Keys + next.originals.Keys))
    && match job.stage
       case Looking => true
       case Locking(held) => held == p.webhook
       case Restoring(held, todo) =>
         p.webhook == (held || ShouldLock(next)) && todo <= ToRestore(prev, next) &&
         (forall n | n in p.lent && n in ToRestore(prev, next) :: n in todo)
       case Boosting(held, todo) =>
         p.webhook == (held || ShouldLock(next)) && todo <= next.originals.Keys &&
         p.vmmrqs[0].status == next && Fresh(p, next.originals.Keys)
  }

  predicate JobOk(s: State) {
    var p, job := s.space, s.job;
    match job
    case Idle => true
    case Listing(_) => true
    case Syncing(_, v) => Alone(p) && v.status == p.vmmrqs[0].status && v.spec in p.offered
    case Deciding(_, prev) => Alone(p) && prev == p.vmmrqs[0].status
    case Acting(_, _, _, _, _) => ActingOk(p, job)
  }

  predicate Inv(s: State) {
    && (!s.job.Idle? ==> s.job.key in s.space.taken)
    && Books(s.space)
    && Logged(s.space)
    && s.space.lockState.Agrees(s.space.webhook)
    && KeysPending(s)
    && JobOk(s)
  }

  /** A namespace the controller has not touched yet. */
  predicate Init(s: State) {
    var p := s.space;
    && p.live == p.tenant && p.used.Keys == p.live.Keys && p.lent == map[]
    && (forall v | v in p.vmmrqs :: v.status == EMPTY_STATUS && v.spec in p.offered)
    && map[] in p.offered
    && !p.webhook && p.lockState == Unknown && !p.started
    && s.job.Idle?
  }

  lemma InitHasInv(s: State)
    requires Init(s)
    ensures Inv(s)
  {
    assert Flat(EMPTY_STATUS.migrations) == {};
  }

  // ---------------------------------------------------------------- the steps keep it

  /** A fresh plan is true: old originals were, new ones are snapshots of fresh quotas. */
  lemma ReplanIsOk(p: Space, prev: Status, key: Name, m: Migration)
    requires Books(p) && Logged(p)
    requires |p.vmmrqs| == 1 && prev == p.vmmrqs[0].status
    requires m.Blocked? ==> p.cache.Keys <= m.seen.Keys
    requires Fresh(p, prev.originals.Keys + Replan(prev, key, m, p.cache).originals.Keys)
    ensures PlanOk(p, prev, Replan(prev, key, m, p.cache))
  {
    assert p.vmmrqs[0] in p.vmmrqs;
    ReplanAgrees(p, prev, key, m);
  }

  lemma ReplanAgrees(p: Space, prev: Status, key: Name, m: Migration)
    requires Agrees(prev) && (m.Blocked? ==> p.cache.Keys <= m.seen.Keys)
    ensures Agrees(Replan(prev, key, m, p.cache))
  {
    var names := Names(prev, m, p.cache);
    var next := Replan(prev, key, m, p.cache);
    forall n | n in Flat(next.migrations) ensures n in next.originals {
      var k :| k in next.migrations && n in next.migrations[k];
      if names != {} && k == key {
        assert n in names;
      } else {
        assert n in Flat(prev.migrations);
      }
    }
  }

  // -- the log: SetStatus, Lock, Restore and Boost, each against Books and Logged

  lemma SetStatusKeeps(p: Space, status: Status)
    requires Alone(p) && VmmrqsOk(p.vmmrqs, p.offered)
    requires Agrees(status) && status.additional in p.offered
    ensures VmmrqsOk(SetStatus(p, status).vmmrqs, p.offered)
    ensures Log(SetStatus(p, status)) == status.originals
  {
    OnlyStatus(p, status);
    assert p.vmmrqs[0] in p.vmmrqs;
  }

  lemma RestoredBooks(p: Space, prev: Status, n: Name)
    requires Books(p)
    requires n in prev.originals && Truthful(prev.originals, p)
    requires n in p.live ==> n in p.cache && p.cache[n] == p.live[n]
    requires RestoreSends(p, prev, n) ==> n in p.live
    ensures Books(Restored(p, prev, n))
  {
    if n in p.live {
      BalancedUpdate(p.live, p.tenant, p.lent, p.offered, n);
      assert p.live[n := p.live[n]] == p.live;
    }
  }

  lemma BalancedUpdate(live: map<Name, ResourceList>, tenant: map<Name, ResourceList>,
                       lent: map<Name, ResourceList>, offered: set<ResourceList>, n: Name)
    requires Balanced(live, tenant, lent, offered) && n in live
    ensures Balanced(live[n := tenant[n]], tenant, lent - {n}, offered)
    ensures forall add | add in offered :: Balanced(live[n := Plus(tenant[n], add)], tenant, lent[n := add], offered)
  {
  }

  lemma BoostedBooks(p: Space, next: Status, n: Name)
    requires Books(p)
    requires n in next.originals && Truthful(next.originals, p) && next.additional in p.offered
    requires BoostSends(p, next, n) ==> n in p.live
    ensures Books(Boosted(p, next, n))
  {
    if BoostSends(p, next, n) {
      BalancedUpdate(p.live, p.tenant, p.lent, p.offered, n);
    }
  }

  /** Same log, nothing newly lent off the log. */
  lemma LoggedFrame(p: Space, p': Space)
    requires Logged(p)
    requires p'.vmmrqs == p.vmmrqs && p'.offered == p.offered && p'.webhook == p.webhook && p'.tenant == p.tenant
    requires p'.lent.Keys <= p.lent.Keys + Log(p).Keys
    ensures Logged(p') && Log(p') == Log(p) && Entries(p') == Entries(p)
  {
  }

  /** The order of `execute`: lock, then log, then boost; restore, then forget, then unlock. */
  lemma JobStepKeeps(s: State, st: JobStep)
    requires Inv(s) && JobPossible(s.space, s.job, st)
    requires st.Decide? ==> DecidesFresh(s.space, s.job, st.migration)
    ensures Inv(JobNext(s.space, s.job, st))
  {
    hide Inv;
    match st
    case ListVmmrqs => ListKeeps(s);
    case SyncAdditional => SyncKeeps(s);
    case Decide(m) => DecideKeeps(s, m);
    case LookUpLock => LookUpKeeps(s);
    case Lock => LockKeeps(s);
    case Restore(n) => RestoreKeeps(s, n);
    case Write => WriteKeeps(s);
    case Boost(n) => BoostKeeps(s, n);
    case Finish => FinishKeeps(s);
    case FailUpdate(n) => AbortKeeps(s, CacheChanged(s.space, s.job, n).cache);
    case Fail => AbortKeeps(s, s.space.cache);
  }

  lemma ListKeeps(s: State)
    requires Inv(s) && JobPossible(s.space, s.job, ListVmmrqs)
    ensures Inv(JobNext(s.space, s.job, ListVmmrqs))
  {
    var p := s.space;
    if |p.vmmrqs| == 1 { assert p.vmmrqs[0] in p.vmmrqs; }
  }

  lemma DecideKeeps(s: State, m: Migration)
    requires Inv(s) && JobPossible(s.space, s.job, Decide(m)) && DecidesFresh(s.space, s.job, m)
    ensures Inv(JobNext(s.space, s.job, Decide(m)))
  {
    ReplanIsOk(s.space, s.job.prev, s.job.key, m);
  }

  /** A reconcile that fails leaves its key queued and the server as it is. */
  lemma AbortKeeps(s: State, cache: map<Name, ResourceList>)
    requires Inv(s) && !s.job.Idle?
    ensures Inv(Abort(s.space.(cache := cache), s.job.key))
  {
    var p' := Abort(s.space.(cache := cache), s.job.key).space;
    assert Log(p') == Log(s.space) && Entries(p') == Entries(s.space);
  }

  lemma LookUpKeeps(s: State)
    requires Inv(s) && JobPossible(s.space, s.job, LookUpLock)
    ensures Inv(JobNext(s.space, s.job, LookUpLock))
  {
  }

  lemma SyncKeeps(s: State)
    requires Inv(s) && JobPossible(s.space, s.job, SyncAdditional)
    ensures Inv(JobNext(s.space, s.job, SyncAdditional))
  {
    var p, v := s.space, s.job.vmmrq;
    assert p.vmmrqs[0] in p.vmmrqs;
    SetStatusKeeps(p, v.status.(additional := v.spec));
  }

  lemma LockKeeps(s: State)
    requires Inv(s) && JobPossible(s.space, s.job, Lock)
    ensures Inv(JobNext(s.space, s.job, Lock))
  {
    var p, job := s.space, s.job;
    assert Log(Locks(p, job.next, job.stage.held)) == Log(p);
  }

  lemma RestoreKeeps(s: State, n: Name)
    requires Inv(s) && JobPossible(s.space, s.job, Restore(n))
    ensures Inv(JobNext(s.space, s.job, Restore(n)))
  {
    var p, job := s.space, s.job;
    RestoredBooks(p, job.prev, n);
    LoggedFrame(p, Restored(p, job.prev, n));
    RestoredJob(p, job, n);
  }

  lemma RestoredJob(p: Space, job: Job, n: Name)
    requires JobPossible(p, job, Restore(n)) && job.Acting? && ActingOk(p, job)
    ensures ActingOk(Restored(p, job.prev, n), job.(stage := Restoring(job.stage.held, job.stage.todo - {n})))
  {
  }

  lemma WriteKeeps(s: State)
    requires Inv(s) && JobPossible(s.space, s.job, Write)
    ensures Inv(JobNext(s.space, s.job, Write))
  {
    var p, job := s.space, s.job;
    var p' := SetStatus(p, job.next);
    assert Books(p');
    WrittenLog(p, job);
    assert JobOk(JobNext(p, job, Write));
  }

  /** The write forgets only what has been restored. */
  lemma WrittenLog(p: Space, job: Job)
    requires Logged(p) && job.Acting? && ActingOk(p, job) && JobPossible(p, job, Write)
    ensures Logged(SetStatus(p, job.next))
  {
    assert p.vmmrqs[0] in p.vmmrqs;
    SetStatusKeeps(p, job.next);
    forall n | n in p.lent ensures n in job.next.originals {
      assert n in Log(p).Keys;
      assert n !in ToRestore(job.prev, job.next);
    }
  }

  lemma BoostKeeps(s: State, n: Name)
    requires Inv(s) && JobPossible(s.space, s.job, Boost(n))
    ensures Inv(JobNext(s.space, s.job, Boost(n)))
  {
    var p, job := s.space, s.job;
    var p' := Boosted(p, job.next, n);
    assert p.vmmrqs[0] in p.vmmrqs;
    assert Log(p) == job.next.originals;
    BoostedBooks(p, job.next, n);
    LoggedFrame(p, p');
    BoostedJob(p, job, n);
  }

  lemma BoostedJob(p: Space, job: Job, n: Name)
    requires JobPossible(p, job, Boost(n)) && job.Acting? && ActingOk(p, job)
    ensures ActingOk(Boosted(p, job.next, n), job.(stage := Boosting(job.stage.held, job.stage.todo - {n})))
  {
  }

  lemma FinishKeeps(s: State)
    requires Inv(s) && JobPossible(s.space, s.job, Finish)
    ensures Inv(JobNext(s.space, s.job, Finish))
  {
    var p, job := s.space, s.job;
    var p' := JobNext(p, job, Finish).space;
    assert Log(p') == Log(p) && Entries(p') == Entries(p);
  }

  // -- the queue

  /** `enqueueAll` names every recorded migration: an entry implies an original. */
  lemma AllRecordedKeys(p: Space, rejected: set<Name>)
    requires VmmrqsOk(p.vmmrqs, p.offered)
    ensures Entries(p).Keys <= AllKeys(p.vmmrqs, rejected)
  {
    forall m | m in Entries(p) ensures m in AllKeys(p.vmmrqs, rejected) {
      var v := p.vmmrqs[0];
      assert v in p.vmmrqs && Agrees(v.status);
      var n :| n in v.status.migrations[m];
      assert n in Flat(v.status.migrations);
    }
  }

  lemma QueueStepKeeps(s: State, st: QueueStep)
    requires Inv(s) && QueuePossible(s.space, s.job, st)
    requires QueueAssumed(s.space, st)
    ensures Inv(QueueNext(s.space, s.job, st))
  {
    var p' := QueueNext(s.space, s.job, st).space;
    assert Log(p') == Log(s.space) && Entries(p') == Entries(s.space);
    if st.EnqueueAll? { AllRecordedKeys(s.space, st.rejected); }
  }

  // -- everybody else

  lemma FlatHas(migrations: map<Name, set<Name>>, m: Name, n: Name)
    requires m in migrations && n in migrations[m]
    ensures n in Flat(migrations)
  {
  }

  /** Without originals there are no recorded migrations. */
  lemma EmptyOriginals(status: Status)
    requires Agrees(status) && status.originals == map[]
    ensures status.migrations == map[]
  {
    if m :| m in status.migrations {
      var n :| n in status.migrations[m];
      FlatHas(status.migrations, m, n);
      assert false;
    }
  }

  /** What is recorded is what the entries name. */
  lemma RecordNames(p: Space)
    requires VmmrqsOk(p.vmmrqs, p.offered)
    ensures Log(p).Keys == Flat(Entries(p)) && forall m | m in Entries(p) :: Entries(p)[m] != {}
  {
    if |p.vmmrqs| == 1 { assert p.vmmrqs[0] in p.vmmrqs; }
  }

  lemma WriteQuotaKeeps(s: State, user: string, act: Act)
    requires Inv(s) && ActPossible(s.space, user, act) && act.WriteQuota? && ActAssumed(s.space, s.job, act)
    ensures Inv(State(ActNext(s.space, user, act), s.job))
  {
    var p := s.space;
    var p' := ActNext(p, user, act);
    assert act.name !in p.lent;
    assert Log(p') == Log(p) && Entries(p') == Entries(p);
    assert Books(p') && Logged(p');
  }

  lemma DeleteQuotaKeeps(s: State, user: string, act: Act)
    requires Inv(s) && ActPossible(s.space, user, act) && act.DeleteQuota?
    ensures Inv(State(ActNext(s.space, user, act), s.job))
  {
    var p := s.space;
    var p' := ActNext(p, user, act);
    assert Log(p') == Log(p) && Entries(p') == Entries(p);
    assert Books(p') && Logged(p');
  }

  lemma UsageKeeps(s: State, user: string, act: Act)
    requires Inv(s) && ActPossible(s.space, user, act) && (act.AdmitPod? || act.UsageDrops?)
    ensures Inv(State(ActNext(s.space, user, act), s.job))
  {
    var p := s.space;
    var p' := ActNext(p, user, act);
    assert p' == p.(used := p'.used) && p'.used.Keys == p.used.Keys;
    assert Log(p') == Log(p) && Entries(p') == Entries(p);
  }

  /** VMMRQs come and go only without a lock, and then nothing is recorded. */
  lemma VmmrqsChange(p: Space, user: string, act: Act)
    requires Books(p) && Logged(p) && ActPossible(p, user, act) && (act.CreateVmmrq? || act.DeleteVmmrq?)
    ensures var p' := ActNext(p, user, act);
      && !p.webhook && Log(p) == map[] && Entries(p) == map[]
      && Books(p') && Logged(p') && Log(p') == map[] && Entries(p') == map[]
  {
    var p' := ActNext(p, user, act);
    LockGuards(user, Unreadable, if act.CreateVmmrq? then Create else Delete, p.kubevirtNs, p.mtqNs);
    NothingLogged(p);
    assert Flat(EMPTY_STATUS.migrations) == {};
    assert forall v | v in p'.vmmrqs :: v in p.vmmrqs || (act.CreateVmmrq? && v == Vmmrq(act.spec, EMPTY_STATUS));
    assert VmmrqsOk(p'.vmmrqs, p'.offered);
    NothingLogged(p');
  }

  lemma VmmrqsKeep(s: State, user: string, act: Act)
    requires Inv(s) && ActPossible(s.space, user, act) && ActAssumed(s.space, s.job, act)
    requires act.CreateVmmrq? || act.DeleteVmmrq?
    ensures Inv(State(ActNext(s.space, user, act), s.job))
  {
    VmmrqsChange(s.space, user, act);
  }

  /** In an unlocked namespace no VMMRQ records anything. */
  lemma NothingLogged(p: Space)
    requires VmmrqsOk(p.vmmrqs, p.offered)
    requires Log(p) == map[] || forall v | v in p.vmmrqs :: v.status.originals == map[]
    ensures forall v | v in p.vmmrqs :: v.status.originals == map[]
    ensures Log(p) == map[] && Entries(p) == map[]
  {
    if |p.vmmrqs| == 1 {
      assert p.vmmrqs[0] in p.vmmrqs;
      EmptyOriginals(p.vmmrqs[0].status);
    }
  }

  lemma SpecKeeps(s: State, user: string, act: Act)
    requires Inv(s) && ActPossible(s.space, user, act) && act.SetVmmrqSpec?
    ensures Inv(State(ActNext(s.space, user, act), s.job))
  {
    var p := s.space;
    var p' := ActNext(p, user, act);
    forall v | v in p'.vmmrqs
      ensures Agrees(v.status) && v.status.additional in p'.offered && v.spec in p'.offered
      ensures |p.vmmrqs| != 1 ==> v.status.originals == map[]
    {
      var i :| 0 <= i < |p'.vmmrqs| && p'.vmmrqs[i] == v;
      assert p.vmmrqs[i] in p.vmmrqs;
    }
    assert Log(p') == Log(p) && Entries(p') == Entries(p);
  }

  lemma MemoryKeeps(s: State)
    requires Inv(s)
    ensures Inv(State(s.space.(cache := s.space.live), s.job))
    ensures Inv(State(Crashed(s.space), Idle))
  {
    var p := s.space;
    assert Log(p.(cache := p.live)) == Log(p) && Entries(p.(cache := p.live)) == Entries(p);
    assert Log(Crashed(p)) == Log(p) && Entries(Crashed(p)) == Entries(p);
  }

  lemma ActKeeps(s: State, user: string, act: Act)
    requires Inv(s) && ActPossible(s.space, user, act) && ActAssumed(s.space, s.job, act)
    ensures Inv(State(ActNext(s.space, user, act), s.job))
  {
    hide Inv;
    match act
    case WriteQuota(_, _, _) => WriteQuotaKeeps(s, user, act);
    case DeleteQuota(_) => DeleteQuotaKeeps(s, user, act);
    case AdmitPod(_, _, _) => UsageKeeps(s, user, act);
    case UsageDrops(_, _) => UsageKeeps(s, user, act);
    case CreateVmmrq(_) => VmmrqsKeep(s, user, act);
    case DeleteVmmrq(_) => VmmrqsKeep(s, user, act);
    case SetVmmrqSpec(_, _) => SpecKeeps(s, user, act);
  }

  /** The heart of the model: every step keeps the invariant. */
  lemma StepKeepsInv(s: State, st: Step, s': State)
    requires Inv(s) && Moves(s, st, s')
    ensures Inv(s')
  {
    hide Inv;
    match st
    case Do(js) => JobStepKeeps(s, js);
    case Queue(q) => QueueStepKeeps(s, q);
    case Other(user, act) => ActKeeps(s, user, act);
    case Refresh => MemoryKeeps(s);
    case Crash => MemoryKeeps(s);
  }
}
