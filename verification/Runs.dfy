/** Safety over whole runs: any reconciles, each cut off at any API call, with crashes,
    tenants and pods in between. */
module Runs {
  import opened Resources
  import opened Admission
  import opened Protocol
  import opened Invariant
  import opened Reconciles

  predicate Execution(states: seq<State>, steps: seq<Step>) {
    |states| == |steps| + 1 && forall i | 0 <= i < |steps| :: Moves(states[i], steps[i], states[i + 1])
  }

  lemma {:induction false} InvAlways(states: seq<State>, steps: seq<Step>, i: nat)
    requires Execution(states, steps) && Inv(states[0]) && i < |states|
    ensures Inv(states[i])
  {
    if i > 0 {
      InvAlways(states, steps, i - 1);
      assert Moves(states[i - 1], steps[i - 1], states[i]);
      StepKeepsInv(states[i - 1], steps[i - 1], states[i]);
    }
  }

  lemma ExecutionGrows(states: seq<State>, moves: seq<Step>, st: Step, s': State)
    requires Execution(states, moves) && Moves(states[|moves|], st, s')
    ensures Execution(states + [s'], moves + [st])
  {
    forall i | 0 <= i < |moves| + 1
      ensures Moves((states + [s'])[i], (moves + [st])[i], (states + [s'])[i + 1])
    {
      if i < |moves| { assert Moves(states[i], moves[i], states[i + 1]); }
    }
  }

  // ---------------------------------------------------------------- the undo log

  /** From step `j` on until state `i` the quota has been its recorded original plus what the
      VMMRQ's status offered when step `j` raised it. */
  predicate RaisedSince(states: seq<State>, steps: seq<Step>, j: nat, i: nat, n: Name) {
    && j < i < |states| == |steps| + 1
    && steps[j] == Do(Boost(n)) && |states[j].space.vmmrqs| == 1
    && forall k | j < k <= i :: RaisedBy(states[k].space, n, states[j].space.vmmrqs[0].status.additional)
  }

  predicate RaisedBy(p: Space, n: Name, add: ResourceList) {
    n in p.live && n in Log(p) && p.live[n] == Plus(Log(p)[n], add)
  }

  /** Crash-safe undo log: an unrecorded quota is the tenant's; a recorded one has the tenant's
      value on record and is at that value, or at it plus, once, the addition that was in force
      when it was raised. */
  lemma CrashSafeUndoLog(states: seq<State>, steps: seq<Step>, i: nat, n: Name)
    requires Execution(states, steps) && Init(states[0]) && i < |states|
    requires n in states[i].space.live
    ensures var p := states[i].space;
      && n in p.tenant
      && (n !in Log(p) ==> p.live[n] == p.tenant[n])
      && (n in Log(p) ==>
            && Log(p)[n] == p.tenant[n]
            && (p.live[n] == Log(p)[n] || exists j :: RaisedSince(states, steps, j, i, n)))
  {
    InitHasInv(states[0]);
    InvAlways(states, steps, i);
    if n in states[i].space.lent {
      var j := RaisedOnce(states, steps, i, n);
      assert RaisedSince(states, steps, j, i, n);
    }
  }

  /** The step that raised a quota, the last of its kind, and the quota ever since. */
  lemma {:induction false} RaisedOnce(states: seq<State>, steps: seq<Step>, i: nat, n: Name) returns (j: nat)
    requires Execution(states, steps) && Init(states[0]) && i < |states|
    requires n in states[i].space.lent
    ensures RaisedSince(states, steps, j, i, n)
    ensures states[i].space.lent[n] == states[j].space.vmmrqs[0].status.additional
  {
    InitHasInv(states[0]);
    InvAlways(states, steps, i);
    InvAlways(states, steps, i - 1);
    var s, st, s' := states[i - 1], steps[i - 1], states[i];
    assert Moves(s, st, s');
    StepLends(s, st, s', n);
    LentIsRaised(s'.space, n);
    if st.Do? && Lends(s.space, s.job, st.step, n) {
      j := i - 1;
    } else {
      j := RaisedOnce(states, steps, i - 1, n);
    }
  }

  lemma LentIsRaised(p: Space, n: Name)
    requires Books(p) && Logged(p) && n in p.lent
    ensures RaisedBy(p, n, p.lent[n])
  {
  }

  /** A step lends only by raising, and lends what the VMMRQ's status offers. */
  lemma StepLends(s: State, st: Step, s': State, n: Name)
    requires Inv(s) && Moves(s, st, s') && n in s'.space.lent
    ensures if st.Do? && Lends(s.space, s.job, st.step, n) then
              st == Do(Boost(n)) && |s.space.vmmrqs| == 1 && s'.space.lent[n] == s.space.vmmrqs[0].status.additional
            else n in s.space.lent && s'.space.lent[n] == s.space.lent[n]
  {
    match st
    case Do(js) => JobLends(s.space, s.job, js, n);
    case Queue(q) => QueueFrame(s.space, s.job, q);
    case Other(user, act) => ActLends(s.space, user, act, n);
    case Refresh =>
    case Crash =>
  }

  lemma ActLends(p: Space, user: string, act: Act, n: Name)
    requires ActPossible(p, user, act)
    ensures LentBy(p, ActNext(p, user, act), false, map[], n)
  {
  }

  /** Lock coverage: originals on record, or any quota off its tenant's value, mean a webhook. */
  lemma LockCoverage(states: seq<State>, steps: seq<Step>, i: nat)
    requires Execution(states, steps) && Init(states[0]) && i < |states|
    ensures var p := states[i].space;
      Log(p) != map[] || p.live != p.tenant ==> p.webhook
  {
    InitHasInv(states[0]);
    InvAlways(states, steps, i);
    var p := states[i].space;
    if Log(p) == map[] {
      assert p.live == p.tenant by { assert forall n | n in p.live :: n !in p.lent; }
    }
  }

  /** A locked namespace has exactly one VMMRQ, so the reconcile that unlocks it can always begin. */
  lemma LockedHasItsVmmrq(states: seq<State>, steps: seq<Step>, i: nat)
    requires Execution(states, steps) && Init(states[0]) && i < |states|
    requires states[i].space.webhook
    ensures |states[i].space.vmmrqs| == 1
  {
    InitHasInv(states[0]);
    InvAlways(states, steps, i);
  }

  /** The webhook goes only when every quota is back and an empty record is persisted. */
  lemma UnlockedClean(states: seq<State>, steps: seq<Step>, i: nat)
    requires Execution(states, steps) && Init(states[0]) && i < |steps|
    requires states[i].space.webhook && !states[i + 1].space.webhook
    ensures var p := states[i].space;
      steps[i] == Do(Finish) && |p.vmmrqs| == 1 && p.vmmrqs[0].status.originals == map[] && p.live == p.tenant
  {
    InitHasInv(states[0]);
    InvAlways(states, steps, i);
    assert Moves(states[i], steps[i], states[i + 1]);
    UnlockStep(states[i], steps[i], states[i + 1]);
    NothingLent(states[i].space);
  }

  lemma UnlockStep(s: State, st: Step, s': State)
    requires JobOk(s) && Permits(s, st, s') && s.space.webhook && !s'.space.webhook
    ensures st == Do(Finish) && |s.space.vmmrqs| == 1 && Log(s.space) == map[]
  {
    match st
    case Do(js) => UnlockingJob(s.space, s.job, js);
    case Queue(q) => QueueFrame(s.space, s.job, q);
    case Other(user, act) => ActFrame(s.space, user, act);
    case Refresh =>
    case Crash =>
  }

  lemma UnlockingJob(p: Space, job: Job, st: JobStep)
    requires JobPossible(p, job, st) && JobOk(State(p, job)) && p.webhook && !JobNext(p, job, st).space.webhook
    ensures st.Finish? && |p.vmmrqs| == 1 && Log(p) == map[]
  {
  }

  lemma QueueFrame(p: Space, job: Job, st: QueueStep)
    requires QueuePossible(p, job, st)
    ensures var p' := QueueNext(p, job, st).space;
      p' == p.(pending := p'.pending, taken := p'.taken, started := p'.started)
  {
  }

  lemma ActFrame(p: Space, user: string, act: Act)
    requires ActPossible(p, user, act)
    ensures ActNext(p, user, act).webhook == p.webhook && p.offered <= ActNext(p, user, act).offered
  {
  }

  /** With an empty log every quota is the tenant's. */
  lemma NothingLent(p: Space)
    requires Books(p) && p.lent.Keys <= Log(p).Keys && Log(p) == map[]
    ensures p.live == p.tenant
  {
    assert forall n | n in p.live :: n !in p.lent;
  }

  /** The log cannot vanish: wherever a VMMRQ records originals it is the only one, and it is
      locked in; an original leaves the record only after its quota is back, and never changes. */
  lemma LogCannotVanish(states: seq<State>, steps: seq<Step>, i: nat, v: Vmmrq, n: Name)
    requires Execution(states, steps) && Init(states[0]) && i < |steps|
    requires v in states[i].space.vmmrqs && n in v.status.originals
    ensures var p, p' := states[i].space, states[i + 1].space;
      && p.vmmrqs == [v] && p.webhook && |p'.vmmrqs| == 1
      && (n in Log(p') ==> Log(p')[n] == v.status.originals[n])
      && (n !in Log(p') ==> steps[i] == Do(Write) && (n in p.live && n in p.tenant ==> p.live[n] == p.tenant[n]))
  {
    InitHasInv(states[0]);
    InvAlways(states, steps, i);
    assert Moves(states[i], steps[i], states[i + 1]);
    var p := states[i].space;
    assert |p.vmmrqs| == 1 && v == p.vmmrqs[0] && Log(p) == v.status.originals;
    LogAfterStep(states[i], steps[i], states[i + 1]);
  }

  /** One step of a reconcile on the log. */
  lemma LogAfterJob(p: Space, job: Job, st: JobStep)
    requires JobPossible(p, job, st) && Books(p) && Logged(p) && JobOk(State(p, job)) && |p.vmmrqs| == 1
    ensures LogAfter(p, JobNext(p, job, st).space, st.Write?)
  {
    if st.Write? { LogAfterWrite(p, job); } else { LogBetweenWrites(p, job, st); }
  }

  /** Only a write changes the log; it keeps what stays and drops only what is back. */
  predicate LogAfter(p: Space, p': Space, writes: bool) {
    && |p'.vmmrqs| == 1
    && (!writes ==> Log(p') == Log(p))
    && (writes ==> forall n | n in Log(p) ::
          if n in Log(p') then Log(p')[n] == Log(p)[n] else n in p.live && n in p.tenant ==> p.live[n] == p.tenant[n])
  }

  lemma LogAfterWrite(p: Space, job: Job)
    requires JobPossible(p, job, Write) && Books(p) && Logged(p) && JobOk(State(p, job))
    ensures LogAfter(p, JobNext(p, job, Write).space, true)
  {
    forall n | n in Log(p) && n !in job.next.originals && n in p.live ensures p.live[n] == p.tenant[n] {
      assert n in ToRestore(job.prev, job.next) && n !in p.lent;
    }
  }

  lemma LogBetweenWrites(p: Space, job: Job, st: JobStep)
    requires JobPossible(p, job, st) && !st.Write? && JobOk(State(p, job))
    ensures |JobNext(p, job, st).space.vmmrqs| == |p.vmmrqs| && Log(JobNext(p, job, st).space) == Log(p)
  {
    if st.Restore? || st.Boost? || st.FailUpdate? { QuotaStepLog(p, job, st); }
  }

  lemma QuotaStepLog(p: Space, job: Job, st: JobStep)
    requires JobPossible(p, job, st) && (st.Restore? || st.Boost? || st.FailUpdate?)
    ensures JobNext(p, job, st).space.vmmrqs == p.vmmrqs
  {
  }

  /** What others do to a locked namespace leaves the log alone. */
  lemma LogAfterAct(p: Space, user: string, act: Act)
    requires ActPossible(p, user, act) && |p.vmmrqs| == 1 && p.webhook
    ensures |ActNext(p, user, act).vmmrqs| == 1 && Log(ActNext(p, user, act)) == Log(p)
  {
    LockGuards(user, Unreadable, if act.CreateVmmrq? then Create else Delete, p.kubevirtNs, p.mtqNs);
  }

  lemma LogAfterStep(s: State, st: Step, s': State)
    requires Inv(s) && Moves(s, st, s') && Log(s.space) != map[]
    ensures LogAfter(s.space, s'.space, st == Do(Write))
  {
    match st
    case Do(js) => LogAfterJob(s.space, s.job, js);
    case Queue(q) => QueueFrame(s.space, s.job, q);
    case Other(user, act) => LogAfterAct(s.space, user, act);
    case Refresh =>
    case Crash =>
  }

  /** Record agreement: the recorded names are exactly the quotas that the recorded migrations
      name, and what is newly recorded is the value that its quota has then. */
  lemma RecordAgreement(states: seq<State>, steps: seq<Step>, i: nat, n: Name)
    requires Execution(states, steps) && Init(states[0]) && i < |steps|
    ensures var p, p' := states[i].space, states[i + 1].space;
      && Log(p').Keys == Flat(Entries(p')) && (forall m | m in Entries(p') :: Entries(p')[m] != {})
      && (n in Log(p') && n !in Log(p) && n in p.live ==> steps[i] == Do(Write) && Log(p')[n] == p.live[n])
  {
    InitHasInv(states[0]);
    InvAlways(states, steps, i);
    InvAlways(states, steps, i + 1);
    assert Moves(states[i], steps[i], states[i + 1]);
    RecordNames(states[i + 1].space);
    if n in Log(states[i + 1].space) && n !in Log(states[i].space) && n in states[i].space.live {
      NewlyRecorded(states[i], steps[i], states[i + 1], n);
    }
  }

  lemma NewlyRecorded(s: State, st: Step, s': State, n: Name)
    requires Inv(s) && Inv(s') && Moves(s, st, s') && n in Log(s'.space) && n !in Log(s.space) && n in s.space.live
    ensures st == Do(Write) && Log(s'.space)[n] == s.space.live[n]
  {
    if Log(s.space) != map[] {
      LogAfterStep(s, st, s');
    } else {
      match st
      case Do(js) => if !js.Write? { LogBetweenWrites(s.space, s.job, js); }
      case Queue(q) => QueueFrame(s.space, s.job, q);
      case Other(user, act) => StillNothing(s.space, user, act);
      case Refresh =>
      case Crash =>
    }
  }

  lemma StillNothing(p: Space, user: string, act: Act)
    requires ActPossible(p, user, act) && VmmrqsOk(p.vmmrqs, p.offered) && Log(p) == map[]
    ensures Log(ActNext(p, user, act)) == map[]
  {
    if |p.vmmrqs| == 1 { assert p.vmmrqs == [p.vmmrqs[0]]; }
    assert forall v | v in p.vmmrqs :: v.status.originals == map[];
    assert forall v | v in ActNext(p, user, act).vmmrqs :: v.status.originals == map[];
  }

  /** Lock cache agreement: the branch taken from the cache is the one a live read would take. */
  lemma LockCacheAgreement(states: seq<State>, steps: seq<Step>, i: nat)
    requires Execution(states, steps) && Init(states[0]) && i < |states|
    ensures LookedUp(states[i].space) == states[i].space.webhook
  {
    InitHasInv(states[0]);
    InvAlways(states, steps, i);
  }

  // ---------------------------------------------------------------- who gets the loan

  /** Exclusive lending: a pod that starts while some quota is off its tenant's value is a
      migration target of virt-controller; any other pod fits the tenant's own quotas. */
  lemma ExclusiveLending(states: seq<State>, steps: seq<Step>, i: nat, user: string, labels: Labels,
                         request: ResourceList, quotas: set<Name>)
    requires Execution(states, steps) && Init(states[0]) && i < |steps|
    requires steps[i] == Other(user, AdmitPod(labels, request, quotas))
    ensures var p := states[i].space;
      && (p.live != p.tenant ==> MigrationTarget(user, labels, p.kubevirtNs))
      && (!MigrationTarget(user, labels, p.kubevirtNs) ==>
            forall n | n in quotas && n in p.tenant :: n in p.used && Check(Applies, p.tenant[n], p.used[n], request) == Admitted)
  {
    InitHasInv(states[0]);
    InvAlways(states, steps, i);
    LockCoverage(states, steps, i);
    assert Moves(states[i], steps[i], states[i + 1]);
    LockGuards(user, labels, Create, states[i].space.kubevirtNs, states[i].space.mtqNs);
  }

  // ---------------------------------------------------------------- how much is used

  predicate Touches(st: Step, n: Name) {
    st.Other? && (st.act.WriteQuota? || st.act.DeleteQuota?) && st.act.name == n
  }

  lemma OneStepOffers(s: State, st: Step, s': State)
    requires Moves(s, st, s')
    ensures s.space.offered <= s'.space.offered
  {
    match st
    case Do(js) => JobFrame(s.space, s.job, js);
    case Queue(q) => QueueFrame(s.space, s.job, q);
    case Other(user, act) => ActFrame(s.space, user, act);
    case Refresh =>
    case Crash =>
  }

  lemma {:induction false} OfferedGrows(states: seq<State>, steps: seq<Step>, i: nat, j: nat)
    requires Execution(states, steps) && i <= j < |states|
    ensures states[i].space.offered <= states[j].space.offered
  {
    if i < j {
      OfferedGrows(states, steps, i, j - 1);
      assert Moves(states[j - 1], steps[j - 1], states[j]);
      OneStepOffers(states[j - 1], steps[j - 1], states[j]);
    }
  }

  /** One admitted pod on one resource of one quota. */
  lemma AdmittedFits(hard: ResourceList, used: ResourceList, request: ResourceList, r: string, cap: int)
    requires Check(Applies, hard, used, request) == Admitted
    requires r in hard && hard[r] <= cap && Amount(used, r) <= cap
    ensures Amount(AddUsage(used, hard, request), r) <= cap
  {
    if r in request { assert !Overruns(hard, used, request, r); }
  }

  lemma ActBound(p: Space, user: string, act: Act, n: Name, r: string, cap: int)
    requires ActPossible(p, user, act) && !Touches(Other(user, act), n)
    requires n in p.tenant && n in p.live && r in p.live[n] && p.live[n][r] <= cap
    requires n in p.used && Amount(p.used[n], r) <= cap
    ensures var p' := ActNext(p, user, act);
      n in p'.tenant && p'.tenant[n] == p.tenant[n] && n in p'.used && Amount(p'.used[n], r) <= cap
  {
    if act.AdmitPod? && n in act.quotas {
      AdmittedFits(p.live[n], p.used[n], act.request, r, cap);
    }
  }

  /** Any step that does not rewrite the quota keeps the tenant's value and the usage bound. */
  lemma UsageStepBound(s: State, st: Step, s': State, n: Name, r: string, cap: int)
    requires Permits(s, st, s') && !Touches(st, n)
    requires n in s.space.tenant && n in s.space.live && r in s.space.live[n] && s.space.live[n][r] <= cap
    requires n in s.space.used && Amount(s.space.used[n], r) <= cap
    ensures n in s'.space.tenant && s'.space.tenant[n] == s.space.tenant[n]
    ensures n in s'.space.used && Amount(s'.space.used[n], r) <= cap
  {
    match st
    case Do(js) => JobFrame(s.space, s.job, js);
    case Queue(q) => QueueFrame(s.space, s.job, q);
    case Other(user, act) => ActBound(s.space, user, act, n, r, cap);
    case Refresh =>
    case Crash =>
  }

  /** No quota is above the tenant's value by more than an offer. */
  lemma LiveBound(p: Space, n: Name, r: string, cap: int)
    requires Books(p) && map[] in p.offered
    requires n in p.tenant && r in p.tenant[n]
    requires forall add | add in p.offered :: p.tenant[n][r] + Amount(add, r) <= cap
    ensures n in p.live && r in p.live[n] && p.live[n][r] <= cap
  {
    assert p.tenant[n][r] + Amount(map[], r) <= cap;
  }

  /** Usage bound over whole runs: while nobody rewrites the quota, its usage stays within the
      tenant's hard plus the largest addition ever offered, through any number of loans. */
  lemma {:induction false} UsageBound(states: seq<State>, steps: seq<Step>, i: nat, n: Name, r: string, cap: int)
    requires Execution(states, steps) && Inv(states[0]) && i < |states|
    requires forall j | 0 <= j < |steps| :: !Touches(steps[j], n)
    requires n in states[0].space.tenant && r in states[0].space.tenant[n] && n in states[0].space.used
    requires forall add | add in states[|steps|].space.offered :: states[0].space.tenant[n][r] + Amount(add, r) <= cap
    requires Amount(states[0].space.used[n], r) <= cap
    ensures var p := states[i].space;
      n in p.tenant && p.tenant[n] == states[0].space.tenant[n] && n in p.used && Amount(p.used[n], r) <= cap
  {
    if i > 0 {
      UsageBound(states, steps, i - 1, n, r, cap);
      InvAlways(states, steps, i - 1);
      assert Moves(states[i - 1], steps[i - 1], states[i]);
      OfferedGrows(states, steps, i - 1, |steps|);
      LiveBound(states[i - 1].space, n, r, cap);
      UsageStepBound(states[i - 1], steps[i - 1], states[i], n, r, cap);
    }
  }

  /** Boosts never compound: with one addition in force the cap is tenant hard plus that addition. */
  lemma UsageBoundOneOffer(states: seq<State>, steps: seq<Step>, i: nat, n: Name, r: string, add: ResourceList)
    requires Execution(states, steps) && Init(states[0]) && i < |states|
    requires forall j | 0 <= j < |steps| :: !Touches(steps[j], n)
    requires n in states[0].space.tenant && r in states[0].space.tenant[n]
    requires states[|steps|].space.offered <= {map[], add} && NonNegative(add)
    requires n in states[0].space.used && Amount(states[0].space.used[n], r) <= states[0].space.tenant[n][r]
    ensures var p := states[i].space;
      n in p.used && Amount(p.used[n], r) <= states[0].space.tenant[n][r] + Amount(add, r)
  {
    InitHasInv(states[0]);
    UsageBound(states, steps, i, n, r, states[0].space.tenant[n][r] + Amount(add, r));
  }

  // ---------------------------------------------------------------- no migration is dropped

  /** After a start, every recorded migration is queued or in the hands of a worker. */
  lemma EveryEntryHasAKey(states: seq<State>, steps: seq<Step>, i: nat, m: Name)
    requires Execution(states, steps) && Init(states[0]) && i < |states|
    requires states[i].space.started && m in Entries(states[i].space)
    ensures m in states[i].space.pending || m in states[i].space.taken
  {
    InitHasInv(states[0]);
    InvAlways(states, steps, i);
  }

  /** A reconcile that ends with Forget leaves no entry; one that leaves an entry requeues. */
  lemma ForgetMeansDone(states: seq<State>, steps: seq<Step>, i: nat)
    requires Execution(states, steps) && Init(states[0]) && i < |steps|
    requires !states[i].job.Idle? && states[i + 1].job.Idle? && steps[i] != Crash
    ensures states[i].job.key in Entries(states[i + 1].space) ==> states[i].job.key in states[i + 1].space.pending
    ensures steps[i] == Do(Finish) && states[i].job.outcome == Forget ==> states[i].job.key !in Entries(states[i + 1].space)
  {
    InitHasInv(states[0]);
    InvAlways(states, steps, i);
    assert Moves(states[i], steps[i], states[i + 1]);
    if steps[i] == Do(Finish) {
      assert Entries(states[i + 1].space) == states[i].job.next.migrations;
    } else if steps[i] == Do(ListVmmrqs) {
      NothingLogged(states[i].space);
    }
  }

  /** A restart loses every key, and one enqueueAll brings back those of all recorded migrations. */
  lemma RestartRequeues(states: seq<State>, steps: seq<Step>, i: nat, rejected: set<Name>)
    requires Execution(states, steps) && Init(states[0]) && i < |steps|
    requires steps[i] == Queue(EnqueueAll(rejected))
    ensures Entries(states[i + 1].space).Keys + rejected <= states[i + 1].space.pending
  {
    InitHasInv(states[0]);
    InvAlways(states, steps, i);
    assert Moves(states[i], steps[i], states[i + 1]);
    AllRecordedKeys(states[i].space, rejected);
  }
}
