/** `execute` as it runs: quotas, hard maps, the VMMRQ and the lock cache are updated in place. */
module Controller {
  import opened Resources
  import opened LockStates
  import opened Protocol
  import opened Passes
  import opened Quantities
  import opened Records
  import opened ApiServers
  import opened Visits
  import opened Orders
  import opened Traces
  import opened Reconciles
  import opened Invariant
  import opened Mutexes

  // ---------------------------------------------------------------- the controller

  /** What the migration informer, the VMI informer and the other sources answer. */
  datatype Reply<T> = Got(value: T) | NoReply

  datatype MigrationObject = MigrationObject(pending: bool, rejected: bool)

  datatype Informers = Informers(
    migration: Reply<MigrationObject>,   // NoReply: there is no such migration
    vmiExists: Reply<bool>,
    targetPods: Reply<nat>,              // listMatchingTargetPods
    atMaximum: Reply<bool>,              // reachedMaxParallelMigration
    request: Reply<ResourceList>)        // the target pod, rendered and defaulted from the limit ranges

  /** `isBlockedMigration`. */
  function IsBlockedMigration(migration: MigrationObject, targetPods: Reply<nat>): Reply<bool> {
    if !migration.pending then Got(false)
    else if targetPods.NoReply? then NoReply
    else Got(targetPods.value == 0 && migration.rejected)
  }

  /** What these answers come to: an early end, or one of the protocol's three cases. */
  datatype Reading = Broken(outcome: Outcome) | Clear(migration: Migration)

  ghost function Read(inf: Informers, seen: map<Name, Seen>): Reading {
    if inf.migration.NoReply? then Clear(NotBlocked)
    else if inf.vmiExists != Got(true) then Broken(BackOff)
    else
      var blocked := IsBlockedMigration(inf.migration.value, inf.targetPods);
      if blocked.NoReply? then Broken(BackOff)
      else if inf.atMaximum.NoReply? then Broken(Immediate)
      else if !blocked.value then Clear(NotBlocked)
      else if inf.atMaximum.value then Clear(AtMaximum)
      else if inf.request.NoReply? then Broken(Immediate)
      else Clear(Blocked(inf.request.value, seen))
  }

  /** VMMRQ status in the controller's memory. */
  datatype Memory = Memory(additional: ResourceList, migrations: map<Name, seq<Name>>, originals: seq<NameAndSpec>)

  ghost function StatusIn(m: Memory): Status
    requires UniqueNames(m.originals)
    reads MapsIn(m.originals)`m
  {
    Status(m.additional, Sets(m.migrations), Originals(m.originals))
  }

  /** A part of the reconcile ends it with an outcome or hands over to the next part. */
  datatype Progress = Goes | Ends(outcome: Outcome)

  /** Where an ended reconcile leaves the state. */
  function EndOf(s: State, outcome: Outcome): State
    requires !s.job.Idle?
  {
    State(s.space.(pending := Requeue(s.space.pending, s.job.key, outcome), taken := s.space.taken - {s.job.key}), Idle)
  }

  lemma EndsByFailing(s: State, outcome: Outcome, mode: Mode)
    requires !s.job.Idle? && outcome != Forget
    ensures RunsTo(s, EndOf(s, outcome), Dirty(mode))
  {
    CallFails(s, Dirty(mode));
  }

  /** `migrations` is what the protocol's decision makes of the recorded ones. */
  ghost predicate NewMigrations(migrations: map<Name, seq<Name>>, migration: Migration, key: Name, prev: Status, cache: Hards) {
    && (migration.Blocked? ==> cache.Keys <= migration.seen.Keys)
    && Sets(migrations) == NextMigrations(prev, key, Names(prev, migration, cache))
  }

  lemma NoLongerListed(migration: Migration, key: Name, migrations: map<Name, seq<Name>>, prev: Status, cache: Hards)
    requires prev.migrations == Sets(migrations)
    requires migration.Blocked? ==> cache.Keys <= migration.seen.Keys && Names(prev, migration, cache) == {}
    ensures NewMigrations(migrations - {key}, migration, key, prev, cache)
  {
    assert Sets(migrations - {key}) == Sets(migrations) - {key};
  }

  lemma NewlyListed(migration: Migration, key: Name, migrations: map<Name, seq<Name>>, names: seq<Name>, prev: Status, cache: Hards)
    requires prev.migrations == Sets(migrations) && names != []
    requires migration.Blocked? && cache.Keys <= migration.seen.Keys
    requires forall n :: n in names <==> n in BlockingNames(cache, prev.originals, migration, prev.additional)
    ensures NewMigrations(migrations[key := names], migration, key, prev, cache)
  {
    var listed := set n | n in names;
    assert listed == Names(prev, migration, cache) && names[0] in listed;
    assert Sets(migrations[key := names]) == Sets(migrations)[key := listed];
  }

  lemma ListedAsDecided(migration: Migration, key: Name, migrations: map<Name, seq<Name>>, names: seq<Name>, prev: Status, cache: Hards)
    requires prev.migrations == Sets(migrations)
    requires migration.Blocked? && cache.Keys <= migration.seen.Keys
    requires forall n :: n in names <==> n in BlockingNames(cache, prev.originals, migration, prev.additional)
    ensures NewMigrations(if names == [] then migrations - {key} else migrations[key := names], migration, key, prev, cache)
  {
    if names == [] {
      assert BlockingNames(cache, prev.originals, migration, prev.additional) == {};
      NoLongerListed(migration, key, migrations, prev, cache);
    } else {
      NewlyListed(migration, key, migrations, names, prev, cache);
    }
  }

  /** The decision sees every cached quota as the store has it. */
  lemma StoreViewed(store: seq<ResourceQuota>, request: ResourceList)
    requires StoreOk(store)
    ensures var b := Blocked(request, SeenOf(store));
      && NoDups(Ids(store)) && CacheOf(store).Keys <= b.seen.Keys
      && (forall i | 0 <= i < |store| :: Viewed(store[i], CacheOf(store), b))
      && (forall n :: n in CacheOf(store) <==> n in Ids(store))
  {
    forall i | 0 <= i < |store| ensures Viewed(store[i], CacheOf(store), Blocked(request, SeenOf(store))) {
      assert store[i] in store;
    }
    forall n | n in CacheOf(store) ensures n in Ids(store) {
      var i :| 0 <= i < |store| && store[i].name == n;
      assert Ids(store)[i] == n;
    }
  }

  lemma SharedWithItsOwn(store: seq<ResourceQuota>, j: nat, n: Name)
    requires StoreOk(store) && j < |store|
    ensures n in Shared(store) && Shared(store)[n] == store[j].hard ==> store[j].name == n
  {
  }

  /** The status in memory is the one on the server. */
  ghost predicate Recorded(m: Memory, vmmrq: RawVmmrq)
    reads MapsIn(m.originals)`m
  {
    Unique(vmmrq.status.originals) && UniqueNames(m.originals) && StatusIn(m) == StatusOf(vmmrq.status)
  }

  /** A reconcile that was in `s` is over in `s'`. */
  predicate Finished(s: State, s': State, outcome: Outcome) {
    !s.job.Idle? && s'.job.Idle? && s'.space.pending == Requeue(s.space.pending, s.job.key, outcome) &&
    s'.space.taken == s.space.taken - {s.job.key}
  }

  /** The reconcile goes on in another stage. */
  predicate Continues(s: State, s': State, stage: Stage) {
    s.job.Acting? && s'.job == s.job.(stage := stage) && s'.space.pending == s.space.pending && s'.space.taken == s.space.taken &&
    s'.space.listed == s.space.listed
  }

  /** How the list and the first update end the reconcile: a refused list backs off, a refused update is
      tried again at once, and without exactly one VMMRQ the key is forgotten. */
  ghost predicate ListedAs(progress: Progress, count: nat, before: seq<Call>, after: seq<Call>) {
    match progress
    case Goes => after == before && count == 1
    case Ends(Forget) => after == before && count != 1
    case Ends(BackOff) => after == before + [ListCall]
    case Ends(Immediate) => Refuses(before, after, true)
    case Ends(AddAfterFiveSeconds) => false
  }

  /** How the rest ends it: as the informers' answers say, unless a call is refused. */
  ghost predicate ActedAs(err: bool, outcome: Outcome, r: Reading, before: seq<Call>, after: seq<Call>) {
    if after == before then
      if r.Broken? then err && outcome == r.outcome else !err && outcome == OutcomeOf(r.migration)
    else
      Refuses(before, after, true) && err && outcome == Immediate
  }

  /** How `execute` answers: there is an error exactly if a call is refused, the namespace has not exactly
      one VMMRQ, or an informer's answer is missing. */
  ghost predicate AnswersAs(err: bool, outcome: Outcome, count: nat, r: Reading, before: seq<Call>, after: seq<Call>) {
    if after == before then
      if count != 1 then err && outcome == Forget
      else if r.Broken? then err && outcome == r.outcome
      else !err && outcome == OutcomeOf(r.migration)
    else if after == before + [ListCall] then err && outcome == BackOff
    else Refuses(before, after, true) && err && outcome == Immediate
  }

  /** What is sent says this status. */
  ghost predicate Sends(raw: RawStatus, status: Status) {
    Unique(raw.originals) && StatusOf(raw) == status
  }

  function SyncedVmmrq(listed: RawVmmrq): RawVmmrq {
    listed.(status := listed.status.(additional := listed.spec))
  }

  /** The reconcile goes on to decide, from this recorded status. */
  predicate Handed(s: State, s': State, status: Status) {
    !s.job.Idle? && s'.job == Deciding(s.job.key, status) && s'.space.pending == s.space.pending && s'.space.taken == s.space.taken &&
    s'.space.listed == At(0)
  }

  lemma ListsAndSyncs(s: State, raws: seq<RawVmmrq>, listed: Progress, progress: Progress, vmmrq: RawVmmrq, mode: Mode) returns (s': State)
    requires s.job.Listing? && AllUnique(raws) && s.space.vmmrqs == VmmrqsOf(raws)
    requires listed.Goes? ==> |raws| == 1 && vmmrq == SyncedVmmrq(raws[0]) && (progress.Goes? || progress == Ends(Immediate))
    requires listed.Ends? ==> progress == listed && (listed.outcome == Forget ==> |raws| != 1)
    ensures RunsTo(s, s', After(mode, progress.Goes?))
    ensures var raws' := if progress.Goes? then [vmmrq] else raws;
      AllUnique(raws') && s'.space.vmmrqs == VmmrqsOf(raws') && SameButVmmrqs(s.space, s'.space)
    ensures if progress.Goes? then Handed(s, s', StatusOf(vmmrq.status)) else Finished(s, s', progress.outcome)
  {
    if listed.Goes? {
      Lists(s, mode);
      var s1 := State(s.space.(listed := At(0)), Syncing(s.job.key, s.space.vmmrqs[0]));
      s' := SyncsOrFails(s1, raws[0], progress.Goes?, mode);
      assert raws == [raws[0]];
      ThenAfter(s, s1, s', mode, progress.Goes?);
    } else {
      if listed.outcome == Forget { Lists(s, Dirty(mode)); } else { EndsByFailing(s, listed.outcome, mode); }
      s' := EndOf(s, listed.outcome);
    }
  }

  predicate SameButVmmrqs(p: Space, p': Space) {
    p'.live == p.live && p'.cache == p.cache && p'.webhook == p.webhook && p'.lockState == p.lockState
  }

  lemma SyncsOrFails(s: State, listed: RawVmmrq, ok: bool, mode: Mode) returns (s': State)
    requires s.job.Syncing? && Unique(listed.status.originals) && s.space.vmmrqs == VmmrqsOf([listed]) == [s.job.vmmrq]
    requires s.space.listed == At(0)
    ensures RunsTo(s, s', After(mode, ok)) && SameButVmmrqs(s.space, s'.space)
    ensures s'.space.vmmrqs == VmmrqsOf([if ok then SyncedVmmrq(listed) else listed])
    ensures if ok then Handed(s, s', StatusOf(SyncedVmmrq(listed).status)) else Finished(s, s', Immediate)
  {
    if ok {
      Syncs(s, mode);
      var status := StatusOf(SyncedVmmrq(listed).status);
      s' := State(SetStatus(s.space, status), Deciding(s.job.key, status));
    } else {
      EndsByFailing(s, Immediate, mode);
      s' := EndOf(s, Immediate);
    }
  }

  /** What planning promises: an early end as read, or the protocol's decision. */
  ghost predicate PlannedAs(r: Reading, key: Name, prev: Status, cache: Hards, progress: Progress,
                           migrations: map<Name, seq<Name>>, finalState: Outcome, next: Status) {
    if r.Broken? then
      progress == Ends(r.outcome)
    else
      && progress.Goes? && finalState == OutcomeOf(r.migration) && NewMigrations(migrations, r.migration, key, prev, cache)
      && next == prev.(migrations := Sets(migrations), originals := NextOriginals(prev, Sets(migrations), cache))
  }

  lemma DecidesOrFails(s: State, r: Reading, progress: Progress, migrations: map<Name, seq<Name>>, finalState: Outcome, next: Status, mode: Mode)
      returns (s': State)
    requires s.job.Deciding? && (mode.sound ==> s.space.cache == s.space.live) && r != Broken(Forget)
    requires mode.clean && r.Clear? ==> r.migration == mode.migration
    requires PlannedAs(r, s.job.key, s.job.prev, s.space.cache, progress, migrations, finalState, next)
    ensures RunsTo(s, s', After(mode, progress.Goes?)) && QuotasChanged(s.space, s'.space, s.space.live, s.space.cache)
    ensures if progress.Goes? then s' == State(s.space, Acting(s.job.key, s.job.prev, next, finalState, Looking))
            else Finished(s, s', progress.outcome)
  {
    if r.Clear? {
      Decides(s, r.migration, mode);
      s' := State(s.space, Acting(s.job.key, s.job.prev, next, finalState, Looking));
    } else {
      EndsByFailing(s, r.outcome, mode);
      s' := EndOf(s, r.outcome);
    }
  }

  function Remembered(state: LockState, webhook: bool): bool {
    match state
    case Locked => true
    case Unlocked => false
    case Unknown => webhook
  }

  predicate LockChanged(p: Space, p': Space, webhook: bool, lockState: LockState) {
    p'.webhook == webhook && p'.lockState == lockState && p'.live == p.live && p'.cache == p.cache && p'.vmmrqs == p.vmmrqs
  }

  lemma LocksOrFails(s: State, ok: bool, mode: Mode) returns (s': State)
    requires s.job.Acting? && s.job.stage.Looking?
    requires ok && ShouldLock(s.job.next) && !LookedUp(s.space) ==> !s.space.webhook
    ensures var held := Remembered(s.space.lockState, s.space.webhook); var takes := ok && ShouldLock(s.job.next) && !held;
      LockChanged(s.space, s'.space, s.space.webhook || takes, if takes then Locked else s.space.lockState) &&
      (if ok then Continues(s, s', Restoring(held, ToRestore(s.job.prev, s.job.next))) else Finished(s, s', Immediate))
    ensures RunsTo(s, s', After(mode, ok))
  {
    if ok {
      var held := LookedUp(s.space);
      TakesLock(s, mode);
      s' := State(Locks(s.space, s.job.next, held), s.job.(stage := Restoring(held, ToRestore(s.job.prev, s.job.next))));
    } else {
      EndsByFailing(s, Immediate, mode);
      s' := EndOf(s, Immediate);
    }
  }

  /** Where the restore loop leaves the state. */
  lemma RestoreEnds(s: State, run: Pass, ok: bool, done: set<Name>, failed: Name, live: Hards, cache: Hards, mode: Mode) returns (s': State)
    requires s.job.Acting? && s.job.stage.Restoring? && s.job.stage.todo == ToRestore(s.job.prev, s.job.next)
    requires run.live == s.space.live && run.cache == s.space.cache
    requires run.originals == Visited(s.job.prev.originals, s.job.stage.todo)
    requires RestoringEnds(run, ok, done, failed, live, cache)
    ensures RunsTo(s, s', After(mode, ok)) && QuotasChanged(s.space, s'.space, live, cache)
    ensures if ok then Continues(s, s', Restoring(s.job.stage.held, {})) else Finished(s, s', Immediate)
  {
    s' := RestoreEnd(s, ok, done, live, cache);
    RestoreLoop(s, run, ok, done, failed, live, cache, After(mode, ok));
  }

  /** Where the boost loop leaves the state. */
  lemma BoostEnds(s: State, run: Pass, ok: bool, done: set<Name>, failed: Name, live: Hards, cache: Hards, mode: Mode) returns (s': State)
    requires s.job.Acting? && s.job.stage.Boosting? && s.job.stage.todo == s.job.next.originals.Keys
    requires run.live == s.space.live && run.cache == s.space.cache && run.originals == s.job.next.originals
    requires RaisingEnds(run, s.job.next.additional, ok, done, failed, live, cache)
    ensures RunsTo(s, s', After(mode, ok)) && QuotasChanged(s.space, s'.space, live, cache)
    ensures if ok then Continues(s, s', Boosting(s.job.stage.held, {})) else Finished(s, s', Immediate)
  {
    s' := BoostEnd(s, ok, done, live, cache);
    BoostLoop(s, run, ok, done, failed, live, cache, After(mode, ok));
  }

  predicate QuotasChanged(p: Space, p': Space, live: Hards, cache: Hards) {
    p'.live == live && p'.cache == cache && p'.vmmrqs == p.vmmrqs && p'.webhook == p.webhook && p'.lockState == p.lockState
  }

  predicate StatusChanged(p: Space, p': Space, vmmrqs: seq<Vmmrq>) {
    p'.vmmrqs == vmmrqs && p'.live == p.live && p'.cache == p.cache && p'.webhook == p.webhook && p'.lockState == p.lockState
  }

  lemma WritesOrFails(s: State, ok: bool, mode: Mode) returns (s': State)
    requires s.job.Acting? && s.job.stage.Restoring? && s.job.stage.todo == {}
    requires Alone(s.space) && s.space.vmmrqs[0].status == s.job.prev
    ensures RunsTo(s, s', After(mode, ok))
    ensures StatusChanged(s.space, s'.space, [Vmmrq(s.space.vmmrqs[0].spec, if ok then s.job.next else s.job.prev)])
    ensures if ok then Continues(s, s', Boosting(s.job.stage.held, s.job.next.originals.Keys)) else Finished(s, s', Immediate)
  {
    if ok {
      Writes(s, mode);
      s' := State(SetStatus(s.space, s.job.next), s.job.(stage := Boosting(s.job.stage.held, s.job.next.originals.Keys)));
    } else {
      EndsByFailing(s, Immediate, mode);
      s' := EndOf(s, Immediate);
    }
  }

  lemma UnlocksOrFails(s: State, ok: bool, mode: Mode) returns (s': State)
    requires s.job.Acting? && s.job.stage.Boosting? && s.job.stage.todo == {}
    requires ok && !ShouldLock(s.job.next) && s.job.stage.held ==> s.space.webhook
    ensures var lifts := ok && !ShouldLock(s.job.next) && s.job.stage.held;
      LockChanged(s.space, s'.space, s.space.webhook && !lifts, if lifts then Unlocked else s.space.lockState)
    ensures RunsTo(s, s', After(mode, ok)) && Finished(s, s', if ok then s.job.outcome else Immediate)
  {
    if ok {
      Finishes(s, mode);
      s' := EndOf(State(Unlocks(s.space, s.job.next, s.job.stage.held), s.job), s.job.outcome);
    } else {
      EndsByFailing(s, Immediate, mode);
      s' := EndOf(s, Immediate);
    }
  }

  /** One key's way through `Execute`: a run of the reconcile, or nothing if the migration cannot be read. */
  ghost predicate ExecutedAs(s: State, key: Name, readable: bool, err: bool, outcome: Outcome, s': State, mode: Mode) {
    && s'.job.Idle? && s'.space.taken == s.space.taken
    && s'.space.pending == (if outcome == Forget then s.space.pending - {key} else s.space.pending)
    && (readable ==> RunsTo(Started(s, key), s', After(mode, !err)))
    && (!readable ==> err && outcome == Forget && s'.space == s.space.(pending := s'.space.pending))
    && (|s.space.vmmrqs| != 1 ==> QuotasChanged(s.space, s'.space, s.space.live, s.space.cache))
    && (!err && mode.sound && mode.clean && Settled(s.space, mode.migration) ==>
         |s.space.vmmrqs| == 1 && Reaches(s'.space, Reconciled(s.space, key, mode.migration)))
  }

  lemma ReadAndReconciled(s: State, key: Name, err: bool, outcome: Outcome, s': State, mode: Mode)
    requires RunsTo(Started(s, key), s', After(mode, !err)) && Finished(Started(s, key), s', outcome)
    requires !err ==> |s.space.vmmrqs| == 1
    requires |s.space.vmmrqs| != 1 ==> QuotasChanged(s.space, s'.space, s.space.live, s.space.cache)
    requires s.job.Idle? && key in s.space.pending && key !in s.space.taken
    ensures ExecutedAs(s, key, true, err, outcome, s', mode)
  {
    assert s.space.taken + {key} - {key} == s.space.taken && s.space.pending - {key} + {key} == s.space.pending;
    if !err && mode.sound && mode.clean && Settled(s.space, mode.migration) {
      CleanRunLeads(Started(s, key), s', mode);
      ReconcileEnds(Started(s, key), mode.migration, s');
      assert Reconciled(Started(s, key).space, key, mode.migration) == Reconciled(s.space, key, mode.migration);
    }
  }

  /** Executing a key soundly keeps the protocol's invariant, whatever fails. */
  lemma ExecuteKeepsInv(s: State, key: Name, err: bool, outcome: Outcome, s': State, mode: Mode)
    requires Inv(s) && s.job.Idle? && key in s.space.pending && key !in s.space.taken && mode.sound
    requires ExecutedAs(s, key, true, err, outcome, s', mode)
    ensures Inv(s')
  {
    StartsByTheQueue(s, key);
    StepKeepsInv(s, Queue(Pop(key)), Popped(s, key));
    StepKeepsInv(Popped(s, key), Queue(Take(key)), Started(s, key));
    RunKeepsInv(Started(s, key), s', After(mode, !err));
  }

  /** The persisted original is the value from before the raise, although the entry in memory
      shares the map that is raised in place. This holds whatever fails, also when the update of the
      raised quota fails after the status has been written. */
  lemma PersistedOriginalIsPreBoost(s: State, key: Name, err: bool, outcome: Outcome, s': State, mode: Mode, n: Name)
    requires Inv(s) && s.job.Idle? && key in s.space.pending && key !in s.space.taken && mode.sound
    requires ExecutedAs(s, key, true, err, outcome, s', mode)
    requires n in Log(s'.space) && n !in Log(s.space) && n in s.space.live
    ensures Log(s'.space)[n] == s.space.live[n]
  {
    ExecuteKeepsInv(s, key, err, outcome, s', mode);
    RunFrame(Started(s, key), s', After(mode, !err));
    PersistedIsTenants(s.space, s'.space, n);
  }

  lemma PersistedIsTenants(p: Space, p': Space, n: Name)
    requires Books(p) && Logged(p) && Logged(p') && p'.tenant == p.tenant
    requires n in Log(p') && n !in Log(p) && n in p.live
    ensures Log(p')[n] == p.live[n]
  {
    assert n !in p.lent && n in p.tenant;
  }

  /** And without an error a newly recorded quota ends up raised from its record. */
  lemma NewlyRecordedIsRaised(s: State, key: Name, outcome: Outcome, s': State, mode: Mode, n: Name)
    requires ExecutedAs(s, key, true, false, outcome, s', mode) && mode.sound && mode.clean && Settled(s.space, mode.migration)
    requires n in Log(s'.space) && n !in Log(s.space)
    ensures n in s.space.live && Log(s'.space)[n] == s.space.live[n]
    ensures n in s'.space.live && s'.space.live[n] == Plus(s.space.live[n], s.space.vmmrqs[0].spec)
  {
  }

  class VmmrqController {
    const ns: string
    const api: ApiServer
    const nsCache: NamespaceCache
    const nsLockMap: NamespaceLockMap
    const store: seq<ResourceQuota>      // the quota informer
    var pending: set<Name>               // the work queue
    var taken: set<Name>

    constructor (ns: string, api: ApiServer, nsCache: NamespaceCache, nsLockMap: NamespaceLockMap, store: seq<ResourceQuota>)
      ensures this.ns == ns && this.api == api && this.nsCache == nsCache && this.nsLockMap == nsLockMap && this.store == store
      ensures pending == {} && taken == {}
    {
      this.ns, this.api, this.nsCache, this.nsLockMap, this.store := ns, api, nsCache, nsLockMap, store;
      pending, taken := {}, {};
    }

    // -------------------------------------------------------------- the protocol state of the moment

    ghost predicate QuotasAre(live: Hards, cache: Hards)
      reads api`live, store`hard, MapsOf(store)`m
    {
      StoreOk(store) && live == api.live && cache == CacheOf(store)
    }

    ghost predicate LockIs(webhook: bool, lockState: LockState)
      reads api`webhook, nsCache`cache
    {
      nsCache.Valid() && webhook == api.webhook && lockState == nsCache.State(ns)
    }

    ghost predicate VmmrqsAre(vmmrqs: seq<Vmmrq>)
      reads api`vmmrqs
    {
      AllUnique(api.vmmrqs) && vmmrqs == VmmrqsOf(api.vmmrqs)
    }

    ghost predicate Mirrors(s: State)
      reads api, nsCache`cache, store`hard, MapsOf(store)`m
    {
      QuotasAre(s.space.live, s.space.cache) && LockIs(s.space.webhook, s.space.lockState) && VmmrqsAre(s.space.vmmrqs)
    }

    lemma MirrorsAlike(s: State, s': State)
      requires Mirrors(s)
      requires QuotasChanged(s.space, s'.space, s.space.live, s.space.cache)
      ensures Mirrors(s')
    {
    }

    /** What a clean run decides about is what the informers say. */
    ghost predicate Means(inf: Informers, mode: Mode)
      requires forall i, j | 0 <= i < j < |store| :: store[i].name != store[j].name
    {
      var r := Read(inf, SeenOf(store));
      mode.clean && r.Clear? ==> r.migration == mode.migration
    }

    // -------------------------------------------------------------- execute, part by part

    /** Copies the additional resources from the VMMRQ's spec to its status. */
    method SyncStatus(listed: RawVmmrq) returns (ok: bool, vmmrq: RawVmmrq)
      requires api.vmmrqs == [listed]
      modifies api`refused, api`vmmrqs
      ensures vmmrq == SyncedVmmrq(listed)
      ensures api.vmmrqs == [if ok then vmmrq else listed]
      ensures api.refused == old(api.refused) + if ok then [] else [StatusCall(vmmrq.status)]
      ensures listed.spec == listed.status.additional ==> ok   // no call is made
    {
      ok, vmmrq := true, listed;
      var equal := AreResourceMapsEqual(vmmrq.spec, vmmrq.status.additional);
      if !equal {
        vmmrq := vmmrq.(status := vmmrq.status.(additional := vmmrq.spec));
        ok := api.UpdateStatus(vmmrq.status);
      }
    }

    /** Lists the VMMRQs, an end unless there is exactly one, and synchronizes its status. */
    method ListAndSync() returns (progress: Progress, vmmrq: RawVmmrq, ghost listed: Progress)
      requires AllUnique(api.vmmrqs)
      modifies api`refused, api`vmmrqs
      ensures listed == Ends(BackOff) || listed == (if |old(api.vmmrqs)| == 1 then Goes else Ends(Forget))
      ensures listed.Ends? ==> progress == listed && api.vmmrqs == old(api.vmmrqs)
      ensures listed.Goes? ==> (progress.Goes? || progress == Ends(Immediate))
      ensures api.refused == old(api.refused) +
        if listed == Ends(BackOff) then [ListCall] else if progress == Ends(Immediate) then [StatusCall(vmmrq.status)] else []
      ensures listed.Goes? ==> vmmrq == SyncedVmmrq(old(api.vmmrqs)[0]) && api.vmmrqs == [if progress.Goes? then vmmrq else old(api.vmmrqs)[0]]
      ensures listed.Goes? && old(api.vmmrqs)[0].spec == old(api.vmmrqs)[0].status.additional ==> progress.Goes?
    {
      var ok, vmmrqs := api.ListVmmrqs();
      vmmrq := RawVmmrq(map[], RawStatus(map[], map[], []));
      if !ok { return Ends(BackOff), vmmrq, Ends(BackOff); }
      if |vmmrqs| != 1 { return Ends(Forget), vmmrq, Ends(Forget); }
      ok, vmmrq := SyncStatus(vmmrqs[0]);
      progress, listed := if ok then Goes else Ends(Immediate), Goes;
    }

    method ListPart(ghost s: State, ghost mode: Mode) returns (progress: Progress, vmmrq: RawVmmrq, ghost s': State)
      requires Mirrors(s) && s.job.Listing?
      modifies api`refused, api`vmmrqs
      ensures Mirrors(s') && RunsTo(s, s', After(mode, progress.Goes?)) && s'.space.live == s.space.live && s'.space.cache == s.space.cache
      ensures progress.Goes? ==> |s.space.vmmrqs| == 1
      ensures ListedAs(progress, |s.space.vmmrqs|, old(api.refused), api.refused)
      ensures progress.Ends? ==> QuotasChanged(s.space, s'.space, s.space.live, s.space.cache)
      ensures if progress.Goes? then api.vmmrqs == [vmmrq] && Unique(vmmrq.status.originals) && Handed(s, s', StatusOf(vmmrq.status))
              else Finished(s, s', progress.outcome)
    {
      hide Trace;
      ghost var listed, raws := Goes, api.vmmrqs;
      progress, vmmrq, listed := ListAndSync();
      s' := ListsAndSyncs(s, raws, listed, progress, vmmrq, mode);
      assert QuotasAre(s'.space.live, s'.space.cache);
      assert LockIs(s'.space.webhook, s'.space.lockState);
      assert VmmrqsAre(s'.space.vmmrqs);
    }

    method ListBlocking(key: Name, request: ResourceList, m: Memory, ghost seen: map<Name, Seen>, ghost prev: Status, ghost cache: Hards)
        returns (migrations: map<Name, seq<Name>>)
      requires StoreOk(store) && UniqueNames(m.originals)
      requires seen == SeenOf(store) && prev == StatusIn(m) && cache == CacheOf(store)
      ensures NewMigrations(migrations, Blocked(request, seen), key, prev, cache) && (Tidy(m.migrations) ==> Tidy(migrations))
    {
      StoreViewed(store, request);
      var currBlockingRQList := GetCurrBlockingRQInNS(store, m.originals, request, m.additional,
                                                      Blocked(request, seen), cache, prev.originals);
      ListedAsDecided(Blocked(request, seen), key, m.migrations, currBlockingRQList, prev, cache);
      if |currBlockingRQList| == 0 {
        migrations := m.migrations - {key};
      } else {
        migrations := m.migrations[key := currBlockingRQList];
      }
    }

    /** The new list for this migration, and how the reconcile is going to end. */
    method DecideMigration(key: Name, inf: Informers, m: Memory, ghost seen: map<Name, Seen>, ghost prev: Status, ghost cache: Hards)
        returns (progress: Progress, migrations: map<Name, seq<Name>>, finalState: Outcome)
      requires StoreOk(store) && UniqueNames(m.originals)
      requires seen == SeenOf(store) && prev == StatusIn(m) && cache == CacheOf(store)
      ensures var r := Read(inf, seen);
        if r.Broken? then progress == Ends(r.outcome)
        else (Tidy(m.migrations) ==> Tidy(migrations)) && progress.Goes? && finalState == OutcomeOf(r.migration) && NewMigrations(migrations, r.migration, key, prev, cache)
    {
      migrations, finalState := m.migrations - {key}, Forget;
      var isBlockedMigration, reachedMaxParallelMigrations := false, false;
      if inf.migration.Got? {
        if inf.vmiExists != Got(true) { return Ends(BackOff), migrations, finalState; }
        var blocked := IsBlockedMigration(inf.migration.value, inf.targetPods);
        if blocked.NoReply? { return Ends(BackOff), migrations, finalState; }
        isBlockedMigration := blocked.value;
        if inf.atMaximum.NoReply? { return Ends(Immediate), migrations, finalState; }
        reachedMaxParallelMigrations := inf.atMaximum.value;
      }
      if !isBlockedMigration {
        NoLongerListed(NotBlocked, key, m.migrations, prev, cache);
      } else if reachedMaxParallelMigrations {
        finalState := AddAfterFiveSeconds;
        NoLongerListed(AtMaximum, key, m.migrations, prev, cache);
      } else {
        finalState := Immediate;
        if inf.request.NoReply? { return Ends(Immediate), migrations, finalState; }
        migrations := ListBlocking(key, inf.request.value, m, seen, prev, cache);
      }
      progress := Goes;
    }

    /** Who may share hard maps: an original with the cached quota of its name, a deep copy with nobody. */
    ghost predicate Discipline(curr: seq<NameAndSpec>, prev: seq<NameAndSpec>)
      reads store`hard
    {
      && (forall k, j | 0 <= k < |curr| && 0 <= j < |store| :: store[j].hard == curr[k].hard ==> store[j].name == curr[k].name)
      && (forall k, j | 0 <= k < |prev| && 0 <= j < |store| :: store[j].hard != prev[k].hard)
      && (forall k, l | 0 <= k < |prev| && 0 <= l < |curr| :: prev[k].hard != curr[l].hard)
    }

    method PlanOriginals(migrations: map<Name, seq<Name>>, m: Memory, prevVmmrq: Memory, ghost prev: Status, ghost cache: Hards)
        returns (curr: Memory, ghost next: Status)
      requires StoreOk(store) && UniqueNames(m.originals) && prev == StatusIn(m) && cache == CacheOf(store)
      requires forall k, j | 0 <= k < |prevVmmrq.originals| && 0 <= j < |store| :: store[j].hard != prevVmmrq.originals[k].hard
      ensures UniqueNames(curr.originals) && StatusIn(curr) == next
      ensures next == prev.(migrations := Sets(migrations), originals := NextOriginals(prev, Sets(migrations), cache))
      ensures Discipline(curr.originals, prevVmmrq.originals)
    {
      var all := GetAllBlockingRQsInNS(migrations, m.originals, store, prev, cache);
      curr := Memory(m.additional, migrations, all);
      forall k, j | 0 <= k < |all| && 0 <= j < |store| && store[j].hard == all[k].hard ensures store[j].name == all[k].name {
        SharedWithItsOwn(store, j, all[k].name);
      }
      next := StatusIn(curr);
    }

    /** The decision and the originals that follow from it; nothing outside memory changes. */
    method Plan(inf: Informers, key: Name, m: Memory, prevVmmrq: Memory, ghost seen: map<Name, Seen>, ghost prev: Status, ghost cache: Hards)
        returns (progress: Progress, curr: Memory, finalState: Outcome, ghost migrations: map<Name, seq<Name>>, ghost next: Status)
      requires StoreOk(store) && UniqueNames(m.originals)
      requires seen == SeenOf(store) && prev == StatusIn(m) && cache == CacheOf(store)
      requires forall k, j | 0 <= k < |prevVmmrq.originals| && 0 <= j < |store| :: store[j].hard != prevVmmrq.originals[k].hard
      ensures PlannedAs(Read(inf, seen), key, prev, cache, progress, migrations, finalState, next)
      ensures progress.Goes? ==> UniqueNames(curr.originals) && StatusIn(curr) == next && curr.additional == m.additional
      ensures progress.Goes? ==> Discipline(curr.originals, prevVmmrq.originals)
    {
      var migrationsToBlocking;
      progress, migrationsToBlocking, finalState := DecideMigration(key, inf, m, seen, prev, cache);
      curr, next, migrations := m, prev, migrationsToBlocking;
      if progress.Goes? {
        curr, next := PlanOriginals(migrationsToBlocking, m, prevVmmrq, prev, cache);
      }
    }

    method PlanPart(inf: Informers, key: Name, m: Memory, prevVmmrq: Memory, ghost s: State, ghost mode: Mode)
        returns (progress: Progress, curr: Memory, finalState: Outcome, ghost s': State)
      requires Mirrors(s) && s.job.Deciding? && s.job.key == key && (mode.sound ==> s.space.cache == s.space.live)
      requires UniqueNames(m.originals) && s.job.prev == StatusIn(m)
      requires forall k, j | 0 <= k < |prevVmmrq.originals| && 0 <= j < |store| :: store[j].hard != prevVmmrq.originals[k].hard
      requires Means(inf, mode)
      ensures Mirrors(s') && RunsTo(s, s', After(mode, progress.Goes?))
      ensures progress.Goes? ==> UniqueNames(curr.originals) && Discipline(curr.originals, prevVmmrq.originals) && curr.additional == m.additional
      ensures if progress.Goes? then s' == State(s.space, Acting(s.job.key, s.job.prev, StatusIn(curr), finalState, Looking))
              else Finished(s, s', progress.outcome)
      ensures var r := Read(inf, SeenOf(store)); if r.Broken? then progress == Ends(r.outcome) else progress.Goes? && finalState == OutcomeOf(r.migration)
    {
      hide Trace;
      ghost var migrations, next;
      progress, curr, finalState, migrations, next := Plan(inf, key, m, prevVmmrq, SeenOf(store), s.job.prev, s.space.cache);
      s' := DecidesOrFails(s, Read(inf, SeenOf(store)), progress, migrations, finalState, next, mode);
      assert QuotasAre(s'.space.live, s'.space.cache);
      assert LockIs(s'.space.webhook, s'.space.lockState);
      assert VmmrqsAre(s'.space.vmmrqs);
    }

    /** The remembered lock state; only when there is none, a live read. */
    method LookUpLockState() returns (ok: bool, nsLocked: bool)
      requires nsCache.Valid()
      modifies api`refused
      ensures ok ==> nsLocked == Remembered(nsCache.State(ns), api.webhook)
      ensures api.refused == old(api.refused) + if ok then [] else [LookCall]
      ensures nsCache.State(ns) != Unknown ==> ok
    {
      var state := nsCache.GetLockState(ns);
      ok := true;
      match state {
        case Locked => nsLocked := true;
        case Unlocked => nsLocked := false;
        case Unknown => ok, nsLocked := api.GetWebhook();
      }
    }

    /** Creates the webhook unless it is there or not needed, and remembers that. */
    method TakeLock(shouldLock: bool, nsLocked: bool) returns (ok: bool)
      requires nsCache.Valid()
      modifies api`refused, api`webhook, nsCache`cache
      ensures nsCache.Valid()
      ensures var takes := ok && shouldLock && !nsLocked;
        && api.webhook == (old(api.webhook) || takes) && (takes ==> !old(api.webhook))
        && nsCache.State(ns) == if takes then Locked else old(nsCache.State(ns))
      ensures !(shouldLock && !nsLocked) ==> ok
      ensures api.refused == old(api.refused) + if ok then [] else [LockCall]
    {
      ok := true;
      if shouldLock && !nsLocked {
        ok := api.CreateWebhook();
        if ok { nsCache.MarkLockStateLocked(ns); }
      }
    }

    method LookUpAndLock(shouldLock: bool) returns (ok: bool, nsLocked: bool)
      requires nsCache.Valid()
      modifies api`refused, api`webhook, nsCache`cache
      ensures nsCache.Valid() && (ok ==> nsLocked == Remembered(old(nsCache.State(ns)), old(api.webhook)))
      ensures var takes := ok && shouldLock && !nsLocked;
        && api.webhook == (old(api.webhook) || takes) && (takes ==> !old(api.webhook))
        && nsCache.State(ns) == if takes then Locked else old(nsCache.State(ns))
      ensures Refuses(old(api.refused), api.refused, !ok)
    {
      ok, nsLocked := LookUpLockState();
      if ok { ok := TakeLock(shouldLock, nsLocked); }
    }

    method LockPart(shouldLock: bool, ghost s: State, ghost mode: Mode) returns (ok: bool, nsLocked: bool, ghost s': State)
      requires Mirrors(s) && s.job.Acting? && s.job.stage.Looking? && shouldLock == ShouldLock(s.job.next)
      modifies api`refused, api`webhook, nsCache`cache
      ensures Mirrors(s') && RunsTo(s, s', After(mode, ok))
      ensures if ok then Continues(s, s', Stage.Restoring(nsLocked, ToRestore(s.job.prev, s.job.next))) else Finished(s, s', Immediate)
      ensures Refuses(old(api.refused), api.refused, !ok)
    {
      hide Trace;
      ok, nsLocked := LookUpAndLock(shouldLock);
      s' := LocksOrFails(s, ok, mode);
      assert QuotasAre(s'.space.live, s'.space.cache);
      assert LockIs(s'.space.webhook, s'.space.lockState);
      assert VmmrqsAre(s'.space.vmmrqs);
    }

    /** The hard maps of a list are shared with no cached quota of another name. */
    ghost predicate Apart(list: seq<NameAndSpec>)
      reads store`hard
    {
      forall k, j | 0 <= k < |list| && 0 <= j < |store| :: store[j].hard == list[k].hard ==> store[j].name == list[k].name
    }

    ghost function PassFrom(originals: Hards): Pass
      requires StoreOk(store)
      reads api`live, store, MapsOf(store)
    {
      Pass(api.live, CacheOf(store), seq(|store|, j requires 0 <= j < |store| reads store => store[j].hard), originals)
    }

    /** Restores what is recorded no longer. */
    method RestoreDropped(curr: seq<NameAndSpec>, prev: seq<NameAndSpec>, ghost was: Status, ghost next: Status, ghost run: Pass)
        returns (ok: bool, ghost done: set<Name>, ghost failed: Name)
      requires StoreOk(store) && UniqueNames(prev) && OwnMaps(prev) && Discipline(curr, prev)
      requires Originals(prev) == was.originals && NamesIn(curr) == next.originals.Keys
      requires run == PassFrom(Visited(was.originals, ToRestore(was, next)))
      modifies api`refused, api`live, store`hard
      ensures StoreOk(store) && Apart(curr) && MapsOf(store) <= old(MapsOf(store)) + MapsIn(prev)
      ensures RestoringEnds(run, ok, done, failed, api.live, CacheOf(store))
      ensures Refuses(old(api.refused), api.refused, !ok)
    {
      ghost var maps := MapsOf(store);
      assert forall j | 0 <= j < |store| :: run.hards[j] == store[j].hard && run.hards[j] in maps;
      assert SharesOnly(curr, run.hards);
      var toRestore := GetRQListToRestore(curr, prev);
      RestoreStarts(toRestore, curr, prev, run, was, next);
      SelectedMaps(toRestore, prev);
      hide PassFrom, RestoringAt, RestoringEnds, SharesOnly, CacheOf, Refuses;
      ok, done, failed := RestoreOriginalRQs(toRestore, run);
      StaysApart(curr, prev, toRestore, run, maps);
    }

    /** Of these maps of the cached quotas the list shares only those of its own names. */
    ghost predicate SharesOnly(curr: seq<NameAndSpec>, hards: seq<QuantityMap>) {
      |hards| == |store| &&
      forall k, j | 0 <= k < |curr| && 0 <= j < |store| :: hards[j] == curr[k].hard ==> store[j].name == curr[k].name
    }

    lemma StaysApart(curr: seq<NameAndSpec>, prev: seq<NameAndSpec>, toRestore: seq<NameAndSpec>, run: Pass, maps: set<QuantityMap>)
      requires Kept(toRestore, run) && SharesOnly(curr, run.hards) && MapsIn(toRestore) <= MapsIn(prev)
      requires forall k, l | 0 <= k < |prev| && 0 <= l < |curr| :: prev[k].hard != curr[l].hard
      requires forall j | 0 <= j < |store| :: run.hards[j] in maps
      ensures Apart(curr) && MapsOf(store) <= maps + MapsIn(prev)
    {
    }

    method RestorePart(curr: seq<NameAndSpec>, prev: seq<NameAndSpec>, nsLocked: bool, ghost s: State, ghost mode: Mode)
        returns (ok: bool, ghost s': State)
      requires Mirrors(s) && s.job.Acting? && s.job.stage == Stage.Restoring(nsLocked, ToRestore(s.job.prev, s.job.next))
      requires UniqueNames(curr) && UniqueNames(prev) && OwnMaps(prev) && Discipline(curr, prev)
      requires Originals(prev) == s.job.prev.originals && NamesIn(curr) == s.job.next.originals.Keys
      modifies api`refused, api`live, store`hard
      ensures Mirrors(s') && RunsTo(s, s', After(mode, ok))
      ensures Apart(curr) && MapsOf(store) <= old(MapsOf(store)) + MapsIn(prev)
      ensures if ok then Continues(s, s', Stage.Restoring(nsLocked, {})) else Finished(s, s', Immediate)
      ensures Refuses(old(api.refused), api.refused, !ok)
    {
      hide Trace, RestoringEnds;
      ghost var done, failed, run := {}, "", PassFrom(Visited(s.job.prev.originals, s.job.stage.todo));
      ok, done, failed := RestoreDropped(curr, prev, s.job.prev, s.job.next, run);
      s' := RestoreEnds(s, run, ok, done, failed, api.live, CacheOf(store), mode);
      assert QuotasAre(s'.space.live, s'.space.cache);
      assert LockIs(s'.space.webhook, s'.space.lockState);
      assert VmmrqsAre(s'.space.vmmrqs);
    }

    lemma RestoreStarts(toRestore: seq<NameAndSpec>, curr: seq<NameAndSpec>, prev: seq<NameAndSpec>, run: Pass, was: Status, next: Status)
      requires StoreOk(store) && UniqueNames(prev) && OwnMaps(prev) && Discipline(curr, prev) && UniqueNames(toRestore)
      requires forall o :: o in toRestore <==> o in prev && o.name !in NamesIn(curr)
      requires Originals(prev) == was.originals && NamesIn(curr) == next.originals.Keys
      requires run == PassFrom(Visited(was.originals, ToRestore(was, next)))
      ensures RestoringAt(toRestore, 0, run)
    {
      SelectedEntries(toRestore, prev, NamesIn(curr));
      SelectedMaps(toRestore, prev);
      forall k, j | 0 <= k < |toRestore| && 0 <= j < |store| ensures store[j].hard != toRestore[k].hard {
        assert toRestore[k] in toRestore;
        var l :| 0 <= l < |prev| && prev[l] == toRestore[k];
      }
      StartsWithNothing(toRestore, run, Visited(was.originals, ToRestore(was, next)));
    }

    lemma StartsWithNothing(toRestore: seq<NameAndSpec>, run: Pass, originals: Hards)
      requires StoreOk(store) && run == PassFrom(originals)
      ensures Kept(toRestore, run) && RestoredSo(run, NamesIn(toRestore[..0]), api.live, CacheOf(store))
    {
      assert NamesIn(toRestore[..0]) == {};
      NothingRestored(run);
    }

    /** `shouldUpdateVmmrq`: true whenever the status changes; otherwise only if the lists came out in
        another order, for which the record must have two names. */
    method ShouldUpdateVmmrq(curr: Memory, prev: Memory, ghost was: Status, ghost next: Status) returns (update: bool)
      requires UniqueNames(curr.originals) && UniqueNames(prev.originals) && curr.additional == prev.additional
      requires StatusIn(prev) == was && StatusIn(curr) == next
      ensures next != was ==> update
      ensures update && Tidy(curr.migrations) && Tidy(prev.migrations) && Agrees(next) ==> next != was || Reorderable(next)
    {
      var same := SameOriginalLists(curr.originals, prev.originals, next.originals, was.originals);
      update := !same || curr.migrations != prev.migrations;
      if curr.migrations != prev.migrations && next == was && Tidy(curr.migrations) && Tidy(prev.migrations) && Agrees(next) {
        TwoListings(curr.migrations, prev.migrations, next);
      }
    }

    /** Writes the new status if it should; what the maps hold now is what is sent. */
    method WriteStatus(curr: Memory, prev: Memory, vmmrq: RawVmmrq, ghost was: Status, ghost next: Status) returns (ok: bool)
      requires api.vmmrqs == [vmmrq] && Unique(vmmrq.status.originals)
      requires UniqueNames(curr.originals) && UniqueNames(prev.originals) && curr.additional == prev.additional
      requires StatusIn(prev) == was == StatusOf(vmmrq.status) && StatusIn(curr) == next
      modifies api`refused, api`vmmrqs
      ensures AllUnique(api.vmmrqs) && VmmrqsOf(api.vmmrqs) == [Vmmrq(vmmrq.spec, if ok then next else was)]
      ensures api.refused == old(api.refused) || (!ok && exists status :: Sends(status, next) && api.refused == old(api.refused) + [StatusCall(status)])
      ensures ok <==> api.refused == old(api.refused)
      ensures next == was && !Reorderable(next) && Tidy(curr.migrations) && Tidy(prev.migrations) && Agrees(next) ==> ok   // no call is made
    {
      hide Agrees, Reorderable, Tidy;
      ok := true;
      var update := ShouldUpdateVmmrq(curr, prev, was, next);
      if update {
        var raw := Dump(curr.originals);
        var status := RawStatus(curr.additional, curr.migrations, raw);
        assert StatusOf(status) == next;
        ok := api.UpdateStatus(status);
      }
    }

    /** reflect.DeepEqual on lists of originals: the same entries in the same order. Lists that differ
        in their order only have two entries at least. */
    method SameOriginalLists(a: seq<NameAndSpec>, b: seq<NameAndSpec>, ghost ofA: Hards, ghost ofB: Hards) returns (same: bool)
      requires UniqueNames(a) && UniqueNames(b) && ofA == Originals(a) && ofB == Originals(b)
      ensures same <==> |a| == |b| && forall i | 0 <= i < |a| :: a[i].name == b[i].name && a[i].hard.m == b[i].hard.m
      ensures same ==> ofA == ofB
      ensures !same && ofA == ofB ==> |ofA| >= 2
    {
      same := |a| == |b|;
      if same {
        for i := 0 to |a|
          invariant same <==> forall j | 0 <= j < i :: a[j].name == b[j].name && a[j].hard.m == b[j].hard.m
        {
          if a[i].name != b[i].name || a[i].hard.m != b[i].hard.m { same := false; }
        }
      }
      if same { SameEntries(a, b); } else if ofA == ofB { TwoOriginals(a, b); }
    }

    method WritePart(curr: Memory, prev: Memory, vmmrq: RawVmmrq, nsLocked: bool, ghost next: Status, ghost s: State, ghost mode: Mode)
        returns (ok: bool, ghost s': State)
      requires s.space.listed == At(0) && Mirrors(s) && api.vmmrqs == [vmmrq] && Unique(vmmrq.status.originals)
      requires s.job.Acting? && s.job.stage == Stage.Restoring(nsLocked, {}) && s.job.next == next
      requires UniqueNames(curr.originals) && UniqueNames(prev.originals) && curr.additional == prev.additional
      requires s.job.prev == StatusIn(prev) == StatusOf(vmmrq.status) && StatusIn(curr) == next
      modifies api`refused, api`vmmrqs
      ensures Mirrors(s') && RunsTo(s, s', After(mode, ok))
      ensures if ok then Continues(s, s', Stage.Boosting(nsLocked, next.originals.Keys)) else Finished(s, s', Immediate)
      ensures Refuses(old(api.refused), api.refused, !ok)
    {
      hide Trace;
      ok := WriteStatus(curr, prev, vmmrq, StatusIn(prev), next);
      s' := WritesOrFails(s, ok, mode);
      assert QuotasAre(s'.space.live, s'.space.cache);
      assert LockIs(s'.space.webhook, s'.space.lockState);
      assert VmmrqsAre(s'.space.vmmrqs);
    }

    method BoostRecorded(list: seq<NameAndSpec>, add: ResourceList, ghost run: Pass, ghost s: State)
        returns (ok: bool, ghost done: set<Name>, ghost failed: Name)
      requires StoreOk(store) && UniqueNames(list) && Apart(list) && run == PassFrom(Originals(list)) && Mirrors(s)
      modifies api`refused, api`live, MapsOf(store)`m
      ensures StoreOk(store) && RaisingEnds(run, add, ok, done, failed, api.live, CacheOf(store))
      ensures LockIs(s.space.webhook, s.space.lockState) && VmmrqsAre(s.space.vmmrqs)
      ensures Refuses(old(api.refused), api.refused, !ok)
    {
      RaisingStarts(list, add, run);
      hide RaisingEnds, Refuses, RaisingAt, PassFrom, CacheOf;
      ok, done, failed := AddResourcesToRQs(list, add, run);
    }

    lemma RaisingStarts(list: seq<NameAndSpec>, add: ResourceList, run: Pass)
      requires StoreOk(store) && UniqueNames(list) && Apart(list) && run == PassFrom(Originals(list))
      ensures RaisingAt(list, 0, add, run)
    {
      EachRecorded(list);
      NothingRaised(run, add);
    }

    method BoostPart(list: seq<NameAndSpec>, add: ResourceList, nsLocked: bool, ghost s: State, ghost mode: Mode)
        returns (ok: bool, ghost s': State)
      requires Mirrors(s) && s.job.Acting? && s.job.stage == Stage.Boosting(nsLocked, s.job.next.originals.Keys)
      requires UniqueNames(list) && Apart(list) && Originals(list) == s.job.next.originals && add == s.job.next.additional
      modifies api`refused, api`live, MapsOf(store)`m
      ensures Mirrors(s') && RunsTo(s, s', After(mode, ok))
      ensures if ok then Continues(s, s', Stage.Boosting(nsLocked, {})) else Finished(s, s', Immediate)
      ensures Refuses(old(api.refused), api.refused, !ok)
    {
      hide Trace, LockIs, VmmrqsAre, RaisingEnds;
      ghost var done, failed, run := {}, "", PassFrom(s.job.next.originals);
      ok, done, failed := BoostRecorded(list, add, run, s);
      s' := BoostEnds(s, run, ok, done, failed, api.live, CacheOf(store), mode);
    }

    /** Deletes the webhook if it is there and no longer needed, and remembers that. */
    method GiveLockBack(shouldLock: bool, nsLocked: bool) returns (ok: bool)
      requires nsCache.Valid()
      modifies api`refused, api`webhook, nsCache`cache
      ensures nsCache.Valid()
      ensures var lifts := ok && !shouldLock && nsLocked;
        && api.webhook == (old(api.webhook) && !lifts) && (lifts ==> old(api.webhook))
        && nsCache.State(ns) == if lifts then Unlocked else old(nsCache.State(ns))
      ensures !(!shouldLock && nsLocked) ==> ok
      ensures api.refused == old(api.refused) + if ok then [] else [UnlockCall]
    {
      ok := true;
      if !shouldLock && nsLocked {
        ok := api.DeleteWebhook();
        if ok { nsCache.MarkLockStateUnlocked(ns); }
      }
    }

    method UnlockPart(shouldLock: bool, nsLocked: bool, finalState: Outcome, ghost s: State, ghost mode: Mode)
        returns (err: bool, outcome: Outcome, ghost s': State)
      requires Mirrors(s) && s.job.Acting? && s.job.stage == Stage.Boosting(nsLocked, {})
      requires shouldLock == ShouldLock(s.job.next) && finalState == s.job.outcome
      modifies api`refused, api`webhook, nsCache`cache
      ensures Mirrors(s') && RunsTo(s, s', After(mode, !err)) && Finished(s, s', outcome)
      ensures Refuses(old(api.refused), api.refused, err) && outcome == if err then Immediate else finalState
    {
      hide Trace;
      var ok := GiveLockBack(shouldLock, nsLocked);
      err, outcome := !ok, if ok then finalState else Immediate;
      s' := UnlocksOrFails(s, ok, mode);
      assert QuotasAre(s'.space.live, s'.space.cache);
      assert LockIs(s'.space.webhook, s'.space.lockState);
      assert VmmrqsAre(s'.space.vmmrqs);
    }

    // -------------------------------------------------------------- execute, put together from the end

    ghost predicate QueueIs(p: Space)
      reads this`pending, this`taken
    {
      p.pending == pending && p.taken == taken
    }

    method LockNamespaceMutex(ghost s: State)
      requires Mirrors(s) && nsLockMap.Valid() && ns !in nsLockMap.Held()
      modifies nsLockMap`M, nsLockMap.M.Values`locked
      ensures Mirrors(s) && nsLockMap.Valid() && nsLockMap.Held() == old(nsLockMap.Held()) + {ns}
      ensures forall mutex | mutex in nsLockMap.M.Values :: mutex in old(nsLockMap.M.Values) || fresh(mutex)
    {
      nsLockMap.Lock(ns);
    }

    method UnlockNamespaceMutex(ghost s: State)
      requires Mirrors(s) && nsLockMap.Valid() && ns in nsLockMap.Held()
      modifies nsLockMap`M, nsLockMap.M.Values`locked
      ensures Mirrors(s) && nsLockMap.Valid() && nsLockMap.Held() == old(nsLockMap.Held()) - {ns}
    {
      nsLockMap.Unlock(ns);
    }

    /** `execute` inside the namespace's mutex. */
    method ReconcileLocked(key: Name, inf: Informers, ghost s: State, ghost mode: Mode)
        returns (err: bool, outcome: Outcome, ghost s': State)
      requires Mirrors(s) && s.job == Listing(key) && (mode.sound ==> s.space.cache == s.space.live) && Means(inf, mode)
      requires nsLockMap.Valid() && ns !in nsLockMap.Held()
      modifies api`refused, api`live, api`vmmrqs, api`webhook, store`hard, MapsOf(store)`m, nsCache`cache
      modifies nsLockMap`M, nsLockMap.M.Values`locked
      ensures Mirrors(s') && RunsTo(s, s', After(mode, !err)) && Finished(s, s', outcome)
      ensures !err ==> |s.space.vmmrqs| == 1
      ensures nsLockMap.Valid() && nsLockMap.Held() == old(nsLockMap.Held())
      ensures AnswersAs(err, outcome, |s.space.vmmrqs|, Read(inf, SeenOf(store)), old(api.refused), api.refused)
      ensures |s.space.vmmrqs| != 1 ==> QuotasChanged(s.space, s'.space, s.space.live, s.space.cache)
    {
      hide Trace, Mirrors;
      LockNamespaceMutex(s);
      err, outcome, s' := Reconcile(key, inf, s, mode);
      UnlockNamespaceMutex(s');
    }

    method TakeKey(key: Name, ghost s: State)
      requires Mirrors(s)
      modifies this`pending, this`taken
      ensures Mirrors(s) && pending == old(pending) - {key} && taken == old(taken) + {key}
    {
      pending, taken := pending - {key}, taken + {key};
    }

    /** Requeues the key unless it is to be forgotten, and is done with it. */
    method DoneWith(key: Name, outcome: Outcome, ghost s': State)
      requires Mirrors(s')
      modifies this`pending, this`taken
      ensures Mirrors(s') && pending == Requeue(old(pending), key, outcome) && taken == old(taken) - {key}
    {
      match outcome {
        case Forget =>
        case _ => pending := pending + {key};
      }
      taken := taken - {key};
    }

    /** `Execute`: one key, from the queue and back. If no call fails and the informer is up to date,
        the quotas, the VMMRQ and the lock end up as `Reconciled` says. */
    method Execute(key: Name, readable: bool, inf: Informers, ghost s: State, ghost mode: Mode)
        returns (err: bool, outcome: Outcome, ghost s': State)
      requires Mirrors(s) && QueueIs(s.space) && s.job.Idle? && key in pending && key !in taken
      requires (mode.sound ==> s.space.cache == s.space.live) && Means(inf, mode)
      requires nsLockMap.Valid() && ns !in nsLockMap.Held()
      modifies api`refused, api`live, api`vmmrqs, api`webhook, store`hard, MapsOf(store)`m, nsCache`cache
      modifies this`pending, this`taken, nsLockMap`M, nsLockMap.M.Values`locked
      ensures Mirrors(s') && QueueIs(s'.space) && ExecutedAs(s, key, readable, err, outcome, s', mode)
      ensures nsLockMap.Valid() && nsLockMap.Held() == old(nsLockMap.Held())
      ensures if readable then AnswersAs(err, outcome, |s.space.vmmrqs|, Read(inf, SeenOf(store)), old(api.refused), api.refused) else api.refused == old(api.refused)
    {
      hide Trace, Reconciled, Means, Mirrors;
      TakeKey(key, s);
      if readable {
        MirrorsAlike(s, Started(s, key));
        err, outcome, s' := ReconcileLocked(key, inf, Started(s, key), mode);
        ReadAndReconciled(s, key, err, outcome, s', mode);
      } else {
        err, outcome, s' := true, Forget, s.(space := s.space.(pending := s.space.pending - {key}));
        MirrorsAlike(s, s');
      }
      hide ExecutedAs;
      DoneWith(key, outcome, s');
    }

    /** `execute`, past the mutex and holding it: the calls it makes are a run of the protocol that ends the
        reconcile, whatever the server and the informers answer. */
    method Reconcile(key: Name, inf: Informers, ghost s: State, ghost mode: Mode) returns (err: bool, outcome: Outcome, ghost s': State)
      requires Mirrors(s) && s.job == Listing(key) && (mode.sound ==> s.space.cache == s.space.live) && Means(inf, mode)
      requires nsLockMap.Valid() && ns in nsLockMap.Held()
      modifies api`refused, api`live, api`vmmrqs, api`webhook, store`hard, MapsOf(store)`m, nsCache`cache
      ensures Mirrors(s') && RunsTo(s, s', After(mode, !err)) && Finished(s, s', outcome)
      ensures !err ==> |s.space.vmmrqs| == 1
      ensures AnswersAs(err, outcome, |s.space.vmmrqs|, Read(inf, SeenOf(store)), old(api.refused), api.refused)
      ensures |s.space.vmmrqs| != 1 ==> QuotasChanged(s.space, s'.space, s.space.live, s.space.cache)
    {
      hide Trace, Mirrors;
      var progress, vmmrq;
      ghost var s1, refused := s, api.refused;
      progress, vmmrq, s1 := ListPart(s, mode);
      if Refuses(refused, api.refused, true) { RefusesOther(refused, api.refused); }
      if progress.Ends? { return true, progress.outcome, s1; }
      err, outcome, s' := DecideAndAct(key, inf, vmmrq, s1, mode);
      if Refuses(refused, api.refused, true) { RefusesOther(refused, api.refused); }
      ThenAfter(s, s1, s', mode, !err);
    }

    method DecideAndAct(key: Name, inf: Informers, vmmrq: RawVmmrq, ghost s: State, ghost mode: Mode)
        returns (err: bool, outcome: Outcome, ghost s': State)
      requires s.space.listed == At(0) && Mirrors(s) && api.vmmrqs == [vmmrq] && Unique(vmmrq.status.originals)
      requires s.job == Deciding(key, StatusOf(vmmrq.status)) && (mode.sound ==> s.space.cache == s.space.live) && Means(inf, mode)
      modifies api`refused, api`live, api`vmmrqs, api`webhook, store`hard, MapsOf(store)`m, nsCache`cache
      ensures Mirrors(s') && RunsTo(s, s', After(mode, !err)) && Finished(s, s', outcome)
      ensures ActedAs(err, outcome, Read(inf, SeenOf(store)), old(api.refused), api.refused)
    {
      hide Trace;
      var m := ReadStatus(vmmrq);
      var prevVmmrq := ReadStatus(vmmrq);   // the deep copy
      var progress, curr, finalState;
      ghost var s1;
      progress, curr, finalState, s1 := PlanPart(inf, key, m, prevVmmrq, s, mode);
      if progress.Ends? { return true, progress.outcome, s1; }
      err, outcome, s' := LockAndAct(curr, prevVmmrq, vmmrq, finalState, s1, mode);
      ThenAfter(s, s1, s', mode, !err);
    }

    /** The status of a VMMRQ in memory, with maps of its own. */
    method ReadStatus(vmmrq: RawVmmrq) returns (m: Memory)
      requires Unique(vmmrq.status.originals)
      ensures Recorded(m, vmmrq) && OwnMaps(m.originals) && fresh(MapsIn(m.originals))
      ensures m.additional == vmmrq.status.additional && forall k | 0 <= k < |m.originals| :: fresh(m.originals[k].hard)
    {
      var list := Load(vmmrq.status.originals);
      m := Memory(vmmrq.status.additional, vmmrq.status.migrations, list);
    }

    method BoostAndUnlock(curr: Memory, shouldLock: bool, nsLocked: bool, finalState: Outcome, ghost s: State, ghost mode: Mode)
        returns (err: bool, outcome: Outcome, ghost s': State)
      requires Mirrors(s) && s.job.Acting? && s.job.stage == Boosting(nsLocked, s.job.next.originals.Keys)
      requires UniqueNames(curr.originals) && Apart(curr.originals) && StatusIn(curr) == s.job.next
      requires shouldLock == ShouldLock(s.job.next) && finalState == s.job.outcome
      modifies api`refused, api`live, MapsOf(store)`m, api`webhook, nsCache`cache
      ensures Mirrors(s') && RunsTo(s, s', After(mode, !err)) && Finished(s, s', outcome)
      ensures Refuses(old(api.refused), api.refused, err) && outcome == if err then Immediate else finalState
    {
      var ok;
      ghost var s1;
      hide Trace;
      ok, s1 := BoostPart(curr.originals, curr.additional, nsLocked, s, mode);
      if !ok { return true, Immediate, s1; }
      err, outcome, s' := UnlockPart(shouldLock, nsLocked, finalState, s1, mode);
      ThenAfter(s, s1, s', mode, !err);
    }

    method WriteAndLend(curr: Memory, prev: Memory, vmmrq: RawVmmrq, shouldLock: bool, nsLocked: bool, finalState: Outcome,
                        ghost s: State, ghost mode: Mode)
        returns (err: bool, outcome: Outcome, ghost s': State)
      requires s.space.listed == At(0) && Mirrors(s) && s.job.Acting? && s.job.stage == Restoring(nsLocked, {})
      requires api.vmmrqs == [vmmrq] && Unique(vmmrq.status.originals) && Recorded(prev, vmmrq) && StatusIn(prev) == s.job.prev
      requires UniqueNames(curr.originals) && Apart(curr.originals) && StatusIn(curr) == s.job.next && curr.additional == prev.additional
      requires shouldLock == ShouldLock(s.job.next) && finalState == s.job.outcome
      modifies api`refused, api`live, api`vmmrqs, api`webhook, MapsOf(store)`m, nsCache`cache
      ensures Mirrors(s') && RunsTo(s, s', After(mode, !err)) && Finished(s, s', outcome)
      ensures Refuses(old(api.refused), api.refused, err) && outcome == if err then Immediate else finalState
    {
      var ok;
      ghost var s1;
      hide Trace;
      ok, s1 := WritePart(curr, prev, vmmrq, nsLocked, s.job.next, s, mode);
      if !ok { return true, Immediate, s1; }
      err, outcome, s' := BoostAndUnlock(curr, shouldLock, nsLocked, finalState, s1, mode);
      ThenAfter(s, s1, s', mode, !err);
    }

    method LockAndAct(curr: Memory, prev: Memory, vmmrq: RawVmmrq, finalState: Outcome, ghost s: State, ghost mode: Mode)
        returns (err: bool, outcome: Outcome, ghost s': State)
      requires s.space.listed == At(0) && Mirrors(s) && api.vmmrqs == [vmmrq] && Recorded(prev, vmmrq)
      requires UniqueNames(curr.originals) && s.job.Acting? &&
        s.job == Acting(s.job.key, StatusIn(prev), StatusIn(curr), finalState, Looking)
      requires OwnMaps(prev.originals) && Discipline(curr.originals, prev.originals) && curr.additional == prev.additional
      modifies api`refused, api`live, api`vmmrqs, api`webhook, store`hard, MapsOf(store)`m, MapsIn(prev.originals)`m, nsCache`cache
      ensures Mirrors(s') && RunsTo(s, s', After(mode, !err)) && Finished(s, s', outcome)
      ensures Refuses(old(api.refused), api.refused, err) && outcome == if err then Immediate else finalState
    {
      hide Trace, Permits, Mirrors;
      var shouldLock := |curr.originals| > 0;
      EachRecorded(curr.originals);
      var ok, nsLocked;
      ghost var s1;
      ok, nsLocked, s1 := LockPart(shouldLock, s, mode);
      if !ok { return true, Immediate, s1; }
      err, outcome, s' := RestoreAndWrite(curr, prev, vmmrq, shouldLock, nsLocked, finalState, s1, mode);
      ThenAfter(s, s1, s', mode, !err);
    }

    method RestoreAndWrite(curr: Memory, prev: Memory, vmmrq: RawVmmrq, shouldLock: bool, nsLocked: bool, finalState: Outcome,
                           ghost s: State, ghost mode: Mode)
        returns (err: bool, outcome: Outcome, ghost s': State)
      requires s.space.listed == At(0) && Mirrors(s) && s.job.Acting? && s.job.stage == Restoring(nsLocked, ToRestore(s.job.prev, s.job.next))
      requires api.vmmrqs == [vmmrq] && Unique(vmmrq.status.originals) && Recorded(prev, vmmrq)
      requires StatusIn(prev) == s.job.prev && OwnMaps(prev.originals) && Discipline(curr.originals, prev.originals)
      requires UniqueNames(curr.originals) && StatusIn(curr) == s.job.next && curr.additional == prev.additional
      requires shouldLock == ShouldLock(s.job.next) && finalState == s.job.outcome
      modifies api`refused, api`live, api`vmmrqs, api`webhook, store`hard, MapsOf(store)`m, MapsIn(prev.originals)`m, nsCache`cache
      ensures Mirrors(s') && RunsTo(s, s', After(mode, !err)) && Finished(s, s', outcome)
      ensures Refuses(old(api.refused), api.refused, err) && outcome == if err then Immediate else finalState
    {
      var ok;
      ghost var s1;
      hide Trace;
      ok, s1 := RestorePart(curr.originals, prev.originals, nsLocked, s, mode);
      if !ok { return true, Immediate, s1; }
      err, outcome, s' := WriteAndLend(curr, prev, vmmrq, shouldLock, nsLocked, finalState, s1, mode);
      ThenAfter(s, s1, s', mode, !err);
    }

    /** GetStore().GetByKey. */
    method GetByKey(name: Name) returns (found: bool, i: nat)
      requires StoreOk(store)
      ensures found <==> name in CacheOf(store)
      ensures found ==> i < |store| && store[i].name == name && store[i].hard.m == CacheOf(store)[name]
    {
      for j := 0 to |store|
        invariant forall k | 0 <= k < j :: store[k].name != name
      {
        if store[j].name == name {
          assert store[j] in store;
          return true, j;
        }
      }
      found, i := false, 0;
    }

    // -------------------------------------------------------------- restoreOriginalRQs

    /** A cached quota has the map it had or one of the list. */
    ghost predicate Kept(toRestore: seq<NameAndSpec>, run: Pass)
      reads store`hard
    {
      StoreOk(store) && |run.hards| == |store| &&
      forall j | 0 <= j < |store| :: store[j].hard == run.hards[j] || store[j].hard in MapsIn(toRestore)
    }

    /** The loop before its `i`-th entry. */
    ghost predicate RestoringAt(toRestore: seq<NameAndSpec>, i: nat, run: Pass)
      reads api`live, store`hard, MapsOf(store)`m, MapsIn(toRestore)`m
    {
      && i <= |toRestore| && UniqueNames(toRestore) && OwnMaps(toRestore) && Kept(toRestore, run)
      && NamesIn(toRestore) == run.originals.Keys
      && (forall k | i <= k < |toRestore| :: toRestore[k].hard.m == run.originals[toRestore[k].name])
      && (forall k, j | i <= k < |toRestore| && 0 <= j < |store| :: store[j].hard != toRestore[k].hard)
      && RestoredSo(run, NamesIn(toRestore[..i]), api.live, CacheOf(store))
    }

    /** Stops at the first update that fails, having visited `done`. */
    method RestoreOriginalRQs(toRestore: seq<NameAndSpec>, ghost run: Pass) returns (ok: bool, ghost done: set<Name>, ghost failed: Name)
      requires RestoringAt(toRestore, 0, run)
      modifies api`refused, api`live, store`hard
      ensures Kept(toRestore, run)
      ensures RestoringEnds(run, ok, done, failed, api.live, CacheOf(store))
      ensures api.refused == old(api.refused) + if ok then [] else [QuotaCall(failed, run.originals[failed])]
      ensures Refuses(old(api.refused), api.refused, !ok)
    {
      failed := "";
      var i := 0;
      while i < |toRestore|
        invariant RestoringAt(toRestore, i, run)
        invariant api.refused == old(api.refused)
      {
        ok := RestoreNext(toRestore, i, run);
        if !ok {
          done, failed := NamesIn(toRestore[..i]), toRestore[i].name;
          return;
        }
        i := i + 1;
      }
      assert toRestore[..i] == toRestore;
      ok, done := true, run.originals.Keys;
    }

    method RestoreNext(toRestore: seq<NameAndSpec>, i: nat, ghost run: Pass) returns (ok: bool)
      requires i < |toRestore| && RestoringAt(toRestore, i, run)
      modifies api`refused, api`live, store`hard
      ensures ok ==> RestoringAt(toRestore, i + 1, run)
      ensures Kept(toRestore, run)
      ensures !ok ==> RestoringEnds(run, false, NamesIn(toRestore[..i]), toRestore[i].name, api.live, CacheOf(store))
      ensures api.refused == old(api.refused) + if ok then [] else [QuotaCall(toRestore[i].name, run.originals[toRestore[i].name])]
    {
      ghost var live, cache := api.live, CacheOf(store);
      NextName(toRestore, i);
      assert toRestore[i].hard in MapsIn(toRestore);
      hide VisitRestores, RestoredSo, RestoringEnds;
      ok := RestoreOne(toRestore[i]);
      hide CacheOf, NamesIn;
      RestoredOneMore(run, NamesIn(toRestore[..i]), live, cache, toRestore[i].name, ok, api.live, CacheOf(store));
    }

    /** One quota of the list. The cached quota is changed before the call. */
    method RestoreOne(quotaNameAndSpec: NameAndSpec) returns (ok: bool)
      requires StoreOk(store) && forall i | 0 <= i < |store| :: store[i].hard != quotaNameAndSpec.hard
      modifies api`refused, api`live, store`hard
      ensures StoreOk(store)
      ensures forall i | 0 <= i < |store| :: store[i].hard == old(store[i].hard) || store[i].hard == quotaNameAndSpec.hard
      ensures VisitRestores(quotaNameAndSpec.name, quotaNameAndSpec.hard.m, ok,
                            old(api.live), old(CacheOf(store)), api.live, CacheOf(store))
      ensures api.refused == old(api.refused) + if ok then [] else [QuotaCall(quotaNameAndSpec.name, old(quotaNameAndSpec.hard.m))]
    {
      ghost var hard, cache := quotaNameAndSpec.hard.m, CacheOf(store);
      var exists_, i, equal := LookUp(quotaNameAndSpec);
      if !exists_ || equal { return true; }   // gone, or already restored
      assert CacheOf(store) == cache && cache[quotaNameAndSpec.name] != hard;
      hide CacheOf;
      ok := Replace(i, quotaNameAndSpec.hard);
    }

    /** The cached quota of that name, and whether it has the recorded value. */
    method LookUp(quotaNameAndSpec: NameAndSpec) returns (exists_: bool, i: nat, equal: bool)
      requires StoreOk(store)
      ensures exists_ <==> quotaNameAndSpec.name in CacheOf(store)
      ensures exists_ ==> i < |store| && store[i].name == quotaNameAndSpec.name
      ensures exists_ ==> (equal <==> CacheOf(store)[quotaNameAndSpec.name] == quotaNameAndSpec.hard.m)
    {
      exists_, i := GetByKey(quotaNameAndSpec.name);
      equal := false;
      if exists_ {
        equal := AreResourceMapsEqual(quotaNameAndSpec.hard.m, store[i].hard.m);
      }
    }

    /** Changes the cached quota, then the server's. */
    method Replace(i: nat, hard: QuantityMap) returns (ok: bool)
      requires StoreOk(store) && i < |store| && forall j | 0 <= j < |store| :: store[j].hard != hard
      modifies api`refused, api`live, {store[i]}`hard
      ensures StoreOk(store) && store[i].hard == hard
      ensures forall j | 0 <= j < |store| && j != i :: store[j].hard == old(store[j].hard)
      ensures CacheOf(store) == old(CacheOf(store))[store[i].name := old(hard.m)] && hard.m == old(hard.m)
      ensures ok ==> store[i].name in old(api.live) && api.live == old(api.live)[store[i].name := old(hard.m)]
      ensures !ok ==> api.live == old(api.live)
      ensures api.refused == old(api.refused) + if ok then [] else [QuotaCall(store[i].name, old(hard.m))]
    {
      var rqToModify := store[i];
      SetHard(store, i, hard);
      ok := api.UpdateQuota(rqToModify.name, rqToModify.hard.m);
    }

    // -------------------------------------------------------------- addResourcesToRQs

    /** The loop before its `i`-th entry. An entry shares the map of no cached quota but its own. */
    ghost predicate RaisingAt(list: seq<NameAndSpec>, i: nat, add: ResourceList, run: Pass)
      reads api`live, store`hard, MapsOf(store)`m, MapsIn(list)`m
    {
      && i <= |list| && UniqueNames(list) && StoreOk(store) && NamesIn(list) == run.originals.Keys
      && (forall k | i <= k < |list| :: list[k].hard.m == run.originals[list[k].name])
      && (forall k, j | i <= k < |list| && 0 <= j < |store| :: store[j].hard == list[k].hard ==> store[j].name == list[k].name)
      && RaisedSo(run, add, NamesIn(list[..i]), api.live, CacheOf(store))
    }

    method AddResourcesToRQs(list: seq<NameAndSpec>, add: ResourceList, ghost run: Pass)
        returns (ok: bool, ghost done: set<Name>, ghost failed: Name)
      requires RaisingAt(list, 0, add, run)
      modifies api`refused, api`live, MapsOf(store)`m
      ensures StoreOk(store)
      ensures RaisingEnds(run, add, ok, done, failed, api.live, CacheOf(store))
      ensures api.refused == old(api.refused) + if ok then [] else [QuotaCall(failed, Plus(run.originals[failed], add))]
      ensures Refuses(old(api.refused), api.refused, !ok)
    {
      failed := "";
      var i := 0;
      while i < |list|
        invariant RaisingAt(list, i, add, run)
        invariant api.refused == old(api.refused)
      {
        ok := AddNext(list, i, add, run);
        if !ok {
          done, failed := NamesIn(list[..i]), list[i].name;
          return;
        }
        i := i + 1;
      }
      assert list[..i] == list;
      ok, done := true, run.originals.Keys;
    }

    method AddNext(list: seq<NameAndSpec>, i: nat, add: ResourceList, ghost run: Pass) returns (ok: bool)
      requires i < |list| && RaisingAt(list, i, add, run)
      modifies api`refused, api`live, MapsOf(store)`m
      ensures ok ==> RaisingAt(list, i + 1, add, run)
      ensures !ok ==> RaisingEnds(run, add, false, NamesIn(list[..i]), list[i].name, api.live, CacheOf(store))
      ensures api.refused == old(api.refused) + if ok then [] else [QuotaCall(list[i].name, Plus(run.originals[list[i].name], add))]
    {
      ghost var live, cache := api.live, CacheOf(store);
      NextName(list, i);
      ghost var touched, j;
      ok, touched, j := AddToOne(list[i], add);
      RaisedOneMore(run, add, NamesIn(list[..i]), live, cache, list[i].name, ok, api.live, CacheOf(store));
    }

    /** One quota of the list: its cached map is raised in place before the call. */
    method AddToOne(quotaNameAndSpec: NameAndSpec, add: ResourceList) returns (ok: bool, ghost touched: bool, ghost j: nat)
      requires StoreOk(store)
      modifies api`refused, api`live, MapsOf(store)`m
      ensures touched ==> j < |store| && store[j].name == quotaNameAndSpec.name
      ensures forall m: QuantityMap | old(allocated(m)) && !(touched && m == store[j].hard) :: m.m == old(m.m)
      ensures VisitRaises(quotaNameAndSpec.name, old(quotaNameAndSpec.hard.m), add, ok,
                          old(api.live), old(CacheOf(store)), api.live, CacheOf(store))
      ensures api.refused == old(api.refused) + if ok then [] else [QuotaCall(quotaNameAndSpec.name, Plus(old(quotaNameAndSpec.hard.m), add))]
    {
      hide CacheOf;
      var exists_, i, equal := LookUp(quotaNameAndSpec);
      touched, j := exists_ && equal, i;
      if !exists_ || !equal { return true, false, i; }   // gone, or already raised
      ok := AddAndUpdate(i, add);
    }

    /** Changes the cached quota, then the server's. */
    method AddAndUpdate(i: nat, add: ResourceList) returns (ok: bool)
      requires StoreOk(store) && i < |store|
      modifies api`refused, api`live, {store[i].hard}`m
      ensures store[i].name in old(CacheOf(store))
      ensures CacheOf(store) == old(CacheOf(store))[store[i].name := Plus(old(CacheOf(store))[store[i].name], add)]
      ensures ok ==> store[i].name in old(api.live) && api.live == old(api.live)[store[i].name := CacheOf(store)[store[i].name]]
      ensures !ok ==> api.live == old(api.live)
      ensures api.refused == old(api.refused) + if ok then [] else [QuotaCall(store[i].name, CacheOf(store)[store[i].name])]
    {
      var rqToModify := store[i];
      RaiseHard(store, i, add);
      ok := api.UpdateQuota(rqToModify.name, rqToModify.hard.m);
    }
  }
}
