/** The quota-lending protocol of one namespace as a transition system: one step per API
    call of `VmmrqController.execute`, plus failed calls, crashes, tenants and pods. */
module Protocol {
  import opened Resources
  import opened Admission
  import opened LockStates

  type Name = string

  // ---------------------------------------------------------------- state

  /** VMMRQ status. The list of originals is a map here: its names are unique. */
  datatype Status = Status(
    additional: ResourceList,
    migrations: map<Name, set<Name>>,
    originals: map<Name, ResourceList>)

  const EMPTY_STATUS := Status(map[], map[], map[])

  datatype Vmmrq = Vmmrq(spec: ResourceList, status: Status)

  /** What `execute` tells `Execute` to do with the key. */
  datatype Outcome = Forget | BackOff | Immediate | AddAfterFiveSeconds

  /** How far a reconcile has come. `held` is the local variable nsLocked, `todo` the
      quotas a loop has still to visit. */
  datatype Stage =
    | Looking
    | Locking(held: bool)
    | Restoring(held: bool, todo: set<Name>)
    | Boosting(held: bool, todo: set<Name>)

  datatype Job =
    | Idle
    | Listing(key: Name)
    | Syncing(key: Name, vmmrq: Vmmrq)
    | Deciding(key: Name, prev: Status)
    | Acting(key: Name, prev: Status, next: Status, outcome: Outcome, stage: Stage)

  /** Where the VMMRQ that the running reconcile has listed is now; an update goes to it by name. */
  datatype Place = Gone | At(index: nat)

  datatype Space = Space(
    kubevirtNs: string,
    mtqNs: string,
    // on the API server
    live: map<Name, ResourceList>,          // spec.hard of the quotas
    used: map<Name, ResourceList>,          // their usage
    vmmrqs: seq<Vmmrq>,
    listed: Place,                          // the one of them that the running reconcile works with
    webhook: bool,
    // in the controller's memory
    cache: map<Name, ResourceList>,         // spec.hard in the quota informer
    lockState: LockState,
    pending: set<Name>,                     // keys in the work queue
    taken: set<Name>,                       // keys that a worker holds, until it is done with them
    started: bool,                          // enqueueAll has run since the last start
    // bookkeeping that no step reads
    tenant: map<Name, ResourceList>,        // what the tenant last asked each quota to be
    lent: map<Name, ResourceList>,          // what each raised quota was raised by
    offered: set<ResourceList>)             // every additional resource list ever in a VMMRQ spec

  datatype State = State(space: Space, job: Job)

  /** The undo log: original hard maps by quota name. */
  function Log(p: Space): map<Name, ResourceList> {
    if |p.vmmrqs| == 1 then p.vmmrqs[0].status.originals else map[]
  }

  /** The recorded migrations and the quotas that block each. */
  function Entries(p: Space): map<Name, set<Name>> {
    if |p.vmmrqs| == 1 then p.vmmrqs[0].status.migrations else map[]
  }

  /** The listed VMMRQ still exists. */
  predicate Present(p: Space) {
    p.listed.At? && p.listed.index < |p.vmmrqs|
  }

  /** It is the only one. */
  predicate Alone(p: Space) {
    p.listed == At(0) && |p.vmmrqs| == 1
  }

  // ---------------------------------------------------------------- the decision

  function Flat(migrations: map<Name, set<Name>>): set<Name> {
    set m, n | m in migrations && n in migrations[m] :: n
  }

  /** The quota informer's view of a quota beyond spec.hard. `bare` is how the check sees the
      copy `addResourcesToRQ` makes, which has no scopes. */
  datatype Seen = Seen(statusHard: ResourceList, used: ResourceList, scope: Scope, bare: Scope)

  /** What the informers say about the reconciled migration. */
  datatype Migration =
    | NotBlocked
    | AtMaximum
    | Blocked(request: ResourceList, seen: map<Name, Seen>)

  /** The verdict on a quota at its base value: the recorded original if there is one. */
  function AtBase(name: Name, originals: map<Name, ResourceList>, b: Migration): Verdict
    requires b.Blocked? && name in b.seen
  {
    var s := b.seen[name];
    Check(s.scope, if name in originals then originals[name] else s.statusHard, s.used, b.request)
  }

  /** The verdict on a quota at its base value raised by the additional resources. */
  function AfterAddition(name: Name, cache: map<Name, ResourceList>, originals: map<Name, ResourceList>, b: Migration, add: ResourceList): Verdict
    requires b.Blocked? && name in b.seen && name in cache
  {
    var s := b.seen[name];
    Check(s.bare, Plus(if name in originals then originals[name] else cache[name], add), s.used, b.request)
  }

  /** `getCurrBlockingRQInNS`: nothing if a quota stays exceeded, else what the addition releases. */
  function BlockingNames(cache: map<Name, ResourceList>, originals: map<Name, ResourceList>, b: Migration, add: ResourceList): set<Name>
    requires b.Blocked? && cache.Keys <= b.seen.Keys
  {
    if exists n | n in cache :: AfterAddition(n, cache, originals, b, add) == Exceeded then {}
    else set n | n in cache && AtBase(n, originals, b) == Exceeded && AfterAddition(n, cache, originals, b, add) == Admitted
  }

  function NextMigrations(prev: Status, key: Name, names: set<Name>): map<Name, set<Name>> {
    if names == {} then prev.migrations - {key} else prev.migrations[key := names]
  }

  /** `getAllBlockingRQsInNS`: recorded originals stay, new ones are snapshots of the cache. */
  function NextOriginals(prev: Status, migrations: map<Name, set<Name>>, cache: map<Name, ResourceList>): map<Name, ResourceList> {
    map n | n in Flat(migrations) && (n in prev.originals || n in cache) ::
      if n in prev.originals then prev.originals[n] else cache[n]
  }

  function Names(prev: Status, m: Migration, cache: map<Name, ResourceList>): set<Name>
    requires m.Blocked? ==> cache.Keys <= m.seen.Keys
  {
    if m.Blocked? then BlockingNames(cache, prev.originals, m, prev.additional) else {}
  }

  function Replan(prev: Status, key: Name, m: Migration, cache: map<Name, ResourceList>): Status
    requires m.Blocked? ==> cache.Keys <= m.seen.Keys
  {
    var migrations := NextMigrations(prev, key, Names(prev, m, cache));
    prev.(migrations := migrations, originals := NextOriginals(prev, migrations, cache))
  }

  function OutcomeOf(m: Migration): Outcome {
    match m
    case NotBlocked => Forget
    case AtMaximum => AddAfterFiveSeconds
    case Blocked(_, _) => Immediate
  }

  /** `getRQListToRestore`: recorded before, not any more. */
  function ToRestore(prev: Status, next: Status): set<Name> {
    prev.originals.Keys - next.originals.Keys
  }

  predicate ShouldLock(next: Status) {
    next.originals != map[]
  }

  // ---------------------------------------------------------------- steps

  /** The steps of a worker inside a reconcile: one per API call, then the failures. */
  datatype JobStep =
    | ListVmmrqs
    | SyncAdditional
    | Decide(migration: Migration)
    | LookUpLock
    | Lock
    | Restore(name: Name)
    | Write
    | Boost(name: Name)
    | Finish
    | FailUpdate(name: Name)
    | Fail
  {
    predicate Succeeds() { !FailUpdate? && !Fail? }
  }

  /** The work queue. */
  datatype QueueStep =
    | Enqueue(key: Name)
    | EnqueueAll(rejected: set<Name>)
    | Pop(key: Name)
    | Take(key: Name)
    | StoreError(key: Name)

  /** What everybody else does to the namespace. */
  datatype Act =
    | WriteQuota(name: Name, hard: ResourceList, usage: ResourceList)
    | DeleteQuota(name: Name)
    | CreateVmmrq(spec: ResourceList)
    | DeleteVmmrq(index: nat)
    | SetVmmrqSpec(index: nat, spec: ResourceList)
    | AdmitPod(labels: Labels, request: ResourceList, quotas: set<Name>)
    | UsageDrops(name: Name, usage: ResourceList)

  datatype Step =
    | Do(step: JobStep)
    | Queue(queue: QueueStep)
    | Other(user: string, act: Act)
    | Refresh
    | Crash

  /** May a request of somebody else reach the API server's storage? */
  predicate TenantMay(p: Space, user: string, request: Request) {
    user != ServiceAccount(p.mtqNs, MTQ_CONTROLLER) && Passes(p.webhook, request, p.kubevirtNs, p.mtqNs)
  }

  /** The restore loop sends an Update for `n`: the cached quota exists and still differs. */
  predicate RestoreSends(p: Space, prev: Status, n: Name) {
    n in p.cache && n in prev.originals && p.cache[n] != prev.originals[n]
  }

  /** The boost loop sends an Update for `n`: the cached quota exists and is not raised yet. */
  predicate BoostSends(p: Space, next: Status, n: Name) {
    n in p.cache && n in next.originals && p.cache[n] == next.originals[n]
  }

  /** The spec's additional resources are copied to the status only if they differ. */
  predicate SyncSends(job: Job) {
    job.Syncing? && job.vmmrq.spec != job.vmmrq.status.additional
  }

  /** `shouldUpdateVmmrq`: the plan is written only if it changes the status. */
  predicate WriteSends(job: Job) {
    job.Acting? && job.next != job.prev
  }

  /** The recorded lists come out of Go maps, in any order; two names can come out in another one.
      The code compares lists, so it may send an update that changes no more than their order. */
  predicate Reorderable(status: Status) {
    |status.originals| >= 2
  }

  // ---------------------------------------------------------------- what code and API server permit

  predicate JobPossible(p: Space, job: Job, st: JobStep) {
    match st
    case ListVmmrqs => job.Listing?
    case SyncAdditional => job.Syncing? && (SyncSends(job) ==> Present(p))
    case Decide(m) => job.Deciding? && (m.Blocked? ==> p.cache.Keys <= m.seen.Keys)
    case LookUpLock => job.Acting? && job.stage.Looking?
    case Lock => job.Acting? && job.stage.Locking? && (ShouldLock(job.next) && !job.stage.held ==> !p.webhook)
    case Restore(n) => job.Acting? && job.stage.Restoring? && n in job.stage.todo && n in job.prev.originals &&
                       (RestoreSends(p, job.prev, n) ==> n in p.live)
    case Write => job.Acting? && job.stage.Restoring? && job.stage.todo == {} && (WriteSends(job) ==> Present(p))
    case Boost(n) => job.Acting? && job.stage.Boosting? && n in job.stage.todo && n in job.next.originals &&
                     (BoostSends(p, job.next, n) ==> n in p.live)
    case Finish => job.Acting? && job.stage.Boosting? && job.stage.todo == {} &&
                   (!ShouldLock(job.next) && job.stage.held ==> p.webhook)
    case FailUpdate(n) => job.Acting? && ((job.stage.Restoring? && n in job.stage.todo && RestoreSends(p, job.prev, n)) ||
                                          (job.stage.Boosting? && n in job.stage.todo && BoostSends(p, job.next, n)))
    case Fail => !job.Idle?
  }

  predicate QueuePossible(p: Space, job: Job, st: QueueStep) {
    match st
    case Pop(key) => key in p.pending && key !in p.taken
    case Take(key) => key in p.taken && job.Idle?
    case StoreError(key) => key in p.taken && (job.Idle? || job.key != key)
    case _ => true
  }

  predicate ActPossible(p: Space, user: string, act: Act) {
    match act
    case WriteQuota(n, _, _) => TenantMay(p, user, QuotaRequest(if n in p.live then Update else Create, user))
    case DeleteQuota(n) => n in p.live && TenantMay(p, user, QuotaRequest(Delete, user))
    case CreateVmmrq(_) => TenantMay(p, user, VmmrqRequest(Create, user))
    case DeleteVmmrq(i) => i < |p.vmmrqs| && TenantMay(p, user, VmmrqRequest(Delete, user))
    case SetVmmrqSpec(i, _) => i < |p.vmmrqs| && TenantMay(p, user, VmmrqRequest(Update, user))
    case AdmitPod(labels, request, quotas) =>
      Passes(p.webhook, PodRequest(user, labels), p.kubevirtNs, p.mtqNs) &&
      forall n | n in quotas && n in p.live && n in p.used :: Check(Applies, p.live[n], p.used[n], request) == Admitted
    case UsageDrops(n, u) => n in p.used && u.Keys == p.used[n].Keys && forall r | r in u :: u[r] <= p.used[n][r]
  }

  // ---------------------------------------------------------------- what the controller relies on

  /** The quotas the reconcile has planned with: recorded before or after it. */
  function Planned(job: Job): set<Name> {
    if job.Acting? then job.prev.originals.Keys + job.next.originals.Keys else {}
  }

  /** The quota informer is right about the named quotas. */
  predicate Fresh(p: Space, names: set<Name>) {
    forall n | n in names && n in p.live :: n in p.cache && p.cache[n] == p.live[n]
  }

  /** When the reconcile decides, the informer has caught up with the quotas it plans with. */
  predicate DecidesFresh(p: Space, job: Job, m: Migration) {
    job.Deciding? && (m.Blocked? ==> p.cache.Keys <= m.seen.Keys) &&
    Fresh(p, job.prev.originals.Keys + Replan(job.prev, job.key, m, p.cache).originals.Keys)
  }

  /** Nobody writes a quota between its snapshot and the lock, or re-creates a recorded one;
      VMMRQs come and go only between reconciles. */
  predicate ActAssumed(p: Space, job: Job, act: Act) {
    match act
    case WriteQuota(n, _, _) => n !in Planned(job) && n !in Log(p)
    case CreateVmmrq(_) => job.Idle? || job.Listing?
    case DeleteVmmrq(_) => job.Idle? || job.Listing?
    case _ => true
  }

  /** The in-memory store of migrations does not fail for a recorded migration. */
  predicate QueueAssumed(p: Space, q: QueueStep) {
    q.StoreError? ==> q.key !in Entries(p)
  }

  // ---------------------------------------------------------------- effects

  /** `Execute` re-adds the key unless the outcome is Forget. */
  function Requeue(pending: set<Name>, key: Name, outcome: Outcome): set<Name> {
    if outcome == Forget then pending else pending + {key}
  }

  /** The reconcile fails: its key goes back to the queue. */
  function Abort(p: Space, key: Name): State {
    State(p.(pending := p.pending + {key}, taken := p.taken - {key}), Idle)
  }

  /** The switch over the remembered lock state, with the live read for Unknown. */
  function LookedUp(p: Space): bool {
    match p.lockState
    case Locked => true
    case Unlocked => false
    case Unknown => p.webhook
  }

  function Locks(p: Space, next: Status, held: bool): Space {
    var takes := ShouldLock(next) && !held;
    p.(webhook := takes || p.webhook, lockState := if takes then Locked else p.lockState)
  }

  function Unlocks(p: Space, next: Status, held: bool): Space {
    var lifts := !ShouldLock(next) && held;
    p.(webhook := !lifts && p.webhook, lockState := if lifts then Unlocked else p.lockState)
  }

  function Restored(p: Space, prev: Status, n: Name): Space
    requires n in prev.originals
  {
    var sends := RestoreSends(p, prev, n);
    p.(live := if sends then p.live[n := prev.originals[n]] else p.live,
       cache := if sends then p.cache[n := prev.originals[n]] else p.cache,
       lent := p.lent - {n})
  }

  function Boosted(p: Space, next: Status, n: Name): Space {
    var sends := BoostSends(p, next, n);
    p.(live := if sends then p.live[n := Plus(p.cache[n], next.additional)] else p.live,
       cache := if sends then p.cache[n := Plus(p.cache[n], next.additional)] else p.cache,
       lent := if sends then p.lent[n := next.additional] else p.lent)
  }

  /** A failed Update leaves the cached quota changed: it was modified before the call. */
  function CacheChanged(p: Space, job: Job, n: Name): Space
    requires JobPossible(p, job, FailUpdate(n))
  {
    p.(cache := p.cache[n := if job.stage.Restoring? then job.prev.originals[n] else Plus(p.cache[n], job.next.additional)])
  }

  function SetStatus(p: Space, status: Status): Space
    requires Present(p)
  {
    p.(vmmrqs := p.vmmrqs[p.listed.index := Vmmrq(p.vmmrqs[p.listed.index].spec, status)])
  }

  /** Writing the status that is there changes nothing. */
  lemma SameStatus(p: Space)
    requires Alone(p)
    ensures SetStatus(p, p.vmmrqs[0].status) == p
  {
  }

  lemma OnlyStatus(p: Space, status: Status)
    requires Alone(p)
    ensures SetStatus(p, status).vmmrqs == [Vmmrq(p.vmmrqs[0].spec, status)]
  {
  }

  function JobNext(p: Space, job: Job, st: JobStep): State
    requires JobPossible(p, job, st)
  {
    match st
    case ListVmmrqs =>
      var one := |p.vmmrqs| == 1;
      State(p.(listed := if one then At(0) else p.listed, taken := if one then p.taken else p.taken - {job.key}),
            if one then Syncing(job.key, p.vmmrqs[0]) else Idle)
    case SyncAdditional =>
      var status := job.vmmrq.status.(additional := job.vmmrq.spec);
      State(p.(vmmrqs := if SyncSends(job) then SetStatus(p, status).vmmrqs else p.vmmrqs), Deciding(job.key, status))
    case Decide(m) => State(p, Acting(job.key, job.prev, Replan(job.prev, job.key, m, p.cache), OutcomeOf(m), Looking))
    case LookUpLock => State(p, job.(stage := Locking(LookedUp(p))))
    case Lock => State(Locks(p, job.next, job.stage.held), job.(stage := Restoring(job.stage.held, ToRestore(job.prev, job.next))))
    case Restore(n) => State(Restored(p, job.prev, n), job.(stage := Restoring(job.stage.held, job.stage.todo - {n})))
    case Write => State(p.(vmmrqs := if WriteSends(job) then SetStatus(p, job.next).vmmrqs else p.vmmrqs),
                        job.(stage := Boosting(job.stage.held, job.next.originals.Keys)))
    case Boost(n) => State(Boosted(p, job.next, n), job.(stage := Boosting(job.stage.held, job.stage.todo - {n})))
    case Finish =>
      var p' := Unlocks(p, job.next, job.stage.held);
      State(p'.(pending := Requeue(p.pending, job.key, job.outcome), taken := p.taken - {job.key}), Idle)
    case FailUpdate(n) => Abort(CacheChanged(p, job, n), job.key)
    case Fail => Abort(p, job.key)
  }

  /** `enqueueAll`: the keys of every recorded migration, or a stand-in, and the rejected ones. */
  function AllKeys(vmmrqs: seq<Vmmrq>, rejected: set<Name>): set<Name> {
    rejected +
    (set v, m | v in vmmrqs && v.status.originals != map[] && m in v.status.migrations :: m) +
    (if exists v | v in vmmrqs :: v.status.originals != map[] && v.status.migrations == map[] then {"fake"} else {})
  }

  function QueueNext(p: Space, job: Job, st: QueueStep): State
    requires QueuePossible(p, job, st)
  {
    match st
    case Enqueue(key) => State(p.(pending := p.pending + {key}), job)
    case EnqueueAll(rejected) => State(p.(pending := p.pending + AllKeys(p.vmmrqs, rejected), started := true), job)
    case Pop(key) => State(p.(pending := p.pending - {key}, taken := p.taken + {key}), job)
    case Take(key) => State(p, Listing(key))
    case StoreError(key) => State(p.(taken := p.taken - {key}), job)
  }

  function AddUsage(used: ResourceList, hard: ResourceList, request: ResourceList): ResourceList {
    map r | r in used.Keys + request.Keys && (r in used || r in hard) ::
      Amount(used, r) + (if r in hard then Amount(request, r) else 0)
  }

  /** Where it is when the `i`-th VMMRQ has been deleted. */
  function Without(listed: Place, i: nat): Place {
    match listed
    case Gone => Gone
    case At(k) => if k == i then Gone else if k > i then At(k - 1) else At(k)
  }

  function ActNext(p: Space, user: string, act: Act): Space
    requires ActPossible(p, user, act)
  {
    match act
    case WriteQuota(n, h, u) => p.(live := p.live[n := h], tenant := p.tenant[n := h], used := p.used[n := u])
    case DeleteQuota(n) => p.(live := p.live - {n}, tenant := p.tenant - {n}, used := p.used - {n}, lent := p.lent - {n})
    case CreateVmmrq(h) => p.(vmmrqs := p.vmmrqs + [Vmmrq(h, EMPTY_STATUS)], offered := p.offered + {h})
    case DeleteVmmrq(i) => p.(vmmrqs := p.vmmrqs[..i] + p.vmmrqs[i + 1..], listed := Without(p.listed, i))
    case SetVmmrqSpec(i, h) => p.(vmmrqs := p.vmmrqs[i := Vmmrq(h, p.vmmrqs[i].status)], offered := p.offered + {h})
    case AdmitPod(_, request, quotas) =>
      p.(used := map n | n in p.used ::
           if n in quotas && n in p.live then AddUsage(p.used[n], p.live[n], request) else p.used[n])
    case UsageDrops(n, u) => p.(used := p.used[n := u])
  }

  /** A crash loses the controller's memory and nothing else. */
  function Crashed(p: Space): Space {
    p.(cache := map[], lockState := Unknown, pending := {}, taken := {}, started := false)
  }

  // ---------------------------------------------------------------- the transition relation

  /** What the code and the API server permit. */
  predicate Permits(s: State, st: Step, s': State) {
    match st
    case Do(js) => JobPossible(s.space, s.job, js) && s' == JobNext(s.space, s.job, js)
    case Queue(q) => QueuePossible(s.space, s.job, q) && s' == QueueNext(s.space, s.job, q)
    case Other(user, act) => ActPossible(s.space, user, act) && s' == State(ActNext(s.space, user, act), s.job)
    case Refresh => s' == State(s.space.(cache := s.space.live), s.job)
    case Crash => s' == State(Crashed(s.space), Idle)
  }

  /** The assumptions that nothing in the code enforces. */
  predicate Assumed(s: State, st: Step) {
    match st
    case Do(js) => js.Decide? ==> DecidesFresh(s.space, s.job, js.migration)
    case Queue(q) => QueueAssumed(s.space, q)
    case Other(_, act) => ActAssumed(s.space, s.job, act)
    case Refresh => true
    case Crash => true
  }

  /** One step of a run. */
  predicate Moves(s: State, st: Step, s': State) {
    Permits(s, st, s') && Assumed(s, st)
  }
}
