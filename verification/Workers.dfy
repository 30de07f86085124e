/** Several workers over many namespaces, kept apart by one mutex per namespace
    (pkg/mtq-controller/namespace-lock-utils/namespace-lock-map.go). */
module Workers {
  import opened Protocol
  import opened Invariant
  import opened Runs
  import opened Reconciles

  datatype Mutex = Free | HeldBy(worker: nat)

  /** A worker of the pool: between keys, blocked on a namespace's mutex, or past it. Its job
      is its own; nothing but the mutex keeps two workers from reconciling one namespace. */
  datatype Worker =
    | Resting
    | Waiting(ns: string, key: Name)
    | Inside(ns: string, job: Job)

  datatype World = World(spaces: map<string, Space>, mutexes: map<string, Mutex>, workers: map<nat, Worker>)

  datatype WorkerStep =
    | TakeKey(ns: string, key: Name)   // migrationQueue.Get
    | GiveUp                           // the store read before the mutex fails
    | LockMutex
    | Call(step: JobStep)
    | UnlockMutex

  datatype WorldStep =
    | By(worker: nat, act: WorkerStep)
    | On(ns: string, step: Step)       // work queue events and everybody else
    | Restart

  /** What one worker sees and changes: its own state and one namespace. */
  datatype View = View(space: Space, mutex: Mutex, worker: Worker)

  function MutexOf(w: World, ns: string): Mutex {
    if ns in w.mutexes then w.mutexes[ns] else Free
  }

  /** The namespace a worker's step is about. */
  function Concerns(worker: Worker, st: WorkerStep): string {
    match worker
    case Resting => if st.TakeKey? then st.ns else ""
    case Waiting(ns, _) => ns
    case Inside(ns, _) => ns
  }

  predicate ViewMoves(id: nat, v: View, st: WorkerStep, v': View) {
    match st
    case TakeKey(ns, key) =>
      && v.worker.Resting? && key in v.space.pending && key !in v.space.taken
      && v' == v.(space := v.space.(pending := v.space.pending - {key}, taken := v.space.taken + {key}), worker := Waiting(ns, key))
    case GiveUp =>
      && v.worker.Waiting? && QueueAssumed(v.space, StoreError(v.worker.key))
      && v' == v.(space := v.space.(taken := v.space.taken - {v.worker.key}), worker := Resting)
    case LockMutex =>
      // getLock, then a Lock that returns only when the mutex is free
      && v.worker.Waiting? && v.mutex.Free?
      && v' == v.(mutex := HeldBy(id), worker := Inside(v.worker.ns, Listing(v.worker.key)))
    case Call(js) =>
      && v.worker.Inside? && JobPossible(v.space, v.worker.job, js)
      && (js.Decide? ==> DecidesFresh(v.space, v.worker.job, js.migration))
      && var s' := JobNext(v.space, v.worker.job, js);
         v' == v.(space := s'.space, worker := Inside(v.worker.ns, s'.job))
    case UnlockMutex =>
      && v.worker.Inside? && v.worker.job.Idle?
      && v' == v.(mutex := Free, worker := Resting)
  }

  function ViewOf(w: World, id: nat, ns: string): View
    requires id in w.workers && ns in w.spaces
  {
    View(w.spaces[ns], MutexOf(w, ns), w.workers[id])
  }

  function Put(w: World, id: nat, ns: string, v: View): World {
    World(w.spaces[ns := v.space], w.mutexes[ns := v.mutex], w.workers[id := v.worker])
  }

  /** The job that is running in a namespace: that of the worker that holds the mutex. */
  function JobIn(w: World, ns: string): Job {
    var m := MutexOf(w, ns);
    if m.HeldBy? && m.worker in w.workers && w.workers[m.worker].Inside? then w.workers[m.worker].job else Idle
  }

  /** The world as one namespace sees it. */
  function Project(w: World, ns: string): State
    requires ns in w.spaces
  {
    State(w.spaces[ns], JobIn(w, ns))
  }

  predicate WorldMoves(w: World, st: WorldStep, w': World) {
    match st
    case By(id, ws) =>
      && id in w.workers && Concerns(w.workers[id], ws) in w.spaces
      && var ns := Concerns(w.workers[id], ws);
         && id in w'.workers && ns in w'.spaces
         && w' == Put(w, id, ns, ViewOf(w', id, ns))
         && ViewMoves(id, ViewOf(w, id, ns), ws, ViewOf(w', id, ns))
    case On(ns, step) =>
      && ns in w.spaces && ns in w'.spaces
      && (step.Other? || step.Refresh? || (step.Queue? && (step.queue.Enqueue? || step.queue.EnqueueAll?)))
      && w' == w.(spaces := w.spaces[ns := w'.spaces[ns]])
      && Moves(Project(w, ns), step, State(w'.spaces[ns], JobIn(w, ns)))
    case Restart =>
      w' == World(map ns | ns in w.spaces :: Crashed(w.spaces[ns]), map[], map id | id in w.workers :: Resting)
  }

  // ---------------------------------------------------------------- mutual exclusion

  /** Inside means holding the mutex; having a key means it is taken. */
  predicate WorkerOk(w: World, id: nat)
    requires id in w.workers
  {
    match w.workers[id]
    case Resting => true
    case Waiting(ns, key) => ns in w.spaces && key in w.spaces[ns].taken
    case Inside(ns, job) => ns in w.spaces && MutexOf(w, ns) == HeldBy(id) && (!job.Idle? ==> job.key in w.spaces[ns].taken)
  }

  predicate MutexOk(w: World, ns: string) {
    MutexOf(w, ns).HeldBy? ==>
      var id := MutexOf(w, ns).worker;
      id in w.workers && w.workers[id].Inside? && w.workers[id].ns == ns
  }

  function KeyOf(worker: Worker): Name
    requires worker.Waiting? || (worker.Inside? && !worker.job.Idle?)
  {
    if worker.Waiting? then worker.key else worker.job.key
  }

  /** The worker holds a key. */
  predicate Busy(worker: Worker) {
    worker.Waiting? || (worker.Inside? && !worker.job.Idle?)
  }

  /** No two workers hold the same key. */
  predicate Apart(a: Worker, b: Worker) {
    Busy(a) && Busy(b) && a.ns == b.ns ==> KeyOf(a) != KeyOf(b)
  }

  predicate Exclusive(w: World) {
    && (forall id | id in w.workers :: WorkerOk(w, id))
    && (forall ns | ns in w.mutexes :: MutexOk(w, ns))
    && (forall id, jd | id in w.workers && jd in w.workers && id != jd :: Apart(w.workers[id], w.workers[jd]))
  }

  /** A worker's own view of the rules. */
  lemma ViewKeeps(id: nat, v: View, st: WorkerStep, v': View, ns: string)
    requires ViewMoves(id, v, st, v') && Concerns(v.worker, st) == ns
    requires v.worker.Inside? <==> v.mutex == HeldBy(id)
    requires Busy(v.worker) ==> KeyOf(v.worker) in v.space.taken
    ensures !v'.worker.Resting? ==> v'.worker.ns == ns
    ensures v'.worker.Inside? <==> v'.mutex == HeldBy(id)
    ensures v'.mutex == v.mutex || v'.mutex == Free || v.mutex == Free
    ensures v.mutex.HeldBy? && v.mutex != HeldBy(id) ==> v'.mutex == v.mutex
    ensures v'.mutex.HeldBy? && v'.mutex != HeldBy(id) ==> v'.mutex == v.mutex
    ensures Busy(v'.worker) ==> KeyOf(v'.worker) in v'.space.taken
    ensures Busy(v'.worker) ==> if Busy(v.worker) then KeyOf(v'.worker) == KeyOf(v.worker) else KeyOf(v'.worker) !in v.space.taken
    ensures forall k | k in v.space.taken && (Busy(v.worker) ==> k != KeyOf(v.worker)) :: k in v'.space.taken
  {
    if st.Call? { JobKey(v.space, v.worker.job, st.step); }
  }

  lemma ByKeepsExclusive(w: World, id: nat, st: WorkerStep, w': World)
    requires Exclusive(w) && WorldMoves(w, By(id, st), w')
    ensures Exclusive(w')
  {
    var ns := Concerns(w.workers[id], st);
    var v, v' := ViewOf(w, id, ns), ViewOf(w', id, ns);
    assert WorkerOk(w, id) && (ns in w.mutexes ==> MutexOk(w, ns));
    ViewKeeps(id, v, st, v', ns);
    forall jd | jd in w'.workers ensures WorkerOk(w', jd) {
      if jd != id {
        assert WorkerOk(w, jd) && Apart(w.workers[jd], w.workers[id]);
      }
    }
    forall m | m in w'.mutexes ensures MutexOk(w', m) {
      if m in w.mutexes { assert MutexOk(w, m); }
    }
    forall i, j | i in w'.workers && j in w'.workers && i != j ensures Apart(w'.workers[i], w'.workers[j]) {
      assert Apart(w.workers[i], w.workers[j]) && WorkerOk(w, i) && WorkerOk(w, j);
    }
  }

  lemma OnKeepsExclusive(w: World, ns: string, st: Step, w': World)
    requires Exclusive(w) && WorldMoves(w, On(ns, st), w')
    ensures Exclusive(w')
  {
    TakenStays(Project(w, ns), st, State(w'.spaces[ns], JobIn(w, ns)));
    forall id | id in w'.workers ensures WorkerOk(w', id) { assert WorkerOk(w, id); }
    forall m | m in w'.mutexes ensures MutexOk(w', m) { assert MutexOk(w, m); }
  }

  /** Nobody but the workers touches the keys in their hands. */
  lemma TakenStays(s: State, st: Step, s': State)
    requires Moves(s, st, s') && (st.Other? || st.Refresh? || (st.Queue? && (st.queue.Enqueue? || st.queue.EnqueueAll?)))
    ensures s'.space.taken == s.space.taken
  {
    if st.Other? { ActTaken(s.space, st.user, st.act); }
  }

  lemma ActTaken(p: Space, user: string, act: Act)
    requires ActPossible(p, user, act)
    ensures ActNext(p, user, act).taken == p.taken
  {
  }

  lemma WorldKeepsExclusive(w: World, st: WorldStep, w': World)
    requires Exclusive(w) && WorldMoves(w, st, w')
    ensures Exclusive(w')
  {
    match st
    case By(id, ws) => ByKeepsExclusive(w, id, ws, w');
    case On(ns, step) => OnKeepsExclusive(w, ns, step, w');
    case Restart =>
  }

  // ---------------------------------------------------------------- refinement

  /** What a worker's step is for the namespace: at most one protocol step. */
  function StepOf(worker: Worker, st: WorkerStep): Option<Step> {
    match st
    case TakeKey(_, key) => Some(Queue(Pop(key)))
    case GiveUp => if worker.Waiting? then Some(Queue(StoreError(worker.key))) else None
    case LockMutex => if worker.Waiting? then Some(Queue(Take(worker.key))) else None
    case Call(js) => Some(Do(js))
    case UnlockMutex => None
  }

  datatype Option<T> = None | Some(value: T)

  /** The job that is running in a namespace changes only by the step of its own worker. */
  lemma JobsElsewhere(w: World, id: nat, st: WorkerStep, w': World, ns: string)
    requires Exclusive(w) && WorldMoves(w, By(id, st), w') && ns in w.spaces && ns != Concerns(w.workers[id], st)
    ensures ns in w'.spaces && Project(w', ns) == Project(w, ns)
  {
    assert ns in w.mutexes ==> MutexOk(w, ns);
    assert WorkerOk(w, id);
  }

  lemma ByProjects(w: World, id: nat, st: WorkerStep, w': World)
    requires Exclusive(w) && WorldMoves(w, By(id, st), w')
    ensures var ns := Concerns(w.workers[id], st);
      match StepOf(w.workers[id], st)
      case Some(step) => Moves(Project(w, ns), step, Project(w', ns))
      case None => Project(w', ns) == Project(w, ns)
  {
    var ns := Concerns(w.workers[id], st);
    var v, v' := ViewOf(w, id, ns), ViewOf(w', id, ns);
    assert WorkerOk(w, id) && (ns in w.mutexes ==> MutexOk(w, ns));
    ViewKeeps(id, v, st, v', ns);
    JobSeen(w, id, ns);
    ByKeepsExclusive(w, id, st, w');
    assert WorkerOk(w', id) && (ns in w'.mutexes ==> MutexOk(w', ns));
    match st
    case TakeKey(_, key) =>
      assert JobIn(w', ns) == JobIn(w, ns);
    case GiveUp =>
      assert JobIn(w', ns) == JobIn(w, ns);
      HolderApart(w, id, ns);
    case LockMutex =>
    case Call(js) =>
    case UnlockMutex =>
  }

  lemma JobSeen(w: World, id: nat, ns: string)
    requires Exclusive(w) && id in w.workers
    ensures w.workers[id].Inside? && w.workers[id].ns == ns ==> JobIn(w, ns) == w.workers[id].job
  {
    assert WorkerOk(w, id);
  }

  lemma HolderApart(w: World, id: nat, ns: string)
    requires Exclusive(w) && id in w.workers && w.workers[id].Waiting? && w.workers[id].ns == ns
    ensures !JobIn(w, ns).Idle? ==> JobIn(w, ns).key != w.workers[id].key
  {
    if !JobIn(w, ns).Idle? {
      var jd := MutexOf(w, ns).worker;
      assert MutexOk(w, ns) && Apart(w.workers[jd], w.workers[id]);
    }
  }

  /** Concurrent workers refine sequential reconciles: one step of the world is, for each
      namespace, one step of its protocol or none. */
  lemma WorldRefines(w: World, st: WorldStep, w': World, ns: string) returns (step: Option<Step>)
    requires Exclusive(w) && WorldMoves(w, st, w') && ns in w.spaces
    ensures ns in w'.spaces
    ensures match step
            case Some(x) => Moves(Project(w, ns), x, Project(w', ns))
            case None => Project(w', ns) == Project(w, ns)
  {
    match st
    case By(id, ws) =>
      if ns == Concerns(w.workers[id], ws) {
        ByProjects(w, id, ws, w');
        step := StepOf(w.workers[id], ws);
      } else {
        JobsElsewhere(w, id, ws, w', ns);
        step := None;
      }
    case On(m, x) =>
      step := if m == ns then Some(x) else None;
    case Restart =>
      step := Some(Crash);
  }

  // ---------------------------------------------------------------- whole runs

  predicate WorldRun(worlds: seq<World>, steps: seq<WorldStep>) {
    |worlds| == |steps| + 1 && forall i | 0 <= i < |steps| :: WorldMoves(worlds[i], steps[i], worlds[i + 1])
  }

  /** Any number of resting workers, no mutex made yet, untouched namespaces. */
  predicate WorldInit(w: World) {
    && (forall id | id in w.workers :: w.workers[id].Resting?)
    && w.mutexes == map[]
    && (forall ns | ns in w.spaces :: Init(State(w.spaces[ns], Idle)))
  }

  lemma {:induction false} ExclusiveAlways(worlds: seq<World>, steps: seq<WorldStep>, i: nat)
    requires WorldRun(worlds, steps) && WorldInit(worlds[0]) && i < |worlds|
    ensures Exclusive(worlds[i])
  {
    if i > 0 {
      ExclusiveAlways(worlds, steps, i - 1);
      WorldKeepsExclusive(worlds[i - 1], steps[i - 1], worlds[i]);
    }
  }

  /** Mutual exclusion: in every reachable world at most one worker is inside a namespace, and
      no two workers ever hold the same key. */
  lemma MutualExclusion(worlds: seq<World>, steps: seq<WorldStep>, i: nat, id: nat, jd: nat)
    requires WorldRun(worlds, steps) && WorldInit(worlds[0]) && i < |worlds|
    requires id in worlds[i].workers && jd in worlds[i].workers && id != jd
    ensures var a, b := worlds[i].workers[id], worlds[i].workers[jd];
      && (a.Inside? && b.Inside? ==> a.ns != b.ns)
      && Apart(a, b)
  {
    ExclusiveAlways(worlds, steps, i);
    assert WorkerOk(worlds[i], id) && WorkerOk(worlds[i], jd);
  }

  /** The run of the world, projected on one namespace, is a run of that namespace's protocol:
      reconciles one after the other, whatever the workers did elsewhere in between. */
  lemma {:induction false} ProjectedRun(worlds: seq<World>, steps: seq<WorldStep>, ns: string, n: nat)
      returns (states: seq<State>, moves: seq<Step>)
    requires WorldRun(worlds, steps) && WorldInit(worlds[0]) && ns in worlds[0].spaces && n < |worlds|
    ensures ns in worlds[n].spaces
    ensures Execution(states, moves) && Init(states[0]) && states[|moves|] == Project(worlds[n], ns)
  {
    if n == 0 {
      states, moves := [Project(worlds[0], ns)], [];
    } else {
      states, moves := ProjectedRun(worlds, steps, ns, n - 1);
      ExclusiveAlways(worlds, steps, n - 1);
      var step := WorldRefines(worlds[n - 1], steps[n - 1], worlds[n], ns);
      if step.Some? {
        ExecutionGrows(states, moves, step.value, Project(worlds[n], ns));
        states, moves := states + [Project(worlds[n], ns)], moves + [step.value];
      }
    }
  }

  /** So every namespace keeps its undo log, its lock and its lock cache, however many workers
      there are and however they are interleaved. */
  lemma WorldKeepsInv(worlds: seq<World>, steps: seq<WorldStep>, ns: string, n: nat)
    requires WorldRun(worlds, steps) && WorldInit(worlds[0]) && ns in worlds[0].spaces && n < |worlds|
    ensures ns in worlds[n].spaces && Inv(Project(worlds[n], ns))
  {
    var states, moves := ProjectedRun(worlds, steps, ns, n);
    InitHasInv(states[0]);
    InvAlways(states, moves, |moves|);
  }

  // ---------------------------------------------------------------- independence

  /** Steps of different workers on different namespaces commute: if one can follow the other,
      they can be swapped, and lead to the same world. */
  lemma StepsCommute(w: World, id: nat, a: WorkerStep, w1: World, jd: nat, b: WorkerStep, w2: World) returns (w1': World)
    requires WorldMoves(w, By(id, a), w1) && WorldMoves(w1, By(jd, b), w2)
    requires id != jd && jd in w.workers && Concerns(w.workers[id], a) != Concerns(w.workers[jd], b)
    ensures WorldMoves(w, By(jd, b), w1') && WorldMoves(w1', By(id, a), w2)
  {
    var ns, ms := Concerns(w.workers[id], a), Concerns(w.workers[jd], b);
    assert w1.workers[jd] == w.workers[jd] && ms in w.spaces;
    w1' := Put(w, jd, ms, ViewOf(w2, jd, ms));
    PutsCommute(w, id, ns, ViewOf(w1, id, ns), jd, ms, ViewOf(w2, jd, ms));
    assert ViewOf(w1, jd, ms) == ViewOf(w, jd, ms);
    assert ViewOf(w1', jd, ms) == ViewOf(w2, jd, ms);
    assert ViewOf(w1', id, ns) == ViewOf(w, id, ns);
    assert ViewOf(w2, id, ns) == ViewOf(w1, id, ns);
  }

  lemma PutsCommute(w: World, id: nat, ns: string, v: View, jd: nat, ms: string, u: View)
    requires id != jd && ns != ms
    ensures Put(Put(w, id, ns, v), jd, ms, u) == Put(Put(w, jd, ms, u), id, ns, v)
  {
    assert w.spaces[ns := v.space][ms := u.space] == w.spaces[ms := u.space][ns := v.space];
    assert w.mutexes[ns := v.mutex][ms := u.mutex] == w.mutexes[ms := u.mutex][ns := v.mutex];
    assert w.workers[id := v.worker][jd := u.worker] == w.workers[jd := u.worker][id := v.worker];
  }

  /** So do a worker's step and whatever else happens in another namespace: this way round, */
  lemma OthersCommute(w: World, id: nat, a: WorkerStep, w1: World, ms: string, st: Step, w2: World) returns (w1': World)
    requires Exclusive(w) && WorldMoves(w, By(id, a), w1) && WorldMoves(w1, On(ms, st), w2)
    requires Concerns(w.workers[id], a) != ms
    ensures WorldMoves(w, On(ms, st), w1') && WorldMoves(w1', By(id, a), w2)
  {
    var ns := Concerns(w.workers[id], a);
    JobsElsewhere(w, id, a, w1, ms);
    w1' := w.(spaces := w.spaces[ms := w2.spaces[ms]]);
    assert w1.spaces[ms] == w.spaces[ms] && ms in w.spaces;
    assert ViewOf(w1', id, ns) == ViewOf(w, id, ns);
    assert ViewOf(w2, id, ns) == ViewOf(w1, id, ns);
    assert w2 == Put(w1', id, ns, ViewOf(w2, id, ns)) by {
      assert w.spaces[ns := w1.spaces[ns]][ms := w2.spaces[ms]] == w.spaces[ms := w2.spaces[ms]][ns := w2.spaces[ns]];
    }
  }

  /** and that way round. */
  lemma OthersCommuteBack(w: World, ms: string, st: Step, w1: World, id: nat, a: WorkerStep, w2: World) returns (w1': World)
    requires Exclusive(w) && WorldMoves(w, On(ms, st), w1) && WorldMoves(w1, By(id, a), w2)
    requires Concerns(w.workers[id], a) != ms
    ensures WorldMoves(w, By(id, a), w1') && WorldMoves(w1', On(ms, st), w2)
  {
    var ns := Concerns(w.workers[id], a);
    w1' := Put(w, id, ns, ViewOf(w2, id, ns));
    assert ViewOf(w1, id, ns) == ViewOf(w, id, ns);
    assert ViewOf(w1', id, ns) == ViewOf(w2, id, ns);
    assert WorldMoves(w, By(id, a), w1');
    JobsElsewhere(w, id, a, w1', ms);
    assert w1'.spaces[ms] == w.spaces[ms] && w2.spaces[ms] == w1.spaces[ms];
    assert w.spaces[ns := w2.spaces[ns]][ms := w1.spaces[ms]] == w.spaces[ms := w1.spaces[ms]][ns := w2.spaces[ns]];
  }
}
