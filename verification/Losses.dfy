/** A run from an untouched namespace in which a tenant's quota keeps what it was lent: an update
    fails, and the key is retried before the informer has caught up. */
module Losses {
  import opened Resources
  import LockStates
  import opened Protocol
  import opened Invariant
  import opened Runs
  import opened Reconciles
  import opened Lending
  import opened Traces
  import opened Blind
  import opened Lag

  // ---------------------------------------------------------------- reachable states

  /** Some run under the assumptions, from a namespace that was not touched before, gets there. */
  ghost predicate Reached(s: State) {
    exists states, steps :: Execution(states, steps) && Init(states[0]) && states[|steps|] == s
  }

  lemma ReachedAtFirst(s: State)
    requires Init(s)
    ensures Reached(s)
  {
    assert Execution([s], []);
  }

  lemma ReachedByMove(s: State, st: Step, s': State)
    requires Reached(s) && Moves(s, st, s')
    ensures Reached(s')
  {
    var states, steps :| Execution(states, steps) && Init(states[0]) && states[|steps|] == s;
    ExecutionGrows(states, steps, st, s');
    assert (states + [s'])[|steps + [st]|] == s';
  }

  lemma {:induction false} ReachedByTrace(states: seq<State>, steps: seq<JobStep>, mode: Mode, i: nat)
    requires Trace(states, steps, mode) && mode.sound && Reached(states[0]) && i < |states|
    ensures Reached(states[i])
  {
    hide Reached;
    if i > 0 {
      ReachedByTrace(states, steps, mode, i - 1);
      assert StepAt(states, steps, i - 1, mode);
      ReachedByMove(states[i - 1], Do(steps[i - 1]), states[i]);
    }
  }

  lemma ReachedByRun(s: State, s': State, mode: Mode)
    requires Reached(s) && RunsTo(s, s', mode) && mode.sound
    ensures Reached(s')
  {
    var states: seq<State>, steps: seq<JobStep> :| Trace(states, steps, mode) && states[0] == s && states[|steps|] == s';
    ReachedByTrace(states, steps, mode, |steps|);
  }

  lemma {:induction false} ReachedQuietly(states: seq<State>, steps: seq<JobStep>, m: Migration, i: nat)
    requires Quiet(states, steps, m) && Reached(states[0]) && i < |states|
    ensures Reached(states[i])
  {
    hide Reached;
    if i > 0 {
      ReachedQuietly(states, steps, m, i - 1);
      ReachedByMove(states[i - 1], Do(steps[i - 1]), states[i]);
    }
  }

  lemma ReachedByReconcile(s: State, m: Migration, s': State)
    requires Reached(s) && LeadsTo(s, m, s')
    ensures Reached(s')
  {
    var states: seq<State>, steps: seq<JobStep> :| Quiet(states, steps, m) && states[0] == s && states[|steps|] == s';
    ReachedQuietly(states, steps, m, |steps|);
  }

  lemma ReachedEntering(s: State, key: Name)
    requires Reached(s) && s.job.Idle? && key !in s.space.taken
    ensures Reached(Enter(s, key))
  {
    Entering(s, key);
    var s1 := State(s.space.(cache := s.space.live), Idle);
    var s2 := QueueNext(s1.space, Idle, Enqueue(key));
    var s3 := State(s1.space.(pending := s.space.pending - {key}, taken := s.space.taken + {key}), Idle);
    ReachedByMove(s, Refresh, s1);
    ReachedByMove(s1, Queue(Enqueue(key)), s2);
    ReachedByMove(s2, Queue(Pop(key)), s3);
    ReachedByMove(s3, Queue(Take(key)), Enter(s, key));
  }

  // ---------------------------------------------------------------- one quota, one migration

  function Cpu(n: int): ResourceList {
    map["cpu" := n]
  }

  /** One quota of one cpu, all of it in use, and a VMMRQ that offers two more. */
  function Untouched(): State {
    State(Space("kubevirt", "mtq",
                map["q" := Cpu(1)], map["q" := Cpu(1)], [Vmmrq(Cpu(2), EMPTY_STATUS)], Gone, false,
                map["q" := Cpu(1)], LockStates.Unknown, {}, {}, false,
                map["q" := Cpu(1)], map[], {map[], Cpu(2)}),
          Idle)
  }

  /** A migration whose target needs one cpu. */
  const NEEDS_ONE := Blocked(Cpu(1), map["q" := Seen(Cpu(1), Cpu(1), Applies, Applies)])

  const LENT_STATUS := Status(Cpu(2), map["m" := {"q"}], map["q" := Cpu(1)])

  lemma QuotaBlocks()
    ensures Names(Status(Cpu(2), map[], map[]), NEEDS_ONE, map["q" := Cpu(1)]) == {"q"}
  {
    var cache := map["q" := Cpu(1)];
    var request := Cpu(1);
    assert Plus(Cpu(1), Cpu(2)) == Cpu(3);
    assert "cpu" in request && Overruns(Cpu(1), Cpu(1), request, "cpu");
    assert AtBase("q", map[], NEEDS_ONE) == Exceeded;
    assert AfterAddition("q", cache, map[], NEEDS_ONE, Cpu(2)) == Admitted;
  }

  lemma LendsTwo()
    ensures Reconciled(Enter(Untouched(), "m").space, "m", NEEDS_ONE) == Goal(map["q" := Cpu(3)], [Vmmrq(Cpu(2), LENT_STATUS)], true)
  {
    var prev := Status(Cpu(2), map[], map[]);
    var live := map["q" := Cpu(1)];
    QuotaBlocks();
    var next := Replan(prev, "m", NEEDS_ONE, live);
    assert next.migrations == map["m" := {"q"}];
    assert "m" in next.migrations && Flat(next.migrations) == {"q"};
    assert next == LENT_STATUS;
    assert Plus(Cpu(1), Cpu(2)) == Cpu(3);
    assert GoalLive(live, prev, next) == map["q" := Cpu(3)];
  }

  /** The loan: a reconcile of the blocked migration, and the key again when it is no longer blocked. */
  lemma LoanIsMade() returns (s: State)
    ensures Reached(s) && LoanIsOut(s)
  {
    var s0 := Untouched();
    InitHasInv(s0);
    ReachedAtFirst(s0);
    ReachedEntering(s0, "m");
    Entering(s0, "m");
    var s1 := ReconcileCompletes(Enter(s0, "m"), NEEDS_ONE);
    ReconcileEnds(Enter(s0, "m"), NEEDS_ONE, s1);
    TakenAfter(Enter(s0, "m"), "m", NEEDS_ONE, s1);
    ReachedByReconcile(Enter(s0, "m"), NEEDS_ONE, s1);
    LendsTwo();
    ReachedEntering(s1, "m");
    Entering(s1, "m");
    s := Enter(s1, "m");
  }

  /** A reconcile of a migration that is not blocked any more, up to its first restore. */
  function Returning(s: State): State
    requires s.job.Listing? && |s.space.vmmrqs| == 1
  {
    var prev := s.space.vmmrqs[0].status;
    var next := Replan(prev, s.job.key, NotBlocked, s.space.cache);
    State(s.space.(listed := At(0)), Acting(s.job.key, prev, next, Forget, Stage.Restoring(true, ToRestore(prev, next))))
  }

  lemma ReturnBegins(s: State, mode: Mode)
    requires s.job.Listing? && |s.space.vmmrqs| == 1 && s.space.vmmrqs[0].spec == s.space.vmmrqs[0].status.additional
    requires s.space.webhook && s.space.lockState.Agrees(true) && s.space.cache == s.space.live && mode.migration == NotBlocked
    ensures RunsTo(s, Returning(s), mode)
  {
    hide Trace;
    var key, v, p := s.job.key, s.space.vmmrqs[0], s.space.(listed := At(0));
    var s1 := State(p, Syncing(key, v));
    var s2 := State(p, Deciding(key, v.status));
    var s3 := State(p, Acting(key, v.status, Replan(v.status, key, NotBlocked, s.space.cache), Forget, Looking));
    Lists(s, mode);
    SameStatus(p);
    assert v.status.(additional := v.spec) == v.status;
    Syncs(s1, mode);
    Then(s, s1, s2, mode);
    Decides(s2, NotBlocked, mode);
    Then(s, s2, s3, mode);
    TakesLock(s3, mode);
    Then(s, s3, Returning(s), mode);
  }

  predicate LoanIsOut(s: State) {
    && Inv(s) && s.job == Listing("m") && s.space.cache == s.space.live == map["q" := Cpu(3)]
    && s.space.vmmrqs == [Vmmrq(Cpu(2), LENT_STATUS)] && s.space.webhook && s.space.tenant == map["q" := Cpu(1)]
  }

  lemma GivesBack(s: State)
    requires LoanIsOut(s) && Inv(Returning(s))
    ensures GivingBack(Returning(s), "q")
  {
    NothingPlanned(s.space.cache);
    assert Cpu(3)["cpu"] == 3 && Cpu(1)["cpu"] == 1;
  }

  lemma NothingPlanned(cache: map<Name, ResourceList>)
    ensures ToRestore(LENT_STATUS, Replan(LENT_STATUS, "m", NotBlocked, cache)) == {"q"}
  {
    var next := Replan(LENT_STATUS, "m", NotBlocked, cache);
    assert next.migrations == map[] by { assert next.migrations.Keys == {}; }
    assert next.originals == map[] by { assert next.originals.Keys == {}; }
    assert LENT_STATUS.originals.Keys == {"q"};
  }

  lemma ReachedAgain(s: State, n: Name)
    requires Reached(s) && GivingBack(s, n)
    ensures Reached(TakenAgain(s, n))
  {
    hide Reached, GivingBack;
    FailsAndIsTaken(s, n);
    var failed := Failed(s, n);
    ReachedByMove(s, Do(FailUpdate(n)), failed);
    ReachedByMove(failed, Queue(Pop(s.job.key)), Popped(failed, s.job.key));
    ReachedByMove(Popped(failed, s.job.key), Queue(Take(s.job.key)), TakenAgain(s, n));
  }

  /** The run: the tenant's quota was one cpu, is lent two, and keeps three when the record is empty
      and the lock is gone. Up to the retry, which starts with a stale cache, every step keeps to
      the assumptions. */
  lemma LoanIsKept() returns (s: State, states: seq<State>, steps: seq<JobStep>)
    ensures Reached(s) && WholeBlind(states, steps, s, NotBlocked)
    ensures var p := states[|steps|].space;
      Log(p) == map[] && !p.webhook && "q" in p.live && "q" in p.tenant && p.live["q"] == Cpu(3) && p.tenant["q"] == Cpu(1)
  {
    hide Reached, GivingBack, RunsTo, TakenAgain;
    var s0 := LoanIsMade();
    var s1, mode := Returning(s0), Mode(true, true, NotBlocked);
    ReturnBegins(s0, mode);
    ReachedByRun(s0, s1, mode);
    RunKeepsInv(s0, s1, mode);
    GivesBack(s0);
    ReachedAgain(s1, "q");
    s := TakenAgain(s1, "q");
    states, steps := RetryExists(s1, "q");
    RetryKeepsLoan(s1, "q", states, steps);
  }
}
