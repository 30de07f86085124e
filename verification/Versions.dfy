/** Status updates and resource versions. A reconcile updates the VMMRQ's status at most twice; the
    second update carries the version from before the first, since the returned object is dropped.
    Here is exactly which reconciles a server that insists on versions lets complete. */
module Versions {
  import opened Protocol
  import opened Reconciles
  import opened Lending

  predicate SyncsAt(states: seq<State>, steps: seq<JobStep>, i: nat)
    requires i < |steps| == |states| - 1
  {
    steps[i].SyncAdditional? && SyncSends(states[i].job)
  }

  /** The second update, where `reordered` says that the lists come out in another order if they can. */
  predicate WritesAt(states: seq<State>, steps: seq<JobStep>, reordered: bool, i: nat)
    requires i < |steps| == |states| - 1
  {
    steps[i].Write? && states[i].job.Acting? && (WriteSends(states[i].job) || (reordered && Reorderable(states[i].job.next)))
  }

  /** The first `i` calls of the run include the update that copies the additional resources. */
  predicate SyncedBy(states: seq<State>, steps: seq<JobStep>, i: nat)
    requires i <= |steps| == |states| - 1
  {
    exists j :: 0 <= j < i && SyncsAt(states, steps, j)
  }

  predicate WrittenBy(states: seq<State>, steps: seq<JobStep>, reordered: bool, i: nat)
    requires i <= |steps| == |states| - 1
  {
    exists j :: 0 <= j < i && WritesAt(states, steps, reordered, j)
  }

  /** The server refuses the second update: the first has given the VMMRQ a new version. */
  predicate Refused(states: seq<State>, steps: seq<JobStep>, reordered: bool)
    requires |states| == |steps| + 1
  {
    SyncedBy(states, steps, |steps|) && WrittenBy(states, steps, reordered, |steps|)
  }

  /** A failure-free reconcile from `s`, to its end. */
  predicate WholeReconcile(states: seq<State>, steps: seq<JobStep>, s: State, m: Migration) {
    Quiet(states, steps, m) && states[0] == s && states[|steps|].job.Idle?
  }

  /** A worker is about to reconcile a namespace with one VMMRQ. */
  predicate Starts(s: State, m: Migration) {
    s.job.Listing? && |s.space.vmmrqs| == 1 && (m.Blocked? ==> s.space.cache.Keys <= m.seen.Keys)
  }

  /** The copy changes the status. */
  predicate OutOfSync(s: State)
    requires |s.space.vmmrqs| == 1
  {
    s.space.vmmrqs[0].spec != s.space.vmmrqs[0].status.additional
  }

  function PlanFrom(s: State, m: Migration): Status
    requires Starts(s, m)
  {
    Replan(Synced(s.space.vmmrqs[0]), s.job.key, m, s.space.cache)
  }

  /** The plan changes the record. */
  predicate ChangesRecord(s: State, m: Migration)
    requires Starts(s, m)
  {
    PlanFrom(s, m) != Synced(s.space.vmmrqs[0])
  }

  /** The reconcile sends the second update. */
  predicate Writes(s: State, m: Migration, reordered: bool)
    requires Starts(s, m)
  {
    ChangesRecord(s, m) || (reordered && Reorderable(PlanFrom(s, m)))
  }

  // ---------------------------------------------------------------- what has been sent so far

  /** The job that began in `s`, after the updates `synced` and `written`. */
  predicate SentSoFar(s: State, m: Migration, reordered: bool, now: State, synced: bool, written: bool)
    requires Starts(s, m)
  {
    var v := s.space.vmmrqs[0];
    match now.job
    case Listing(k) => now == s && !synced && !written
    case Syncing(k, w) =>
      k == s.job.key && w == v && now.space.cache == s.space.cache && now.space.vmmrqs == [v] && now.space.listed == At(0) &&
      !synced && !written
    case Deciding(k, prev) =>
      k == s.job.key && prev == Synced(v) && now.space.cache == s.space.cache && now.space.vmmrqs == [Vmmrq(v.spec, prev)] &&
      now.space.listed == At(0) && (synced <==> OutOfSync(s)) && !written
    case Acting(k, prev, next, _, stage) =>
      k == s.job.key && prev == Synced(v) && next == PlanFrom(s, m) && (synced <==> OutOfSync(s)) &&
      (written <==> stage.Boosting? && Writes(s, m, reordered)) &&
      (!stage.Boosting? ==> now.space.vmmrqs == [Vmmrq(v.spec, prev)] && now.space.listed == At(0))
    case Idle => (synced <==> OutOfSync(s)) && (written <==> Writes(s, m, reordered))
  }

  lemma SendsOn(s: State, m: Migration, reordered: bool, now: State, st: JobStep, synced: bool, written: bool)
    requires Starts(s, m) && SentSoFar(s, m, reordered, now, synced, written) && JobPossible(now.space, now.job, st)
    requires st.Succeeds() && (st.Decide? ==> st.migration == m)
    ensures SentSoFar(s, m, reordered, JobNext(now.space, now.job, st), synced || (st.SyncAdditional? && SyncSends(now.job)),
                      written || (st.Write? && (WriteSends(now.job) || (reordered && Reorderable(now.job.next)))))
  {
  }

  lemma {:induction false} SentAt(states: seq<State>, steps: seq<JobStep>, m: Migration, reordered: bool, i: nat)
    requires Quiet(states, steps, m) && Starts(states[0], m) && i <= |steps|
    ensures SentSoFar(states[0], m, reordered, states[i], SyncedBy(states, steps, i), WrittenBy(states, steps, reordered, i))
  {
    if i > 0 {
      SentAt(states, steps, m, reordered, i - 1);
      assert Moves(states[i - 1], Do(steps[i - 1]), states[i]);
      SendsOn(states[0], m, reordered, states[i - 1], steps[i - 1],
              SyncedBy(states, steps, i - 1), WrittenBy(states, steps, reordered, i - 1));
      assert SyncedBy(states, steps, i) <==> SyncedBy(states, steps, i - 1) || SyncsAt(states, steps, i - 1);
      assert WrittenBy(states, steps, reordered, i) <==>
             WrittenBy(states, steps, reordered, i - 1) || WritesAt(states, steps, reordered, i - 1);
    }
  }

  // ---------------------------------------------------------------- who completes

  /** Every failure-free reconcile sends the same updates, whatever order its loops run in. */
  lemma UpdatesExactly(states: seq<State>, steps: seq<JobStep>, s: State, m: Migration, reordered: bool)
    requires Starts(s, m) && WholeReconcile(states, steps, s, m)
    ensures SyncedBy(states, steps, |steps|) <==> OutOfSync(s)
    ensures WrittenBy(states, steps, reordered, |steps|) <==> Writes(s, m, reordered)
  {
    SentAt(states, steps, m, reordered, |steps|);
  }

  /** Where versions count: no reconcile is refused, whatever order its lists come out in, if and only
      if the VMMRQ is in sync with its spec, or the plan leaves the record as it is and the record
      cannot be reordered. */
  lemma NeverRefusedExactly(s: State, m: Migration)
    requires Starts(s, m) && Settled(s.space, m)
    ensures (forall states, steps, reordered | WholeReconcile(states, steps, s, m) :: !Refused(states, steps, reordered)) <==>
            !OutOfSync(s) || (!ChangesRecord(s, m) && !Reorderable(PlanFrom(s, m)))
  {
    forall states, steps, reordered | WholeReconcile(states, steps, s, m)
      ensures Refused(states, steps, reordered) <==> OutOfSync(s) && Writes(s, m, reordered)
    {
      UpdatesExactly(states, steps, s, m, reordered);
    }
    var states, steps := SomeReconcile(s, m);
    assert Refused(states, steps, true) <==> OutOfSync(s) && Writes(s, m, true);
  }

  /** And one can complete if and only if the VMMRQ is in sync or the plan leaves the record as it is. */
  lemma CompletesExactly(s: State, m: Migration)
    requires Starts(s, m) && Settled(s.space, m)
    ensures (exists states, steps, reordered :: WholeReconcile(states, steps, s, m) && !Refused(states, steps, reordered)) <==>
            !OutOfSync(s) || !ChangesRecord(s, m)
  {
    forall states, steps, reordered | WholeReconcile(states, steps, s, m)
      ensures Refused(states, steps, reordered) <==> OutOfSync(s) && Writes(s, m, reordered)
    {
      UpdatesExactly(states, steps, s, m, reordered);
    }
    var states, steps := SomeReconcile(s, m);
    assert Refused(states, steps, false) <==> OutOfSync(s) && Writes(s, m, false);
  }

  lemma SomeReconcile(s: State, m: Migration) returns (states: seq<State>, steps: seq<JobStep>)
    requires Starts(s, m) && Settled(s.space, m)
    ensures WholeReconcile(states, steps, s, m)
  {
    var s' := ReconcileCompletes(s, m);
    states, steps :| Quiet(states, steps, m) && states[0] == s && states[|steps|] == s';
  }

  /** The refused reconcile has copied the additional resources, so its retry is never refused for
      a version, whatever the informers say by then and whatever order its lists come out in. */
  lemma RetryCompletes(states: seq<State>, steps: seq<JobStep>, m: Migration, reordered: bool, i: nat, again: Migration)
    requires Quiet(states, steps, m) && Starts(states[0], m) && i < |steps| && WritesAt(states, steps, reordered, i)
    requires states[i].space.lockState.Agrees(states[i].space.webhook)
    requires again.Blocked? ==> states[i].space.live.Keys <= again.seen.Keys
    ensures var retry := Enter(Abort(states[i].space, states[i].job.key), states[i].job.key);
      && Starts(retry, again)
      && (exists states', steps' :: WholeReconcile(states', steps', retry, again))
      && forall states', steps', reordered' | WholeReconcile(states', steps', retry, again) :: !Refused(states', steps', reordered')
  {
    SentAt(states, steps, m, reordered, i);
    assert Moves(states[i], Do(steps[i]), states[i + 1]);
    var retry := Enter(Abort(states[i].space, states[i].job.key), states[i].job.key);
    var states', steps' := SomeReconcile(retry, again);
    NeverRefusedExactly(retry, again);
  }
}
