/** What the protocol is for: a blocked migration gets through, and everything is given back. */
module Lending {
  import opened Resources
  import opened Admission
  import opened Protocol
  import opened Invariant
  import opened Reconciles

  // ---------------------------------------------------------------- the blocking list

  /** The blocking list is empty if some quota stays exceeded after the addition, and is
      otherwise exactly the quotas exceeded at their base value and admitted after it. */
  lemma BlockingExact(cache: map<Name, ResourceList>, originals: map<Name, ResourceList>, b: Migration, add: ResourceList, n: Name)
    requires b.Blocked? && cache.Keys <= b.seen.Keys
    ensures n in BlockingNames(cache, originals, b, add) <==>
      && n in cache
      && AtBase(n, originals, b) == Exceeded
      && AfterAddition(n, cache, originals, b, add) == Admitted
      && forall k :: k in cache ==> AfterAddition(k, cache, originals, b, add) != Exceeded
  {
  }

  // ---------------------------------------------------------------- release

  /** The informer's view of usage and status is the truth about the namespace. */
  predicate SeesTruth(p: Space, m: Migration) {
    m.Blocked? && forall n | n in p.live ::
      && n in m.seen && n in p.used && m.seen[n].used == p.used[n]
      && (n !in Log(p) ==> m.seen[n].statusHard == p.live[n])
      && (m.seen[n].scope == Applies ==> m.seen[n].bare == Applies)
  }

  /** Quota `n` lets the target pod in, if the check can evaluate it at all. */
  predicate LetsIn(p: Space, m: Migration, n: Name)
    requires m.Blocked? && n in m.seen && n in p.live && n in p.used
  {
    m.seen[n].scope != Fails ==> Check(m.seen[n].scope, p.live[n], p.used[n], m.request) == Admitted
  }

  /** A quota that some earlier reconcile has raised and that this one leaves as it is. */
  predicate AlreadyRaised(p: Space, next: Status, n: Name) {
    n in p.live && n in next.originals && p.live[n] != next.originals[n]
  }

  /** A worker is about to reconcile a migration that the addition can release. */
  predicate Releasing(s: State, m: Migration) {
    && Inv(s) && s.job.Listing? && |s.space.vmmrqs| == 1 && Settled(s.space, m) && SeesTruth(s.space, m)
    && NonNegative(s.space.vmmrqs[0].spec)
    && Names(Synced(s.space.vmmrqs[0]), m, s.space.live) != {}
  }

  /** One quota at the end of the reconcile. */
  lemma QuotaAtTheEnd(s: State, m: Migration, n: Name)
    requires Releasing(s, m) && n in s.space.live
    ensures var p := s.space;
      var goal := Reconciled(p, s.job.key, m);
      var at := m.seen[n];
      && n in goal.live
      && (AlreadyRaised(p, goal.vmmrqs[0].status, n) ==> goal.live[n] == p.live[n])
      && (!AlreadyRaised(p, goal.vmmrqs[0].status, n) && at.scope != Fails ==>
            Check(at.scope, goal.live[n], at.used, m.request) == Admitted)
  {
    var p, key := s.space, s.job.key;
    var prev := Synced(p.vmmrqs[0]);
    var names := Names(prev, m, p.live);
    var next := Replan(prev, key, m, p.live);
    var add := prev.additional;
    assert Log(p) == prev.originals;
    var k :| k in names;
    BlockingExact(p.live, prev.originals, m, add, k);
    BlockingExact(p.live, prev.originals, m, add, n);
    assert AfterAddition(n, p.live, prev.originals, m, add) != Exceeded;
    if n in names {
      assert n in next.migrations[key] && n in Flat(next.migrations);
    }
    if n !in prev.originals {
      assert n !in p.lent;
    }
  }

  /** A non-empty blocking list makes for a non-empty log. */
  lemma NamesAreRecorded(p: Space, key: Name, m: Migration)
    requires |p.vmmrqs| == 1 && (m.Blocked? ==> p.live.Keys <= m.seen.Keys)
    ensures Names(Synced(p.vmmrqs[0]), m, p.live) <= Replan(Synced(p.vmmrqs[0]), key, m, p.live).originals.Keys
  {
    var prev := Synced(p.vmmrqs[0]);
    var next := Replan(prev, key, m, p.live);
    forall n | n in Names(prev, m, p.live) ensures n in next.originals {
      assert n in next.migrations[key] && n in Flat(next.migrations);
    }
  }

  /** The end of the reconcile, quota by quota. */
  predicate Opened(p: Space, p': Space, m: Migration) {
    && SeesTruth(p, m) && p'.webhook && p'.live.Keys == p.live.Keys && p'.used == p.used && |p'.vmmrqs| == 1
    && forall n | n in p.live ::
         if AlreadyRaised(p, p'.vmmrqs[0].status, n) then p'.live[n] == p.live[n]
         else m.seen[n].scope != Fails ==> Check(m.seen[n].scope, p'.live[n], m.seen[n].used, m.request) == Admitted
  }

  lemma EndsOpened(s: State, m: Migration, s': State)
    requires Releasing(s, m) && LeadsTo(s, m, s')
    ensures Opened(s.space, s'.space, m)
  {
    ReconcileEnds(s, m, s');
    NamesAreRecorded(s.space, s.job.key, m);
    forall n | n in s.space.live
      ensures AlreadyRaised(s.space, s'.space.vmmrqs[0].status, n) ==> s'.space.live[n] == s.space.live[n]
      ensures !AlreadyRaised(s.space, s'.space.vmmrqs[0].status, n) && m.seen[n].scope != Fails ==>
        Check(m.seen[n].scope, s'.space.live[n], m.seen[n].used, m.request) == Admitted
    {
      QuotaAtTheEnd(s, m, n);
    }
  }

  predicate AllLetIn(p: Space, m: Migration)
    requires m.Blocked?
  {
    forall n | n in p.live :: n in m.seen && n in p.used && LetsIn(p, m, n)
  }

  /** The quotas raised earlier, and left so, have room for the target pod as they are. */
  predicate EarlierLoansSuffice(p: Space, next: Status, m: Migration)
    requires m.Blocked?
  {
    forall n | n in p.live && AlreadyRaised(p, next, n) :: n in m.seen && n in p.used && LetsIn(p, m, n)
  }

  lemma OpenedExactly(p: Space, p': Space, m: Migration)
    requires Opened(p, p', m)
    ensures AllLetIn(p', m) <==> EarlierLoansSuffice(p, p'.vmmrqs[0].status, m)
  {
    if AllLetIn(p', m) {
      forall n | n in p.live && AlreadyRaised(p, p'.vmmrqs[0].status, n) ensures LetsIn(p, m, n) {
        assert LetsIn(p', m, n);
      }
    }
  }

  /** Release, exactly: after a failure-free reconcile with a non-empty blocking list the
      namespace is locked, and every quota that can be evaluated lets the target pod in if and
      only if the quotas that had been raised earlier, and stay raised, already did. */
  lemma ReleaseExact(s: State, m: Migration, s': State)
    requires Releasing(s, m) && LeadsTo(s, m, s')
    ensures s'.space.webhook && |s'.space.vmmrqs| == 1
    ensures AllLetIn(s'.space, m) <==> EarlierLoansSuffice(s.space, s'.space.vmmrqs[0].status, m)
  {
    EndsOpened(s, m, s');
    OpenedExactly(s.space, s'.space, m);
  }

  /** Release: when the addition has not changed since any loan, the migration's target pod
      can be created in the locked namespace, past every quota that selects it. */
  lemma Release(s: State, m: Migration, s': State, quotas: set<Name>)
    requires Releasing(s, m) && LeadsTo(s, m, s')
    requires forall n | n in s.space.lent :: s.space.lent[n] == s.space.vmmrqs[0].spec
    requires forall n | n in quotas && n in s.space.live :: m.seen[n].scope == Applies
    ensures s'.space.webhook && AllLetIn(s'.space, m)
    ensures ActPossible(s'.space, ServiceAccount(s'.space.kubevirtNs, VIRT_CONTROLLER),
                        AdmitPod(Labels({MIGRATION_JOB_LABEL}), m.request, quotas))
  {
    EndsOpened(s, m, s');
    forall n | n in s.space.live && AlreadyRaised(s.space, s'.space.vmmrqs[0].status, n) ensures LetsIn(s.space, m, n) {
      ReconcileEnds(s, m, s');
      RaisedByTheSame(s, m, n);
    }
    OpenedExactly(s.space, s'.space, m);
    PodGetsIn(s'.space, m, quotas);
  }

  lemma PodGetsIn(p: Space, m: Migration, quotas: set<Name>)
    requires m.Blocked? && AllLetIn(p, m)
    requires forall n | n in quotas && n in p.live :: m.seen[n].scope == Applies
    ensures ActPossible(p, ServiceAccount(p.kubevirtNs, VIRT_CONTROLLER),
                        AdmitPod(Labels({MIGRATION_JOB_LABEL}), m.request, quotas))
  {
    LockGuards(ServiceAccount(p.kubevirtNs, VIRT_CONTROLLER), Labels({MIGRATION_JOB_LABEL}), Create, p.kubevirtNs, p.mtqNs);
    forall n | n in quotas && n in p.live && n in p.used
      ensures Check(Applies, p.live[n], p.used[n], m.request) == Admitted
    {
      assert LetsIn(p, m, n);
    }
  }

  lemma RaisedByTheSame(s: State, m: Migration, n: Name)
    requires Releasing(s, m)
    requires forall n | n in s.space.lent :: s.space.lent[n] == s.space.vmmrqs[0].spec
    requires n in s.space.live && AlreadyRaised(s.space, Reconciled(s.space, s.job.key, m).vmmrqs[0].status, n)
    ensures LetsIn(s.space, m, n)
  {
    var p := s.space;
    var prev := Synced(p.vmmrqs[0]);
    var k :| k in Names(prev, m, p.live);
    BlockingExact(p.live, prev.originals, m, prev.additional, k);
    assert AfterAddition(n, p.live, prev.originals, m, prev.additional) != Exceeded;
    assert n in p.lent && n in Log(p) && Log(p) == prev.originals;
    assert p.live[n] == Plus(prev.originals[n], prev.additional);
  }

  // ---------------------------------------------------------------- giving everything back

  /** A worker has taken `key` and the informer has caught up. */
  function Enter(s: State, key: Name): State {
    State(s.space.(cache := s.space.live, pending := s.space.pending - {key}, taken := s.space.taken + {key}), Listing(key))
  }

  /** Between reconciles it is always possible to get there. */
  lemma Entering(s: State, key: Name)
    requires s.job.Idle? && key !in s.space.taken
    ensures var s1 := State(s.space.(cache := s.space.live), Idle);
            var s2 := QueueNext(s1.space, Idle, Enqueue(key));
            var s3 := State(s1.space.(pending := s.space.pending - {key}, taken := s.space.taken + {key}), Idle);
            Moves(s, Refresh, s1) && Moves(s1, Queue(Enqueue(key)), s2) &&
            Moves(s2, Queue(Pop(key)), s3) && Moves(s3, Queue(Take(key)), Enter(s, key))
    ensures Inv(s) ==> Inv(Enter(s, key))
  {
    var s1 := State(s.space.(cache := s.space.live), Idle);
    var s2 := QueueNext(s1.space, Idle, Enqueue(key));
    var s3 := QueueNext(s2.space, Idle, Pop(key));
    assert s2.space.pending - {key} == s.space.pending - {key};
    if Inv(s) {
      StepKeepsInv(s, Refresh, s1);
      StepKeepsInv(s1, Queue(Enqueue(key)), s2);
      StepKeepsInv(s2, Queue(Pop(key)), s3);
      StepKeepsInv(s3, Queue(Take(key)), Enter(s, key));
    }
  }

  /** Failure-free reconciles of `keys`, one after the other, none of them blocked any more. */
  ghost predicate Drains(states: seq<State>, keys: seq<Name>) {
    && |states| == |keys| + 1
    && forall i | 0 <= i < |keys| :: DrainsOne(states[i], keys[i], states[i + 1])
  }

  ghost predicate DrainsOne(s: State, key: Name, s': State) {
    s.job.Idle? && key !in s.space.taken && LeadsTo(Enter(s, key), NotBlocked, s')
  }

  /** One of them removes its entry and keeps the books. */
  lemma DrainStep(s: State, key: Name, s': State)
    requires Inv(s) && s.job.Idle? && key !in s.space.taken
    requires LeadsTo(Enter(s, key), NotBlocked, s')
    ensures Inv(s') && s'.job.Idle?
    ensures Entries(s'.space) == Entries(s.space) - {key}
    ensures s'.space.webhook == (Log(s'.space) != map[])
  {
    Entering(s, key);
    if |s.space.vmmrqs| == 1 {
      ReconcileEnds(Enter(s, key), NotBlocked, s');
    } else {
      ListingEnds(Enter(s, key), NotBlocked, s');
    }
  }

  /** Without exactly one VMMRQ the reconcile is over after the list; then there is no lock either. */
  lemma ListingEnds(s: State, m: Migration, s': State)
    requires Inv(s) && s.job.Listing? && |s.space.vmmrqs| != 1 && LeadsTo(s, m, s')
    ensures s' == State(s.space.(taken := s.space.taken - {s.job.key}), Idle) && Inv(s')
    ensures !s.space.webhook && Log(s.space) == map[] && Entries(s.space) == map[]
  {
    var states: seq<State>, steps: seq<JobStep> :| Quiet(states, steps, m) && states[0] == s && states[|steps|] == s';
    assert |steps| > 0 && Moves(states[0], Do(steps[0]), states[1]);
    StepKeepsInv(states[0], Do(steps[0]), states[1]);
    assert states[1].job.Idle?;
  }

  lemma {:induction false} DrainedSoFar(states: seq<State>, keys: seq<Name>, i: nat)
    requires Drains(states, keys) && i <= |keys|
    requires Inv(states[0]) && states[0].job.Idle?
    ensures Inv(states[i]) && states[i].job.Idle?
    ensures forall m | m in Entries(states[i].space) :: m in Entries(states[0].space) && m !in keys[..i]
    ensures i > 0 ==> states[i].space.webhook == (Log(states[i].space) != map[])
  {
    if i > 0 {
      DrainedSoFar(states, keys, i - 1);
      assert DrainsOne(states[i - 1], keys[i - 1], states[i]);
      DrainStep(states[i - 1], keys[i - 1], states[i]);
      assert keys[..i] == keys[..i - 1] + [keys[i - 1]];
    }
  }

  /** Drain: from any state between reconciles, also one left locked by a crash, reconciling
      every recorded key (at least one key) gives every quota back and removes the lock. */
  lemma Drain(states: seq<State>, keys: seq<Name>)
    requires Drains(states, keys) && keys != []
    requires Inv(states[0]) && states[0].job.Idle?
    requires forall m | m in Entries(states[0].space) :: m in keys
    ensures var p := states[|keys|].space;
      Entries(p) == map[] && Log(p) == map[] && p.live == p.tenant && !p.webhook
  {
    DrainedSoFar(states, keys, |keys|);
    var p := states[|keys|].space;
    assert keys[..|keys|] == keys;
    assert Entries(p) == map[] by { assert Entries(p).Keys == {}; }
    RecordNames(p);
    assert Log(p).Keys == {};
    assert forall n | n in p.live :: n !in p.lent;
  }

  lemma DrainOnce(s: State, key: Name) returns (s': State)
    requires Inv(s) && s.job.Idle? && key !in s.space.taken
    ensures LeadsTo(Enter(s, key), NotBlocked, s') && Inv(s') && s'.job.Idle? && s'.space.taken == s.space.taken
  {
    Entering(s, key);
    if |s.space.vmmrqs| == 1 {
      s' := ReconcileCompletes(Enter(s, key), NotBlocked);
    } else {
      s' := ListingOnly(Enter(s, key), NotBlocked);
    }
    DrainStep(s, key, s');
    TakenAfter(Enter(s, key), key, NotBlocked, s');
  }

  lemma ListingOnly(s: State, m: Migration) returns (s': State)
    requires s.job.Listing? && |s.space.vmmrqs| != 1
    ensures LeadsTo(s, m, s')
  {
    s' := JobNext(s.space, s.job, ListVmmrqs);
    assert Quiet([s, s'], [ListVmmrqs], m);
  }

  /** Termination: such reconciles can always be carried out, from any state between reconciles,
      for any keys that no worker holds, in any order. */
  lemma {:induction false} DrainCompletes(s: State, keys: seq<Name>) returns (states: seq<State>)
    requires Inv(s) && s.job.Idle? && forall key | key in keys :: key !in s.space.taken
    ensures Drains(states, keys) && states[0] == s
    decreases |keys|
  {
    if keys == [] {
      states := [s];
    } else {
      var s' := DrainOnce(s, keys[0]);
      var rest := DrainCompletes(s', keys[1..]);
      states := [s] + rest;
      DrainsCons(s, keys[0], rest, keys[1..]);
      assert [keys[0]] + keys[1..] == keys;
    }
  }

  lemma DrainsCons(s: State, key: Name, rest: seq<State>, keys: seq<Name>)
    requires Drains(rest, keys) && DrainsOne(s, key, rest[0])
    ensures Drains([s] + rest, [key] + keys)
  {
    hide DrainsOne;
    forall i | 0 <= i < |keys| + 1 ensures DrainsOne(([s] + rest)[i], ([key] + keys)[i], ([s] + rest)[i + 1]) {
      if i > 0 { assert DrainsOne(rest[i - 1], keys[i - 1], rest[i]); }
    }
  }

  /** A reconcile is done with its key and holds no other. */
  lemma TakenAfter(s: State, key: Name, m: Migration, s': State)
    requires LeadsTo(s, m, s') && s.job == Listing(key)
    ensures s'.space.taken == s.space.taken - {key}
  {
    var states, steps :| Quiet(states, steps, m) && states[0] == s && states[|steps|] == s';
    TakenSoFar(states, steps, key, m, |steps|);
  }

  lemma {:induction false} TakenSoFar(states: seq<State>, steps: seq<JobStep>, key: Name, m: Migration, i: nat)
    requires Quiet(states, steps, m) && i < |states| && states[0].job == Listing(key)
    ensures if states[i].job.Idle? then states[i].space.taken == states[0].space.taken - {key}
            else states[i].space.taken == states[0].space.taken && states[i].job.key == key
  {
    if i > 0 {
      TakenSoFar(states, steps, key, m, i - 1);
      assert Moves(states[i - 1], Do(steps[i - 1]), states[i]);
      JobKey(states[i - 1].space, states[i - 1].job, steps[i - 1]);
    }
  }
}
