/** What the controller relies on without enforcing it: for each assumption, exactly when a
    step that the code permits keeps the invariant, and what is lost otherwise. */
module Assumptions {
  import opened Resources
  import opened Admission
  import opened LockStates
  import opened Protocol
  import opened Invariant
  import opened Reconciles

  // ---------------------------------------------------------------- exact conditions

  /** Between reconciles a tenant's write to a quota (an update, or the re-creation of a deleted
      quota) is safe exactly when it does not contradict a recorded original. */
  lemma WriteBetweenReconciles(s: State, user: string, n: Name, h: ResourceList, u: ResourceList)
    requires Inv(s) && s.job.Idle? && ActPossible(s.space, user, WriteQuota(n, h, u))
    ensures Inv(State(ActNext(s.space, user, WriteQuota(n, h, u)), s.job)) <==>
            (n in Log(s.space) ==> h == Log(s.space)[n])
  {
    var p := s.space;
    var p' := ActNext(p, user, WriteQuota(n, h, u));
    LockGuards(user, Unreadable, Update, p.kubevirtNs, p.mtqNs);
    assert Log(p') == Log(p) && Entries(p') == Entries(p);
    assert n !in p.lent;
    WrittenBooks(p, n, h, u);
  }

  lemma WrittenBooks(p: Space, n: Name, h: ResourceList, u: ResourceList)
    requires Books(p) && Truthful(Log(p), p) && n !in p.lent
    ensures var p' := p.(live := p.live[n := h], tenant := p.tenant[n := h], used := p.used[n := u]);
      Books(p') && (Truthful(Log(p'), p') <==> (n in Log(p) ==> h == Log(p)[n]))
  {
    var p' := p.(live := p.live[n := h], tenant := p.tenant[n := h], used := p.used[n := u]);
    if n in Log(p) && Truthful(Log(p'), p') { assert Log(p')[n] == p'.tenant[n]; }
  }

  /** A snapshot of `n` has been planned with, and the namespace is not locked yet. */
  predicate BeforeTheLock(s: State, n: Name) {
    Inv(s) && s.job.Acting? && !s.job.stage.Restoring? && !s.job.stage.Boosting? && !s.space.webhook && n in s.space.live
  }

  /** Between the snapshot and the lock, a tenant's update of a quota is safe exactly when the
      quota is not about to be recorded, or the update changes nothing. */
  lemma WriteBeforeTheLock(s: State, user: string, n: Name, h: ResourceList, u: ResourceList)
    requires BeforeTheLock(s, n) && ActPossible(s.space, user, WriteQuota(n, h, u))
    ensures Inv(State(ActNext(s.space, user, WriteQuota(n, h, u)), s.job)) <==>
            (n in s.job.next.originals ==> h == s.space.live[n])
  {
    var p' := ActNext(s.space, user, WriteQuota(n, h, u));
    if n !in s.job.next.originals {
      UnplannedWriteIsSafe(s, user, n, h, u);
    } else if h == s.space.live[n] {
      SameWriteIsSafe(s, user, n, u);
    } else {
      NothingLentWhenUnlocked(s.space, n);
      assert p'.tenant[n] == h && s.job.next.originals[n] == s.space.tenant[n];
      assert !Truthful(s.job.next.originals, p');
    }
  }

  lemma UnplannedWriteIsSafe(s: State, user: string, n: Name, h: ResourceList, u: ResourceList)
    requires BeforeTheLock(s, n) && ActPossible(s.space, user, WriteQuota(n, h, u)) && n !in s.job.next.originals
    ensures Inv(State(ActNext(s.space, user, WriteQuota(n, h, u)), s.job))
  {
    NothingLentWhenUnlocked(s.space, n);
    WriteQuotaKeeps(s, user, WriteQuota(n, h, u));
  }

  lemma SameWriteIsSafe(s: State, user: string, n: Name, u: ResourceList)
    requires BeforeTheLock(s, n) && ActPossible(s.space, user, WriteQuota(n, s.space.live[n], u))
    ensures Inv(State(ActNext(s.space, user, WriteQuota(n, s.space.live[n], u)), s.job))
  {
    var p := s.space;
    var p' := ActNext(p, user, WriteQuota(n, p.live[n], u));
    NothingLentWhenUnlocked(p, n);
    assert p'.live == p.live && p'.tenant == p.tenant;
    SameButUsage(s, p');
  }

  lemma NothingLentWhenUnlocked(p: Space, n: Name)
    requires Books(p) && Logged(p) && !p.webhook && n in p.live
    ensures p.tenant[n] == p.live[n] && Log(p) == map[]
  {
  }

  lemma SameButUsage(s: State, p': Space)
    requires Inv(s) && p' == s.space.(used := p'.used) && p'.used.Keys == s.space.used.Keys
    ensures Inv(State(p', s.job))
  {
    assert Log(p') == Log(s.space) && Entries(p') == Entries(s.space);
  }

  /** A failing read of the in-memory store, after which the key is forgotten, is safe exactly
      when the migration is not recorded or somebody else will reconcile it. */
  lemma StoreErrorExactly(s: State, key: Name)
    requires Inv(s) && QueuePossible(s.space, s.job, StoreError(key))
    ensures Inv(QueueNext(s.space, s.job, StoreError(key))) <==>
            (!s.space.started || key !in Entries(s.space) || key in s.space.pending)
  {
    var p' := QueueNext(s.space, s.job, StoreError(key)).space;
    assert Log(p') == Log(s.space) && Entries(p') == Entries(s.space);
  }

  // ---------------------------------------------------------------- what is lost

  /** The record wins: when the last recorded migration is reconciled away, every recorded
      quota ends at its recorded original, whatever the tenant asked for in between. */
  lemma RecordWins(s: State, s': State, n: Name)
    requires s.job.Listing? && |s.space.vmmrqs| == 1 && Settled(s.space, NotBlocked)
    requires Entries(s.space).Keys <= {s.job.key} && LeadsTo(s, NotBlocked, s')
    requires n in Log(s.space) && n in s.space.live
    ensures n in s'.space.live && s'.space.live[n] == Log(s.space)[n]
    ensures s'.space.tenant == s.space.tenant && Log(s'.space) == map[] && !s'.space.webhook
  {
    ReconcileEnds(s, NotBlocked, s');
    var prev := Synced(s.space.vmmrqs[0]);
    var next := Replan(prev, s.job.key, NotBlocked, s.space.live);
    assert next.migrations == map[] by { assert next.migrations.Keys == {}; }
    assert next.originals == map[] by { assert next.originals.Keys == {}; }
  }

  /** A namespace in which migration "m" has quota "q" raised from one cpu to three. */
  function Raised(cache: int, live: int, tenant: int, job: Job): State {
    var status := Status(map["cpu" := 2], map["m" := {"q"}], map["q" := map["cpu" := 1]]);
    State(Space("kubevirt", "mtq",
                map["q" := map["cpu" := live]], map["q" := map[]], [Vmmrq(map["cpu" := 2], status)], At(0), true,
                map["q" := map["cpu" := cache]], Locked, {}, {"m"}, true,
                map["q" := map["cpu" := tenant]], map["q" := map["cpu" := 2]], {map[], map["cpu" := 2]}),
          job)
  }

  /** It satisfies the protocol's invariant. */
  lemma RaisedHasInv()
    ensures Inv(Raised(3, 3, 1, Listing("m")))
  {
    var p := Raised(3, 3, 1, Listing("m")).space;
    assert Plus(map["cpu" := 1], map["cpu" := 2]) == map["cpu" := 3];
    assert Flat(map["m" := {"q"}]) == {"q"} by {
      assert "m" in map["m" := {"q"}] && "q" in map["m" := {"q"}]["m"];
    }
    assert Books(p) && Logged(p);
  }

  const TENANT := "system:serviceaccount:tenant:admin"

  lemma TenantIsNotMtq()
    ensures TENANT != ServiceAccount("mtq", MTQ_CONTROLLER)
  {
    assert TENANT[22] == 't' && ServiceAccount("mtq", MTQ_CONTROLLER)[22] == 'm';
  }

  function Recreated(): State {
    var s := Raised(5, 5, 5, Listing("m"));
    State(s.space.(lent := map[]), s.job)
  }

  /** From a state with the invariant, the lock lets a tenant delete the raised quota and create it
      again with five cpus. */
  lemma RecreationPasses()
    ensures var p := Raised(3, 3, 1, Listing("m")).space;
      && Inv(Raised(3, 3, 1, Listing("m")))
      && ActPossible(p, TENANT, DeleteQuota("q"))
      && var p' := ActNext(p, TENANT, DeleteQuota("q"));
         && ActPossible(p', TENANT, WriteQuota("q", map["cpu" := 5], map[]))
         && var p'' := ActNext(p', TENANT, WriteQuota("q", map["cpu" := 5], map[]));
            p''.(cache := p''.live) == Recreated().space
  {
    RaisedHasInv();
    hide Inv;
    TenantIsNotMtq();
    LockGuards(TENANT, Unreadable, Delete, "kubevirt", "mtq");
    LockGuards(TENANT, Unreadable, Create, "kubevirt", "mtq");
    var p := Raised(3, 3, 1, Listing("m")).space;
    var p' := ActNext(p, TENANT, DeleteQuota("q"));
    assert p'.live == map[] && p'.tenant == map[] && p'.used == map[] && p'.lent == map[];
  }

  /** And then every failure-free reconcile that drains the namespace leaves it with one. */
  lemma RecreatedQuotaIsLost(s': State)
    requires LeadsTo(Recreated(), NotBlocked, s')
    ensures "q" in s'.space.tenant && s'.space.tenant["q"] == map["cpu" := 5]
    ensures "q" in s'.space.live && s'.space.live["q"] == map["cpu" := 1]
    ensures Log(s'.space) == map[] && !s'.space.webhook
  {
    RecordWins(Recreated(), s', "q");
  }
}
