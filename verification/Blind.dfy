/** Failure-free reconciles whose informer cache may say anything: where they end, whatever order
    their loops run in, and that they do end. */
module Blind {
  import opened Resources
  import opened Protocol
  import opened Reconciles
  import opened Passes

  // ---------------------------------------------------------------- runs

  /** An uninterrupted, failure-free piece of a reconcile of a migration known to be `m`, whatever the
      cache says: the steps are those the code permits. */
  predicate Blind(states: seq<State>, steps: seq<JobStep>, m: Migration) {
    && |states| == |steps| + 1
    && forall i | 0 <= i < |steps| :: BlindStep(states[i], steps[i], states[i + 1], m)
  }

  predicate BlindStep(s: State, st: JobStep, s': State, m: Migration) {
    && st.Succeeds() && (st.Decide? ==> st.migration == m)
    && !s.job.Idle? && Permits(s, Do(st), s')
  }

  // ---------------------------------------------------------------- the result, in one go

  datatype Quotas = Quotas(live: Hards, cache: Hards)

  /** The quotas when `restore` has been restored and then `raise` raised. */
  function Visits(live: Hards, cache: Hards, prev: Status, next: Status, restore: set<Name>, raise: set<Name>): Quotas {
    var part, more := Visited(prev.originals, restore), Visited(next.originals, raise);
    var live1, cache1 := RestoreLive(live, cache, part), RestoreCache(cache, part);
    Quotas(BoostLive(live1, cache1, more, next.additional), BoostCache(cache1, more, next.additional))
  }

  datatype End = End(quotas: Quotas, vmmrqs: seq<Vmmrq>, webhook: bool)

  function EndOf(p: Space, prev: Status, next: Status, restore: set<Name>, raise: set<Name>): End
    requires |p.vmmrqs| == 1
  {
    End(Visits(p.live, p.cache, prev, next, restore, raise), [Vmmrq(p.vmmrqs[0].spec, next)], ShouldLock(next))
  }

  /** The whole reconcile as a function of the namespace, the cache and what is known of the migration. */
  function BlindEnd(p: Space, key: Name, m: Migration): End
    requires |p.vmmrqs| == 1 && (m.Blocked? ==> p.cache.Keys <= m.seen.Keys)
  {
    var prev := Synced(p.vmmrqs[0]);
    var next := Replan(prev, key, m, p.cache);
    EndOf(p, prev, next, ToRestore(prev, next), next.originals.Keys)
  }

  predicate EndsAt(p: Space, end: End) {
    p.live == end.quotas.live && p.cache == end.quotas.cache && p.vmmrqs == end.vmmrqs && p.webhook == end.webhook
  }

  // ---------------------------------------------------------------- on the way

  /** A started reconcile of `key` that will end in `end`. */
  predicate Heading(s: State, key: Name, m: Migration, end: End) {
    var p, job := s.space, s.job;
    && p.lockState.Agrees(p.webhook) && |p.vmmrqs| == 1 && (!job.Listing? ==> p.listed == At(0))
    && match job
       case Idle => false
       case Listing(k) => k == key && Plannable(p, m) && end == BlindEnd(p, key, m)
       case Syncing(k, v) => k == key && v == p.vmmrqs[0] && Plannable(p, m) && end == BlindEnd(p, key, m)
       case Deciding(k, prev) =>
         k == key && prev == Synced(p.vmmrqs[0]) == p.vmmrqs[0].status && Plannable(p, m) && end == BlindEnd(p, key, m)
       case Acting(k, prev, next, _, stage) => k == key && HeadingOn(p, prev, next, stage, end)
  }

  predicate Plannable(p: Space, m: Migration) {
    m.Blocked? ==> p.cache.Keys <= m.seen.Keys
  }

  predicate HeadingOn(p: Space, prev: Status, next: Status, stage: Stage, end: End)
    requires |p.vmmrqs| == 1
  {
    && p.vmmrqs[0].status == (if stage.Boosting? then next else prev)
    && match stage
       case Looking => end == EndOf(p, prev, next, ToRestore(prev, next), next.originals.Keys)
       case Locking(held) => held == p.webhook && end == EndOf(p, prev, next, ToRestore(prev, next), next.originals.Keys)
       case Restoring(held, todo) =>
         p.webhook == (held || ShouldLock(next)) && todo <= prev.originals.Keys && end == EndOf(p, prev, next, todo, next.originals.Keys)
       case Boosting(held, todo) =>
         p.webhook == (held || ShouldLock(next)) && todo <= next.originals.Keys && end == EndOf(p, prev, next, {}, todo)
  }

  lemma RestoreHeads(p: Space, job: Job, n: Name)
    requires JobPossible(p, job, Restore(n)) && |p.vmmrqs| == 1
    ensures EndOf(Restored(p, job.prev, n), job.prev, job.next, job.stage.todo - {n}, job.next.originals.Keys) ==
            EndOf(p, job.prev, job.next, job.stage.todo, job.next.originals.Keys)
  {
    RestoreMapsOneMore(p.live, p.cache, job.prev.originals, n, job.stage.todo);
  }

  lemma BoostHeads(p: Space, job: Job, n: Name)
    requires JobPossible(p, job, Boost(n)) && |p.vmmrqs| == 1
    ensures EndOf(Boosted(p, job.next, n), job.prev, job.next, {}, job.stage.todo - {n}) == EndOf(p, job.prev, job.next, {}, job.stage.todo)
  {
    var add := job.next.additional;
    NothingVisited(p.live, p.cache, job.prev.originals, add);
    var p' := Boosted(p, job.next, n);
    NothingVisited(p'.live, p'.cache, job.prev.originals, add);
    BoostMapsOneMore(p.live, p.cache, job.next.originals, add, n, job.stage.todo);
  }

  lemma WriteHeads(p: Space, job: Job)
    requires JobPossible(p, job, Write) && Alone(p) && p.vmmrqs[0].status == job.prev
    ensures var p' := JobNext(p, job, Write).space;
      && p'.listed == At(0) && p'.vmmrqs == [Vmmrq(p.vmmrqs[0].spec, job.next)]
      && p'.live == p.live && p'.cache == p.cache && p'.webhook == p.webhook && p'.lockState == p.lockState
  {
  }

  lemma Finished(p: Space, prev: Status, next: Status)
    requires |p.vmmrqs| == 1 && p.vmmrqs[0].status == next
    ensures var end := EndOf(p, prev, next, {}, {});
      p.live == end.quotas.live && p.cache == end.quotas.cache && p.vmmrqs == end.vmmrqs
  {
    NothingVisited(p.live, p.cache, prev.originals, next.additional);
    NothingVisited(p.live, p.cache, next.originals, next.additional);
  }

  /** Every successful step leads on, and the last one arrives. */
  lemma HeadsOn(s: State, st: JobStep, key: Name, m: Migration, end: End)
    requires Heading(s, key, m, end) && JobPossible(s.space, s.job, st) && st.Succeeds() && (st.Decide? ==> st.migration == m)
    ensures var s' := JobNext(s.space, s.job, st);
      if s'.job.Idle? then EndsAt(s'.space, end) && s'.space.lockState.Agrees(s'.space.webhook) else Heading(s', key, m, end)
  {
    hide Visits;
    var p, job := s.space, s.job;
    match st
    case Restore(n) => RestoreHeads(p, job, n);
    case Boost(n) => BoostHeads(p, job, n);
    case Write => WriteHeads(p, job);
    case Finish => Finished(p, job.prev, job.next);
    case SyncAdditional => SyncHeads(p, job);
    case _ =>
  }

  lemma SyncHeads(p: Space, job: Job)
    requires JobPossible(p, job, SyncAdditional) && Alone(p) && job.vmmrq == p.vmmrqs[0]
    ensures var p' := JobNext(p, job, SyncAdditional).space;
      && p'.listed == At(0) && p'.vmmrqs == [Vmmrq(p.vmmrqs[0].spec, Synced(p.vmmrqs[0]))]
      && p'.live == p.live && p'.cache == p.cache && p'.webhook == p.webhook && p'.lockState == p.lockState
  {
  }

  lemma {:induction false} HeadingAlways(states: seq<State>, steps: seq<JobStep>, m: Migration, i: nat, key: Name, end: End)
    requires Blind(states, steps, m) && Heading(states[0], key, m, end) && i < |states|
    ensures if states[i].job.Idle? then EndsAt(states[i].space, end) && states[i].space.lockState.Agrees(states[i].space.webhook)
            else Heading(states[i], key, m, end)
    ensures Framed(states[0].space, states[i].space)
  {
    if i > 0 {
      hide Heading, EndsAt;
      HeadingAlways(states, steps, m, i - 1, key, end);
      assert BlindStep(states[i - 1], steps[i - 1], states[i], m);
      HeadsOn(states[i - 1], steps[i - 1], key, m, end);
      JobFrame(states[i - 1].space, states[i - 1].job, steps[i - 1]);
    }
  }

  /** A worker is about to reconcile, with any cache. */
  predicate Starts(s: State, m: Migration) {
    s.job.Listing? && |s.space.vmmrqs| == 1 && s.space.lockState.Agrees(s.space.webhook) && Plannable(s.space, m)
  }

  /** A failure-free reconcile from `s`, to its end. */
  predicate WholeBlind(states: seq<State>, steps: seq<JobStep>, s: State, m: Migration) {
    Blind(states, steps, m) && states[0] == s && states[|steps|].job.Idle?
  }

  /** Confluence under any cache. */
  lemma BlindEnds(states: seq<State>, steps: seq<JobStep>, s: State, m: Migration)
    requires Starts(s, m) && WholeBlind(states, steps, s, m)
    ensures var p' := states[|steps|].space;
      EndsAt(p', BlindEnd(s.space, s.job.key, m)) && p'.lockState.Agrees(p'.webhook) && Framed(s.space, p')
  {
    HeadingAlways(states, steps, m, |steps|, s.job.key, BlindEnd(s.space, s.job.key, m));
  }

  // ---------------------------------------------------------------- quota by quota

  /** What becomes of one quota: dropped from the record and seen, it is restored; recorded and seen at
      its original, it is raised; otherwise it stays what it is. */
  lemma QuotaAtTheEnd(p: Space, key: Name, m: Migration, n: Name)
    requires |p.vmmrqs| == 1 && Plannable(p, m) && n in p.live
    ensures var prev := Synced(p.vmmrqs[0]); var next := Replan(prev, key, m, p.cache);
      var live := BlindEnd(p, key, m).quotas.live;
      && n in live
      && live[n] == (if n in prev.originals && n !in next.originals then
                       if n in p.cache && p.cache[n] != prev.originals[n] then prev.originals[n] else p.live[n]
                     else if n in next.originals && n in p.cache && p.cache[n] == next.originals[n] then
                       Plus(next.originals[n], next.additional)
                     else p.live[n])
  {
    VisitsAt(p.live, p.cache, Synced(p.vmmrqs[0]), Replan(Synced(p.vmmrqs[0]), key, m, p.cache), n);
  }

  lemma VisitsAt(live: Hards, cache: Hards, prev: Status, next: Status, n: Name)
    requires n in live
    ensures var live' := Visits(live, cache, prev, next, ToRestore(prev, next), next.originals.Keys).live;
      && n in live'
      && (n in prev.originals && n !in next.originals ==>
            live'[n] == if n in cache && cache[n] != prev.originals[n] then prev.originals[n] else live[n])
      && (n in next.originals ==>
            live'[n] == if n in cache && cache[n] == next.originals[n] then Plus(next.originals[n], next.additional) else live[n])
      && (n !in prev.originals && n !in next.originals ==> live'[n] == live[n])
  {
  }

  // ---------------------------------------------------------------- it does end

  /** Such a reconcile is never stuck, unless the cache holds a quota that the server does not. */
  lemma NextBlind(s: State, key: Name, m: Migration, end: End) returns (st: JobStep)
    requires Heading(s, key, m, end) && s.space.cache.Keys <= s.space.live.Keys
    ensures JobPossible(s.space, s.job, st) && st.Succeeds() && (st.Decide? ==> st.migration == m)
  {
    match s.job
    case Listing(_) => st := ListVmmrqs;
    case Syncing(_, _) => st := SyncAdditional;
    case Deciding(_, _) => st := Decide(m);
    case Acting(_, _, _, _, stage) =>
      match stage
      case Looking => st := LookUpLock;
      case Locking(_) => st := Lock;
      case Restoring(_, todo) =>
        if todo == {} { st := Write; } else { var n :| n in todo; st := Restore(n); }
      case Boosting(_, todo) =>
        if todo == {} { st := Finish; } else { var n :| n in todo; st := Boost(n); }
  }

  /** No success of a reconcile changes which quotas there are, in the cache or on the server. */
  lemma SameQuotas(p: Space, job: Job, st: JobStep)
    requires JobPossible(p, job, st) && st.Succeeds() && p.cache.Keys <= p.live.Keys
    ensures JobNext(p, job, st).space.cache.Keys <= JobNext(p, job, st).space.live.Keys
  {
    if !st.Restore? && !st.Boost? { OtherStepQuotas(p, job, st); }
  }

  lemma OtherStepQuotas(p: Space, job: Job, st: JobStep)
    requires JobPossible(p, job, st) && !st.Restore? && !st.Boost? && !st.FailUpdate?
    ensures JobNext(p, job, st).space.cache == p.cache && JobNext(p, job, st).space.live == p.live
  {
  }

  lemma {:induction false} BlindGoesOn(s: State, key: Name, m: Migration, end: End) returns (states: seq<State>, steps: seq<JobStep>)
    requires Heading(s, key, m, end) && s.space.cache.Keys <= s.space.live.Keys
    ensures WholeBlind(states, steps, s, m)
    decreases Rank(s.job).0, Rank(s.job).1
  {
    hide Heading, EndsAt;
    var st := NextBlind(s, key, m, end);
    var s' := JobNext(s.space, s.job, st);
    HeadsOn(s, st, key, m, end);
    SameQuotas(s.space, s.job, st);
    RankFalls(s.space, s.job, st);
    if s'.job.Idle? {
      states, steps := [s, s'], [st];
    } else {
      var rest, more := BlindGoesOn(s', key, m, end);
      states, steps := [s] + rest, [st] + more;
      BlindCons(s, st, rest, more, m);
    }
  }

  lemma BlindCons(s: State, st: JobStep, rest: seq<State>, more: seq<JobStep>, m: Migration)
    requires Blind(rest, more, m) && BlindStep(s, st, rest[0], m)
    ensures Blind([s] + rest, [st] + more, m)
  {
    hide BlindStep;
    forall i | 0 <= i < |more| + 1 ensures BlindStep(([s] + rest)[i], ([st] + more)[i], ([s] + rest)[i + 1], m) {
      if i > 0 { assert BlindStep(rest[i - 1], more[i - 1], rest[i], m); }
    }
  }

  /** Termination under any cache that holds no quota that the server does not. */
  lemma BlindCompletes(s: State, m: Migration) returns (states: seq<State>, steps: seq<JobStep>)
    requires Starts(s, m) && s.space.cache.Keys <= s.space.live.Keys
    ensures WholeBlind(states, steps, s, m)
  {
    states, steps := BlindGoesOn(s, s.job.key, m, BlindEnd(s.space, s.job.key, m));
  }
}
