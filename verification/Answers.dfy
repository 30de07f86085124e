/** What `Execute` answers, and what becomes of the key, in terms of what was asked and refused. */
module Answers {
  import opened Protocol
  import opened Reconciles
  import opened Traces
  import opened ApiServers
  import opened Controller
  import Blind

  // ---------------------------------------------------------------- the informers' answers

  /** How the answers are read, case by case. A migration that is gone is not blocked, whatever else the
      informers say; nothing else is asked about it. */
  lemma ReadExactly(inf: Informers, seen: map<Name, Seen>)
    ensures Read(inf, seen) == Clear(NotBlocked) <==>
      inf.migration.NoReply? ||
      (inf.vmiExists == Got(true) && inf.atMaximum.Got? &&
       (!inf.migration.value.pending || (inf.targetPods.Got? && (inf.targetPods.value > 0 || !inf.migration.value.rejected))))
    ensures Read(inf, seen) == Clear(AtMaximum) <==>
      inf.migration.Got? && inf.migration.value.pending && inf.migration.value.rejected && inf.targetPods == Got(0) &&
      inf.vmiExists == Got(true) && inf.atMaximum == Got(true)
    ensures forall request :: Read(inf, seen) == Clear(Blocked(request, seen)) <==>
      inf.migration.Got? && inf.migration.value.pending && inf.migration.value.rejected && inf.targetPods == Got(0) &&
      inf.vmiExists == Got(true) && inf.atMaximum == Got(false) && inf.request == Got(request)
    ensures Read(inf, seen) == Broken(BackOff) <==>
      inf.migration.Got? && (inf.vmiExists != Got(true) || (inf.migration.value.pending && inf.targetPods.NoReply?))
    ensures Read(inf, seen) == Broken(Immediate) <==>
      inf.migration.Got? && inf.vmiExists == Got(true) && (inf.migration.value.pending ==> inf.targetPods.Got?) &&
      (inf.atMaximum.NoReply? ||
       (inf.migration.value.pending && inf.migration.value.rejected && inf.targetPods == Got(0) &&
        inf.atMaximum == Got(false) && inf.request.NoReply?))
  {
  }

  /** Nothing else is ever read. */
  lemma ReadsOneOfThese(inf: Informers, seen: map<Name, Seen>)
    ensures Read(inf, seen) in {Clear(NotBlocked), Clear(AtMaximum), Broken(BackOff), Broken(Immediate)} ||
            (inf.request.Got? && Read(inf, seen) == Clear(Blocked(inf.request.value, seen)))
  {
  }

  /** `isBlockedMigration`: pending, without a target pod, and rejected; the pods are asked for only if it is pending. */
  lemma BlockedExactly(migration: MigrationObject, targetPods: Reply<nat>)
    ensures IsBlockedMigration(migration, targetPods) == Got(true) <==> migration.pending && targetPods == Got(0) && migration.rejected
    ensures IsBlockedMigration(migration, targetPods).NoReply? <==> migration.pending && targetPods.NoReply?
  {
  }

  /** Only a migration that is not blocked is forgotten; one that has to wait for others comes back later. */
  lemma OutcomeExactly(m: Migration)
    ensures OutcomeOf(m) == Forget <==> m == NotBlocked
    ensures OutcomeOf(m) == AddAfterFiveSeconds <==> m == AtMaximum
    ensures OutcomeOf(m) == Immediate <==> m.Blocked?
  {
  }

  // ---------------------------------------------------------------- one key

  /** What `Execute` ensures for a key whose migration could be read. */
  ghost predicate Executed(s: State, key: Name, r: Reading, before: seq<Call>, after: seq<Call>,
                           err: bool, outcome: Outcome, s': State, mode: Mode) {
    ExecutedAs(s, key, true, err, outcome, s', mode) && AnswersAs(err, outcome, |s.space.vmmrqs|, r, before, after)
  }

  /** If the server refuses nothing, the informers answer, and there is one VMMRQ, there is no error; with
      an up-to-date informer the quotas, the VMMRQ and the lock end up as `Reconciled` says. */
  lemma NothingRefused(s: State, key: Name, r: Reading, refused: seq<Call>, err: bool, outcome: Outcome, s': State, mode: Mode)
    requires Executed(s, key, r, refused, refused, err, outcome, s', mode) && |s.space.vmmrqs| == 1 && r.Clear?
    ensures !err && outcome == OutcomeOf(r.migration)
    ensures mode.sound && mode.clean && Settled(s.space, mode.migration) ==>
      Reaches(s'.space, Reconciled(s.space, key, mode.migration))
  {
    hide RunsTo, Reconciled;
  }

  /** Without exactly one VMMRQ, and if the list is not refused, the key is forgotten and nothing changes. */
  lemma NoSingleVmmrq(s: State, key: Name, r: Reading, refused: seq<Call>, err: bool, outcome: Outcome, s': State, mode: Mode)
    requires Executed(s, key, r, refused, refused, err, outcome, s', mode) && |s.space.vmmrqs| != 1
    ensures err && outcome == Forget && key !in s'.space.pending
    ensures s'.space.live == s.space.live && s'.space.vmmrqs == s.space.vmmrqs && s'.space.webhook == s.space.webhook
    ensures s'.space.cache == s.space.cache && s'.space.lockState == s.space.lockState
  {
    hide RunsTo, Reconciled;
  }

  /** When a key leaves the queue: exactly if nothing was refused, and there is not one VMMRQ or the
      migration is not blocked. A blocked migration's key is there after any reconcile. */
  lemma KeyStaysExactly(s: State, key: Name, r: Reading, before: seq<Call>, after: seq<Call>, err: bool, outcome: Outcome, s': State, mode: Mode)
    requires Executed(s, key, r, before, after, err, outcome, s', mode) && key in s.space.pending && r != Broken(Forget)
    ensures key !in s'.space.pending <==> after == before && (|s.space.vmmrqs| != 1 || r == Clear(NotBlocked))
  {
    hide RunsTo, Reconciled;
    if r.Clear? { OutcomeExactly(r.migration); }
  }

  lemma CleanRunIsBlind(s: State, s': State, mode: Mode)
    requires RunsTo(s, s', mode) && mode.clean && s'.job.Idle?
    ensures exists states, steps :: Blind.WholeBlind(states, steps, s, mode.migration) && states[|steps|] == s'
  {
    var states: seq<State>, steps: seq<JobStep> :| Trace(states, steps, mode) && states[0] == s && states[|steps|] == s';
    forall i | 0 <= i < |steps| ensures Blind.BlindStep(states[i], steps[i], states[i + 1], mode.migration) {
      assert StepAt(states, steps, i, mode);
    }
    assert Blind.WholeBlind(states, steps, s, mode.migration);
  }

  /** The status that a clean reconcile leaves, whatever the cache says. */
  lemma StatusLeft(s: State, s': State, mode: Mode)
    requires RunsTo(s, s', mode) && mode.clean && s'.job.Idle? && Blind.Starts(s, mode.migration)
    ensures s'.space.vmmrqs == [Vmmrq(s.space.vmmrqs[0].spec, Replan(Synced(s.space.vmmrqs[0]), s.job.key, mode.migration, s.space.cache))]
  {
    CleanRunIsBlind(s, s', mode);
    var states, steps :| Blind.WholeBlind(states, steps, s, mode.migration) && states[|steps|] == s';
    Blind.BlindEnds(states, steps, s, mode.migration);
  }

  /** A migration that is not blocked any more is dropped: if nothing is refused and there is one VMMRQ,
      there is no error, its entry is off the record and its key out of the queue. */
  lemma UnblockedMigrationIsDropped(s: State, key: Name, r: Reading, refused: seq<Call>, err: bool, outcome: Outcome, s': State, mode: Mode)
    requires Executed(s, key, r, refused, refused, err, outcome, s', mode) && |s.space.vmmrqs| == 1 && r == Clear(NotBlocked)
    requires s.space.lockState.Agrees(s.space.webhook) && mode.clean && mode.migration == NotBlocked
    ensures !err && outcome == Forget && key !in s'.space.pending && key !in Entries(s'.space)
  {
    StatusLeft(Started(s, key), s', mode) by { NothingRefused(s, key, r, refused, err, outcome, s', mode); }
  }

  /** So is a migration that is gone, whatever else the informers say. */
  lemma DeletedMigrationIsDropped(s: State, key: Name, inf: Informers, seen: map<Name, Seen>, refused: seq<Call>,
                                  err: bool, outcome: Outcome, s': State, mode: Mode)
    requires Executed(s, key, Read(inf, seen), refused, refused, err, outcome, s', mode) && |s.space.vmmrqs| == 1
    requires s.space.lockState.Agrees(s.space.webhook) && mode.clean && mode.migration == NotBlocked
    requires inf.migration.NoReply?
    ensures !err && outcome == Forget && key !in s'.space.pending && key !in Entries(s'.space)
  {
    UnblockedMigrationIsDropped(s, key, Read(inf, seen), refused, err, outcome, s', mode);
  }
}
