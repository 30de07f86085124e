# Quota lending for blocked live migrations

When resource quotas keep the target pod of a live migration from starting, the VMMRQ controller
lends the namespace the additional resources of its VirtualMachineMigrationResourceQuota (VMMRQ).
One reconcile locks the namespace with a validating webhook, puts back the quotas that are no
longer needed, writes the original hard values into the VMMRQ status, raises the blocking quotas,
and unlocks when nothing is recorded any more. The status is an undo log; every API call can fail
and every step can be the last before a crash.

The project proves what this protocol keeps over all runs, and that the code, with its in-place
updates, shared maps and nested loops, is a run of that protocol whatever the API server answers.

## Layers

- `Resources`, `Admission`, `LockStates`, `Mutexes`: quantities and the three-way quota check, the
  webhook's rule table with the lock server's validator, the lock cache, the mutex map.
- `Protocol`: one namespace as a transition system, one step per API call of `execute`, with failed
  calls, failed updates that leave the informer's object changed, crashes, restarts, the work
  queue, tenants, and pods. `Permits` is what the code and the API server allow, `Assumed` what
  the controller relies on, `Moves` both. The bookkeeping fields `tenant`, `lent` and `offered` hold
  what the tenant asked for, what was lent and what was ever offered; no step's choice depends on them.
- `Invariant`, `Runs`: the inductive invariant and its consequences for every run.
- `Reconciles`, `Versions`, `Lending`, `Passes`: what a failure-free reconcile achieves in whatever order
  its loops run (confluence, termination, release, drain), and retries.
- `Blind`, `Lag`, `DrainChains`: the same for a cache that may say anything, and what it costs.
- `Assumptions`, `Adrift`, `Losses`: for the assumptions about tenants, exactly when a step beyond them
  is harmless, and what is lost otherwise; a run from an untouched namespace in which a loan is kept.
- `Workers`: any number of workers over many namespaces, refined to one run per namespace.
- `Quantities`, `Records`, `Fits`, `Visits`, `Orders`, `ApiServers`, `Enqueueing`, `Controller`, `Answers`: the
  loops and `execute` itself on mutable quotas, hard maps that two objects share, and an API server that
  refuses calls at will and remembers which; the quota check in numbers. `Traces` turns
  pieces of code into runs of the protocol; `Controller.VmmrqController.Execute` is the whole of it.

## Assumptions

The code needs these and does not enforce them; `Protocol.Assumed` states the ones that concern steps.

- A failed API call has no effect on the server, and one controller leads at a time. Nobody else
  creates or deletes the locking webhook.
- An update of the VMMRQ's status is not refused for its resource version. The object that the first
  update of a reconcile returns is dropped (line 291 of vmmrq-controller.go), so the second one still
  carries the version from before it. `Versions.NeverRefusedExactly` says which reconciles are never
  refused by a server that insists on versions, `Versions.CompletesExactly` which can complete, and
  `Versions.RetryCompletes` that the retry of the others does.
- When a reconcile decides, the informer has caught up with the quotas that it plans with. Without
  this: `Lag.RecordUnderLag` says exactly when the record is still true and `Lag.FalseRecordOverwrites`
  what a false one costs; from a true record, `Lag.DrainUnderLag` and `DrainChains.ChainUnderLag` say
  exactly when the quotas are given back; `Lag.RaiseUnderLagExactly` and `Lag.ReleaseUnderLag` exactly
  when quotas are raised and what that means for the target pod. A failed update leaves the cached
  quota looking as if it had succeeded, and a retry before the informer refreshes skips it
  (`Lag.RetryKeepsLoan`, `Lag.RetrySkipsRaise`); `Losses.LoanIsKept` is a run that loses a quota so.
- The VMMRQ informer that `enqueueAll` lists (line 205) agrees with the server.
- Nobody writes a planned quota between its snapshot and the lock, nor creates a recorded quota anew
  (the webhook intercepts Update of quotas only): `Assumptions.WriteBeforeTheLock` and
  `Assumptions.WriteBetweenReconciles` are the exact conditions.
- A VMMRQ is created or deleted only between reconciles. `Adrift.VmmrqChangeExactly` says when one that
  comes or goes during a reconcile is harmless; otherwise the namespace can stay locked for good
  (`Adrift.StuckForGood`).
- A read of the in-memory store of migrations does not fail for a recorded migration, since the key
  would be forgotten (`Assumptions.StoreErrorExactly`).
- A pod is checked against the webhook and the quotas in one step, and the end of a reconcile and the
  requeueing of its key are one step.
- Additional resources are non-negative only where `Lending.Release` and `Runs.UsageBoundOneOffer` say so.

Where code and documentation differ, the code counts. `NamespaceLocked` hands the two namespaces to
its comparison in the opposite order to the signature, so only its existence check is modelled. The
copy that `addResourcesToRQ` makes has no scopes, so the second check of a quota may see another
scope than the first (`Seen.bare`). README line 72 of the repository says that the quotas are reduced
after the target pod is created; the code does it at the next reconcile of the migration's key.

A namespace that a crash left locked before the status write has no originals, so `enqueueAll` finds no
key for it; its key comes from the VMMRQ's add event at the next start (the step `Enqueue`), and
`Lending.Drain` needs one key only.

## Model

| member | source | states |
|---|---|---|
| Admission.LockGuards | pkg/validating-webhook-lock/validating-webhook-lock.go:130-164 | under the lock, exactly: only the account spelled out as mtq-controller of the MTQ namespace updates quotas or creates or deletes VMMRQs, and only labelled pods of kubevirt-controller of KubeVirt's namespace start; everything else stays open |
| Admission.ValidateExactly | pkg/mtq-lock-server/validation/validator.go:33-65 | the lock server's answer and code in every case |
| Admission.OtherNamespacesRefused | pkg/mtq-lock-server/validation/validator.go:93-101 | accounts of these names in other namespaces are refused |
| Admission.OwnAccountsPass | pkg/mtq-lock-server/validation/validator.go:93-101 | and in their own namespaces they pass |
| LockStates.NamespaceCache.GetLockState | pkg/mtq-controller/namespace-lock-utils/namespace-cache.go:27-33 | answers the last mark of that namespace, Unknown without one |
| LockStates.NamespaceCache.MarkLockStateLocked | pkg/mtq-controller/namespace-lock-utils/namespace-cache.go:23-25 | sets this namespace's state and no other |
| LockStates.NamespaceCache.MarkLockStateUnlocked | pkg/mtq-controller/namespace-lock-utils/namespace-cache.go:19-21 | sets this namespace's state and no other |
| Mutexes.NamespaceLockMap.GetLock | pkg/mtq-controller/namespace-lock-utils/namespace-lock-map.go:10-18 | one mutex per namespace for ever, shared with no other; a new one is free |
| Mutexes.NamespaceLockMap.Lock | pkg/mtq-controller/namespace-lock-utils/namespace-lock-map.go:20-22 | returns only for a free namespace and adds exactly it to the held ones |
| Mutexes.NamespaceLockMap.Unlock | pkg/mtq-controller/namespace-lock-utils/namespace-lock-map.go:24-26 | removes exactly this namespace from the held ones |
| Invariant.InitHasInv | pkg/mtq-controller/vmmrq-controller/vmmrq-controller.go:204-238 | a start with an untouched namespace satisfies the protocol invariant |
| Invariant.StepKeepsInv | pkg/mtq-controller/vmmrq-controller/vmmrq-controller.go:266-409 | every step of every party, including failures and crashes at any call, keeps the invariant |
| Invariant.ReplanIsOk | pkg/mtq-controller/vmmrq-controller/vmmrq-controller.go:446-470 | a new plan records true values, exactly for the quotas its migrations name, and keeps old originals |
| Runs.InvAlways | pkg/mtq-controller/vmmrq-controller/vmmrq-controller.go:266-409 | the invariant holds in every state of every run |
| Runs.CrashSafeUndoLog | pkg/mtq-controller/vmmrq-controller/vmmrq-controller.go:353-407 | in every reachable state an unrecorded quota is the tenant's; a recorded one has the tenant's value on record and is at it, or has been, ever since some boost, at it plus the additional resources in the VMMRQ's status at that boost |
| Runs.RaisedOnce | pkg/mtq-controller/vmmrq-controller/vmmrq-controller.go:679-689 | whatever is lent was lent by one boost, with the additional resources then in force, and the quota has been its original plus these in every state since |
| Runs.LockCoverage | pkg/mtq-controller/vmmrq-controller/vmmrq-controller.go:358-407 | originals on record, or any quota off the tenant's value, imply that the webhook exists |
| Runs.LockedHasItsVmmrq | pkg/validating-webhook-lock/validating-webhook-lock.go:142-152 | a locked namespace always has exactly one VMMRQ |
| Runs.UnlockedClean | pkg/mtq-controller/vmmrq-controller/vmmrq-controller.go:401-407 | the webhook goes only at the end of a reconcile, with every quota back and an empty record persisted |
| Runs.LogCannotVanish | pkg/validating-webhook-lock/validating-webhook-lock.go:130-164 | a VMMRQ with originals is the only one and locked in; originals never change and leave only after the quota is back |
| Runs.RecordAgreement | pkg/mtq-controller/vmmrq-controller/vmmrq-controller.go:446-470 | recorded names are exactly those the recorded migrations name; a newly recorded value is the quota's value then |
| Runs.LockCacheAgreement | pkg/mtq-controller/vmmrq-controller/vmmrq-controller.go:363-374 | in every reachable state the remembered lock state gives the answer a live read would give |
| Runs.ExclusiveLending | pkg/mtq-lock-server/validation/validator.go:33-65 | pods that start while a quota is raised are migration targets; all others fit the tenant's own quotas |
| Runs.UsageBound | pkg/mtq-controller/vmmrq-controller/vmmrq-controller.go:454-457 | usage never exceeds tenant hard plus the largest addition offered, through any number of loans |
| Runs.UsageBoundOneOffer | pkg/mtq-controller/vmmrq-controller/vmmrq-controller.go:679-689 | with one addition in force the bound is tenant hard plus that addition: loans do not compound |
| Runs.EveryEntryHasAKey | pkg/mtq-controller/vmmrq-controller/vmmrq-controller.go:240-264 | once enqueueAll has run after a start, every recorded migration is queued or being worked on |
| Runs.ForgetMeansDone | pkg/mtq-controller/vmmrq-controller/vmmrq-controller.go:251-260 | a reconcile that leaves an entry requeues its key; a successful Forget leaves no entry |
| Runs.RestartRequeues | pkg/mtq-controller/vmmrq-controller/vmmrq-controller.go:204-233 | enqueueAll queues every recorded and every rejected migration |
| Enqueueing.EnqueueAll | pkg/mtq-controller/vmmrq-controller/vmmrq-controller.go:204-233 | the nested loops yield exactly the protocol's set of keys, the stand-in key included |
| Enqueueing.AllKeysExactly | pkg/mtq-controller/vmmrq-controller/vmmrq-controller.go:204-217 | a key is queued iff its migration is rejected, or recorded in a VMMRQ with originals, or it stands in for one that has nothing but originals |
| Enqueueing.RejectedExactly | pkg/mtq-controller/vmmrq-controller/vmmrq-controller.go:219-230 | a migration counts as rejected iff any of its conditions says so |
| Reconciles.StepOnTheWay | pkg/mtq-controller/vmmrq-controller/vmmrq-controller.go:266-409 | every successful call keeps the reconcile headed for one and the same result |
| Reconciles.ReconcileEnds | pkg/mtq-controller/vmmrq-controller/vmmrq-controller.go:266-409 | every failure-free reconcile ends in the same quotas, status and lock, in whatever order its loops run |
| Reconciles.ReconcileCompletes | pkg/mtq-controller/vmmrq-controller/vmmrq-controller.go:266-409 | such a reconcile is never stuck and terminates |
| Versions.UpdatesExactly | pkg/mtq-controller/vmmrq-controller/vmmrq-controller.go:289-391 | every failure-free reconcile sends the first status update iff spec and status differ, and the second iff the plan changes the record or its lists come out reordered |
| Versions.NeverRefusedExactly | pkg/mtq-controller/vmmrq-controller/vmmrq-controller.go:289-391 | where the second update of one reconcile is refused for its version, no reconcile is, whatever order its lists come out in, iff the VMMRQ is in sync, or the record is unchanged and cannot be reordered |
| Versions.CompletesExactly | pkg/mtq-controller/vmmrq-controller/vmmrq-controller.go:289-391 | and one can complete iff the VMMRQ is in sync or the record is unchanged |
| Versions.RetryCompletes | pkg/mtq-controller/vmmrq-controller/vmmrq-controller.go:289-391 | after such a refusal the retry is never refused, whatever the informers say by then and whatever order its lists come out in |
| Lending.ReleaseExact | pkg/mtq-controller/vmmrq-controller/vmmrq-controller.go:328-400 | after lending, the target pod fits every quota that can be evaluated iff the quotas raised earlier already had room |
| Lending.Release | pkg/mtq-controller/vmmrq-controller/vmmrq-controller.go:328-400 | with the addition unchanged since any loan, the target pod is admitted in the locked namespace |
| Lending.Drain | pkg/mtq-controller/vmmrq-controller/vmmrq-controller.go:322-407 | from any invariant state between reconciles, reconciling all recorded keys (at least one key) gives every quota back, empties the record and removes the lock |
| Lending.DrainCompletes | pkg/mtq-controller/vmmrq-controller/vmmrq-controller.go:322-407 | such reconciles can always be carried out, from any invariant state, for any keys that no worker holds, in any order |
| Passes.RestoreConverges | pkg/mtq-controller/vmmrq-controller/vmmrq-controller.go:623-658 | any failed restoring runs and then a full one do what one full run does, which is idempotent |
| Passes.BoostConverges | pkg/mtq-controller/vmmrq-controller/vmmrq-controller.go:660-692 | the same for raising: no quota is raised twice |
| Passes.RestoreUndoesBoost | pkg/mtq-controller/vmmrq-controller/vmmrq-controller.go:623-692 | restoring after any tries of raising is the identity on quotas at their recorded values |
| Passes.RestoreUnderLag | pkg/mtq-controller/vmmrq-controller/vmmrq-controller.go:641-656 | a restoring run over any cache gives everything back iff the cache holds every raised quota and shows it raised |
| Blind.BlindEnds | pkg/mtq-controller/vmmrq-controller/vmmrq-controller.go:266-409 | every failure-free reconcile ends in the same quotas, cache, status and lock, whatever the cache says and whatever order its loops run in |
| Blind.BlindCompletes | pkg/mtq-controller/vmmrq-controller/vmmrq-controller.go:266-409 | and it does end, unless the cache holds a quota that the server does not |
| Passes.RaiseUnderLag | pkg/mtq-controller/vmmrq-controller/vmmrq-controller.go:679-689 | a raising run over any cache raises every recorded quota at its original iff the cache shows those that the addition changes at their originals |
| Lag.DrainUnderLag | pkg/mtq-controller/vmmrq-controller/vmmrq-controller.go:353-407 | a drain under any cache empties the record and unlocks; from a true record, every quota is the tenant's again iff the cache had shown every loan |
| DrainChains.ChainUnderLag | pkg/mtq-controller/vmmrq-controller/vmmrq-controller.go:353-407 | the same for drains of several entries, each under a cache of its own: iff every drain had seen the loans that it forgot |
| Lag.RecordUnderLag | pkg/mtq-controller/vmmrq-controller/vmmrq-controller.go:454-464 | after a reconcile under any cache the record is the tenant's values iff every snapshot that it took was right |
| Lag.FalseRecordOverwrites | pkg/mtq-controller/vmmrq-controller/vmmrq-controller.go:623-658 | a false record overwrites the tenant's value at the last drain |
| Lag.RaiseUnderLagExactly | pkg/mtq-controller/vmmrq-controller/vmmrq-controller.go:660-692 | after a reconcile under any cache every planned quota at its original is raised iff the cache had shown it there |
| Lag.ReleaseUnderLag | pkg/mtq-controller/vmmrq-controller/vmmrq-controller.go:679-689 | so a blocking quota lets the target pod in iff the cache had shown it at its original |
| Lag.RetrySkipsRaise | pkg/mtq-controller/vmmrq-controller/vmmrq-controller.go:680-688 | after a failed raising update and a retry without a refresh, a quota that is still planned with stays at its original |
| Lag.RetryKeepsLoan | pkg/mtq-controller/vmmrq-controller/vmmrq-controller.go:646-651 | after a failed restoring update and a retry without a refresh, every retry empties the record, unlocks, and leaves the quota raised |
| Lag.RetryExists | pkg/mtq-controller/vmmrq-controller/vmmrq-controller.go:646-651 | and there is such a retry, from every state in which the update can fail |
| Losses.LoanIsKept | pkg/mtq-controller/vmmrq-controller/vmmrq-controller.go:646-651 | a run from an untouched namespace: one cpu, lent two, and three for good |
| Assumptions.WriteBetweenReconciles | pkg/mtq-controller/vmmrq-controller/vmmrq-controller.go:454-457 | a tenant's write between reconciles keeps the invariant iff it does not contradict a recorded original |
| Assumptions.WriteBeforeTheLock | pkg/mtq-controller/vmmrq-controller/vmmrq-controller.go:353-380 | a tenant's write between snapshot and lock keeps the invariant iff the quota is not being recorded or is not changed |
| Adrift.VmmrqChangeExactly | pkg/mtq-controller/vmmrq-controller/vmmrq-controller.go:277-391 | a VMMRQ created or deleted during a reconcile is harmless, whatever fails, iff the reconcile has not planned and can no longer plan to record a quota; updates go to the listed VMMRQ and are refused only if it is gone |
| Adrift.StuckForGood | pkg/validating-webhook-lock/validating-webhook-lock.go:142-152 | locked without exactly one VMMRQ, a namespace stays so in every run, whatever anybody does |
| Assumptions.RecordWins | pkg/mtq-controller/vmmrq-controller/vmmrq-controller.go:623-658 | the last drain puts back the recorded original whatever the tenant asked for in between |
| Assumptions.RecreationPasses | pkg/validating-webhook-lock/validating-webhook-lock.go:130-141 | the lock lets a tenant delete a raised quota and create it anew |
| Assumptions.RecreatedQuotaIsLost | pkg/mtq-controller/vmmrq-controller/vmmrq-controller.go:646-651 | and then every drain overwrites the new quota with the old record |
| Workers.WorldKeepsExclusive | pkg/mtq-controller/namespace-lock-utils/namespace-lock-map.go:10-26 | no step of any worker lets two of them inside one namespace or onto one key |
| Workers.MutualExclusion | pkg/mtq-controller/vmmrq-controller/vmmrq-controller.go:275-276 | in every reachable world at most one worker is inside the reconcile of a namespace |
| Workers.WorldRefines | pkg/mtq-controller/application.go:265-269 | every world step is, for each namespace, a step of its protocol or no change |
| Workers.ProjectedRun | pkg/mtq-controller/application.go:265-269 | a run of any number of workers, seen from one namespace, is a sequential run of the protocol |
| Workers.WorldKeepsInv | pkg/mtq-controller/application.go:265-269 | so the protocol invariant holds in every namespace of every reachable world |
| Workers.StepsCommute | pkg/mtq-controller/namespace-lock-utils/namespace-lock-map.go:10-26 | steps of two workers in different namespaces commute |
| Workers.OthersCommute | pkg/mtq-controller/namespace-lock-utils/namespace-lock-map.go:10-26 | a worker's step commutes with a later event of any kind in another namespace |
| Workers.OthersCommuteBack | pkg/mtq-controller/namespace-lock-utils/namespace-lock-map.go:10-26 | and with an earlier one |
| Quantities.AreResourceMapsEqual | pkg/mtq-controller/vmmrq-controller/vmmrq-controller.go:783-800 | counting and looking up keys decides equality of maps, both ways |
| Quantities.AddResourcesToRQ | pkg/mtq-controller/vmmrq-controller/vmmrq-controller.go:741-761 | in any iteration order, each shared resource is raised exactly once and the rest is unchanged |
| Quantities.MaximumIsUnique | pkg/mtq-controller/vmmrq-controller/vmmrq-controller.go:472-509 | there is one pointwise maximum, so the fold does not depend on any order |
| Quantities.ContributionsExactly | pkg/mtq-controller/vmmrq-controller/vmmrq-controller.go:480-493 | exactly the defaults or default requests of the items of type Container count |
| Quantities.GetLimitRangeWithMaxDefaults | pkg/mtq-controller/vmmrq-controller/vmmrq-controller.go:472-509 | the result is the pointwise maximum over all container items, with exactly the keys that occur |
| Records.FlatStringToStringMapNoDups | pkg/mtq-controller/vmmrq-controller/vmmrq-controller.go:607-621 | exactly the names that occur in some list, each once |
| Records.GetRQNameAndSpecIfExist | pkg/mtq-controller/vmmrq-controller/vmmrq-controller.go:773-781 | a deep copy of the entry of that name, if and only if there is one |
| Records.GetRQListToRestore | pkg/mtq-controller/vmmrq-controller/vmmrq-controller.go:411-425 | exactly the entries recorded before and not any more |
| Records.GetAllBlockingRQsInNS | pkg/mtq-controller/vmmrq-controller/vmmrq-controller.go:446-470 | each named quota once: a recorded original as a copy of its own, a new one as a snapshot sharing the cached map |
| Records.CheckTwice | pkg/mtq-controller/vmmrq-controller/vmmrq-controller.go:715-721 | the verdicts at base and after the addition, although the copy is raised in place |
| Fits.CheckExactly | pkg/mtq-controller/vmmrq-controller/vmmrq-controller.go:599-601 | the three verdicts in numbers: errors, a resource that is short, or room |
| Fits.AdmittedExactly | pkg/mtq-controller/vmmrq-controller/vmmrq-controller.go:599-601 | a pod is admitted iff it leaves every limited resource that it asks for within its limit |
| Fits.ExactFit | pkg/mtq-controller/vmmrq-controller/vmmrq-controller.go:599-601 | exactly what is left is admitted, one unit more is exceeded |
| Fits.RoomExactly | pkg/mtq-controller/vmmrq-controller/vmmrq-controller.go:718-721 | an addition makes room iff it covers what is missing of every resource |
| Fits.BlockingExactly | pkg/mtq-controller/vmmrq-controller/vmmrq-controller.go:710-738 | the blocking list in numbers: nothing if a quota that selects the pod stays short, else the quotas that are short before and not after |
| Fits.LastUnit | pkg/mtq-controller/vmmrq-controller/vmmrq-controller.go:718-727 | an addition of exactly what is missing releases the quota, one unit less nothing |
| Records.GetCurrBlockingRQInNS | pkg/mtq-controller/vmmrq-controller/vmmrq-controller.go:699-739 | as a set the blocking quotas of the specification, without duplicates, for any cache order |
| Visits.RestoredOneMore | pkg/mtq-controller/vmmrq-controller/vmmrq-controller.go:627-656 | one more visit extends the restored part, or leaves cache and server apart on the failed quota |
| Visits.RaisedOneMore | pkg/mtq-controller/vmmrq-controller/vmmrq-controller.go:661-690 | the same for a raising visit |
| Traces.RestoreRun | pkg/mtq-controller/vmmrq-controller/vmmrq-controller.go:623-658 | a restoring loop over any part of its list is a run of protocol steps |
| Traces.BoostRun | pkg/mtq-controller/vmmrq-controller/vmmrq-controller.go:660-692 | a raising loop over any part of its list is a run of protocol steps |
| Traces.RunKeepsInv | pkg/mtq-controller/vmmrq-controller/vmmrq-controller.go:266-409 | whatever run of calls the code makes keeps the invariant |
| ApiServers.Dump | pkg/mtq-controller/vmmrq-controller/vmmrq-controller.go:390-395 | what is persisted are the values that the shared maps hold at the time of the call |
| Controller.VmmrqController.RestoreOriginalRQs | pkg/mtq-controller/vmmrq-controller/vmmrq-controller.go:623-658 | server and cache after the loop; it fails exactly if the server refuses the right update of one quota, and the cache then has what the server has not |
| Controller.VmmrqController.AddResourcesToRQs | pkg/mtq-controller/vmmrq-controller/vmmrq-controller.go:660-692 | the same for raising, with hard maps that record and cache share |
| Controller.VmmrqController.DecideMigration | pkg/mtq-controller/vmmrq-controller/vmmrq-controller.go:302-351 | the branches give the protocol's new migrations and the outcome, or the early end that the informers' answers call for, as `Answers.ReadExactly` spells out |
| Answers.ReadExactly | pkg/mtq-controller/vmmrq-controller/vmmrq-controller.go:302-351 | blocked, at the maximum, not blocked, or an early end: for each exactly the answers that lead to it; a migration that is gone is not blocked whatever else is answered |
| Answers.BlockedExactly | pkg/mtq-controller/vmmrq-controller/vmmrq-controller.go:427-445 | blocked iff pending, without a target pod, and rejected; the pods are asked for only if it is pending |
| Answers.OutcomeExactly | pkg/mtq-controller/vmmrq-controller/vmmrq-controller.go:321-331 | forgotten iff not blocked, five seconds later iff at the maximum, at once iff blocked |
| Controller.VmmrqController.ListAndSync | pkg/mtq-controller/vmmrq-controller/vmmrq-controller.go:277-295 | a refused list backs off; otherwise exactly one VMMRQ, with its status synchronized to its spec, or the key is forgotten; no update is sent when they agree |
| Controller.VmmrqController.LookUpAndLock | pkg/mtq-controller/vmmrq-controller/vmmrq-controller.go:363-385 | the remembered or read lock state, and webhook and memory after taking the lock |
| Controller.VmmrqController.ShouldUpdateVmmrq | pkg/mtq-controller/vmmrq-controller/vmmrq-controller.go:694-697 | an update is sent whenever the status changes; otherwise only if the record has two names whose order can change |
| Orders.ReorderableExactly | pkg/mtq-controller/vmmrq-controller/vmmrq-controller.go:607-621 | a record can be reordered iff it has two different names |
| Controller.VmmrqController.WriteStatus | pkg/mtq-controller/vmmrq-controller/vmmrq-controller.go:390-395 | afterwards the server's status is the plan, or the old one exactly if the server refuses the plan; nothing is sent when nothing changes, the order of lists included |
| Controller.VmmrqController.GiveLockBack | pkg/mtq-controller/vmmrq-controller/vmmrq-controller.go:401-407 | webhook and memory after giving the lock back |
| Controller.VmmrqController.Reconcile | pkg/mtq-controller/vmmrq-controller/vmmrq-controller.go:266-409 | whatever fails, the calls are a run of the protocol that ends the reconcile with the returned outcome; there is an error exactly if a call is refused, there is not one VMMRQ, or an answer is missing |
| Controller.VmmrqController.Execute | pkg/mtq-controller/vmmrq-controller/vmmrq-controller.go:240-264 | one key through queue, mutex and reconcile; without an error the quotas, the VMMRQ and the lock are what the specification of a reconcile says |
| Answers.NothingRefused | pkg/mtq-controller/vmmrq-controller/vmmrq-controller.go:240-264 | if nothing is refused, the informers answer and there is one VMMRQ, there is no error, and with an up-to-date informer the result is that of the specification |
| Answers.NoSingleVmmrq | pkg/mtq-controller/vmmrq-controller/vmmrq-controller.go:281-283 | without exactly one VMMRQ, and if the list is not refused, the key is forgotten and nothing changes |
| Answers.KeyStaysExactly | pkg/mtq-controller/vmmrq-controller/vmmrq-controller.go:251-260 | a key leaves the queue exactly if nothing was refused, and there is not one VMMRQ or the migration is not blocked |
| Answers.UnblockedMigrationIsDropped | pkg/mtq-controller/vmmrq-controller/vmmrq-controller.go:322-324 | a migration that is not blocked any more is off the record, under any cache |
| Answers.DeletedMigrationIsDropped | pkg/mtq-controller/vmmrq-controller/vmmrq-controller.go:303-324 | so is a migration that is gone, whatever else the informers answer |
| Controller.ExecuteKeepsInv | pkg/mtq-controller/vmmrq-controller/vmmrq-controller.go:240-264 | executing a key keeps the protocol's invariant, whatever fails |
| Controller.PersistedOriginalIsPreBoost | pkg/mtq-controller/vmmrq-controller/vmmrq-controller.go:390-400 | a newly recorded original is the value from before the raise, whatever fails, although it shares the map that is raised in place |
| Controller.NewlyRecordedIsRaised | pkg/mtq-controller/vmmrq-controller/vmmrq-controller.go:390-400 | and without an error the quota itself ends up raised from it |

## Left out

- Controller.VmmrqController.Execute: nobody else acts while the method runs and the mutex is free when it starts; interleavings are in the protocol's and the workers' steps.
- Mutexes.NamespaceLockMap.Lock: does not model blocking; a call that returns found the mutex free, and waiting is in `Workers`.
- Quantities.GetLimitRangeWithMaxDefaults: the result feeds the rendered pod's request, which is an input here, because applying the defaults is not in this code.
- Lending.Release: needs an up-to-date informer and non-negative additional resources, as the code does; without the former see `Lag.ReleaseUnderLag`.
- Workers.StepsCommute: says nothing of a restart, which concerns all namespaces at once.
- Reconciles.ReconcileCompletes: does not model resource versions; with them it holds exactly as `Versions.NeverRefusedExactly` and `Versions.CompletesExactly` say.
- Lending.DrainCompletes: does not model resource versions either; a refused reconcile of it takes one retry (`Versions.RetryCompletes`).
- The order of a VMMRQ's lists: the protocol keeps maps and sets; a write that changes no more than an order is one that changes nothing, and `Versions` counts it.
- NamespaceCache under concurrent access: its Go map has no mutex; its operations are atomic here.
- Delays: rate limiting and the five seconds of `AddAfter` are kept as the decision to requeue only.
- Keys: the work queue's strings are migration names within one namespace, so `parseKey` and its error are not modelled.
- CheckRequest and the pod evaluator: the three-way check is a function of hard, used and request; a negative request is an evaluation error.
- Quotas' status between reconciles: for an unrecorded quota the check reads status hard, which is an input of the decision.
- The webhook's content: `NamespaceLocked` is an existence check; its comparison and refresh are not modelled.
- Counting parallel migrations, matching target pods, and rendering the target pod: Boolean or numeric inputs.
- The operator, certificates, manifests, HTTP serving, leader election, events and logging: plumbing.
