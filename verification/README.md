# Verified model of the Rin control plane and agent task runtime

Rin lets principals submit actions for actors that run on Hosts. The control
plane binds an action to the Host's state, decides it by policy, queues it,
hands it out on polls, records acknowledgement, run and outcome, and survives
restarts. The agent task runtime selects one action after another for a durable
task, speculates on the next step while an operation runs, and must never lose
track of what it submitted. This project models both in Dafny and proves what
they keep.

## The control plane

* `ControlTypes`, `OperationRecord`: leases, publications, requests and
  reports; one operation record, every change of a single record, and the record
  invariant.
* `OperationRestore`: the durable row of a record, the restore checks, and what
  loading a row yields.
* `ControlPlane`: the state machine, one function per critical section of the
  service lock. A submission and a confirmation are several sections, because
  the lock is released while the Host binds or observes.
* `ControlInvariants`, `ControlSteps`, `ControlAdmission`, `ControlSections`,
  `ControlSubmission`, `ControlHostSide`: the invariant and its preservation by
  each building block and each section.
* `ControlRestart`, `ControlRuns`, `ControlTheorems`: restart, whole runs with
  write failures and crashes, and the statements about every run.
* `ControlFencing`: exactly when work in force is still under its lease, and when
  its budget is still reserved.
* `ControlScenario`, `ControlExamples`: concrete runs, from an empty store, to each
  failure that the exact conditions describe.
* `ParentGraph`: the cycle check of a restore, with its loops and memo set.
* `ControlService`: the service object with its fields and loops; each method
  ends in the state that the function of `ControlPlane` computes, and `Serve`
  turns that into a refinement: whatever request the object serves is one event of
  the state machine and keeps its invariant.

## The task runtime

* `Lookahead`, `LookaheadProofs`, `LookaheadRuntime`: the speculative model call,
  its token ledger, and the settlement loop that retries its compare-and-swap.
* `TaskActions`, `TaskActionProofs`: selection, submission, cancellation without
  the task lock, recovery, and the gateway whose operations outlive them.
* `ActorOccupancy`: the runtime object over the lock table, the task store and the
  lives of the stored tasks; starting tasks under the lock of the actor.
* `TaskStore`: the local task store with its derived indexes and retirement.
* `TaskLocks`: the reference-counted lock table.
* `TaskEvidence`: the bounded history and the evidence kept beside it.
* `TaskCompletion`: completion evidence and its soundness.
* `TaskExamples`: concrete runs of one task to the failures described below.

## Assumptions

* Identifiers are natural numbers: opaque names compared for equality and order.
  Digests and joined keys are the joined values, that is, injective.
* A new lease of a controller carries an identifier that was never issued before.
* The clock is read once per critical section and need not be monotone.
* A new operation identifier is one that was never issued before.
* A durable write commits, does not commit, or commits and reports an error.
* A Host never gives two bindings one identifier, so a decision that a submission
  or a confirmation stores is a new one, and the policy engine holds a reservation
  of its own for it exactly if it has limits. A reservation goes when its decision
  is finalized, and the policy does not change between a stop and the next open.
* Host outcomes carry terminal statuses only, and a policy evaluated over a
  stopped actor denies.
* The gateway of a task returns the operation it has under a key, and refuses
  outright (stale, lease expired, forbidden, invalid) only what it never stored.
* A task save is one compare-and-swap, so a step of a thread that holds the task
  lock acts on the stored task or not at all. A submission reaches the gateway
  either way.
* `TaskCompletion` takes from its caller which facts and selectors match.

## Where the code does not keep what one might expect

* Not every reachable state can be restored. A record that went unknown keeps
  its run, which the next restore refuses; `UnknownRunClosesStore` states it for
  every run, `ControlExamples.SecondRestartCloses` is a run from an empty store.
  `OpensIff`, `ReachedOpensIff` and `CheckpointOpensIff` give the exact condition
  over operations, controller leases and emergency stops.
* A lease that is renewed after the clock went back may expire before it was
  acquired. It is live, and its row keeps the store from opening
  (`ControlExamples.RenewedLeaseClosesStore`).
* A sweep finalizes the policy decision of the work that it ends, and a run report
  that puts the work back does not reserve its budget again, which a restore
  demands. `ControlFencing.ReservationIsOpenIff` says exactly when that is so,
  `ControlExamples.LostReservationClosesStore` is a run.
* A binding may be up to eight observations ahead of its request, but a restore
  wants equality (`RestorableIff`); `GapCannotRestore` gives a record,
  `ControlExamples.GapClosesStore` a run from an empty store.
* Work that its Host accepted may be handed out again without a held lease. It
  happens exactly when the lease was gone at the moment the record was last loaded
  by a restart (absent, replaced or expired in the file that was read) or put back
  to work by a run report, and, for an emergency stop, exactly when a run report
  put the record back to work under that very stop: a sweep fences incomplete
  records only, an unknown record counts as complete, and a run report makes it
  incomplete again. `ControlFencing.InForceIsHeldIff` and
  `ControlFencing.RedeliveryIsHeldIff` state this for every run;
  `ReloadedWorkIsRedelivered` and `RevivedWorkIsRedelivered` in `ControlExamples`
  are runs, the second without any restart. Work that is not yet acknowledged is
  fenced in every run (`FencedDelivery`).
* Without an archive a pruned key is forgotten and a later submission of it is a
  new operation (`RemovalForgetsIff`, with the run
  `ControlExamples.PrunedKeyIsReused`), and a task may finish although the gateway
  forgot a delivered operation that went stale (`ForgettableYetUnknownIff`, with the
  run `TaskExamples.FinishesOverForgotten`).
* A provider that reports more than it reserved can use up the room that the
  reservation left (`RoomKeptIff`, with the run
  `TaskExamples.OverReportRefusesCall`).

## Model

| member | source | states |
|---|---|---|
| `OperationRecord.ConfirmedExecutionHasProof` | controlplane/operation.go:827-844 | A confirmed execution carries a succeeded outcome of the binding epoch, not older than the binding, an accepted acknowledgement, a delivery and an Allow decision |
| `OperationRecord.SweptKeeps` | controlplane/operation.go:739-820 | Expiry, lost leases, stops and superseded authority keep the record invariant, leave complete records untouched, and leave nothing they hit dispatchable |
| `OperationRecord.RedeliveredKeeps` | controlplane/operation.go:664-690 | Only an incomplete record is delivered again, and delivery changes neither identity nor result |
| `OperationRecord.AcknowledgedKeeps` | controlplane/operation.go:123-167 | An acknowledgement keeps the record invariant and revives nothing |
| `OperationRecord.RunReportedKeeps` | controlplane/operation.go:170-231 | A run report is only taken by a record that is not settled |
| `OperationRecord.ResultReportedKeeps` | controlplane/operation.go:243-310 | A result settles a record that was not settled, keeping the record invariant |
| `OperationRecord.CancelAskedKeeps` | controlplane/operation.go:515-576 | A cancelled record is never dispatched unacknowledged again and a settled one keeps its result |
| `OperationRecord.PendingDecisionKeeps` | controlplane/action_gateway.go:412-465 | Allowing, denying or ending a record that waits for confirmation keeps the record invariant |
| `OperationRestore.RestorableIff` | controlplane/operation_file.go:584-684 | A record the service can hold is accepted by the restore checks if and only if its times are ordered, its binding has no observation gap, its run agrees with it, and active work under a budgeted decision still holds its reservation |
| `OperationRestore.RestoredIsQuiet` | controlplane/operation_file.go:635-684 | A restored record is settled, unknown, or accepted without a run; it is never dispatchable unacknowledged |
| `OperationRestore.SettledRoundTrip` | controlplane/operation_file.go:967-974 | Persisting and restoring a settled record gives back request, status, reports, outcome, output, rejection and key |
| `OperationRestore.SecondRestartIff` | controlplane/operation_file.go:862-895 | A restored record is restorable again if and only if it had no run, had an outcome, or the Host itself reported the run unknown |
| `OperationRestore.GapCannotRestore` | controlplane/operation_file.go:764-775 | A record whose binding saw one observation more than its request satisfies the record invariant and the submission tolerance, and is never restored |
| `ControlSteps.EndControllersGuards` | controlplane/controller.go:315-341 | Ending leases leaves every dispatchable record bound to a lease that is still held |
| `ControlSteps.CommitOk` | controlplane/operation_file.go:897-974 | What is written satisfies every structural property a restore demands |
| `ControlSteps.PersistFails` | controlplane/operation_file.go:1006-1030 | A write that reports an error, committed or not, leaves a good intermediate state |
| `ControlSteps.PersistSucceeds` | controlplane/operation_file.go:1006-1030 | After a successful write every record in memory has a durable counterpart that is not ahead of it |
| `ControlSteps.UnlinkForest` | controlplane/operation.go:786-795 | Taking a childless record out of the pool and its parent keeps the forest exact and acyclic |
| `ControlSteps.StagedRetired` | controlplane/outcome_archive.go:77-99 | Archiving a settled record keeps archive and hot pool disjoint in identifiers and keys |
| `ControlSteps.RemoveStep` | controlplane/operation.go:768-800 | Dropping or archiving a settled, childless record keeps the whole invariant |
| `ControlAdmission.LeafOutsideCycle` | controlplane/action_gateway.go:602-618 | Linking a new record under its parent creates no parent cycle |
| `ControlAdmission.InsertStep` | controlplane/action_gateway.go:602-618 | Admitting a well-formed, unused, fenced record keeps the whole invariant |
| `ControlAdmission.StoreStep` | controlplane/action_gateway.go:572-633 | Storing is good whichever of its writes fails, is lost or commits ambiguously; a failed one is taken back |
| `ControlSections.RegisterHostOk` | controlplane/service.go:163-214 | Registration keeps the invariant; a Host starts over only when nothing of it may still be dispatched |
| `ControlSections.RenewHostOk` | controlplane/service.go:216-230 | Renewal keeps the invariant and evolves records only |
| `ControlSections.UnregisterHostOk` | controlplane/service.go:232-251 | Unregistering fences the Host's records and keeps the invariant |
| `ControlSections.PublishWorldOk` | controlplane/service.go:253-298 | A publication leaves every dispatchable record bound to a lease that matches the actor as now published |
| `ControlSections.AcquireControllerOk` | controlplane/controller.go:23-91 | Acquiring a lease never re-binds work of another lease |
| `ControlSections.RenewControllerOk` | controlplane/controller.go:93-138 | Renewal keeps the lease identity, or ends a lease that no longer matches its actor and fences its work |
| `ControlSections.ReleaseControllerOk` | controlplane/controller.go:162-190 | Release fences the lease's work |
| `ControlSections.GetControllerOk` | controlplane/controller.go:193-218 | Reading a lease ends it if it expired, fencing its work |
| `ControlSections.SetEmergencyStopOk` | controlplane/controller.go:220-261 | Activating a stop leaves the actor no dispatchable unacknowledged work |
| `ControlSubmission.ArchivedRead` | controlplane/outcome_archive.go:101-135 | Reading an archived record, whole or restored, shows that very record with its settled result |
| `ControlSubmission.IdempotentStep` | controlplane/action_gateway.go:635-671 | Resolving a key yields a known record or the proof that no record in memory or archive carries it |
| `ControlSubmission.DropStep` | controlplane/operation.go:774-797 | Pruning in any order keeps the invariant |
| `ControlSubmission.NewIsAdmissible` | controlplane/action_gateway.go:206-251 | After making room, a re-checked submission is still fenced, unused and under a parent of the same owner |
| `ControlSubmission.AdmitStep` | controlplane/action_gateway.go:206-254 | Making room and storing a re-checked submission keeps the invariant |
| `ControlSubmission.BeginSubmitOk` | controlplane/action_gateway.go:69-153 | The first section of a submission keeps the invariant and returns only known records |
| `ControlSubmission.FinishSubmitOk` | controlplane/action_gateway.go:155-254 | The second section keeps the invariant although the lock was released while the Host bound the action |
| `ControlSubmission.PrepareWaiting` | controlplane/action_gateway.go:468-517 | Re-checking the target of a waiting record leaves it waiting or ends it; a passed check leaves it alone |
| `ControlSubmission.FindActionOperationOk` | controlplane/action_lookup.go:11-40 | A lookup returns only a known record and keeps the invariant |
| `ControlSubmission.BeginConfirmOk` | controlplane/action_gateway.go:256-336 | The first section of a confirmation keeps the invariant |
| `ControlSubmission.FinishConfirmOk` | controlplane/action_gateway.go:348-428 | Queueing a confirmed record keeps the invariant, whatever changed while the Host was observed |
| `ControlHostSide.PollHostOk` | controlplane/operation.go:73-121 | A poll keeps the invariant and delivers only fenced or already accepted work of its Host |
| `ControlHostSide.PickedIsComplete` | controlplane/operation.go:664-690 | Deliveries follow the queue's order, and work is left behind only when the batch is full |
| `ControlHostSide.CancellationsAreComplete` | controlplane/operation.go:650-660 | Cancellations are exactly the marked incomplete records in queue order, up to the limit |
| `ControlHostSide.AcknowledgeHostOk` | controlplane/operation.go:123-167 | An acknowledgement keeps the invariant |
| `ControlHostSide.ReportRunOk` | controlplane/operation.go:170-231 | A run report resolves at most the record it names |
| `ControlHostSide.ReportResultOk` | controlplane/operation.go:243-310 | A result resolves at most the record it names, and a repeated one changes nothing settled |
| `ControlHostSide.ReviveStep` | controlplane/operation.go:193-231 | A run report that puts an unknown record back to work keeps the whole invariant, with its lease and stop noted |
| `ControlHostSide.ReadOperationOk` | controlplane/operation.go:494-513 | A read returns only a known record and keeps the invariant |
| `ControlHostSide.ListOperationsOk` | controlplane/operation.go:385-413 | A listing keeps the invariant, in whatever order it refreshes the records |
| `ControlHostSide.CancelOperationOk` | controlplane/operation.go:515-576 | A cancellation returns only a known record and keeps the invariant |
| `ControlHostSide.OutcomeAckedOk` | controlplane/outcome_delivery.go:147-169 | Acknowledging a projected outcome, or taking the mark back, changes no result |
| `ControlRestart.OpensIff` | controlplane/operation_file.go:262-439 | A store the service wrote opens if and only if every operation row, every controller lease row and every emergency stop row passes its own check, reservations included: key, parent, child-limit, cycle and lease identifier checks cannot fail |
| `ControlRestart.OpenedInv` | controlplane/operation_file.go:262-474 | What opening yields satisfies the whole invariant |
| `ControlRuns.RunSound` | controlplane/service.go:44-83 | The invariant holds in every state of every run of sections, write failures, crashes and restarts |
| `ControlTheorems.FencedDelivery` | controlplane/operation.go:81-102 | In every run, an operation delivered before its acknowledgement is bound to the lease live at that poll and to the epoch and authority revision of the actor as published, and its actor is not stopped |
| `ControlTheorems.StoppedActorsAreQuiet` | controlplane/controller.go:343-360 | In every reachable state, while a stop is active no unacknowledged work of the actor may be dispatched, also across in-flight submissions and confirmations |
| `ControlTheorems.ConfirmedMeansExecuted` | controlplane/operation.go:827-844 | In every reachable state each record, hot or archived, that is execution-confirmed has its proof |
| `ControlTheorems.SettledIsFinal` | controlplane/operation.go:1028-1056 | While the process lives a settled record keeps its whole result; with the archive it is never forgotten |
| `ControlTheorems.UnknownStaysOpen` | controlplane/operation.go:895-902 | A record with unknown outcome stays hot and unknown until the Host reports on it |
| `ControlTheorems.WrittenResultIsFinal` | controlplane/operation_file.go:967-974 | A result that reached the store is final across crashes and restarts, and a dropped row never comes back |
| `ControlTheorems.OneOperationPerKey` | controlplane/action_gateway.go:95-153 | With the archive, any two calls of one run that return an operation for one key return the same operation |
| `ControlTheorems.KeyReuseIsRefused` | controlplane/action_gateway.go:650-671 | A key that a known record carries is refused for any other request, and nothing changes |
| `ControlTheorems.RemovalForgetsIff` | controlplane/outcome_archive.go:137-152 | Removing a settled record frees its key if and only if there is no archive |
| `ControlTheorems.ReachedOpensIff` | controlplane/operation_file.go:262-439 | A stopped service opens if and only if every operation, lease and stop row of its store passes its own check |
| `ControlTheorems.RestartDispatchesNothing` | controlplane/operation_file.go:584-684 | After a restart every record is settled, unknown or accepted without a run, and later unacknowledged dispatch is only of records stored after it |
| `ControlTheorems.CheckpointOpensIff` | controlplane/operation_file.go:992-1030 | A checkpoint opens again if and only if every record, every controller lease and every emergency stop in memory passes its own row check |
| `ControlTheorems.UnknownRunClosesStore` | controlplane/operation_file.go:871-875 | Whatever run led there, once a record that went unknown while its Host reported its run in progress is checkpointed, the service does not open again |
| `ControlFencing.HistoryIsRecorded` | controlplane/operation.go:170-231 | In every reachable state the history fields hold exactly the records whose lease was gone, and the stop that was active, when they were last loaded or put back to work |
| `ControlFencing.InForceIsHeldIff` | controlplane/controller.go:315-360 | In every reachable state the lease of an incomplete, uncancelled record is held under the identifier, epoch and authority revision it was bound to if and only if it was not gone when the record was last loaded or put back to work by a run report; its actor is stopped if and only if it was put back to work under the very stop now active |
| `ControlFencing.RedeliveryIsHeldIff` | controlplane/operation.go:664-690 | An accepted record is handed out again under a held and live lease, and for an actor that is not stopped, under exactly the same conditions |
| `ControlFencing.ReservationIsOpenIff` | controlplane/operation_file.go:317-359 | In every reachable state active work under a budgeted decision still holds the reservation that a restart demands if and only if no run report has put it back to work since the process opened its store |
| `ControlExamples.ReloadedWorkIsRedelivered` | controlplane/operation_file.go:415-421 | A run in which an accepted operation is loaded after its lease expired and is handed out again although no lease authorises it |
| `ControlExamples.RevivedWorkIsRedelivered` | controlplane/operation.go:193-231 | A run without any restart in which an operation goes unknown with its Host, loses its lease, is reported queued and is handed out again although no lease authorises it |
| `ControlExamples.GapClosesStore` | controlplane/operation_file.go:764-775 | A run from an empty store in which an action bound one observation ahead is stored, and the service never opens again |
| `ControlExamples.SecondRestartCloses` | controlplane/operation_file.go:871-875 | A run from an empty store in which a running operation survives one restart as unknown, and after the next checkpoint the service never opens again |
| `ControlExamples.LostReservationClosesStore` | controlplane/operation_file.go:349-358 | A run from an empty store in which a budgeted operation loses its reservation with its Host, is reported queued and checkpointed; it meets every other condition, and the service never opens again |
| `ControlExamples.RenewedLeaseClosesStore` | controlplane/operation_file.go:560-564 | A run from an empty store in which a lease is renewed after the clock went back; the store holds no operation, and the service never opens again |
| `ControlExamples.PrunedKeyIsReused` | controlplane/operation.go:774-797 | A run over a store without archive in which one and the same submission is answered with one operation and, after that was pruned, with another |
| `ControlTheorems.OperationForest` | controlplane/operation_file.go:359-394 | In every reachable state children are exactly the inverse of parents, bounded, of one owner, acyclic, and the key index is the exact inverse of the keys |
| `ParentGraph.ValidateParentGraph` | controlplane/operation_file.go:500-524 | The memoising walk terminates and errs if and only if the records contain a parent cycle |
| `ParentGraph.CycleFollowsPath` | controlplane/operation_file.go:505-518 | A cycle that contains a record of a climb contains all above it |
| `ParentGraph.RevisitIsCycle` | controlplane/operation_file.go:509-511 | Meeting a record of the current chain again proves a cycle |
| `ParentGraph.ClimbClears` | controlplane/operation_file.go:519-521 | Marking a finished chain complete marks no record of any cycle |
| `ControlService.Service.SweepOperations` | controlplane/operation.go:739-766 | The loop over the hot records has exactly the effect of the sweep on every record, and marks the state changed if and only if one was hit |
| `ControlService.Service.InvalidateController` | controlplane/controller.go:315-341 | Removing one lease fences exactly the records bound to it |
| `ControlService.Service.InvalidateControllers` | controlplane/controller.go:295-313 | Removing leases one after the other equals removing them together |
| `ControlService.Service.ExpireController` | controlplane/controller.go:281-287 | Only an expired lease of the actor ends |
| `ControlService.Service.ExpireControllers` | controlplane/controller.go:289-293 | Exactly the expired leases end |
| `ControlService.Service.PersistOperations` | controlplane/operation_file.go:976-1030 | A changed state is expired and written as a whole, or nothing is |
| `ControlService.Service.RemoveOperation` | controlplane/operation.go:783-796 | A removed record leaves pool, key index and its parent's children together |
| `ControlService.Service.PruneOperations` | controlplane/operation.go:768-800 | In whatever order the records are met, pruning is the specified sequence of removals |
| `ControlService.Service.OldestSettled` | controlplane/outcome_archive.go:78-89 | The search finds the oldest settled, childless record, ties broken by identifier, or proves there is none |
| `ControlService.Service.RetireSettledOperation` | controlplane/outcome_archive.go:77-99 | A full pool with an archive gives up exactly the oldest settled record |
| `ControlService.Service.FirstToDeliver` | controlplane/operation.go:627-641 | The first record in delivery order among the candidates |
| `ControlService.Service.HostQueue` | controlplane/operation.go:621-641 | The Host's records, each once, in delivery order |
| `ControlService.Service.CollectCancellations` | controlplane/operation.go:650-660 | The bounded list of cancellation requests |
| `ControlService.Service.DeliverQueued` | controlplane/operation.go:664-690 | Delivering in place marks exactly the picked records and hands out their new values |
| `ControlService.Service.SendBatch` | controlplane/operation.go:94-102 | A batch is handed out only after its write succeeded |
| `ControlService.Service.CollectHostWork` | controlplane/operation.go:617-695 | Collecting in place equals the specified batch |
| `ControlService.Service.PollHost` | controlplane/operation.go:73-121 | A poll is exactly the specified section, for the order in which its loops met the records |
| `ControlService.Service.LookupOperation` | controlplane/outcome_archive.go:127-135 | Hot, staged and stored records are searched in this order |
| `ControlService.Service.HostOperation` | controlplane/operation.go:710-721 | A record is found for its own Host only |
| `ControlService.Service.AcknowledgeHost` | controlplane/operation.go:123-167 | An acknowledgement is recorded once, repeated exactly, or refused |
| `ControlService.Service.ReportHostRun` | controlplane/operation.go:170-231 | A run report advances monotonically or is refused |
| `ControlService.Service.RecordResult` | controlplane/operation.go:264-309 | A result is recorded once and an exact repeat only completes projections |
| `ControlService.Service.ReportHostResult` | controlplane/operation.go:243-310 | A result report is exactly the specified section |
| `ControlService.Service.RefreshOperation` | controlplane/operation.go:723-737 | A read first lets the deadline or the Host lease expire |
| `ControlService.Service.ReadOperation` | controlplane/operation.go:494-513 | A read is exactly the specified section |
| `ControlService.Service.CancelOperation` | controlplane/operation.go:515-576 | A cancellation is exactly the specified section |
| `ControlService.Service.ListOperations` | controlplane/operation.go:385-413 | A listing refreshes exactly the records its caller may see, in the order met, and writes what expired |
| `ControlService.Service.AckOutcome` | controlplane/outcome_delivery.go:147-169 | A projected outcome is marked once; a failed write takes the mark back |
| `ControlService.Service.RegisterHost` | controlplane/service.go:163-214 | Registration is exactly the specified section |
| `ControlService.Service.RenewHost` | controlplane/service.go:216-230 | Renewal is exactly the specified section |
| `ControlService.Service.UnregisterHost` | controlplane/service.go:232-251 | Unregistering is exactly the specified section |
| `ControlService.Service.PublishWorld` | controlplane/service.go:253-298 | A publication fences superseded authority, ends mismatched leases and replaces the world, in this order |
| `ControlService.Service.AuthorizeActor` | controlplane/operation.go:578-600 | Finding the Host expired fences its work before the refusal |
| `ControlService.Service.AcquireController` | controlplane/controller.go:23-91 | Acquisition is exactly the specified section |
| `ControlService.Service.RenewController` | controlplane/controller.go:93-138 | Renewal is exactly the specified section |
| `ControlService.Service.ReleaseController` | controlplane/controller.go:162-190 | Release is exactly the specified section |
| `ControlService.Service.GetController` | controlplane/controller.go:193-218 | Reading a lease first ends it if it expired, and writes that |
| `ControlService.Service.SetActorEmergencyStop` | controlplane/controller.go:220-261 | The stop is exactly the specified section |
| `ControlService.Service.PrepareAction` | controlplane/action_gateway.go:468-517 | The repeated checks, with the expiry they cause |
| `ControlService.Service.ValidateParent` | controlplane/action_gateway.go:519-555 | A parent is refused in exactly the specified cases |
| `ControlService.Service.ArchivedKey` | controlplane/outcome_archive.go:137-152 | The archive search finds a record of the key or proves there is none |
| `ControlService.Service.IdempotentAction` | controlplane/action_gateway.go:635-671 | Resolving a key finds the hot or archived record the specification names |
| `ControlService.Service.FindActionOperation` | controlplane/action_lookup.go:11-40 | A lookup resolves an exact intent, or tells a submission under way from an unknown one |
| `ControlService.Service.StoreOperation` | controlplane/action_gateway.go:572-633 | Storing with rollback is exactly the specified sequence of writes |
| `ControlService.Service.TakeBack` | controlplane/action_gateway.go:620-630 | A rollback removes record, key and parent link and restores the parent's timestamp |
| `ControlService.Service.AdmitSubmission` | controlplane/operation.go:602-615 | Pruning, retiring and storing in this order |
| `ControlService.Service.BeginSubmit` | controlplane/action_gateway.go:94-153 | The first section of a submission, with flights |
| `ControlService.Service.FinishSubmit` | controlplane/action_gateway.go:155-251 | The second section: the checks of binding, decision and interruption, the repeated checks, the comparison of snapshots and the store, each with its refusal |
| `ControlService.Service.ResolveOrAdmit` | controlplane/action_gateway.go:214-251 | A key taken meanwhile is answered, a free one admitted |
| `ControlService.Service.BeginConfirm` | controlplane/action_gateway.go:271-335 | The first section of a confirmation |
| `ControlService.Service.AwaitApproval` | controlplane/action_gateway.go:304-334 | A record whose target fails its checks is ended before the Host is asked |
| `ControlService.Service.RecordDecision` | controlplane/action_gateway.go:430-466 | A denial or a further challenge is written onto the record |
| `ControlService.Service.FinishConfirm` | controlplane/action_gateway.go:336-428 | What the Host observed and the policy decided is judged in the order of the source and applied |
| `ControlService.Service.ApproveOperation` | controlplane/action_gateway.go:381-403 | The last section of a confirmation queues or ends the record |
| `ControlService.Service.QueueConfirmed` | controlplane/action_gateway.go:404-428 | A record whose queueing cannot be written is ended |
| `ControlService.EndOneMore` | controlplane/controller.go:289-293 | Ending one more lease after others equals ending all of them at once |
| `ControlService.DropOneMore` | controlplane/operation.go:774-797 | One more iteration of pruning extends the specified sequence |
| `ControlService.RefreshOneMore` | controlplane/operation.go:387-392 | One more iteration of a listing extends the specified sequence |
| `ControlService.Service.Serve` | controlplane/service.go:28-83 | Whatever request the object serves, its new state and reply are those of that event of the state machine, the invariant is kept, and a poll hands out only records its Host may work on |
| `LookaheadProofs.TokensConserved` | cognition/lookahead_runtime.go:298-425 | In every interleaving the ledger is regular, its open reservation is exactly what the task holds, and the task's tokens are exactly what was used and charged |
| `LookaheadProofs.EachReservationIsCharged` | cognition/lookahead_runtime.go:327-425 | Between any two reservations the first one's charge was committed: none is overwritten uncharged |
| `LookaheadProofs.NoDoubleCharge` | cognition/lookahead_runtime.go:342-362 | Between any two charges something was reserved: none is charged twice |
| `LookaheadProofs.CountersBounded` | cognition/lookahead_state.go:53-72 | Adopted plus discarded plus one open draft never exceeds lookahead calls, model calls and the budget |
| `LookaheadProofs.ChargeIsReportedOrReserved` | cognition/lookahead_runtime.go:354-362 | A settlement charges the reported usage if known and representable, else the reservation, or commits nothing |
| `LookaheadProofs.CrashedReservationIsCharged` | cognition/lookahead_runtime.go:459-480 | After a crash the next hold charges a lost reservation in full |
| `LookaheadProofs.RoomKept` | cognition/plan_decision.go:19-30 | An allowed ordinary call stays allowed through any speculation whose charges stay within their reservations |
| `LookaheadProofs.ReservationLeavesRoom` | cognition/lookahead_runtime.go:316-329 | A reservation leaves room for the next ordinary call, and its doubling cannot overflow 64 bits |
| `LookaheadProofs.RoomKeptIff` | cognition/lookahead_runtime.go:298-425 | Through any speculation an allowed ordinary call stays allowed if and only if the tokens used before and everything charged since stay below the budget; open reservations never count |
| `TaskExamples.OverReportRefusesCall` | cognition/lookahead_runtime.go:354-362 | A run from a new task in which the provider reports more than was reserved: the call allowed beside the reservation fails the task after the settlement |
| `LookaheadProofs.RunKeeps` | cognition/lookahead_runtime.go:80-528 | Every interleaving of reserving, settling, cancelling, abandoning, failing saves and crashing keeps the accounting invariant |
| `LookaheadProofs.RecoverKeeps` | cognition/lookahead_runtime.go:459-480 | Recovery keeps the accounting invariant |
| `LookaheadProofs.StartKeeps` | cognition/lookahead_runtime.go:80-132 | Starting a job forgets a finished one whose draft expired and overwrites no open reservation |
| `LookaheadProofs.ReserveKeeps` | cognition/lookahead_runtime.go:298-328 | Reserving keeps the accounting invariant, also when the save is ambiguous |
| `LookaheadProofs.FinishKeeps` | cognition/lookahead_runtime.go:342-425 | Settling keeps the accounting invariant |
| `LookaheadProofs.TryKeeps` | cognition/lookahead_runtime.go:482-528 | Adopting or abandoning a draft keeps the accounting invariant |
| `LookaheadProofs.ModelCallKeeps` | cognition/plan_decision.go:13-94 | An ordinary model call keeps the accounting invariant |
| `LookaheadRuntime.LookaheadJob.Land` | cognition/agent_runtime.go:453-466 | A guarded save is the specified step |
| `LookaheadRuntime.LookaheadJob.GuardLookaheadSave` | cognition/lookahead_runtime.go:433-455 | A disturbing save marks the job, or drops a finished one |
| `LookaheadRuntime.LookaheadJob.FinishLookahead` | cognition/lookahead_runtime.go:342-425 | The retry loop commits exactly one settlement of the task that the interfering edits left behind |
| `LookaheadRuntime.GuardedAlready` | cognition/lookahead_runtime.go:445-453 | A settlement attempt that loses its race leaves the job as it found it |
| `TaskActionProofs.ActionsConserved` | cognition/action_operation.go:178-228 | Ended, rejected, pending and macro actions never exceed the selected ones, and equal them unless the task was cancelled or failed |
| `TaskActionProofs.FinishedHidesNothing` | cognition/task_lifecycle.go:183-301 | A cancelled or completed task leaves no operation at the gateway without a known terminal result |
| `TaskActionProofs.LostSubmissionStaysOpen` | cognition/task_lifecycle.go:244-262 | From a cancelled task whose started submission cannot be found, through every event sequence in which no operation appears at its key, the task is never cancelled, completed or failed, every reconciliation finds its outcome unknown, and no operation is stored |
| `TaskActionProofs.CancelNeverSubmits` | cognition/task_recovery.go:9-36 | After a durable cancellation with no submission in flight, nothing stores another operation |
| `TaskActionProofs.UnknownIsNotResubmitted` | cognition/task_recovery.go:9-65 | From the start of a task through every run: once the outcome of an action is unknown, no thread submits that action again, whatever recovery, resumption, cancellation or restart follows, and the gateway stores nothing at its key |
| `TaskActionProofs.TerminalIsAbsorbing` | cognition/agent_runtime.go:203-237 | Completed, Failed and Cancelled are absorbing |
| `TaskActionProofs.ForgettableYetUnknownIff` | cognition/action_operation.go:405-425 | Which settled records a gateway without archive may forget although the task would call their result unknown |
| `TaskExamples.FinishesOverForgotten` | cognition/action_operation.go:56-121 | A run from a new task that completes although an operation it submitted was delivered, has an unknown result and was forgotten by the gateway |
| `TaskActionProofs.RunKeeps` | cognition/action_operation.go:13-403 | Every interleaving keeps the task's invariant |
| `TaskActionProofs.EndSubmitKeeps` | cognition/action_operation.go:56-121 | Every answer of the gateway, saved or lost to a concurrent cancellation, keeps the operation tracked |
| `TaskActionProofs.MacroEndsKeeps` | cognition/action_operation.go:306-403 | The end of a macro lets go of a resolved operation only |
| `TaskActionProofs.ReconcileCancelKeeps` | cognition/task_lifecycle.go:238-301 | Reconciling a cancellation lets go of nothing unresolved |
| `TaskActionProofs.GatewayKeeps` | controlplane/operation.go:1028-1056 | Whatever the gateway does on its own, a known result stays known |
| `TaskActionProofs.SelectedKeyIsFree` | cognition/plan_decision.go:193-222 | A selected action that was not yet submitted has a key under which the gateway holds nothing, although discarded actions leave their key to the next one |
| `TaskActions.TaskRecord.CancelTask` | cognition/task_lifecycle.go:183-219 | The loop ends with the mark durable on the record the other saves left, or with a finished task untouched |
| `ActorOccupancy.OneTaskPerActor` | cognition/task_lifecycle.go:49-67 | In every state that the methods of the runtime keep valid (opening, taking and leaving locks, checking, creating, saving, speculating, crashing), an actor has at most one unfinished task |
| `ActorOccupancy.OneStarterPerActor` | cognition/task_lifecycle.go:49-53 | Two threads that found the same actor free are the same thread, because one handle at most holds the actor's mutex |
| `ActorOccupancy.JoinsFree` | cognition/task_lifecycle.go:60-67 | A task stored for a free actor is alone there and leaves every other actor as free as it was, also when the store gives up history for it |
| `ActorOccupancy.SavedLives` | cognition/agent_task.go:283-320 | A save of any step of a task's life finishes the task or leaves it as unfinished as it was, so that it frees actors and never occupies one |
| `ActorOccupancy.Runtime.Check` | cognition/task_lifecycle.go:54-67 | Under the actor's lock the thread goes on if and only if the identifier is unused and no unfinished task occupies the actor, and leaves otherwise |
| `ActorOccupancy.Runtime.Create` | cognition/task_lifecycle.go:141-151 | The new task is stored and the lock left; no unfinished task is touched and the actor has one |
| `ActorOccupancy.Runtime.Save` | cognition/agent_task.go:283-320 | A compare-and-swap lands one step of the task's life or nothing, and keeps the runtime's invariant |
| `ActorOccupancy.Runtime.SaveLookahead` | cognition/lookahead_runtime.go:342-425 | A speculative save lands or not, and keeps the runtime's invariant |
| `ActorOccupancy.Runtime.Crash` | cognition/task_lock.go:7-16 | A restart loses every lock and every starting thread, keeps the stored tasks and the invariant |
| `TaskStore.LocalTaskStore.AddSchedulingIndex` | cognition/task_scheduling_updates.go:37-44 | Adds exactly the task's keys |
| `TaskStore.LocalTaskStore.RemoveSchedulingIndex` | cognition/task_scheduling_updates.go:29-36 | Removes exactly the task's keys and leaves no empty entry |
| `TaskStore.LocalTaskStore.IndexTask` | cognition/task_index.go:12-24 | Lists the task under its keys, actor and activity |
| `TaskStore.LocalTaskStore.OldestRetirable` | cognition/task_index.go:28-43 | The oldest settled task, or the proof that there is none |
| `TaskStore.LocalTaskStore.RetireTask` | cognition/task_index.go:28-56 | Only settled history leaves, the oldest first, and the indexes stay exact |
| `TaskStore.LocalTaskStore.Create` | cognition/agent_task.go:232-262 | Every outcome and its condition; no unfinished task is evicted and the capacity is kept |
| `TaskStore.LocalTaskStore.CompareAndSwap` | cognition/agent_task.go:283-320 | Replaces exactly one task at its expected revision and keeps the indexes exact |
| `TaskStore.LocalTaskStore.Replace` | cognition/agent_task.go:304-316 | Index entries move from a task to its replacement, also across actors |
| `TaskStore.LocalTaskStore.Restore` | cognition/agent_task.go:196-230 | Accepts exactly distinct, revised snapshots within capacity, and rebuilds every index |
| `TaskStore.LocalTaskStore.SchedulingSelection` | cognition/task_scheduling_updates.go:51-94 | The indexed selection equals a scan of all tasks |
| `TaskStore.LocalTaskStore.Affected` | cognition/task_scheduling_updates.go:66-87 | The indexed tasks of one change are exactly the unfinished ones it concerns |
| `TaskStore.LocalTaskStore.ActorTasks` | cognition/task_index.go:73-85 | The actor index yields exactly the actor's tasks |
| `TaskStore.ChangeKeysFind` | cognition/task_scheduling_updates.go:17-28 | A change shares an index key with a task if and only if it concerns the task |
| `TaskLocks.LockTable.TaskLock` | cognition/task_lock.go:17-27 | A handle shares the entry of its key, which is created on demand |
| `TaskLocks.LockTable.Lock` | cognition/task_lock.go:28-28 | Taking a free mutex keeps one holder per key |
| `TaskLocks.LockTable.TryLock` | cognition/task_lock.go:29-35 | Takes a free mutex, or drops the handle |
| `TaskLocks.LockTable.Unlock` | cognition/task_lock.go:36-36 | Frees the mutex and drops the handle |
| `TaskLocks.LockTable.Release` | cognition/task_lock.go:37-44 | The entry leaves the table with its last reference and not before |
| `TaskLocks.OneHolderPerKey` | cognition/task_lock.go:7-16 | All handles of a key share one entry and two holders never coexist |
| `TaskLocks.TableIsReferences` | cognition/task_lock.go:5-6 | A key is in the table if and only if a live handle refers to it; an idle table is empty |
| `TaskEvidence.TaskLog.Append` | cognition/agent_task.go:782-796 | Evidence stays the fold of the whole log, the sequence its length, the history its last 512 events |
| `TaskEvidence.TaskLog.RecordEvent` | cognition/task_execution_evidence.go:53-79 | Recording in place equals the fold's step |
| `TaskEvidence.TaskLog.EvidenceFromHistory` | cognition/task_execution_evidence.go:37-52 | Rebuilding folds the retained history and tells whether it is complete |
| `TaskEvidence.TaskLog.AddCapability` | cognition/task_execution_evidence.go:58-62 | Keeps the capability list ordered and free of repetitions |
| `TaskEvidence.FoldCounts` | cognition/task_execution_evidence.go:53-79 | Each counter counts its events over the whole unbounded log |
| `TaskEvidence.FoldCountsMacros` | cognition/task_execution_evidence.go:64-78 | The macro and completion counters count over the whole log |
| `TaskEvidence.FoldCapabilities` | cognition/task_execution_evidence.go:58-62 | The capabilities are exactly those ever selected, in increasing order |
| `TaskEvidence.CountsAgree` | cognition/task_execution_evidence.go:81-96 | Successes and ended macros never exceed ended operations |
| `TaskEvidence.RebuiltIff` | cognition/task_execution_evidence.go:37-52 | Evidence rebuilt from the history equals the kept evidence if and only if no event was dropped |
| `TaskCompletion.RefreshKeepsValid` | cognition/task_completion.go:122-143 | A refresh keeps the evidence valid |
| `TaskCompletion.RecordKeepsValid` | cognition/task_completion.go:145-180 | Recording an outcome keeps the evidence valid |
| `TaskCompletion.RunIsValid` | cognition/task_completion.go:91-120 | Every history of observations and results leaves valid evidence |
| `TaskCompletion.SizeBounded` | cognition/task_completion.go:91-94 | The bound on the number of records follows from the other checks |
| `TaskCompletion.SatisfactionIsSound` | cognition/task_completion.go:182-198 | A satisfied policy has its required number of distinct confirmed successes of the epoch, and its facts hold in the latest observation |
| `TaskCompletion.FactsAreComplete` | cognition/task_completion.go:132-142 | Every fact condition that holds in the observation is recorded |
| `TaskCompletion.RecordIsComplete` | cognition/task_completion.go:161-179 | A confirmed operation is credited to every condition it serves, unless that one has all it needs |
| `TaskCompletion.CompletionLog.RefreshFacts` | cognition/task_completion.go:122-143 | Refreshing in place equals the specified evidence |
| `TaskCompletion.CompletionLog.RecordOutcome` | cognition/task_completion.go:145-180 | Every eligibility test of an ended operation (confirmed, succeeded in the epoch of the lease, pending or macro operation, request of the task), then recording in place equals the specified evidence |
| `TaskCompletion.CompletionLog.RecordFor` | cognition/task_completion.go:161-179 | Counting and duplicate search decide each condition as specified |

## Left out

- ControlTheorems.OneOperationPerKey: is about services with the archive, because without one the key of a pruned record is free again.
- TaskActionProofs.FinishedHidesNothing: says of operations that a gateway without archive forgot only that they were settled, because their result may be unknown to the task.
- TaskActionProofs.ActionsConserved: is about tasks without a plan, because a failing plan load drops a settled action without its event and a cancelled plan clears a running macro.
- TaskActionProofs.SelectedKeyIsFree: excludes a record that a restart brings back although its write was reported as failed, because such a record may lie at a key that is used again.
- TaskActionProofs.CancelNeverSubmits: excludes the same record, because the restart brings it back and not the task.
- LookaheadProofs.RoomKept: assumes that no charge exceeds its reservation, because the code charges what the provider reports; `LookaheadProofs.RoomKeptIff` is the exact statement.
- ControlRestart.OpensIff: leaves out the restore checks of timelines, of texts and identifiers, of size limits, and of the policy's revision, digest and usage counters, because timelines, texts and the policy engine's accounts are not modelled.
- TaskActionProofs.LostSubmissionStaysOpen: leaves out runs in which an operation appears at the key of the lost submission, because then it is found.
- ActorOccupancy.OneTaskPerActor: takes saves that keep the actor of their task, as every caller of the store does; the store itself would move a task to another actor.
- Timeline entries and change notifications: they mirror the records and decide nothing. A waiting read is a sequence of reads, a listing returns what its reads would.
- The policy engine: it is seen only through its decisions and through the reservations it still holds for them.
- The order of an operation's children: it is a set here.
- Acknowledging and retrying archived outcome projections, and the delivery workers.
- Validation of texts, JSON, schemas and identifiers, file locks, SQL text and size limits of the durable file.
- Lookahead slots and the limit on jobs: they only bound how many jobs exist; the model follows the job of one task.
- The prompt, the provider calls and the checks of a draft against capabilities and targets: they are one condition of adoption.
- Plans, memories, skills, signals and schedules of a task, except where they index it.
- Liveness: timers, worker goroutines and a cooperating Host are not modelled.
