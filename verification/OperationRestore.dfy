/**
  What survives a restart: the durable row of a record, the checks a row must
  pass before it is loaded, and the record that loading it yields.
 */
module OperationRestore {
  import opened ControlTypes
  import opened OperationRecord

  /** `reserved` says that the policy state written with the row holds a reservation of its decision. */
  datatype Persisted = Persisted(
    request: ControlRequest, status: Status, attempts: nat, cancel: bool, ack: Option<Ack>, run: Option<ActionRun>,
    outcome: Option<ActionOutcome>, delivery: map<Id, bool>, output: Option<Id>, createdAt: int, updatedAt: int,
    reserved: bool)

  function ToPersisted(o: Operation): Persisted {
    Persisted(o.request, o.status, o.attempts, o.cancel, o.ack, o.run, o.outcome, o.delivery, o.output,
              o.createdAt, o.updatedAt, o.reserved)
  }

  // ---------------------------------------------------------------- the checks

  predicate RequestOk(r: ControlRequest) {
    && r.action.actorId == r.target.actorId
    && r.action.expectedEpoch == r.binding.epoch
    && r.action.observationSeq == r.binding.observationSeq
    && r.bound.request == r.action
    && r.bound.observationSeq == r.action.observationSeq
    && r.parent != Some(r.operationId)
    && (HostAdmin in r.principal.scopes || ActorExecute in r.principal.scopes)
  }

  predicate TimesOk(p: Persisted) {
    0 <= p.createdAt <= p.updatedAt <= WIRE
  }

  predicate ReportsOk(p: Persisted) {
    && (p.ack.Some? ==> p.ack.value.operationId == p.request.operationId)
    && (p.run.Some? ==> p.run.value.operationId == p.request.operationId)
    && (p.outcome.Some? ==> p.outcome.value.operationId == p.request.operationId && TerminalRun(p.outcome.value.status))
    && (p.delivery != map[] ==> p.outcome.Some?)
  }

  predicate NoExecutionState(p: Persisted) {
    p.attempts == 0 && p.ack.None? && p.run.None? && p.outcome.None? && p.output.None?
  }

  /** The relation check between status, acknowledgement, run and outcome. */
  predicate RelationsOk(p: Persisted) {
    match p.request.decision.result
    case Deny => p.status == Rejected && NoExecutionState(p)
    case RequireConfirmation => p.status in {AwaitingConfirmation, Cancelled, Stale} && NoExecutionState(p)
    case Allow =>
      && p.status != AwaitingConfirmation
      && (p.ack.Some? ==> p.attempts > 0)
      && if p.ack.Some? && !p.ack.value.accepted then
           p.status == Rejected && p.run.None? && p.outcome.None? && p.output.None?
         else
           && (p.ack.Some? ==> p.status in {Accepted, Running, Succeeded, Failed, Cancelled, StoppedEarly, Stale, OutcomeUnknown})
           && (p.run.Some? || p.outcome.Some? ==> p.ack.Some?)
           && (p.output.Some? ==> p.outcome.Some?)
           && (p.outcome.Some? ==>
                 && p.status == StatusFromRun(p.outcome.value.status)
                 && p.outcome.value.epoch == p.request.binding.epoch
                 && p.outcome.value.worldSeq >= p.request.binding.observationSeq)
           && (p.run.Some? ==>
                 if p.outcome.None? then p.status == StatusFromRun(p.run.value.status)
                 else TerminalStatus(StatusFromRun(p.run.value.status)) ==> p.run.value.status == p.outcome.value.status)
           && (p.ack.None? ==>
                 && (p.status == Delivered ==> p.attempts > 0)
                 && (p.status in {Queued, Delivered, Stale} || (p.status == Cancelled && p.attempts == 0)))
  }

  /** Active work under a limited decision must still hold its reservation. */
  predicate ReservedRow(p: Persisted) {
    Limited(p.request) && Pending(p.status) ==> p.reserved
  }

  predicate RowOk(p: Persisted) {
    RequestOk(p.request) && TimesOk(p) && ReportsOk(p) && RelationsOk(p) && ReservedRow(p)
  }

  // ---------------------------------------------------------------- loading a row

  function RestoredStatus(p: Persisted): Status {
    if p.ack.Some? && !p.ack.value.accepted then Rejected
    else if p.outcome.Some? then StatusFromRun(p.outcome.value.status)
    else if p.request.decision.result == Deny then Rejected
    else if p.status == Cancelled && p.attempts == 0 && p.ack.None? then Cancelled
    else if p.ack.Some? then (if p.run.None? && p.status == Accepted then Accepted else OutcomeUnknown)
    else Stale
  }

  function RestoredRejection(p: Persisted): Option<Ack> {
    if p.ack.Some? && !p.ack.value.accepted then p.ack
    else if p.outcome.None? && p.request.decision.result == Deny then Some(DenialOf(p.request))
    else None
  }

  /** The loaded record; a decision whose record comes back ended or unknown is finalized. */
  function RestoreOperation(p: Persisted): Option<Operation> {
    if !RowOk(p) then None
    else Some(Operation(p.request, RestoredStatus(p), p.attempts, p.cancel, p.ack, p.run, p.outcome, p.delivery, p.output,
                        RestoredRejection(p), KeyOf(p.request), p.createdAt, p.updatedAt, {},
                        p.reserved && RestoredStatus(p) == Accepted))
  }

  // ---------------------------------------------------------------- what restoring guarantees

  /** The binding names the very observation the request named, with no tolerated gap. */
  predicate BoundExactly(r: ControlRequest) {
    r.bound.observationSeq == r.action.observationSeq
  }

  /** The last run report and the record agree: the guard that the relation check puts on a run. */
  predicate RunAgrees(o: Operation) {
    o.run.Some? ==>
      if o.outcome.None? then o.status == StatusFromRun(o.run.value.status)
      else TerminalStatus(StatusFromRun(o.run.value.status)) ==> o.run.value.status == o.outcome.value.status
  }

  /**
    A record the service can hold is restorable exactly when its timestamps are
    ordered, its binding has no observation gap, its run agrees with it, and no
    run report put it back to work without the reservation that it needs.
   */
  lemma RestorableIff(o: Operation)
    requires RecordOk(o)
    ensures RestoreOperation(ToPersisted(o)).Some?
            <==> TimesOk(ToPersisted(o)) && BoundExactly(o.request) && RunAgrees(o) && ReservedRow(ToPersisted(o))
  {
  }

  /** Loading a row keeps the record invariant and never yields undelivered or unanswered work. */
  lemma RestoredIsQuiet(o: Operation)
    requires RecordOk(o) && RestoreOperation(ToPersisted(o)).Some?
    ensures var restored := RestoreOperation(ToPersisted(o)).value;
            && RecordOk(restored)
            && SameIdentity(o, restored) && restored.request == o.request
            && !LiveUnacked(restored) && Quiet(restored)
  {
  }

  /** Persisting and loading a settled record gives back its whole result. */
  lemma SettledRoundTrip(o: Operation)
    requires RecordOk(o) && Settled(o) && RestoreOperation(ToPersisted(o)).Some?
    ensures SameResult(o, RestoreOperation(ToPersisted(o)).value)
  {
  }

  /**
    A record that was restored once can be restored again exactly when it had no
    run, or had an outcome, or the Host itself had reported the run as unknown.
   */
  lemma SecondRestartIff(o: Operation)
    requires RecordOk(o) && RestoreOperation(ToPersisted(o)).Some?
    ensures var restored := RestoreOperation(ToPersisted(o)).value;
            RestoreOperation(ToPersisted(restored)).Some?
            <==> o.run.None? || o.outcome.Some? || o.run.value.status == RunUnknown
  {
    RestoredIsQuiet(o);
    RestorableIff(o);
    RestorableIff(RestoreOperation(ToPersisted(o)).value);
  }

  /** An accepted operation whose Host reported that it is running. */
  function RunningExample(): Operation {
    var epoch := Epoch(1, 1, 1);
    var principal := Principal(1, {ActorExecute});
    var action := ActionRequest(1, 1, 1, 1, 1, epoch, 5, None, 1, 0);
    var request := ControlRequest(
      7, principal, ActorKey(1, 1, 1), Binding(epoch, 5, 1, 1), action, BoundAction(action, 5, 1), Decision(Allow, 1, 0, false), None, 10);
    Operation(request, Running, 1, false, Some(Ack(7, true, 0)), Some(ActionRun(7, RunRunning, 1, 10, 1, 20)), None, map[], None,
              None, KeyOf(request), 10, 20, {}, false)
  }

  /** A record whose binding saw one observation more than its request, as a submission allows, is never restored. */
  lemma GapCannotRestore()
    ensures var o := RunningExample();
            var ahead := o.(request := o.request.(bound := o.request.bound.(observationSeq := 6)), status := Accepted, run := None);
            RecordOk(ahead) && RestoreOperation(ToPersisted(ahead)).None?
            && RecentObservationGap(ahead.request.bound.observationSeq, ahead.request.action.observationSeq)
  {
    var o := RunningExample();
    RestorableIff(o.(request := o.request.(bound := o.request.bound.(observationSeq := 6)), status := Accepted, run := None));
  }
}
