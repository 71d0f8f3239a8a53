/**
  One operation record and every change the control plane makes to a single
  record: Host reports, cancellation, confirmation, and the sweeps that end or
  fence records when a lease, a Host, an authority or a deadline is gone.
 */
module OperationRecord {
  import opened ControlTypes

  datatype Status =
    Queued | AwaitingConfirmation | Delivered | Accepted | Running | Succeeded | Failed | Cancelled
    | StoppedEarly | Stale | OutcomeUnknown | Rejected

  /**
    `reserved` says that the policy engine still holds the budget reservation of
    the record's decision.
   */
  datatype Operation = Operation(
    request: ControlRequest, status: Status, attempts: nat, cancel: bool, ack: Option<Ack>, run: Option<ActionRun>,
    outcome: Option<ActionOutcome>, delivery: map<Id, bool>, output: Option<Id>, rejection: Option<Ack>, key: Key,
    createdAt: int, updatedAt: int, children: set<Id>, reserved: bool)

  function StatusFromRun(status: RunStatus): Status {
    match status
    case RunQueued => Accepted
    case RunRunning => Running
    case RunSucceeded => Succeeded
    case RunFailed => Failed
    case RunCancelled => Cancelled
    case RunInterrupted => StoppedEarly
    case RunStale => Stale
    case RunUnknown => OutcomeUnknown
  }

  predicate TerminalStatus(status: Status) {
    status in {Succeeded, Failed, Cancelled, StoppedEarly, Stale, Rejected}
  }

  /** The statuses a Host outcome may carry. */
  predicate TerminalRun(status: RunStatus) {
    !status.RunQueued? && !status.RunRunning?
  }

  predicate CanTransition(from: RunStatus, to: RunStatus) {
    match from
    case RunQueued => to in {RunRunning, RunFailed, RunCancelled, RunStale, RunUnknown}
    case RunRunning => to in {RunSucceeded, RunFailed, RunCancelled, RunInterrupted, RunStale, RunUnknown}
    case RunUnknown => to in {RunSucceeded, RunFailed, RunCancelled, RunInterrupted, RunStale}
    case _ => false
  }

  predicate AcceptedByHost(o: Operation) {
    o.ack.Some? && o.ack.value.accepted
  }

  predicate Complete(o: Operation) {
    || o.status == OutcomeUnknown
    || o.status == Rejected
    || (o.status == Stale && !AcceptedByHost(o))
    || (o.status == Cancelled && o.attempts == 0 && o.outcome.None?)
    || o.outcome.Some?
  }

  predicate ReconciliationPending(o: Operation) {
    o.status == OutcomeUnknown && o.outcome.None?
  }

  predicate Settled(o: Operation) {
    Complete(o) && !ReconciliationPending(o)
  }

  predicate ExecutionConfirmed(o: Operation) {
    o.status == Succeeded && o.outcome.Some?
  }

  /** Work that is not complete and that no fence has caught. */
  predicate InForce(o: Operation) {
    !Complete(o) && !o.cancel
  }

  /** Work in force that the Host has not answered. */
  predicate LiveUnacked(o: Operation) {
    InForce(o) && o.ack.None?
  }

  /** Settled, waiting for reconciliation, or accepted by its Host and never started. */
  predicate Quiet(o: Operation) {
    Settled(o) || ReconciliationPending(o) || (o.status == Accepted && o.run.None? && AcceptedByHost(o))
  }

  /** The decision lets the action run and counts it against budgets. */
  predicate Limited(request: ControlRequest) {
    request.decision.result == Allow && request.decision.limited
  }

  /** The statuses in which a restart demands the reservation of a limited decision. */
  predicate Pending(status: Status) {
    status in {Queued, Delivered, Accepted, Running}
  }

  function KeyOf(request: ControlRequest): Key {
    Key(request.principal.id, request.action.idempotencyKey)
  }

  function FingerprintOf(request: ControlRequest): Fingerprint {
    Fingerprint(request.action, request.parent, request.principal)
  }

  /** The rejection that a denied decision writes onto its record. */
  function DenialOf(request: ControlRequest): Ack {
    Ack(request.operationId, false, request.decision.reason)
  }

  // ---------------------------------------------------------------- the record invariant

  /** What storing a request establishes and nothing later changes. */
  predicate StoredRequest(r: ControlRequest) {
    && r.action.actorId == r.target.actorId
    && r.action.expectedEpoch == r.binding.epoch
    && r.action.observationSeq == r.binding.observationSeq
    && r.bound.request == r.action
    && RecentObservationGap(r.bound.observationSeq, r.action.observationSeq)
    && r.parent != Some(r.operationId)
    && (HostAdmin in r.principal.scopes || ActorExecute in r.principal.scopes)
  }

  predicate UnackedShape(o: Operation) {
    && o.run.None? && o.outcome.None? && o.output.None? && o.delivery == map[]
    && (match o.status
        case Queued => o.attempts == 0 && o.request.decision.result == Allow
        case AwaitingConfirmation => o.attempts == 0 && o.request.decision.result == RequireConfirmation
        case Delivered => o.attempts > 0 && o.request.decision.result == Allow
        case Stale => o.request.decision.result == Allow || (o.attempts == 0 && o.request.decision.result == RequireConfirmation)
        case Cancelled => o.attempts == 0 && o.request.decision.result != Deny
        case Rejected => o.attempts == 0 && o.request.decision.result == Deny
        case _ => false)
    && o.rejection == (if o.status == Rejected then Some(DenialOf(o.request)) else None)
  }

  predicate RefusedShape(o: Operation) {
    && o.status == Rejected && o.attempts > 0 && o.request.decision.result == Allow
    && o.run.None? && o.outcome.None? && o.output.None? && o.delivery == map[]
    && o.rejection == o.ack
  }

  predicate OutcomeShape(o: Operation)
    requires o.outcome.Some?
  {
    && TerminalRun(o.outcome.value.status)
    && o.status == StatusFromRun(o.outcome.value.status)
    && o.outcome.value.operationId == o.request.operationId
    && o.outcome.value.epoch == o.request.binding.epoch
    && o.outcome.value.worldSeq >= o.request.binding.observationSeq
  }

  predicate AcceptedShape(o: Operation) {
    && o.attempts > 0 && o.request.decision.result == Allow && o.rejection.None?
    && (o.run.Some? ==> o.run.value.operationId == o.request.operationId)
    && (if o.outcome.Some? then OutcomeShape(o)
        else
          && o.output.None? && o.delivery == map[]
          && (o.status == OutcomeUnknown
              || o.status == (if o.run.Some? then StatusFromRun(o.run.value.status) else Accepted)))
  }

  /** The record shows what its Host last reported, which finalizes nothing. */
  predicate ByRun(o: Operation) {
    o.run.Some? && o.outcome.None? && o.status == StatusFromRun(o.run.value.status)
  }

  /** Active work under a limited decision. */
  predicate NeedsReservation(o: Operation) {
    Limited(o.request) && Pending(o.status)
  }

  /** A reservation outlives the active work only where a run report ended it. */
  predicate ReservationOk(o: Operation) {
    o.reserved ==> Limited(o.request) && (Pending(o.status) || ByRun(o))
  }

  /** What every step and every restart keeps true of each record. */
  predicate RecordOk(o: Operation) {
    && StoredRequest(o.request)
    && ReservationOk(o)
    && o.key == KeyOf(o.request)
    && (o.ack.Some? ==> o.ack.value.operationId == o.request.operationId)
    && (if o.ack.None? then UnackedShape(o)
        else if o.ack.value.accepted then AcceptedShape(o)
        else RefusedShape(o))
  }

  /** Proof of execution: what a caller may conclude from a confirmed record. */
  lemma ConfirmedExecutionHasProof(o: Operation)
    requires RecordOk(o) && ExecutionConfirmed(o)
    ensures o.outcome.value.status == RunSucceeded
    ensures AcceptedByHost(o) && o.attempts > 0
    ensures o.request.decision.result == Allow
    ensures o.outcome.value.epoch == o.request.binding.epoch
    ensures o.outcome.value.worldSeq >= o.request.binding.observationSeq
  {
    assert o.ack.Some? && o.ack.value.accepted;
  }

  // ---------------------------------------------------------------- sweeps

  datatype Sweep =
    | HostExpired(hostId: Id)
    | TtlExpired(ttl: int)
    | LeaseEnded(leaseId: Id)
    | ActorStopped(target: ActorKey)
    | AuthorityChanged(hostId: Id, worldId: Id, actors: map<Id, Actor>)

  predicate Hit(sweep: Sweep, now: int, o: Operation) {
    && !Complete(o)
    && match sweep
       case HostExpired(hostId) => o.request.target.hostId == hostId
       case TtlExpired(ttl) => o.updatedAt <= now - ttl
       case LeaseEnded(leaseId) => o.request.binding.controllerLeaseId == leaseId
       case ActorStopped(target) => o.request.target == target
       case AuthorityChanged(hostId, worldId, actors) =>
         && o.request.target.hostId == hostId && o.request.target.worldId == worldId
         && !AcceptedByHost(o)
         && !(o.request.target.actorId in actors
              && actors[o.request.target.actorId].authority.revision == o.request.binding.authorityRevision)
  }

  /** Ends a record; whatever ends it also finalizes its policy decision. */
  function Ended(o: Operation, status: Status, now: int): Operation {
    o.(status := status, reserved := false, updatedAt := now)
  }

  function Swept(sweep: Sweep, now: int, o: Operation): Operation {
    if !Hit(sweep, now, o) then o
    else match sweep
      case HostExpired(_) => Ended(o, if AcceptedByHost(o) then OutcomeUnknown else Stale, now)
      case TtlExpired(_) => Ended(o, if AcceptedByHost(o) then OutcomeUnknown else Stale, now)
      case LeaseEnded(_) =>
        if o.attempts == 0 && o.ack.None? then Ended(o, Stale, now)
        else o.(cancel := true, updatedAt := now)
      case ActorStopped(_) =>
        if o.attempts == 0 && o.ack.None? then Ended(o, Cancelled, now)
        else o.(cancel := true, updatedAt := now)
      case AuthorityChanged(_, _, _) =>
        if o.attempts == 0 then Ended(o, Stale, now)
        else o.(cancel := true, updatedAt := now)
  }

  // ---------------------------------------------------------------- single-record changes

  predicate Deliverable(o: Operation) {
    !o.cancel && o.status in {Queued, Delivered, Accepted}
  }

  function Redelivered(o: Operation, now: int): Operation {
    o.(attempts := if o.attempts < MAX_ATTEMPTS then o.attempts + 1 else o.attempts,
       status := if o.ack.None? then Delivered else o.status,
       updatedAt := now)
  }

  /** `AcknowledgeHost` on a delivered record that has no acknowledgement yet. */
  function Acknowledged(o: Operation, ack: Ack, now: int): Operation {
    if ack.accepted then o.(ack := Some(ack), status := Accepted, updatedAt := now)
    else Ended(o.(ack := Some(ack), rejection := Some(ack)), Rejected, now)
  }

  /** The statuses a first run report may carry; the source lists every status it knows. */
  predicate InitialRun(status: RunStatus) {
    status in {RunQueued, RunRunning, RunSucceeded, RunFailed, RunCancelled, RunInterrupted, RunStale, RunUnknown}
  }

  /** The checks of `ReportHostRun` once the record is found; `Ok(false)` is an exact repeat. */
  function CheckRun(o: Operation, run: ActionRun): Result<bool> {
    if o.outcome.Some? then Err(Conflict)
    else if !AcceptedByHost(o) then Err(NotAccepted)
    else if o.run.None? then (if InitialRun(run.status) then Ok(true) else Err(Conflict))
    else
      var before := o.run.value;
      if run.progressSeq < before.progressSeq then Err(StaleValue)
      else if run.progressSeq == before.progressSeq then (if run == before then Ok(false) else Err(StaleValue))
      else if run.progress < before.progress then Err(StaleValue)
      else if run.clock != before.clock || run.time < before.time then Err(StaleValue)
      else if run.status != before.status && !CanTransition(before.status, run.status) then Err(Conflict)
      else Ok(true)
  }

  /** A report on a record of unknown outcome may put it back to work, and is the only change that does. */
  predicate Revives(o: Operation, o': Operation) {
    Complete(o) && !Complete(o')
  }

  /** A report neither finalizes the decision nor reserves its budget again. */
  function RunReported(o: Operation, run: ActionRun, now: int): Operation {
    o.(run := Some(run), status := StatusFromRun(run.status), updatedAt := now)
  }

  /** The checks of `ReportHostResult`; `Ok(false)` is an exact repeat of the recorded result. */
  function CheckResult(o: Operation, outcome: ActionOutcome, output: Option<Id>): Result<bool> {
    if o.outcome.Some? then (if o.outcome.value == outcome && o.output == output then Ok(false) else Err(Conflict))
    else if !AcceptedByHost(o) then Err(NotAccepted)
    else if TerminalStatus(o.status) && o.status != StatusFromRun(outcome.status) then Err(Conflict)
    else if outcome.epoch != o.request.binding.epoch then Err(Invalid)
    else if outcome.worldSeq < o.request.binding.observationSeq then Err(Invalid)
    else Ok(true)
  }

  function OutcomeQueued(o: Operation, sinks: set<Id>): Operation {
    if o.outcome.None? then o
    else o.(delivery := o.delivery + (map sink | sink in sinks && sink !in o.delivery :: false))
  }

  function ResultReported(o: Operation, outcome: ActionOutcome, output: Option<Id>, sinks: set<Id>, now: int): Operation {
    Ended(OutcomeQueued(o.(outcome := Some(outcome)), sinks).(output := output), StatusFromRun(outcome.status), now)
  }

  function CancelAsked(o: Operation, now: int): Operation {
    if Complete(o) then o
    else if o.status == Queued || o.status == AwaitingConfirmation then Ended(o, Cancelled, now)
    else if !o.cancel then o.(cancel := true, updatedAt := now)
    else o
  }

  function Staled(o: Operation, now: int): Operation {
    Ended(o, Stale, now)
  }

  function Confirmed(o: Operation, decision: Decision, now: int): Operation {
    o.(request := o.request.(decision := decision), status := Queued, reserved := decision.limited, updatedAt := now)
  }

  /** A decision other than `Allow` on a pending confirmation. */
  function DecisionRecorded(o: Operation, decision: Decision, now: int): Operation {
    var decided := o.(request := o.request.(decision := decision), updatedAt := now);
    if decision.result == Deny then decided.(status := Rejected, rejection := Some(DenialOf(decided.request)))
    else decided
  }

  function OutcomeDelivered(o: Operation, sink: Id): Operation {
    o.(delivery := o.delivery[sink := true])
  }

  function WithChild(o: Operation, child: Id, at: int): Operation {
    o.(children := o.children + {child}, updatedAt := at)
  }

  // ---------------------------------------------------------------- what a change may do

  predicate SameResult(o: Operation, o': Operation) {
    && o'.request == o.request && o'.status == o.status && o'.ack == o.ack && o'.run == o.run
    && o'.outcome == o.outcome && o'.output == o.output && o'.rejection == o.rejection && o'.key == o.key
    && o'.cancel == o.cancel && o'.attempts == o.attempts
  }

  predicate SameIdentity(o: Operation, o': Operation) {
    && o'.request.(decision := o.request.decision) == o.request
    && o'.key == o.key && o'.createdAt == o.createdAt
  }

  /**
    What no change may break: identity stays, the record invariant stays, a
    settled record keeps its whole result, a run report stays, and no change
    revives work that was ended, answered or fenced.
   */
  predicate Follows(o: Operation, o': Operation) {
    && SameIdentity(o, o')
    && RecordOk(o')
    && (Settled(o) ==> SameResult(o, o'))
    && (LiveUnacked(o') ==> LiveUnacked(o))
    && (InForce(o') ==> InForce(o))
    && (o'.run.None? ==> o.run.None?)
    && (NeedsReservation(o') ==> if NeedsReservation(o) then o'.reserved == o.reserved else o'.reserved && o.run.None?)
  }

  /** The frame of every single-record change. */
  predicate Keeps(o: Operation, o': Operation) {
    Follows(o, o') && o'.children == o.children
  }

  lemma SweptKeeps(sweep: Sweep, now: int, o: Operation)
    requires RecordOk(o)
    ensures Keeps(o, Swept(sweep, now, o))
    ensures Complete(o) ==> Swept(sweep, now, o) == o
    ensures Hit(sweep, now, o) ==> !InForce(Swept(sweep, now, o))
    ensures !Hit(sweep, now, o) ==> Swept(sweep, now, o) == o
  {
  }

  lemma RedeliveredKeeps(o: Operation, now: int)
    requires RecordOk(o) && Deliverable(o)
    ensures Keeps(o, Redelivered(o, now))
    ensures !Complete(o)
    ensures o.ack.None? ==> LiveUnacked(o) && Redelivered(o, now).status == Delivered
  {
  }

  lemma AcknowledgedKeeps(o: Operation, ack: Ack, now: int)
    requires RecordOk(o) && o.ack.None? && o.status == Delivered && ack.operationId == o.request.operationId
    ensures Keeps(o, Acknowledged(o, ack, now))
  {
  }

  lemma RunReportedKeeps(o: Operation, run: ActionRun, now: int)
    requires RecordOk(o) && CheckRun(o, run) == Ok(true) && run.operationId == o.request.operationId
    ensures !Revives(o, RunReported(o, run, now)) ==> Keeps(o, RunReported(o, run, now))
    ensures !Settled(o)
  {
  }

  lemma RunRevives(o: Operation, run: ActionRun, now: int)
    requires RecordOk(o) && CheckRun(o, run) == Ok(true) && run.operationId == o.request.operationId
    requires Revives(o, RunReported(o, run, now))
    ensures var o' := RunReported(o, run, now);
            && ReconciliationPending(o) && SameIdentity(o, o') && o'.children == o.children && RecordOk(o')
            && o'.run.Some? && !LiveUnacked(o') && (NeedsReservation(o') ==> !o'.reserved)
  {
  }

  lemma ResultReportedKeeps(o: Operation, outcome: ActionOutcome, output: Option<Id>, sinks: set<Id>, now: int)
    requires RecordOk(o) && CheckResult(o, outcome, output) == Ok(true)
    requires outcome.operationId == o.request.operationId && TerminalRun(outcome.status)
    ensures Keeps(o, ResultReported(o, outcome, output, sinks, now))
    ensures !Settled(o) && Settled(ResultReported(o, outcome, output, sinks, now))
  {
  }

  lemma CancelAskedKeeps(o: Operation, now: int)
    requires RecordOk(o)
    ensures Keeps(o, CancelAsked(o, now))
    ensures !LiveUnacked(CancelAsked(o, now))
  {
  }

  lemma PendingDecisionKeeps(o: Operation, decision: Decision, now: int)
    requires RecordOk(o) && o.status == AwaitingConfirmation
    ensures Keeps(o, Staled(o, now))
    ensures decision.result == Allow && !o.cancel ==> Keeps(o, Confirmed(o, decision, now))
    ensures decision.result == Allow ==> Keeps(o, Staled(Confirmed(o, decision, now), now))
    ensures decision.result != Allow ==> Keeps(o, DecisionRecorded(o, decision, now))
  {
  }

  /** A record that was never dispatched and may have been ended meanwhile. */
  predicate Undispatched(o: Operation) {
    o.ack.None? && o.attempts == 0 && o.status in {AwaitingConfirmation, Queued, Stale}
  }

  lemma StaledKeeps(o: Operation, now: int)
    requires RecordOk(o) && Undispatched(o)
    ensures Keeps(o, Staled(o, now)) && !ReconciliationPending(o)
  {
  }

  /** The end of a lease or of a Host ends a record that was never dispatched. */
  lemma SweptUndispatched(sweep: Sweep, now: int, o: Operation)
    requires RecordOk(o) && Undispatched(o) && (sweep.LeaseEnded? || sweep.HostExpired?)
    ensures RecordOk(Swept(sweep, now, o)) && Undispatched(Swept(sweep, now, o))
  {
  }

  lemma OutcomeQueuedKeeps(o: Operation, sinks: set<Id>)
    requires RecordOk(o)
    ensures Keeps(o, OutcomeQueued(o, sinks))
  {
  }

  lemma OutcomeDeliveredKeeps(o: Operation, sink: Id, done: bool)
    requires RecordOk(o) && o.outcome.Some?
    ensures Keeps(o, o.(delivery := o.delivery[sink := done]))
  {
  }
}
