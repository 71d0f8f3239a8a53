/**
  Whole runs of the control plane: any interleaving of critical sections, write
  failures, crashes and restarts, and what holds of every one of them.
 */
module ControlRuns {
  import opened ControlTypes
  import OperationRecord
  import opened ControlPlane
  import opened ControlInvariants
  import ControlSteps
  import ControlSections
  import ControlSubmission
  import ControlHostSide
  import ControlRestart

  // ---------------------------------------------------------------- events and runs

  datatype HostEvent =
    | Register(r: Registration, leaseId: Id, io1: Io, io2: Io)
    | Renew(hostId: Id, leaseId: Id, io1: Io)
    | Unregister(hostId: Id, leaseId: Id, io1: Io, io2: Io)
    | Publish(hostId: Id, leaseId: Id, worldId: Id, world: World)
    | Poll(hostId: Id, leaseId: Id, limit: nat, gateway: nat, order: seq<Id>, queue: seq<Id>, io1: Io, io2: Io)
    | Acknowledge(hostId: Id, leaseId: Id, ack: Ack, io1: Io, io2: Io)
    | Run(hostId: Id, leaseId: Id, run: ActionRun, io1: Io)
    | Report(hostId: Id, leaseId: Id, outcome: ActionOutcome, output: Option<Id>, io1: Io, io2: Io)

  datatype ControlEvent =
    | Acquire(principal: Principal, key: ActorKey, controllerId: Id, ttl: nat, leaseId: Id, io1: Io)
    | Extend(principal: Principal, key: ActorKey, leaseId: Id, ttl: nat, io1: Io)
    | Release(principal: Principal, key: ActorKey, leaseId: Id, io1: Io)
    | Stop(principal: Principal, key: ActorKey, active: bool, io1: Io)
    | Inspect(principal: Principal, key: ActorKey, io1: Io)

  datatype ActionEvent =
    | Submit(principal: Principal, submission: Submission, io1: Io)
    | Store(key: Key, bound: Bound, ios: SubmitIo)
    | Land(key: Key)
    | Find(principal: Principal, submission: Submission, io1: Io)
    | AskApproval(approver: Principal, id: Id, io1: Io)
    | Approve(id: Id, seen: Observed, io1: Io, io2: Io)
    | EndApproval(id: Id)

  datatype ClientEvent =
    | Read(principal: Principal, id: Id, io1: Io)
    | Cancel(principal: Principal, id: Id, io1: Io, io2: Io)
    | AckOutcome(id: Id, sink: Id, io1: Io)
    | List(principal: Principal, order: seq<Id>, io1: Io)
    | Write(io1: Io)
    | Checkpoint(io1: Io)

  datatype Event =
    | OnHost(host: HostEvent)
    | OnControl(control: ControlEvent)
    | OnAction(action: ActionEvent)
    | OnClient(client: ClientEvent)
    | Crash
    | Open

  datatype Process = Up(state: State) | Down(config: Config, durable: Durable, issued: set<Id>)

  function HostSection(s: State, now: int, e: HostEvent): (State, Reply) {
    match e
    case Register(r, leaseId, io1, io2) => RegisterHost(s, now, r, leaseId, io1, io2)
    case Renew(hostId, leaseId, io1) => RenewHost(s, now, hostId, leaseId, io1)
    case Unregister(hostId, leaseId, io1, io2) => UnregisterHost(s, now, hostId, leaseId, io1, io2)
    case Publish(hostId, leaseId, worldId, world) => PublishWorld(s, now, hostId, leaseId, worldId, world)
    case Poll(hostId, leaseId, limit, gateway, order, queue, io1, io2) =>
      PollHost(s, now, hostId, leaseId, limit, gateway, order, queue, io1, io2)
    case Acknowledge(hostId, leaseId, ack, io1, io2) => AcknowledgeHost(s, now, hostId, leaseId, ack, io1, io2)
    case Run(hostId, leaseId, run, io1) => ReportRun(s, now, hostId, leaseId, run, io1)
    case Report(hostId, leaseId, outcome, output, io1, io2) =>
      ReportResult(s, now, hostId, leaseId, outcome, output, io1, io2)
  }

  function ControlSection(s: State, now: int, e: ControlEvent): (State, Reply) {
    match e
    case Acquire(principal, key, controllerId, ttl, leaseId, io1) =>
      AcquireController(s, now, principal, key, controllerId, ttl, leaseId, io1)
    case Extend(principal, key, leaseId, ttl, io1) => RenewController(s, now, principal, key, leaseId, ttl, io1)
    case Release(principal, key, leaseId, io1) => ReleaseController(s, now, principal, key, leaseId, io1)
    case Stop(principal, key, active, io1) => SetEmergencyStop(s, now, principal, key, active, io1)
    case Inspect(principal, key, io1) => GetController(s, now, principal, key, io1)
  }

  ghost function ActionSection(s: State, now: int, e: ActionEvent): (State, Reply) {
    match e
    case Submit(principal, submission, io1) => BeginSubmit(s, now, principal, submission, io1)
    case Store(key, bound, ios) => FinishSubmit(s, now, key, bound, ios)
    case Land(key) => EndFlight(s, key)
    case Find(principal, submission, io1) => FindActionOperation(s, now, principal, submission, io1)
    case AskApproval(approver, id, io1) => BeginConfirm(s, now, approver, id, io1)
    case Approve(id, seen, io1, io2) => FinishConfirm(s, now, id, seen, io1, io2)
    case EndApproval(id) => EndConfirm(s, id)
  }

  function ClientSection(s: State, now: int, e: ClientEvent): (State, Reply) {
    match e
    case Read(principal, id, io1) => ReadOperation(s, now, principal, id, io1)
    case Cancel(principal, id, io1, io2) => CancelOperation(s, now, principal, id, io1, io2)
    case AckOutcome(id, sink, io1) => OutcomeAcked(s, now, id, sink, io1)
    case List(principal, order, io1) => ListOperations(s, now, principal, order, io1)
    case Write(io1) => (Persist(s, now, io1).0, Done)
    case Checkpoint(io1) => Flush(s, now, io1)
  }

  ghost function Section(s: State, now: int, e: Event): (State, Reply) {
    match e
    case OnHost(host) => HostSection(s, now, host)
    case OnControl(control) => ControlSection(s, now, control)
    case OnAction(action) => ActionSection(s, now, action)
    case OnClient(client) => ClientSection(s, now, client)
    case _ => (s, Done)
  }

  ghost function Step(p: Process, now: int, e: Event): (Process, Reply) {
    match p
    case Up(s) =>
      if e.Crash? then (Down(s.config, s.durable, s.issued), Done)
      else var (t, reply) := Section(s, now, e); (Up(t), reply)
    case Down(config, durable, issued) =>
      if e.Open? && CanOpen(config, durable) then (Up(Opened(config, durable, issued, now)), Done)
      else (p, Errored(Unavailable))
  }

  datatype Timed = Timed(now: int, event: Event)

  ghost function After(p: Process, run: seq<Timed>): Process
    decreases |run|
  {
    if run == [] then p else Step(After(p, run[..|run| - 1]), run[|run| - 1].now, run[|run| - 1].event).0
  }

  /** A service that has never written anything. */
  function Start(config: Config): Process {
    Down(config, Durable(map[], map[], map[], map[]), {})
  }

  // ---------------------------------------------------------------- the invariant of every run

  ghost predicate Sound(p: Process) {
    match p
    case Up(s) => Inv(s)
    case Down(config, durable, issued) => ControlRestart.Rested(config, durable, issued)
  }

  /** The records a Host report may resolve. */
  function Reported(e: Event): set<Id> {
    match e
    case OnHost(Run(_, _, run, _)) => {run.operationId}
    case OnHost(Report(_, _, outcome, _, _, _)) => {outcome.operationId}
    case _ => {}
  }

  lemma HostSectionOk(s: State, now: int, e: HostEvent)
    requires Inv(s)
    ensures ControlSections.SectionOk(s, HostSection(s, now, e), Reported(OnHost(e)))
  {
    ControlSteps.Begin(s, Reported(OnHost(e)));
    match e
    case Register(r, leaseId, io1, io2) => ControlSections.RegisterHostOk(s, now, r, leaseId, io1, io2);
    case Renew(hostId, leaseId, io1) => ControlSections.RenewHostOk(s, now, hostId, leaseId, io1);
    case Unregister(hostId, leaseId, io1, io2) => ControlSections.UnregisterHostOk(s, now, hostId, leaseId, io1, io2);
    case Publish(hostId, leaseId, worldId, world) => ControlSections.PublishWorldOk(s, now, hostId, leaseId, worldId, world);
    case Poll(hostId, leaseId, limit, gateway, order, queue, io1, io2) =>
      ControlHostSide.PollHostOk(s, now, hostId, leaseId, limit, gateway, order, queue, io1, io2);
    case Acknowledge(hostId, leaseId, ack, io1, io2) => ControlHostSide.AcknowledgeHostOk(s, now, hostId, leaseId, ack, io1, io2);
    case Run(hostId, leaseId, run, io1) => ControlHostSide.ReportRunOk(s, now, hostId, leaseId, run, io1);
    case Report(hostId, leaseId, outcome, output, io1, io2) =>
      ControlHostSide.ReportResultOk(s, now, hostId, leaseId, outcome, output, io1, io2);
  }

  lemma ControlSectionOk(s: State, now: int, e: ControlEvent)
    requires Inv(s)
    ensures ControlSections.SectionOk(s, ControlSection(s, now, e), {})
  {
    ControlSteps.Begin(s, {});
    match e
    case Acquire(principal, key, controllerId, ttl, leaseId, io1) =>
      ControlSections.AcquireControllerOk(s, now, principal, key, controllerId, ttl, leaseId, io1);
    case Extend(principal, key, leaseId, ttl, io1) => ControlSections.RenewControllerOk(s, now, principal, key, leaseId, ttl, io1);
    case Release(principal, key, leaseId, io1) => ControlSections.ReleaseControllerOk(s, now, principal, key, leaseId, io1);
    case Stop(principal, key, active, io1) => ControlSections.SetEmergencyStopOk(s, now, principal, key, active, io1);
    case Inspect(principal, key, io1) => ControlSections.GetControllerOk(s, now, principal, key, io1);
  }

  lemma ActionSectionOk(s: State, now: int, e: ActionEvent)
    requires Inv(s)
    ensures ControlSections.SectionOk(s, ActionSection(s, now, e), {})
  {
    ControlSteps.Begin(s, {});
    match e
    case Submit(principal, submission, io1) => ControlSubmission.BeginSubmitOk(s, now, principal, submission, io1);
    case Store(key, bound, ios) => ControlSubmission.FinishSubmitOk(s, now, key, bound, ios);
    case Land(key) => ControlSubmission.EndFlightOk(s, key);
    case Find(principal, submission, io1) => ControlSubmission.FindActionOperationOk(s, now, principal, submission, io1);
    case AskApproval(approver, id, io1) => ControlSubmission.BeginConfirmOk(s, now, approver, id, io1);
    case Approve(id, seen, io1, io2) => ControlSubmission.FinishConfirmOk(s, now, id, seen, io1, io2);
    case EndApproval(id) => ControlSubmission.EndConfirmOk(s, id);
  }

  lemma ClientSectionOk(s: State, now: int, e: ClientEvent)
    requires Inv(s)
    ensures ControlSections.SectionOk(s, ClientSection(s, now, e), {})
  {
    ControlSteps.Begin(s, {});
    match e
    case Read(principal, id, io1) => ControlHostSide.ReadOperationOk(s, now, principal, id, io1);
    case Cancel(principal, id, io1, io2) => ControlHostSide.CancelOperationOk(s, now, principal, id, io1, io2);
    case AckOutcome(id, sink, io1) => ControlHostSide.OutcomeAckedOk(s, now, id, sink, io1);
    case List(principal, order, io1) => ControlHostSide.ListOperationsOk(s, now, principal, order, io1);
    case Write(io1) => ControlHostSide.PersistOk(s, now, io1);
    case Checkpoint(io1) => ControlHostSide.FlushOk(s, now, io1);
  }

  lemma SectionHolds(s: State, now: int, e: Event)
    requires Inv(s)
    ensures ControlSections.SectionOk(s, Section(s, now, e), Reported(e))
  {
    match e
    case OnHost(host) => HostSectionOk(s, now, host);
    case OnControl(control) => ControlSectionOk(s, now, control);
    case OnAction(action) => ActionSectionOk(s, now, action);
    case OnClient(client) => ClientSectionOk(s, now, client);
    case _ => ControlSteps.Begin(s, {});
  }

  lemma SectionKeeps(s: State, now: int, e: Event)
    requires Sane(s)
    ensures Sane(Section(s, now, e).0)
  {
    assert Inv(s);
    SectionHolds(s, now, e);
    assert Reach(s, Section(s, now, e).0, {}, Reported(e));
  }

  lemma StepSound(p: Process, now: int, e: Event)
    requires Sound(p)
    ensures Sound(Step(p, now, e).0)
  {
    match p
    case Up(s) =>
      if !e.Crash? {
        SectionKeeps(s, now, e);
        assert Inv(Section(s, now, e).0);
      }
    case Down(config, durable, issued) =>
      if e.Open? && CanOpen(config, durable) { ControlRestart.OpenedInv(config, durable, issued, now); }
  }

  lemma StartSound(config: Config)
    ensures Sound(Start(config))
  {
    var none: map<Id, OperationRecord.Operation> := map[];
    forall id ensures RecordAt(none, id) && RetiredAt(none, id) && LinkedUp(none, id) && LinkedDown(none, id) { }
    forall a, b ensures KeysDiffer(none, a, b) && ApartAt(none, none, a, b) { }
    forall ids ensures !ParentClosed(none, ids) {
      if id :| id in ids { assert !ParentWithin(none, ids, id); }
    }
    var leases: map<ActorKey, ControllerLease> := map[];
    forall key ensures LeaseAt(leases, key) { }
    forall a, b ensures LeasesDiffer(leases, a, b) { }
    var empty := Durable(none, leases, map[], none);
    forall id ensures RowHeldAt(empty, id) && RowIssuedAt(empty, {}, id) { }
    forall key ensures LeaseIssuedAt(empty, {}, key) { }
  }

  /** A service with nothing in memory or in its store. */
  lemma FreshInv(config: Config)
    ensures Sane(State(config, map[], map[], map[], map[], map[], map[], map[], map[], false,
                       Durable(map[], map[], map[], map[]), {}, {}, map[], {}))
  {
    StartSound(config);
    var empty := Durable(map[], map[], map[], map[]);
    assert CanOpen(config, empty);
    ControlRestart.OpenedInv(config, empty, {}, 0);
    var s := Opened(config, empty, {}, 0);
    assert Reload(empty.operations, config.sinks, 0) == map[];
    assert s.controllers == map[] && s.requests == map[] && s.loose == {};
  }

  /** Every state of every run satisfies the invariant. */
  lemma {:induction false} RunSound(p: Process, run: seq<Timed>)
    requires Sound(p)
    ensures Sound(After(p, run))
    decreases |run|
  {
    if run != [] {
      RunSound(p, run[..|run| - 1]);
      StepSound(After(p, run[..|run| - 1]), run[|run| - 1].now, run[|run| - 1].event);
    }
  }
}
