/**
  Values exchanged by the control plane: identifiers, leases, publications,
  action intents, bindings, policy decisions and Host reports.

  Identifiers are opaque names that the program compares for equality and, when
  it sorts, for order; natural numbers give exactly that. Digests and keys built
  by joining validated identifiers are represented by the joined values.
 */
module ControlTypes {

  type Id = nat

  datatype Option<+T> = None | Some(value: T)

  datatype Epoch = Epoch(worldId: Id, sessionId: Id, counter: nat)

  datatype Scope = HostAdmin | ActorRead | ActorControl | ActorExecute | OperationCancel

  datatype Principal = Principal(id: Id, scopes: set<Scope>)

  datatype Source = Internal | External

  datatype Authority = Authority(source: Source, controllerPrincipal: Id, revision: nat, persona: Id)

  /** One published actor; `macros` holds the (capability, digest) pairs it offers as child-producing macros. */
  datatype Actor = Actor(owner: Id, observationSeq: nat, epoch: Epoch, authority: Authority, macros: set<(Id, Id)>)

  datatype World = World(sequence: nat, actors: map<Id, Actor>)

  datatype Host = Host(instance: Id, manifest: Id, leaseId: Id, ttl: nat, expiresAt: int, worlds: map<Id, World>)

  datatype ActorKey = ActorKey(hostId: Id, worldId: Id, actorId: Id)

  datatype ControllerLease = ControllerLease(
    leaseId: Id, controllerId: Id, principalId: Id, target: ActorKey, source: Source, persona: Id,
    authorityRevision: nat, epoch: Epoch, acquiredAt: int, expiresAt: int)

  datatype EmergencyStop = EmergencyStop(active: bool, revision: nat, updatedAt: int)

  datatype ActionRequest = ActionRequest(
    requestId: Id, controllerId: Id, actorId: Id, capability: Id, specDigest: Id, expectedEpoch: Epoch,
    observationSeq: nat, taskId: Option<Id>, idempotencyKey: Id, payload: Id)

  datatype BoundAction = BoundAction(request: ActionRequest, observationSeq: nat, effectDigest: Id)

  datatype PolicyResult = Allow | RequireConfirmation | Deny

  /** `limited` says that the decision counts against budgets, in which the policy engine then holds a reservation. */
  datatype Decision = Decision(result: PolicyResult, decisionId: Id, reason: Id, limited: bool)

  datatype Binding = Binding(epoch: Epoch, observationSeq: nat, authorityRevision: nat, controllerLeaseId: Id)

  datatype ControlRequest = ControlRequest(
    operationId: Id, principal: Principal, target: ActorKey, binding: Binding, action: ActionRequest,
    bound: BoundAction, decision: Decision, parent: Option<Id>, submittedAt: int)

  datatype Key = Key(principalId: Id, idempotencyKey: Id)

  datatype Fingerprint = Fingerprint(action: ActionRequest, parent: Option<Id>, principal: Principal)

  datatype Ack = Ack(operationId: Id, accepted: bool, code: Id)

  datatype RunStatus =
    RunQueued | RunRunning | RunSucceeded | RunFailed | RunCancelled | RunInterrupted | RunStale | RunUnknown

  datatype ActionRun = ActionRun(
    operationId: Id, status: RunStatus, progressSeq: nat, progress: nat, clock: Id, time: int)

  datatype ActionOutcome = ActionOutcome(operationId: Id, status: RunStatus, epoch: Epoch, worldSeq: nat, summary: Id)

  datatype Error =
    Invalid | NotFound | Forbidden | LeaseConflict | LeaseExpired | StaleValue | Unavailable | NotAccepted
    | Conflict | Capacity | Persistence | Interrupted

  datatype Result<+T> = Ok(value: T) | Err(error: Error)

  const MAX_ATTEMPTS: nat := 0xFFFF_FFFF
  const MAX_CHILDREN: nat := 1024
  const MAX_WORLDS: nat := 64
  const MAX_OBSERVATION_GAP: nat := 8
  /** The largest integer that every JSON reader represents exactly. */
  const WIRE: nat := 0x1F_FFFF_FFFF_FFFF

  predicate RecentObservationGap(ahead: nat, behind: nat) {
    ahead >= behind && ahead - behind <= MAX_OBSERVATION_GAP
  }

  /** One more key makes a map at most one larger. */
  lemma GrownSize<K, V>(m: map<K, V>, m': map<K, V>, k: K)
    requires m'.Keys == m.Keys + {k}
    ensures |m'| <= |m| + 1
  {
    assert |m'| == |m'.Keys| && |m| == |m.Keys|;
  }
}
