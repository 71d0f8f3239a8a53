/**
  The control plane as a state machine: one function per critical section of
  the service lock. A submission and a confirmation are several sections,
  because they release the lock while the Host binds or observes.

  Every section reads the clock once (`now`), receives fresh identifiers from
  its caller, and takes the result of each durable write as an argument.
 */
module ControlPlane {
  import opened ControlTypes
  import opened OperationRecord
  import OperationRestore

  datatype Store = Memory | File | Sqlite

  datatype Config = Config(store: Store, maxOperations: nat, ttl: int, sinks: set<Id>)

  /** What became of one durable write; `Ambiguous` reported an error after it had committed. */
  datatype Io = Committed | NotCommitted | Ambiguous

  /** The last committed value of the durable store. */
  datatype Durable = Durable(
    operations: map<Id, Operation>, controllers: map<ActorKey, ControllerLease>, stops: map<ActorKey, EmergencyStop>,
    archive: map<Id, Operation>)

  datatype Submission = Submission(target: ActorKey, action: ActionRequest, parent: Option<Id>)

  datatype Snapshot = Snapshot(actor: Actor, controller: ControllerLease, stopped: bool, stopRevision: nat)

  /** One in-flight submission: what its thread remembers while the lock is released. */
  datatype Flight = Flight(principal: Principal, submission: Submission, snapshot: Snapshot)

  /**
    `issued` holds every identifier handed out. The last three fields are history:
    `loose` holds the records whose lease was already gone when they were loaded
    or put back to work, and `defied` the revision of the emergency stop that was
    active when a record was put back to work. `revived` holds the records that a
    run report put back to work since the process opened its store.
   */
  datatype State = State(
    config: Config, hosts: map<Id, Host>, controllers: map<ActorKey, ControllerLease>,
    stops: map<ActorKey, EmergencyStop>, operations: map<Id, Operation>, requests: map<Key, Id>,
    staged: map<Id, Operation>, flights: map<Key, Flight>, confirming: map<Id, ControlRequest>, dirty: bool,
    durable: Durable, issued: set<Id>, loose: set<Id>, defied: map<Id, nat>,
    revived: set<Id>)

  datatype Reply =
    | Errored(error: Error)
    | Done
    | Waiting
    | Leased(lease: ControllerLease)
    | Viewed(operation: Operation)
    | Batch(deliveries: seq<Operation>, cancellations: seq<Id>)

  // ---------------------------------------------------------------- sweeps over the hot pool

  function SweepOps(ops: map<Id, Operation>, sweep: Sweep, now: int): map<Id, Operation> {
    map id | id in ops :: Swept(sweep, now, ops[id])
  }

  predicate AnyHit(ops: map<Id, Operation>, sweep: Sweep, now: int) {
    exists id :: id in ops && Hit(sweep, now, ops[id])
  }

  function SweepState(s: State, sweep: Sweep, now: int): State {
    s.(operations := SweepOps(s.operations, sweep, now), dirty := s.dirty || AnyHit(s.operations, sweep, now))
  }

  /** Fences every record bound to one of the given controller leases. */
  function EndLeases(ops: map<Id, Operation>, leases: set<Id>, now: int): map<Id, Operation> {
    map id | id in ops ::
      if ops[id].request.binding.controllerLeaseId in leases
      then Swept(LeaseEnded(ops[id].request.binding.controllerLeaseId), now, ops[id])
      else ops[id]
  }

  function LeaseIds(controllers: map<ActorKey, ControllerLease>, keys: set<ActorKey>): set<Id> {
    set key | key in keys && key in controllers :: controllers[key].leaseId
  }

  function EndControllers(s: State, keys: set<ActorKey>, now: int): State {
    s.(controllers := s.controllers - keys,
       operations := EndLeases(s.operations, LeaseIds(s.controllers, keys), now),
       dirty := s.dirty || keys * s.controllers.Keys != {})
  }

  function Expired(controllers: map<ActorKey, ControllerLease>, now: int): set<ActorKey> {
    set key | key in controllers && controllers[key].expiresAt <= now
  }

  function ExpireController(s: State, key: ActorKey, now: int): State {
    EndControllers(s, Expired(s.controllers, now) * {key}, now)
  }

  function ExpireControllers(s: State, now: int): State {
    EndControllers(s, Expired(s.controllers, now), now)
  }

  // ---------------------------------------------------------------- durable writes

  function Commit(s: State): Durable {
    Durable(s.operations, s.controllers, s.stops, s.durable.archive + s.staged)
  }

  /** A write expires controllers first, then publishes the whole state or fails. */
  function Persist(s: State, now: int, io: Io): (State, bool) {
    if !s.dirty then (s, true)
    else if s.config.store == Memory then (s.(dirty := false), true)
    else
      var t := ExpireControllers(s, now);
      match io
      case NotCommitted => (t, false)
      case Ambiguous => (t.(durable := Commit(t)), false)
      case Committed => (t.(durable := Commit(t), staged := map[], dirty := false), true)
  }

  // ---------------------------------------------------------------- removal from the hot pool

  predicate HasPendingOutcome(o: Operation) {
    exists sink :: sink in o.delivery && !o.delivery[sink]
  }

  function Unlink(ops: map<Id, Operation>, id: Id, at: Option<int>): map<Id, Operation>
    requires id in ops
  {
    var rest := ops - {id};
    var parent := ops[id].request.parent;
    if parent.Some? && parent.value in rest then
      var p := rest[parent.value];
      rest[parent.value := p.(children := p.children - {id}, updatedAt := if at.Some? then at.value else p.updatedAt)]
    else rest
  }

  function Remove(s: State, id: Id, at: Option<int>): State
    requires id in s.operations
  {
    s.(operations := Unlink(s.operations, id, at),
       requests := s.requests - {s.operations[id].key},
       staged := if s.config.store == Sqlite then s.staged[id := s.operations[id]] else s.staged,
       dirty := true)
  }

  predicate Retirable(o: Operation) {
    Complete(o) && o.status != OutcomeUnknown && o.children == {}
  }

  predicate Prunable(config: Config, o: Operation, now: int) {
    && Retirable(o)
    && (HasPendingOutcome(o) ==> config.store == Sqlite)
    && o.updatedAt <= now - config.ttl
  }

  /** The second loop of pruning, in the order the map yields its entries. */
  function Drop(s: State, now: int, order: seq<Id>): (t: State)
    ensures t == s.(operations := t.operations, requests := t.requests, staged := t.staged, dirty := t.dirty)
    decreases |order|
  {
    if order == [] then s
    else if order[0] in s.operations && Prunable(s.config, s.operations[order[0]], now)
    then Drop(Remove(s, order[0], Some(now)), now, order[1..])
    else Drop(s, now, order[1..])
  }

  function Prune(s: State, now: int, order: seq<Id>): State {
    Drop(SweepState(s, TtlExpired(s.config.ttl), now), now, order)
  }

  // ---------------------------------------------------------------- look-ups

  function Archived(s: State): map<Id, Operation> {
    s.durable.archive + s.staged
  }

  /**
    An archived record as a read returns it: staged records as they are, stored
    rows restored. A stored row that cannot be restored is a persistence error to
    its reader; it counts as absent here, because no reachable archive holds one.
   */
  function ArchivedOperation(s: State, id: Id): Option<Operation> {
    if id in s.staged then Some(s.staged[id])
    else if id in s.durable.archive then
      var restored := OperationRestore.RestoreOperation(OperationRestore.ToPersisted(s.durable.archive[id]));
      if restored.Some? && Complete(restored.value) && restored.value.status != OutcomeUnknown then restored else None
    else None
  }

  function LookupOperation(s: State, id: Id): Option<Operation> {
    if id in s.operations then Some(s.operations[id])
    else if s.config.store == Sqlite then ArchivedOperation(s, id)
    else None
  }

  predicate ArchivedAt(s: State, key: Key, id: Id) {
    id in Archived(s) && Archived(s)[id].key == key
  }

  function RefreshHost(s: State, now: int, hostId: Id): State {
    if hostId in s.hosts && s.hosts[hostId].expiresAt <= now then SweepState(s, HostExpired(hostId), now) else s
  }

  /** Reading a record first lets its deadline or its Host's lease expire. */
  function Refresh(s: State, now: int, id: Id): State
    requires id in s.operations
  {
    var o := s.operations[id];
    if Hit(TtlExpired(s.config.ttl), now, o) then
      s.(operations := s.operations[id := Swept(TtlExpired(s.config.ttl), now, o)], dirty := true)
    else RefreshHost(s, now, o.request.target.hostId)
  }

  datatype Known = Missing | Hot(operation: Operation) | Refused(error: Error)

  function HotRequest(s: State, now: int, id: Id, fingerprint: Fingerprint, io: Io): (State, Known) {
    if id !in s.operations || FingerprintOf(s.operations[id].request) != fingerprint then (s, Refused(Conflict))
    else
      var (t, ok) := Persist(Refresh(s, now, id), now, io);
      (t, if ok && id in t.operations then Hot(t.operations[id]) else Refused(Persistence))
  }

  function ArchivedRequest(s: State, now: int, id: Id, fingerprint: Fingerprint, io: Io): (State, Known) {
    var found := ArchivedOperation(s, id);
    if found.None? then (s, Refused(Persistence))
    else if FingerprintOf(found.value.request) != fingerprint then (s, Refused(Conflict))
    else
      var (t, ok) := Persist(s, now, io);
      (t, if ok then Hot(found.value) else Refused(Persistence))
  }

  /** Resolves an idempotency key against the hot pool and then the archive. */
  ghost function Idempotent(s: State, now: int, key: Key, fingerprint: Fingerprint, io: Io): (State, Known) {
    if key in s.requests then HotRequest(s, now, s.requests[key], fingerprint, io)
    else if s.config.store == Sqlite && exists id :: ArchivedAt(s, key, id) then
      var id :| ArchivedAt(s, key, id);
      ArchivedRequest(s, now, id, fingerprint, io)
    else (s, Missing)
  }

  // ---------------------------------------------------------------- authority

  predicate HasScope(principal: Principal, scope: Scope) {
    scope in principal.scopes
  }

  predicate CanAccess(principal: Principal, actor: Actor, scope: Scope) {
    || HasScope(principal, HostAdmin)
    || (HasScope(principal, scope)
        && (principal.id == actor.owner
            || (actor.authority.source == External && actor.authority.controllerPrincipal == principal.id)))
  }

  predicate Published(s: State, key: ActorKey) {
    key.hostId in s.hosts && key.worldId in s.hosts[key.hostId].worlds
  }

  predicate HasActor(s: State, key: ActorKey) {
    Published(s, key) && key.actorId in s.hosts[key.hostId].worlds[key.worldId].actors
  }

  function ActorAt(s: State, key: ActorKey): Actor
    requires HasActor(s, key)
  {
    s.hosts[key.hostId].worlds[key.worldId].actors[key.actorId]
  }

  /** The controller lease that a request is bound to still controls its actor. */
  predicate LeaseHeld(s: State, r: ControlRequest) {
    && r.target in s.controllers
    && s.controllers[r.target].leaseId == r.binding.controllerLeaseId
    && s.controllers[r.target].epoch == r.binding.epoch
    && s.controllers[r.target].authorityRevision == r.binding.authorityRevision
  }

  predicate StopActive(s: State, key: ActorKey) {
    key in s.stops && s.stops[key].active
  }

  predicate HoldsHostLease(s: State, now: int, hostId: Id, leaseId: Id) {
    hostId in s.hosts && s.hosts[hostId].leaseId == leaseId && s.hosts[hostId].expiresAt > now
  }

  /** Whether a principal may act on a published actor; finding the Host expired fences its work. */
  function Authorize(s: State, now: int, principal: Principal, key: ActorKey, scope: Scope): (State, Result<Actor>) {
    if !Published(s, key) then (s, Err(NotFound))
    else if s.hosts[key.hostId].expiresAt <= now then (SweepState(s, HostExpired(key.hostId), now), Err(Unavailable))
    else if !HasActor(s, key) then (s, Err(NotFound))
    else if !CanAccess(principal, ActorAt(s, key), scope) then (s, Err(Forbidden))
    else (s, Ok(ActorAt(s, key)))
  }

  predicate ControllerAllowed(principal: Principal, authority: Authority) {
    if authority.source == Internal then HasScope(principal, HostAdmin)
    else authority.controllerPrincipal == principal.id
  }

  predicate MatchesActor(lease: ControllerLease, key: ActorKey, actor: Actor) {
    && lease.target == key && lease.epoch == actor.epoch
    && lease.source == actor.authority.source && lease.persona == actor.authority.persona
    && lease.authorityRevision == actor.authority.revision
    && (actor.authority.source == External ==> lease.principalId == actor.authority.controllerPrincipal)
  }

  function ParentError(s: State, submission: Submission, principal: Principal, actor: Actor, lease: Id): Option<Error> {
    if submission.parent.None? then None
    else if submission.parent.value !in s.operations then Some(NotFound)
    else
      var parent := s.operations[submission.parent.value];
      if Complete(parent) || parent.request.principal.id != principal.id
         || parent.request.target != submission.target || parent.request.binding.controllerLeaseId != lease
         || (parent.status != Accepted && parent.status != Running)
         || submission.action.taskId.None? || parent.request.action.taskId != submission.action.taskId
         || (parent.request.action.capability, parent.request.action.specDigest) !in actor.macros
      then Some(Conflict)
      else if |parent.children| >= MAX_CHILDREN then Some(Capacity)
      else None
  }

  /** The checks a submission and a confirmation both repeat whenever they hold the lock. */
  function Prepare(s: State, now: int, principal: Principal, submission: Submission): (State, Result<Snapshot>) {
    var (s1, authorized) := Authorize(s, now, principal, submission.target, ActorExecute);
    if authorized.Err? then (s1, Err(authorized.error))
    else
      var actor := authorized.value;
      if actor.epoch != submission.action.expectedEpoch
         || !RecentObservationGap(actor.observationSeq, submission.action.observationSeq)
      then (s1, Err(StaleValue))
      else
        var s2 := ExpireController(s1, submission.target, now);
        if submission.target !in s2.controllers then (s2, Err(LeaseExpired))
        else
          var controller := s2.controllers[submission.target];
          if controller.controllerId != submission.action.controllerId || controller.principalId != principal.id
             || !MatchesActor(controller, submission.target, actor)
          then (s2, Err(Forbidden))
          else
            var refusal := ParentError(s2, submission, principal, actor, controller.leaseId);
            if refusal.Some? then (s2, Err(refusal.value))
            else
              var stop := if submission.target in s2.stops then s2.stops[submission.target] else EmergencyStop(false, 0, 0);
              (s2, Ok(Snapshot(actor, controller, stop.active, stop.revision)))
  }

  predicate SameSnapshot(before: Snapshot, after: Snapshot) {
    && before.actor.epoch == after.actor.epoch
    && RecentObservationGap(after.actor.observationSeq, before.actor.observationSeq)
    && before.actor.owner == after.actor.owner
    && before.controller == after.controller
    && before.stopped == after.stopped && before.stopRevision == after.stopRevision
  }

  // ---------------------------------------------------------------- Host leases and publications

  datatype Registration = Registration(hostId: Id, instance: Id, manifest: Id, ttl: nat)

  function RegisterHost(s: State, now: int, r: Registration, leaseId: Id, io1: Io, io2: Io): (State, Reply) {
    var (t, ok) := Persist(s, now, io1);
    if !ok then (t, Errored(Persistence)) else AdmitHost(t, now, r, leaseId, io2)
  }

  /** A live Host renews; a new one starts, and an expired one starts over once its work is fenced. */
  function AdmitHost(s: State, now: int, r: Registration, leaseId: Id, io: Io): (State, Reply) {
    var started := Host(r.instance, r.manifest, leaseId, r.ttl, now + r.ttl, map[]);
    if r.hostId !in s.hosts then (s.(hosts := s.hosts[r.hostId := started]), Done)
    else
      var current := s.hosts[r.hostId];
      if current.expiresAt > now then
        if current.instance != r.instance || current.manifest != r.manifest then (s, Errored(LeaseConflict))
        else (s.(hosts := s.hosts[r.hostId := current.(ttl := r.ttl, expiresAt := now + r.ttl)]), Done)
      else
        var (t, ok) := Persist(SweepState(s, HostExpired(r.hostId), now), now, io);
        if !ok then (t, Errored(Persistence))
        else (t.(hosts := t.hosts[r.hostId := started]), Done)
  }

  function RenewHost(s: State, now: int, hostId: Id, leaseId: Id, io: Io): (State, Reply) {
    var (s1, ok) := Persist(s, now, io);
    if !ok then (s1, Errored(Persistence))
    else if !HoldsHostLease(s1, now, hostId, leaseId) then (s1, Errored(LeaseExpired))
    else (s1.(hosts := s1.hosts[hostId := s1.hosts[hostId].(expiresAt := now + s1.hosts[hostId].ttl)]), Done)
  }

  function UnregisterHost(s: State, now: int, hostId: Id, leaseId: Id, io1: Io, io2: Io): (State, Reply) {
    var (s1, ok) := Persist(s, now, io1);
    if !ok then (s1, Errored(Persistence))
    else if !HoldsHostLease(s1, now, hostId, leaseId) then (s1, Errored(LeaseExpired))
    else
      var s2 := s1.(hosts := s1.hosts[hostId := s1.hosts[hostId].(expiresAt := now)]);
      var (s3, ok2) := Persist(SweepState(s2, HostExpired(hostId), now), now, io2);
      (s3, if ok2 then Done else Errored(Persistence))
  }

  function Mismatched(s: State, hostId: Id, worldId: Id, world: World): set<ActorKey> {
    set key | key in s.controllers && key.hostId == hostId && key.worldId == worldId
              && !(key.actorId in world.actors && MatchesActor(s.controllers[key], key, world.actors[key.actorId]))
  }

  function PublishWorld(s: State, now: int, hostId: Id, leaseId: Id, worldId: Id, world: World): (State, Reply) {
    if !HoldsHostLease(s, now, hostId, leaseId) then (s, Errored(LeaseExpired))
    else
      var current := s.hosts[hostId];
      if worldId in current.worlds && world.sequence < current.worlds[worldId].sequence then (s, Errored(StaleValue))
      else if worldId in current.worlds && world.sequence == current.worlds[worldId].sequence then
        (s, if world == current.worlds[worldId] then Done else Errored(StaleValue))
      else if worldId !in current.worlds && |current.worlds| >= MAX_WORLDS then (s, Errored(Invalid))
      else
        var s1 := SweepState(s, AuthorityChanged(hostId, worldId, world.actors), now);
        var s2 := EndControllers(s1, Mismatched(s1, hostId, worldId, world), now);
        (s2.(hosts := s2.hosts[hostId := current.(worlds := current.worlds[worldId := world])]), Done)
  }

  // ---------------------------------------------------------------- controller leases and emergency stops

  function AcquireController(
    s: State, now: int, principal: Principal, key: ActorKey, controllerId: Id, ttl: nat, leaseId: Id, io: Io
  ): (State, Reply)
  {
    var (s1, authorized) := Authorize(s, now, principal, key, ActorControl);
    if leaseId in s.issued then (s, Errored(Invalid))
    else if authorized.Err? then (s1, Errored(authorized.error))
    else
      var actor := authorized.value;
      if !ControllerAllowed(principal, actor.authority) then (s1, Errored(Forbidden))
      else
        var s2 := ExpireController(s1, key, now);
        if key in s2.controllers
           && (s2.controllers[key].controllerId != controllerId || s2.controllers[key].principalId != principal.id
               || s2.controllers[key].source != actor.authority.source
               || s2.controllers[key].persona != actor.authority.persona
               || s2.controllers[key].authorityRevision != actor.authority.revision
               || s2.controllers[key].epoch != actor.epoch)
        then (s2, Errored(LeaseConflict))
        else
          var lease :=
            if key in s2.controllers then s2.controllers[key].(expiresAt := now + ttl)
            else ControllerLease(leaseId, controllerId, principal.id, key, actor.authority.source,
                                 actor.authority.persona, actor.authority.revision, actor.epoch, now, now + ttl);
          var issued := s2.(issued := s2.issued + {leaseId});
          var (s3, ok) := Persist(issued.(controllers := issued.controllers[key := lease], dirty := true), now, io);
          (s3, if ok then Leased(lease) else Errored(Persistence))
  }

  /** Reading a lease first lets it expire. */
  function GetController(s: State, now: int, principal: Principal, key: ActorKey, io: Io): (State, Reply) {
    var (s1, authorized) := Authorize(s, now, principal, key, ActorRead);
    if authorized.Err? then (s1, Errored(authorized.error))
    else
      var s2 := ExpireController(s1, key, now);
      if key !in s2.controllers then (s2, Errored(NotFound))
      else
        var (s3, ok) := Persist(s2, now, io);
        (s3, if ok then Leased(s2.controllers[key]) else Errored(Persistence))
  }

  function RenewController(
    s: State, now: int, principal: Principal, key: ActorKey, leaseId: Id, ttl: nat, io: Io
  ): (State, Reply)
  {
    var s1 := ExpireController(s, key, now);
    if key !in s1.controllers || s1.controllers[key].leaseId != leaseId then (s1, Errored(LeaseExpired))
    else if s1.controllers[key].principalId != principal.id && !HasScope(principal, HostAdmin) then (s1, Errored(Forbidden))
    else
      var (s2, authorized) := Authorize(s1, now, principal, key, ActorControl);
      if authorized.Err? then (s2, Errored(authorized.error))
      else if !MatchesActor(s1.controllers[key], key, authorized.value) then
        (EndControllers(s2, {key}, now), Errored(LeaseExpired))
      else
        var lease := s1.controllers[key].(expiresAt := now + ttl);
        var (s3, ok) := Persist(s2.(controllers := s2.controllers[key := lease], dirty := true), now, io);
        (s3, if ok then Leased(lease) else Errored(Persistence))
  }

  function ReleaseController(
    s: State, now: int, principal: Principal, key: ActorKey, leaseId: Id, io: Io
  ): (State, Reply)
  {
    if key !in s.controllers || s.controllers[key].leaseId != leaseId then (s, Errored(LeaseExpired))
    else if s.controllers[key].principalId != principal.id && !HasScope(principal, HostAdmin) then (s, Errored(Forbidden))
    else
      var (s1, ok) := Persist(EndControllers(s, {key}, now), now, io);
      (s1, if ok then Done else Errored(Persistence))
  }

  function SetEmergencyStop(
    s: State, now: int, principal: Principal, key: ActorKey, active: bool, io: Io
  ): (State, Reply)
  {
    if !HasActor(s, key) then (s, Errored(NotFound))
    else if !CanAccess(principal, ActorAt(s, key), ActorControl) then (s, Errored(Forbidden))
    else if principal.id != ActorAt(s, key).owner && !HasScope(principal, HostAdmin) then (s, Errored(Forbidden))
    else
      var current := if key in s.stops then s.stops[key] else EmergencyStop(false, 0, 0);
      if current.active == active && current.revision != 0 then (s, Done)
      else
        var (t, ok) := Persist(WithStop(s, now, key, EmergencyStop(active, current.revision + 1, now)), now, io);
        (t, if ok then Done else Errored(Persistence))
  }

  function WithStop(s: State, now: int, key: ActorKey, stop: EmergencyStop): State {
    var t := s.(stops := s.stops[key := stop], dirty := true);
    if stop.active then SweepState(t, ActorStopped(key), now) else t
  }

  // ---------------------------------------------------------------- submission

  function BeginKey(principal: Principal, submission: Submission): Key {
    Key(principal.id, submission.action.idempotencyKey)
  }

  ghost function BeginSubmit(s: State, now: int, principal: Principal, submission: Submission, io: Io): (State, Reply)
  {
    var key := BeginKey(principal, submission);
    var fingerprint := Fingerprint(submission.action, submission.parent, principal);
    if submission.action.actorId != submission.target.actorId then (s, Errored(Invalid))
    else
      var (s1, known) := Idempotent(s, now, key, fingerprint, io);
      match known
      case Hot(operation) => (s1, Viewed(operation))
      case Refused(error) => (s1, Errored(error))
      case Missing =>
        if key in s1.flights then
          var other := s1.flights[key];
          if Fingerprint(other.submission.action, other.submission.parent, other.principal) != fingerprint
          then (s1, Errored(Conflict)) else (s1, Waiting)
        else
          var (s2, prepared) := Prepare(s1, now, principal, submission);
          if prepared.Err? then (s2, Errored(prepared.error))
          else (s2.(flights := s2.flights[key := Flight(principal, submission, prepared.value)]), Done)
  }

  /** What the Host returned for a binding, and the state it was bound against. */
  datatype HostBinding = HostBinding(action: BoundAction, epoch: Epoch, observationSeq: nat)

  predicate BindingOk(binding: HostBinding, flight: Flight) {
    && binding.epoch == flight.snapshot.actor.epoch
    && RecentObservationGap(flight.snapshot.actor.observationSeq, binding.observationSeq)
    && binding.action.request == flight.submission.action
    && RecentObservationGap(binding.action.observationSeq, flight.submission.action.observationSeq)
  }

  function NewOperation(
    id: Id, flight: Flight, current: Snapshot, binding: HostBinding, decision: Decision, now: int
  ): Operation
  {
    var request := ControlRequest(
      id, flight.principal, flight.submission.target,
      Binding(current.actor.epoch, flight.submission.action.observationSeq, current.actor.authority.revision,
              current.controller.leaseId),
      flight.submission.action, binding.action, decision, flight.submission.parent, now);
    Operation(
      request,
      match decision.result { case Allow => Queued case RequireConfirmation => AwaitingConfirmation case Deny => Rejected },
      0, false, None, None, None, map[], None,
      if decision.result == Deny then Some(DenialOf(request)) else None,
      KeyOf(request), now, now, {}, Limited(request))
  }

  predicate ParentHasRoom(s: State, parent: Option<Id>) {
    parent.Some? ==> parent.value in s.operations && |s.operations[parent.value].children| < MAX_CHILDREN
  }

  /** Adds a record to the hot pool, to the key index and to its parent. */
  function Insert(s: State, o: Operation): State
    requires ParentHasRoom(s, o.request.parent)
  {
    var linked :=
      if o.request.parent.Some? then
        s.operations[o.request.parent.value :=
          WithChild(s.operations[o.request.parent.value], o.request.operationId, o.request.submittedAt)]
      else s.operations;
    s.(operations := linked[o.request.operationId := o], requests := s.requests[o.key := o.request.operationId],
       dirty := true, issued := s.issued + {o.request.operationId})
  }

  /** Takes a record whose first write failed out of memory again. */
  function Rollback(s: State, o: Operation, parentUpdatedAt: int): State
    requires o.request.operationId in s.operations
  {
    s.(operations := Unlink(s.operations, o.request.operationId, Some(parentUpdatedAt)),
       requests := s.requests - {o.key}, dirty := true)
  }

  function ParentUpdatedAt(s: State, parent: Option<Id>): int {
    if parent.Some? && parent.value in s.operations then s.operations[parent.value].updatedAt else 0
  }

  /** Inserts and writes a record; if that fails it is taken back and the state written again. */
  function WriteNew(s: State, o: Operation, parentUpdatedAt: int, now: int, io1: Io, io2: Io): (State, Reply)
    requires ParentHasRoom(s, o.request.parent)
  {
    var (t, ok) := Persist(Insert(s, o), now, io1);
    if ok then (t, Viewed(o))
    else if o.request.operationId !in t.operations then (t, Errored(Persistence))
    else (Persist(Rollback(t, o, parentUpdatedAt), now, io2).0, Errored(Persistence))
  }

  function StoreOperation(s: State, o: Operation, now: int, io1: Io, io2: Io): (State, Reply) {
    if !ParentHasRoom(s, o.request.parent) then (s, Errored(Conflict))
    else WriteNew(s, o, ParentUpdatedAt(s, o.request.parent), now, io1, io2)
  }

  function Retire(s: State, retire: Option<Id>): State {
    if |s.operations| >= s.config.maxOperations && s.config.store == Sqlite
       && retire.Some? && retire.value in s.operations && Retirable(s.operations[retire.value])
    then Remove(s, retire.value, None)
    else s
  }

  /** What a submission thread brings back to the lock. */
  datatype Bound = Bound(
    binding: Result<HostBinding>, decision: Option<Decision>, interrupted: bool, id: Id, order: seq<Id>, retire: Option<Id>)

  datatype SubmitIo = SubmitIo(known: Io, prepare: Io, store: Io, undo: Io)

  /** Makes room, persists, and stores a checked submission. */
  function Admit(
    s: State, now: int, flight: Flight, current: Snapshot, binding: HostBinding, decision: Decision, b: Bound, io: SubmitIo
  ): (State, Reply)
  {
    var (s1, ok) := Persist(Retire(Prune(s, now, b.order), b.retire), now, io.prepare);
    if !ok then (s1, Errored(Persistence))
    else if |s1.operations| >= s1.config.maxOperations then (s1, Errored(Capacity))
    else StoreOperation(s1, NewOperation(b.id, flight, current, binding, decision, now), now, io.store, io.undo)
  }

  /** Returns the record that meanwhile took the key, or admits a new one. */
  ghost function ResolveOrAdmit(
    s: State, now: int, key: Key, flight: Flight, current: Snapshot, binding: HostBinding, decision: Decision,
    b: Bound, io: SubmitIo
  ): (State, Reply)
  {
    var fingerprint := Fingerprint(flight.submission.action, flight.submission.parent, flight.principal);
    var (t, known) := Idempotent(s, now, key, fingerprint, io.known);
    match known
    case Hot(operation) => (t, Viewed(operation))
    case Refused(error) => (t, Errored(error))
    case Missing => Admit(t, now, flight, current, binding, decision, b, io)
  }

  /** Repeats the checks of the first section and compares what they saw. */
  ghost function Recheck(
    s: State, now: int, key: Key, flight: Flight, binding: HostBinding, decision: Decision, b: Bound, io: SubmitIo
  ): (State, Reply)
  {
    var (t, prepared) := Prepare(s, now, flight.principal, flight.submission);
    if prepared.Err? then (t, Errored(prepared.error))
    else if !SameSnapshot(flight.snapshot, prepared.value) || binding.epoch != prepared.value.actor.epoch
            || !RecentObservationGap(prepared.value.actor.observationSeq, binding.observationSeq)
    then (t, Errored(StaleValue))
    else ResolveOrAdmit(t, now, key, flight, prepared.value, binding, decision, b, io)
  }

  /**
    The second critical section of a submission. The policy contract is that an
    active emergency stop in the evaluated snapshot yields a denial.
   */
  ghost function FinishSubmit(s: State, now: int, key: Key, b: Bound, io: SubmitIo): (State, Reply) {
    if key !in s.flights || b.id in s.issued then (s, Errored(Invalid))
    else if b.binding.Err? then (s, Errored(b.binding.error))
    else if !BindingOk(b.binding.value, s.flights[key]) then (s, Errored(StaleValue))
    else if b.decision.None? || (s.flights[key].snapshot.stopped && b.decision.value.result != Deny) then
      (s, Errored(Invalid))
    else if b.interrupted then (s, Errored(Error.Interrupted))
    else Recheck(s, now, key, s.flights[key], b.binding.value, b.decision.value, b, io)
  }

  function EndFlight(s: State, key: Key): (State, Reply) {
    (s.(flights := s.flights - {key}), Done)
  }

  // ---------------------------------------------------------------- confirmation

  function SubmissionOf(r: ControlRequest): Submission {
    Submission(r.target, r.action, r.parent)
  }

  function SetOperation(s: State, id: Id, o: Operation): State {
    s.(operations := s.operations[id := o], dirty := true)
  }

  function StaleAndPersist(s: State, now: int, id: Id, error: Error, io: Io): (State, Reply)
    requires id in s.operations
  {
    var (t, ok) := Persist(SetOperation(s, id, Staled(s.operations[id], now)), now, io);
    (t, Errored(if ok then error else Persistence))
  }

  /** Re-checks a waiting record before the Host is asked; a record that fails is ended. */
  function AwaitApproval(s: State, now: int, id: Id, io: Io): (State, Reply)
    requires id in s.operations
  {
    var o := s.operations[id];
    var (t, prepared) := Prepare(s, now, o.request.principal, SubmissionOf(o.request));
    if id !in t.operations then (t, Errored(NotFound))
    else if prepared.Err? then StaleAndPersist(t, now, id, prepared.error, io)
    else if prepared.value.stopped || prepared.value.controller.leaseId != o.request.binding.controllerLeaseId then
      StaleAndPersist(t, now, id, StaleValue, io)
    else (t.(confirming := t.confirming[id := o.request]), Done)
  }

  function BeginConfirm(s: State, now: int, approver: Principal, id: Id, io: Io): (State, Reply) {
    if id !in s.operations then (s, Errored(NotFound))
    else
      var o := s.operations[id];
      if o.status != AwaitingConfirmation then (s, if Complete(o) then Viewed(o) else Errored(Conflict))
      else if id in s.confirming then (s, Errored(Conflict))
      else
        var (t, authorized) := Authorize(s, now, approver, o.request.target, ActorControl);
        if authorized.Err? || id !in t.operations then (t, Errored(if authorized.Err? then authorized.error else NotFound))
        else AwaitApproval(t, now, id, io)
  }

  /** What a confirmation thread brings back to the lock. */
  datatype Observed = Observed(snapshot: Result<(Epoch, nat)>, approved: bool, decision: Option<Decision>)

  function RecordDecision(s: State, now: int, id: Id, decision: Decision, io: Io): (State, Reply)
    requires decision.result != Allow
  {
    if id !in s.operations then (s, Errored(NotFound))
    else if s.operations[id].status != AwaitingConfirmation then (s, Viewed(s.operations[id]))
    else
      var o := DecisionRecorded(s.operations[id], decision, now);
      var (t, ok) := Persist(SetOperation(s, id, o), now, io);
      (t, if ok then Viewed(o) else Errored(Persistence))
  }

  function QueueConfirmed(s: State, now: int, id: Id, decision: Decision, io1: Io, io2: Io): (State, Reply)
    requires id in s.operations
  {
    var o := Confirmed(s.operations[id], decision, now);
    var (s1, ok) := Persist(SetOperation(s, id, o), now, io1);
    if ok then (s1, Viewed(o))
    else if id !in s1.operations then (s1, Errored(Persistence))
    else
      var (s2, _) := Persist(SetOperation(s1, id, Staled(s1.operations[id], now)), now, io2);
      (s2, Errored(Persistence))
  }

  function AllowConfirmed(
    s: State, now: int, id: Id, request: ControlRequest, epoch: Epoch, seen: nat, decision: Decision, io1: Io, io2: Io
  ): (State, Reply)
  {
    if id !in s.operations then (s, Errored(NotFound))
    else if s.operations[id].status != AwaitingConfirmation then (s, Viewed(s.operations[id]))
    else
      var (s1, prepared) := Prepare(s, now, request.principal, SubmissionOf(request));
      if id !in s1.operations then (s1, Errored(NotFound))
      else if prepared.Err? then StaleAndPersist(s1, now, id, prepared.error, io1)
      else
        var current := prepared.value;
        if current.stopped || current.actor.epoch != epoch || current.actor.observationSeq != seen
           || current.controller.leaseId != s1.operations[id].request.binding.controllerLeaseId
        then StaleAndPersist(s1, now, id, StaleValue, io1)
        else QueueConfirmed(s1, now, id, decision, io1, io2)
  }

  function FinishConfirm(s: State, now: int, id: Id, seen: Observed, io1: Io, io2: Io): (State, Reply) {
    if id !in s.confirming then (s, Errored(Invalid))
    else if seen.snapshot.Err? then (s, Errored(seen.snapshot.error))
    else
      var request := s.confirming[id];
      if seen.snapshot.value.0 != request.bound.request.expectedEpoch || seen.snapshot.value.1 != request.bound.observationSeq then
        if id in s.operations && s.operations[id].status == AwaitingConfirmation
        then StaleAndPersist(s, now, id, StaleValue, io1) else (s, Errored(StaleValue))
      else if !seen.approved || seen.decision.None? then (s, Errored(Forbidden))
      else if seen.decision.value.result != Allow then RecordDecision(s, now, id, seen.decision.value, io1)
      else AllowConfirmed(s, now, id, request, seen.snapshot.value.0, seen.snapshot.value.1, seen.decision.value, io1, io2)
  }

  function EndConfirm(s: State, id: Id): (State, Reply) {
    (s.(confirming := s.confirming - {id}), Done)
  }

  // ---------------------------------------------------------------- the Host side

  function DeliveryPriority(status: Status): nat {
    match status case Queued => 0 case Delivered => 1 case Accepted => 2 case _ => 3
  }

  predicate Before(ops: map<Id, Operation>, a: Id, b: Id)
    requires a in ops && b in ops
  {
    var pa, pb := DeliveryPriority(ops[a].status), DeliveryPriority(ops[b].status);
    || pa < pb
    || (pa == pb && (ops[a].createdAt < ops[b].createdAt || (ops[a].createdAt == ops[b].createdAt && a < b)))
  }

  /** The hot records of one Host, each once, in delivery order. */
  predicate IsQueue(ops: map<Id, Operation>, hostId: Id, queue: seq<Id>) {
    && (forall i :: 0 <= i < |queue| ==> queue[i] in ops && ops[queue[i]].request.target.hostId == hostId)
    && (forall i, j :: 0 <= i < j < |queue| ==> Before(ops, queue[i], queue[j]))
    && (forall id :: id in ops && ops[id].request.target.hostId == hostId ==> id in queue)
  }

  function Cancellations(ops: map<Id, Operation>, queue: seq<Id>, room: nat): (picked: seq<Id>)
    requires forall i :: 0 <= i < |queue| ==> queue[i] in ops
    ensures |picked| <= room
    decreases |queue|
  {
    if queue == [] || room == 0 then []
    else if ops[queue[0]].cancel && !Complete(ops[queue[0]]) then [queue[0]] + Cancellations(ops, queue[1..], room - 1)
    else Cancellations(ops, queue[1..], room)
  }

  function Picked(ops: map<Id, Operation>, queue: seq<Id>, room: nat): (picked: seq<Id>)
    requires forall i :: 0 <= i < |queue| ==> queue[i] in ops
    ensures |picked| <= room
    ensures forall id :: id in picked ==> id in ops && id in queue && Deliverable(ops[id])
    decreases |queue|
  {
    if queue == [] || room == 0 then []
    else if Deliverable(ops[queue[0]]) then [queue[0]] + Picked(ops, queue[1..], room - 1)
    else Picked(ops, queue[1..], room)
  }

  function DeliverOps(ops: map<Id, Operation>, picked: seq<Id>, now: int): map<Id, Operation> {
    map id | id in ops :: if id in picked then Redelivered(ops[id], now) else ops[id]
  }

  function BatchRoom(limit: nat, taken: nat): nat {
    if taken < limit then limit - taken else 0
  }

  /** Marks the picked records delivered, writes them and hands them out. */
  function Dispatch(s: State, now: int, cancellations: seq<Id>, picked: seq<Id>, gateway: nat, io: Io): (State, Reply)
    requires forall id :: id in picked ==> id in s.operations
  {
    if cancellations == [] && picked == [] && gateway == 0 then (s, Waiting)
    else
      var delivered := s.(operations := DeliverOps(s.operations, picked, now));
      var (t, ok) := Persist(delivered, now, io);
      (t, if ok then Batch(RecordsOf(delivered.operations, picked), cancellations) else Errored(Persistence))
  }

  /** Fills one bounded batch; `gateway` counts the binding requests that share it. */
  function Collect(s: State, now: int, limit: nat, gateway: nat, queue: seq<Id>, io: Io): (State, Reply)
    requires forall i :: 0 <= i < |queue| ==> queue[i] in s.operations
  {
    var cancellations := Cancellations(s.operations, queue, limit);
    var picked := Picked(s.operations, queue, BatchRoom(limit, |cancellations| + gateway));
    Dispatch(s, now, cancellations, picked, gateway, io)
  }

  function RecordsOf(ops: map<Id, Operation>, ids: seq<Id>): (records: seq<Operation>)
    requires forall id :: id in ids ==> id in ops
    ensures |records| == |ids| && forall i :: 0 <= i < |ids| ==> records[i] == ops[ids[i]]
  {
    seq(|ids|, i requires 0 <= i < |ids| => ops[ids[i]])
  }

  function PollHost(
    s: State, now: int, hostId: Id, leaseId: Id, limit: nat, gateway: nat, order: seq<Id>, queue: seq<Id>, io1: Io, io2: Io
  ): (State, Reply)
  {
    if limit == 0 || limit > 64 then (s, Errored(Invalid))
    else if !HoldsHostLease(s, now, hostId, leaseId) then (s, Errored(LeaseExpired))
    else
      var (s1, ok) := Persist(Prune(ExpireControllers(s, now), now, order), now, io1);
      if !ok then (s1, Errored(Persistence))
      else if !IsQueue(s1.operations, hostId, queue) then (s, Errored(Invalid))
      else Collect(s1, now, limit, gateway, queue, io2)
  }

  function HostRecord(s: State, hostId: Id, id: Id): (r: Result<Operation>)
    ensures r.Ok? && id in s.operations ==> r.value == s.operations[id]
  {
    var found := LookupOperation(s, id);
    if found.None? then Err(NotFound)
    else if found.value.request.target.hostId != hostId then Err(Forbidden)
    else Ok(found.value)
  }

  /** Records one change to a hot record and writes it. */
  function SaveRecord(s: State, now: int, id: Id, o: Operation, io: Io): (State, Reply) {
    var (t, ok) := Persist(SetOperation(s, id, o), now, io);
    (t, if ok then Done else Errored(Persistence))
  }

  function AcknowledgeHost(s: State, now: int, hostId: Id, leaseId: Id, ack: Ack, io1: Io, io2: Io): (State, Reply) {
    var (s1, ok) := Persist(s, now, io1);
    if !ok then (s1, Errored(Persistence))
    else if !HoldsHostLease(s1, now, hostId, leaseId) then (s1, Errored(LeaseExpired))
    else
      var found := HostRecord(s1, hostId, ack.operationId);
      if found.Err? then (s1, Errored(found.error))
      else if found.value.ack.Some? then (s1, if found.value.ack.value == ack then Done else Errored(Conflict))
      else if found.value.status != Delivered || ack.operationId !in s1.operations then (s1, Errored(Conflict))
      else SaveRecord(s1, now, ack.operationId, Acknowledged(found.value, ack, now), io2)
  }

  function ReportRun(s: State, now: int, hostId: Id, leaseId: Id, run: ActionRun, io: Io): (State, Reply) {
    var (t, ok) := Persist(s, now, io);
    if !ok then (t, Errored(Persistence))
    else if !HoldsHostLease(t, now, hostId, leaseId) then (t, Errored(LeaseExpired))
    else
      var found := HostRecord(t, hostId, run.operationId);
      if found.Err? then (t, Errored(found.error)) else RecordRun(t, now, found.value, run)
  }

  /** Checks a run report against its record and takes it; an exact repeat changes nothing. */
  function RecordRun(s: State, now: int, o: Operation, run: ActionRun): (r: (State, Reply))
    ensures !r.1.Viewed?
  {
    var checked := CheckRun(o, run);
    if checked.Err? then (s, Errored(checked.error))
    else if !checked.value || run.operationId !in s.operations then (s, Done)
    else (WithRun(s, now, o, run), Done)
  }

  /** Records a run; a record that it puts back to work is noted with what its lease and stop are now. */
  function WithRun(s: State, now: int, o: Operation, run: ActionRun): State {
    var reported := RunReported(o, run, now);
    var t := s.(operations := s.operations[run.operationId := reported]);
    if Revives(o, reported) then NoteRevival(t, run.operationId, o.request) else t
  }

  function NoteRevival(s: State, id: Id, r: ControlRequest): State {
    s.(loose := if LeaseHeld(s, r) then s.loose - {id} else s.loose + {id},
       defied := if StopActive(s, r.target) then s.defied[id := s.stops[r.target].revision] else s.defied - {id},
       revived := s.revived + {id})
  }

  /** Checks a result against its record and writes it; a repeat only completes the projection queue. */
  function RecordResult(s: State, now: int, o: Operation, outcome: ActionOutcome, output: Option<Id>, io: Io): (r: (State, Reply))
    ensures !r.1.Viewed?
  {
    var checked := CheckResult(o, outcome, output);
    if checked.Err? then (s, Errored(checked.error))
    else if outcome.operationId !in s.operations then (s, Done)
    else if checked.value then
      SaveRecord(s, now, outcome.operationId, ResultReported(o, outcome, output, s.config.sinks, now), io)
    else if OutcomeQueued(o, s.config.sinks) == o then (s, Done)
    else SaveRecord(s, now, outcome.operationId, OutcomeQueued(o, s.config.sinks), io)
  }

  function ReportResult(
    s: State, now: int, hostId: Id, leaseId: Id, outcome: ActionOutcome, output: Option<Id>, io1: Io, io2: Io
  ): (State, Reply)
  {
    if !TerminalRun(outcome.status) then (s, Errored(Invalid))
    else
      var (t, ok) := Persist(s, now, io1);
      if !ok then (t, Errored(Persistence))
      else if !HoldsHostLease(t, now, hostId, leaseId) then (t, Errored(LeaseExpired))
      else
        var found := HostRecord(t, hostId, outcome.operationId);
        if found.Err? then (t, Errored(found.error))
        else RecordResult(t, now, found.value, outcome, output, io2)
  }

  // ---------------------------------------------------------------- clients

  function RefreshFound(s: State, now: int, id: Id): State {
    if id in s.operations then Refresh(s, now, id)
    else if LookupOperation(s, id).Some? then RefreshHost(s, now, LookupOperation(s, id).value.request.target.hostId)
    else s
  }

  function ReadOperation(s: State, now: int, principal: Principal, id: Id, io: Io): (State, Reply) {
    if LookupOperation(s, id).None? then (s, Errored(NotFound))
    else
      var (s1, ok) := Persist(RefreshFound(s, now, id), now, io);
      var found := LookupOperation(s1, id);
      if !ok then (s1, Errored(Persistence))
      else if found.None? then (s1, Errored(NotFound))
      else if !HasScope(principal, HostAdmin) && principal.id != found.value.request.principal.id then (s1, Errored(Forbidden))
      else (s1, Viewed(found.value))
  }

  function CancelOperation(s: State, now: int, principal: Principal, id: Id, io1: Io, io2: Io): (State, Reply) {
    if LookupOperation(s, id).None? then (s, Errored(NotFound))
    else
      var (t, ok) := Persist(RefreshFound(s, now, id), now, io1);
      var found := LookupOperation(t, id);
      if !ok then (t, Errored(Persistence))
      else if found.None? then (t, Errored(NotFound))
      else CancelFound(t, now, principal, id, found.value, io2)
  }

  /** A listing refreshes the records its caller may see, in the order the map yields them. */
  function RefreshEach(s: State, now: int, principal: Principal, order: seq<Id>): State
    decreases |order|
  {
    if order == [] then s
    else if order[0] in s.operations
            && (HasScope(principal, HostAdmin) || principal.id == s.operations[order[0]].request.principal.id)
    then RefreshEach(Refresh(s, now, order[0]), now, principal, order[1..])
    else RefreshEach(s, now, principal, order[1..])
  }

  function ListOperations(s: State, now: int, principal: Principal, order: seq<Id>, io: Io): (State, Reply) {
    var (t, ok) := Persist(RefreshEach(s, now, principal, order), now, io);
    (t, if ok then Done else Errored(Persistence))
  }

  /** Resolves an exact submitted intent without binding, authorizing or dispatching another action. */
  ghost function FindActionOperation(s: State, now: int, principal: Principal, submission: Submission, io: Io): (State, Reply) {
    if !HasScope(principal, ActorExecute) && !HasScope(principal, HostAdmin) then (s, Errored(Forbidden))
    else
      var key := BeginKey(principal, submission);
      var (t, known) := Idempotent(s, now, key, Fingerprint(submission.action, submission.parent, principal), io);
      match known
      case Hot(operation) => (t, Viewed(operation))
      case Refused(error) => (t, Errored(error))
      case Missing => (t, Errored(if key in t.flights then Unavailable else NotFound))
  }

  function CancelFound(s: State, now: int, principal: Principal, id: Id, found: Operation, io: Io): (State, Reply) {
    if !HasScope(principal, HostAdmin)
       && (principal.id != found.request.principal.id || !HasScope(principal, OperationCancel))
    then (s, Errored(Forbidden))
    else if Complete(found) || id !in s.operations then (s, Viewed(found))
    else
      var o := CancelAsked(found, now);
      var (t, ok) := Persist(if o == found then s else SetOperation(s, id, o), now, io);
      (t, if ok then Viewed(o) else Errored(Persistence))
  }

  /** A projection subscriber acknowledged one hot outcome; a failed write takes the mark back. */
  function OutcomeAcked(s: State, now: int, id: Id, sink: Id, io: Io): (State, Reply) {
    if id !in s.operations || s.operations[id].outcome.None? || sink !in s.operations[id].delivery then (s, Errored(NotFound))
    else
      var (s1, ok) := Persist(SetOperation(s, id, OutcomeDelivered(s.operations[id], sink)), now, io);
      if ok || id !in s1.operations then (s1, Done)
      else (SetOperation(s1, id, s1.operations[id].(delivery := s1.operations[id].delivery[sink := false])), Errored(Persistence))
  }

  /** A clean shutdown publishes a last checkpoint, changed or not. */
  function Flush(s: State, now: int, io: Io): (State, Reply) {
    var (t, ok) := Persist(s.(dirty := true), now, io);
    (t, if ok then Done else Errored(Persistence))
  }

  // ---------------------------------------------------------------- restart

  function ChildrenOf(ops: map<Id, Operation>, id: Id): set<Id> {
    set child | child in ops && ops[child].request.parent == Some(id)
  }

  function RestoredRow(o: Operation): Option<Operation> {
    OperationRestore.RestoreOperation(OperationRestore.ToPersisted(o))
  }

  predicate RowsOk(ops: map<Id, Operation>) {
    forall id :: id in ops ==> RestoredRow(ops[id]).Some?
  }

  predicate KeysDiffer(ops: map<Id, Operation>, a: Id, b: Id) {
    a in ops && b in ops && ops[a].key == ops[b].key ==> a == b
  }

  ghost predicate KeysDistinct(ops: map<Id, Operation>) {
    forall a, b {:trigger KeysDiffer(ops, a, b)} :: KeysDiffer(ops, a, b)
  }

  predicate ParentsOk(ops: map<Id, Operation>) {
    && (forall id :: id in ops && ops[id].request.parent.Some? ==>
          && ops[id].request.parent.value in ops
          && SameOwner(ops[ops[id].request.parent.value].request, ops[id].request))
    && (forall id :: id in ops ==> |ChildrenOf(ops, id)| <= MAX_CHILDREN)
  }

  predicate SameOwner(parent: ControlRequest, child: ControlRequest) {
    && parent.target == child.target && parent.principal.id == child.principal.id
    && parent.binding.controllerLeaseId == child.binding.controllerLeaseId
  }

  predicate ParentWithin(ops: map<Id, Operation>, ids: set<Id>, id: Id) {
    id in ids ==> id in ops && ops[id].request.parent.Some? && ops[id].request.parent.value in ids
  }

  /** A set of records each of whose members has its parent in the set: a parent cycle. */
  ghost predicate ParentClosed(ops: map<Id, Operation>, ids: set<Id>) {
    ids != {} && forall id {:trigger ParentWithin(ops, ids, id)} :: ParentWithin(ops, ids, id)
  }

  ghost predicate HasCycle(ops: map<Id, Operation>) {
    exists ids: set<Id> :: ParentClosed(ops, ids)
  }

  predicate LeaseRowOk(lease: ControllerLease) {
    && 0 <= lease.acquiredAt < lease.expiresAt <= WIRE
    && 0 < lease.authorityRevision <= WIRE && lease.epoch.worldId == lease.target.worldId
  }

  predicate LeaseRowsOk(controllers: map<ActorKey, ControllerLease>) {
    forall key :: key in controllers ==> LeaseRowOk(controllers[key])
  }

  predicate LeasesDiffer(controllers: map<ActorKey, ControllerLease>, a: ActorKey, b: ActorKey) {
    a in controllers && b in controllers && controllers[a].leaseId == controllers[b].leaseId ==> a == b
  }

  ghost predicate LeasesDistinct(controllers: map<ActorKey, ControllerLease>) {
    forall a, b {:trigger LeasesDiffer(controllers, a, b)} :: LeasesDiffer(controllers, a, b)
  }

  predicate StopRowOk(stop: EmergencyStop) {
    0 < stop.revision <= WIRE && 0 <= stop.updatedAt <= WIRE
  }

  predicate StopRowsOk(stops: map<ActorKey, EmergencyStop>) {
    forall key :: key in stops ==> StopRowOk(stops[key])
  }

  /** Every check that a restore makes of the operations, the controller leases and the emergency stops. */
  ghost predicate CanOpen(config: Config, durable: Durable) {
    && |durable.operations| <= config.maxOperations
    && RowsOk(durable.operations)
    && KeysDistinct(durable.operations)
    && ParentsOk(durable.operations)
    && !HasCycle(durable.operations)
    && LeaseRowsOk(durable.controllers) && LeasesDistinct(durable.controllers)
    && StopRowsOk(durable.stops)
  }

  function Reload(ops: map<Id, Operation>, sinks: set<Id>, now: int): map<Id, Operation>
    requires RowsOk(ops)
  {
    map id | id in ops ::
      var restored := RestoredRow(ops[id]).value;
      OutcomeQueued(restored, sinks).(
        children := ChildrenOf(ops, id),
        updatedAt := if restored.status == ops[id].status then restored.updatedAt else now)
  }

  /** The durable store no longer holds a live lease under which the record was bound. */
  predicate LeaseGone(d: Durable, r: ControlRequest, now: int) {
    || r.target !in d.controllers
    || d.controllers[r.target].leaseId != r.binding.controllerLeaseId
    || d.controllers[r.target].expiresAt <= now
  }

  ghost function Opened(config: Config, durable: Durable, issued: set<Id>, now: int): State
    requires RowsOk(durable.operations)
  {
    var ops := Reload(durable.operations, config.sinks, now);
    State(config, map[], map key | key in durable.controllers && durable.controllers[key].expiresAt > now :: durable.controllers[key],
          durable.stops, ops, map key | key in (set id | id in ops :: ops[id].key) :: IdOfKey(ops, key), map[], map[], map[],
          durable.operations != map[], durable, issued,
          set id | id in durable.operations && LeaseGone(durable, durable.operations[id].request, now), map[], {})
  }

  ghost function IdOfKey(ops: map<Id, Operation>, key: Key): (id: Id)
    requires exists id :: id in ops && ops[id].key == key
    ensures id in ops && ops[id].key == key
  {
    var id :| id in ops && ops[id].key == key;
    id
  }

  /** A key names at most one archived record. */
  lemma ArchivedKeyIsUnique(s: State, key: Key, id: Id)
    requires KeysDistinct(Archived(s)) && ArchivedAt(s, key, id)
    ensures forall other :: ArchivedAt(s, key, other) ==> other == id
  {
    forall other | ArchivedAt(s, key, other) ensures other == id { assert KeysDiffer(Archived(s), id, other); }
  }
}
