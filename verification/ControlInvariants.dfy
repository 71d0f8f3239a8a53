/**
  The invariant of the control plane, and how its state may change between two
  critical sections.

  Every quantified fact ranges over a small per-record predicate and is
  triggered by that predicate alone, so that a proof unfolds a fact only for the
  records it names.
 */
module ControlInvariants {
  import opened ControlTypes
  import opened OperationRecord
  import opened ControlPlane

  // ---------------------------------------------------------------- records and the key index

  ghost predicate RecordAt(ops: map<Id, Operation>, id: Id) {
    id in ops ==> RecordOk(ops[id]) && ops[id].request.operationId == id
  }

  ghost predicate Records(ops: map<Id, Operation>) {
    forall id {:trigger RecordAt(ops, id)} :: RecordAt(ops, id)
  }

  ghost predicate IndexedAt(ops: map<Id, Operation>, requests: map<Key, Id>, id: Id) {
    id in ops ==> ops[id].key in requests && requests[ops[id].key] == id
  }

  ghost predicate ResolvedAt(ops: map<Id, Operation>, requests: map<Key, Id>, key: Key) {
    key in requests ==> requests[key] in ops && ops[requests[key]].key == key
  }

  /** `requests` is exactly the inverse of the hot records' keys. */
  ghost predicate KeyIndex(ops: map<Id, Operation>, requests: map<Key, Id>) {
    && (forall id {:trigger IndexedAt(ops, requests, id)} :: IndexedAt(ops, requests, id))
    && (forall key {:trigger ResolvedAt(ops, requests, key)} :: ResolvedAt(ops, requests, key))
  }

  // ---------------------------------------------------------------- the parent forest

  ghost predicate LinkedUp(ops: map<Id, Operation>, id: Id) {
    id in ops && ops[id].request.parent.Some? ==>
      && ops[id].request.parent.value in ops
      && id in ops[ops[id].request.parent.value].children
      && SameOwner(ops[ops[id].request.parent.value].request, ops[id].request)
  }

  ghost predicate ChildOf(ops: map<Id, Operation>, id: Id, child: Id) {
    id in ops && child in ops[id].children ==> child in ops && ops[child].request.parent == Some(id)
  }

  ghost predicate LinkedDown(ops: map<Id, Operation>, id: Id) {
    id in ops ==>
      && (forall child {:trigger ChildOf(ops, id, child)} :: ChildOf(ops, id, child))
      && |ops[id].children| <= MAX_CHILDREN
  }

  /** Children are exactly the inverse of parents, parents stay hot, owners agree, and nothing cycles. */
  ghost predicate Forest(ops: map<Id, Operation>) {
    && (forall id {:trigger LinkedUp(ops, id)} :: LinkedUp(ops, id))
    && (forall id {:trigger LinkedDown(ops, id)} :: LinkedDown(ops, id))
    && !HasCycle(ops)
  }

  // ---------------------------------------------------------------- the archive

  ghost predicate RetiredAt(cold: map<Id, Operation>, id: Id) {
    id in cold ==> Settled(cold[id]) && cold[id].status != OutcomeUnknown
  }

  ghost predicate Retired(cold: map<Id, Operation>) {
    && Records(cold) && KeysDistinct(cold)
    && forall id {:trigger RetiredAt(cold, id)} :: RetiredAt(cold, id)
  }

  ghost predicate ApartAt(hot: map<Id, Operation>, cold: map<Id, Operation>, a: Id, b: Id) {
    a in hot && b in cold ==> a != b && hot[a].key != cold[b].key
  }

  /** No archived record shares an identifier or a key with a hot one. */
  ghost predicate Apart(hot: map<Id, Operation>, cold: map<Id, Operation>) {
    forall a, b {:trigger ApartAt(hot, cold, a, b)} :: ApartAt(hot, cold, a, b)
  }

  // ---------------------------------------------------------------- what authorises dispatch

  ghost predicate ControllerAt(s: State, key: ActorKey) {
    key in s.controllers ==>
      && s.controllers[key].target == key && s.controllers[key].leaseId in s.issued
      && (Published(s, key) ==> HasActor(s, key) && MatchesActor(s.controllers[key], key, ActorAt(s, key)))
  }

  /** The lease a record is bound to still controls its published actor, and nothing has stopped the actor. */
  ghost predicate Fenced(s: State, r: ControlRequest) {
    LeaseHeld(s, r) && Published(s, r.target) && !StopActive(s, r.target)
  }

  /** The stop now in force is the one under which the record was put back to work. */
  predicate UnderStop(s: State, id: Id, key: ActorKey) {
    id in s.defied && key in s.stops && s.stops[key].revision == s.defied[id]
  }

  /** Of a record in force: its lease is held unless it is loose, and its actor is not stopped unless it is defied. */
  ghost predicate InForceOk(s: State, id: Id, o: Operation) {
    && (LeaseHeld(s, o.request) <==> id !in s.loose)
    && (StopActive(s, o.request.target) <==> UnderStop(s, id, o.request.target))
    && (id in s.defied ==>
          && o.run.Some? && o.request.target in s.stops && s.defied[id] <= s.stops[o.request.target].revision)
  }

  /** A lease identifier determines the epoch and the authority revision that were bound under it. */
  predicate BoundAs(controllers: map<ActorKey, ControllerLease>, r: ControlRequest) {
    r.target in controllers && controllers[r.target].leaseId == r.binding.controllerLeaseId ==>
      && controllers[r.target].epoch == r.binding.epoch
      && controllers[r.target].authorityRevision == r.binding.authorityRevision
  }

  ghost predicate HeldAt(s: State, id: Id) {
    id in s.operations ==>
      var o := s.operations[id];
      && o.request.binding.controllerLeaseId in s.issued && BoundAs(s.controllers, o.request)
      && (InForce(o) ==> InForceOk(s, id, o))
      && (NeedsReservation(o) ==> (o.reserved <==> id !in s.revived)) && (id in s.revived ==> o.run.Some?)
  }

  ghost predicate FencedAt(s: State, id: Id) {
    id in s.operations && LiveUnacked(s.operations[id]) ==> Fenced(s, s.operations[id].request)
  }

  /** What authorises the records that may still be dispatched. */
  ghost predicate Guards(s: State) {
    && (forall key {:trigger ControllerAt(s, key)} :: ControllerAt(s, key)) && LeasesDistinct(s.controllers)
    && (forall id {:trigger FencedAt(s, id)} :: FencedAt(s, id))
    && (forall id {:trigger HeldAt(s, id)} :: HeldAt(s, id))
  }

  // ---------------------------------------------------------------- the invariant

  ghost predicate LeaseAt(controllers: map<ActorKey, ControllerLease>, key: ActorKey) {
    key in controllers ==> controllers[key].target == key
  }

  /** A stored row in force that never ran has no stop against it, and its lease, if stored, is as it was bound. */
  ghost predicate RowHeldAt(d: Durable, id: Id) {
    id in d.operations ==>
      var o := d.operations[id];
      && BoundAs(d.controllers, o.request)
      && (InForce(o) && o.run.None? ==> !(o.request.target in d.stops && d.stops[o.request.target].active))
  }

  ghost predicate RowIssuedAt(d: Durable, issued: set<Id>, id: Id) {
    id in d.operations ==> d.operations[id].request.binding.controllerLeaseId in issued
  }

  ghost predicate LeaseIssuedAt(d: Durable, issued: set<Id>, key: ActorKey) {
    key in d.controllers ==> d.controllers[key].leaseId in issued
  }

  /** Every lease identifier in the store is in use. */
  ghost predicate LeasesIssued(d: Durable, issued: set<Id>) {
    && (forall id {:trigger RowIssuedAt(d, issued, id)} :: RowIssuedAt(d, issued, id))
    && (forall key {:trigger LeaseIssuedAt(d, issued, key)} :: LeaseIssuedAt(d, issued, key))
  }

  ghost predicate DurableOk(d: Durable) {
    && Records(d.operations) && KeysDistinct(d.operations) && Forest(d.operations)
    && Retired(d.archive) && Apart(d.operations, d.archive)
    && (forall key {:trigger LeaseAt(d.controllers, key)} :: LeaseAt(d.controllers, key)) && LeasesDistinct(d.controllers)
    && (forall id {:trigger RowHeldAt(d, id)} :: RowHeldAt(d, id))
  }

  ghost predicate FlightAt(flights: map<Key, Flight>, key: Key) {
    key in flights ==>
      && key == BeginKey(flights[key].principal, flights[key].submission)
      && flights[key].submission.action.actorId == flights[key].submission.target.actorId
  }

  ghost predicate FlightsOk(flights: map<Key, Flight>) {
    forall key {:trigger FlightAt(flights, key)} :: FlightAt(flights, key)
  }

  /** Hot records, the key index, the parent forest and the archive. */
  ghost predicate Pool(s: State) {
    && Records(s.operations) && KeyIndex(s.operations, s.requests) && Forest(s.operations)
    && Retired(Archived(s)) && Apart(s.operations, Archived(s))
  }

  /** Every record anywhere carries an identifier that is in use. */
  ghost predicate Issued(s: State) {
    && s.operations.Keys <= s.issued && s.staged.Keys <= s.issued
    && s.durable.operations.Keys <= s.issued && s.durable.archive.Keys <= s.issued
    && s.loose <= s.issued && s.defied.Keys <= s.issued && s.revived <= s.issued
  }

  /** Capacity, identifier supply, flights and the durable store. */
  ghost predicate Frame(s: State) {
    && DurableOk(s.durable) && FlightsOk(s.flights) && Issued(s) && LeasesIssued(s.durable, s.issued)
    && |s.operations| <= s.config.maxOperations && |s.durable.operations| <= s.config.maxOperations
    && (s.config.store != Sqlite ==> s.staged == map[] && s.durable.archive == map[])
  }

  ghost predicate Core(s: State) {
    Pool(s) && Guards(s) && Frame(s)
  }

  ghost function StoredAt(d: Durable, id: Id): Option<Operation> {
    if id in d.operations then Some(d.operations[id])
    else if id in d.archive then Some(d.archive[id])
    else None
  }

  /** The record as memory sees it: hot, staged for the archive, or archived. */
  ghost function Where(s: State, id: Id): Option<Operation> {
    if id in s.operations then Some(s.operations[id])
    else if id in Archived(s) then Some(Archived(s)[id])
    else None
  }

  ghost predicate Advances(o: Operation, o': Operation) {
    SameIdentity(o, o') && (Settled(o) ==> SameResult(o, o'))
  }

  /** A durable record is never ahead of memory, and memory holds nothing the store has not seen, except `skip`. */
  ghost predicate BackedAt(s: State, skip: set<Id>, id: Id) {
    && (StoredAt(s.durable, id).Some? && Where(s, id).Some? ==> Advances(StoredAt(s.durable, id).value, Where(s, id).value))
    && (s.config.store != Memory && Where(s, id).Some? && id !in skip ==> StoredAt(s.durable, id).Some?)
  }

  ghost predicate Backed(s: State, skip: set<Id>) {
    forall id {:trigger BackedAt(s, skip, id)} :: BackedAt(s, skip, id)
  }

  ghost predicate Inv(s: State) {
    Core(s) && Backed(s, {})
  }

  /**
    The invariant, stated for every state equal to `s` and triggered by `Inv`, so
    that a method carries it along folded.
   */
  ghost predicate Sane(s: State) {
    forall x: State {:trigger Inv(x)} :: x == s ==> Inv(x)
  }

  // ---------------------------------------------------------------- how a state may change

  /** One record between two states of the same process. */
  ghost predicate EvolvesAt(s: State, s': State, id: Id) {
    && (Where(s, id).Some? && Where(s', id).Some? ==> Advances(Where(s, id).value, Where(s', id).value))
    && (s.config.store == Sqlite && Where(s, id).Some? ==> Where(s', id).Some?)
    && (Where(s, id).None? && id in s.issued ==> Where(s', id).None?)
    && (id in s'.operations && LiveUnacked(s'.operations[id]) && id in s.issued ==>
          id in s.operations && LiveUnacked(s.operations[id]))
  }

  /** One row between two values of the durable store, given the identifiers already in use. */
  ghost predicate RowEvolves(issued: set<Id>, d: Durable, d': Durable, id: Id) {
    && (StoredAt(d, id).Some? && StoredAt(d', id).Some? ==> Advances(StoredAt(d, id).value, StoredAt(d', id).value))
    && (StoredAt(d, id).None? && id in issued ==> StoredAt(d', id).None?)
  }

  ghost predicate MemoryEvolves(s: State, s': State) {
    forall id {:trigger EvolvesAt(s, s', id)} :: EvolvesAt(s, s', id)
  }

  ghost predicate RowsEvolve(issued: set<Id>, d: Durable, d': Durable) {
    forall id {:trigger RowEvolves(issued, d, d', id)} :: RowEvolves(issued, d, d', id)
  }

  /**
    Records keep their identity, settled records keep their result, no
    identifier is reused, and live unacknowledged work is never revived, in
    memory and in the durable store; with an archive, memory forgets nothing.
   */
  ghost predicate Evolves(s: State, s': State) {
    && s'.config == s.config && s.issued <= s'.issued
    && MemoryEvolves(s, s') && RowsEvolve(s.issued, s.durable, s'.durable)
  }

  ghost predicate UnknownAt(ops: map<Id, Operation>, ops': map<Id, Operation>, reported: set<Id>, id: Id) {
    && (id in ops && ReconciliationPending(ops[id]) ==>
          id in ops' && (ReconciliationPending(ops'[id]) || id in reported))
    && (id in ops && id in reported ==> id in ops')
  }

  /** A record whose outcome is unknown stays hot and stays unknown, unless the Host reported on it. */
  ghost predicate KeepsUnknown(ops: map<Id, Operation>, ops': map<Id, Operation>, reported: set<Id>) {
    forall id {:trigger UnknownAt(ops, ops', reported, id)} :: UnknownAt(ops, ops', reported, id)
  }

  /** The history of a record changes only by a run report. */
  ghost predicate KeepsHistory(s: State, s': State, reported: set<Id>) {
    s'.loose - reported == s.loose - reported && s'.defied - reported == s.defied - reported
    && s'.revived - reported == s.revived - reported
  }

  /** `s` is an intermediate state of a critical section that was entered in `s0`. */
  ghost predicate Reach(s0: State, s: State, skip: set<Id>, reported: set<Id>) {
    && Core(s) && Backed(s, skip) && Issued(s0) && skip !! s0.issued
    && Evolves(s0, s) && KeepsUnknown(s0.operations, s.operations, reported) && KeepsHistory(s0, s, reported)
  }

  /**
    `s` is a good state to leave the section in. Stated for every state equal to
    `s` and triggered by `Reach`, so that a proof carries it along folded and
    unfolds it only by asserting `Reach`.
   */
  ghost predicate Good(s0: State, s: State, reported: set<Id>) {
    forall x: State {:trigger Reach(s0, x, {}, reported)} :: x == s ==> Reach(s0, x, {}, reported)
  }
}
