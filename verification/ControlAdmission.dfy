/**
  Admitting a new record, and taking it back when its first write fails.
 */
module ControlAdmission {
  import opened ControlTypes
  import opened OperationRecord
  import opened ControlPlane
  import opened ControlInvariants
  import opened ControlSteps

  /** A record the hot pool may take in: well formed, unused, fenced, and under a parent of the same owner. */
  ghost predicate Admissible(s: State, o: Operation) {
    && RecordOk(o) && o.children == {} && o.request.operationId !in s.issued
    && o.key !in s.requests && UnarchivedKey(s, o.key)
    && ParentHasRoom(s, o.request.parent)
    && (o.request.parent.Some? ==> SameOwner(s.operations[o.request.parent.value].request, o.request))
    && o.request.binding.controllerLeaseId in s.issued && BoundAs(s.controllers, o.request)
    && (InForce(o) ==> o.ack.None? && Fenced(s, o.request))
    && (NeedsReservation(o) ==> o.reserved)
    && |s.operations| < s.config.maxOperations
  }

  ghost predicate UnarchivedKey(s: State, key: Key) {
    forall id {:trigger ArchivedAt(s, key, id)} :: !ArchivedAt(s, key, id)
  }

  lemma InsertForest(s: State, o: Operation)
    requires Forest(s.operations) && s.operations.Keys <= s.issued && Admissible(s, o)
    ensures Forest(Insert(s, o).operations)
  {
    var ops, ops', id := s.operations, Insert(s, o).operations, o.request.operationId;
    forall other ensures LinkedUp(ops', other) { assert LinkedUp(ops, other); }
    forall other ensures LinkedDown(ops', other) {
      assert LinkedDown(ops, other);
      forall child ensures ChildOf(ops', other, child) { assert ChildOf(ops, other, child); }
    }
    forall ids | ParentClosed(ops', ids) ensures false { LeafOutsideCycle(s, o, ids); }
  }

  /** The new record is nobody's parent, so a cycle would not need it. */
  lemma LeafOutsideCycle(s: State, o: Operation, ids: set<Id>)
    requires (forall id {:trigger LinkedUp(s.operations, id)} :: LinkedUp(s.operations, id))
    requires s.operations.Keys <= s.issued && o.request.operationId !in s.issued && ParentHasRoom(s, o.request.parent)
    requires ParentClosed(Insert(s, o).operations, ids)
    ensures ParentClosed(s.operations, ids - {o.request.operationId})
  {
    var ops, ops', id := s.operations, Insert(s, o).operations, o.request.operationId;
    forall other ensures ParentWithin(ops, ids - {id}, other) {
      assert ParentWithin(ops', ids, other) && LinkedUp(ops, other);
    }
    var some :| some in ids;
    assert ParentWithin(ops', ids, some);
  }

  lemma InsertIndex(s: State, o: Operation)
    requires KeyIndex(s.operations, s.requests) && s.operations.Keys <= s.issued && Admissible(s, o)
    ensures KeyIndex(Insert(s, o).operations, Insert(s, o).requests)
  {
    var s' := Insert(s, o);
    forall id ensures IndexedAt(s'.operations, s'.requests, id) { assert IndexedAt(s.operations, s.requests, id); }
    forall key ensures ResolvedAt(s'.operations, s'.requests, key) { assert ResolvedAt(s.operations, s.requests, key); }
  }

  lemma InsertApart(s: State, o: Operation)
    requires Apart(s.operations, Archived(s)) && Issued(s) && Admissible(s, o)
    ensures Apart(Insert(s, o).operations, Archived(s))
  {
    forall a, b ensures ApartAt(Insert(s, o).operations, Archived(s), a, b) {
      assert ApartAt(s.operations, Archived(s), a, b);
      assert !ArchivedAt(s, o.key, b);
    }
  }

  lemma InsertRecords(s: State, o: Operation)
    requires Records(s.operations) && RecordOk(o) && ParentHasRoom(s, o.request.parent)
    ensures Records(Insert(s, o).operations)
  {
    forall id ensures RecordAt(Insert(s, o).operations, id) { assert RecordAt(s.operations, id); }
  }

  lemma InsertPool(s: State, o: Operation)
    requires Pool(s) && Issued(s) && Admissible(s, o)
    ensures Pool(Insert(s, o))
  {
    InsertForest(s, o);
    InsertIndex(s, o);
    InsertApart(s, o);
    InsertRecords(s, o);
  }

  lemma InsertGuards(s: State, o: Operation)
    requires Guards(s) && Issued(s) && Admissible(s, o)
    ensures Guards(Insert(s, o))
  {
    var s' := Insert(s, o);
    forall key ensures ControllerAt(s', key) { assert ControllerAt(s, key); }
    forall id ensures FencedAt(s', id) { assert FencedAt(s, id); }
    forall id ensures HeldAt(s', id) { assert HeldAt(s, id); InsertHeld(s, o, id); }
  }

  lemma InsertHeld(s: State, o: Operation, id: Id)
    requires HeldAt(s, id) && Issued(s) && Admissible(s, o)
    ensures HeldAt(Insert(s, o), id)
  {
  }

  lemma InsertLeases(s: State, o: Operation)
    requires LeasesIssued(s.durable, s.issued) && ParentHasRoom(s, o.request.parent)
    ensures LeasesIssued(s.durable, Insert(s, o).issued)
  {
    forall id ensures RowIssuedAt(s.durable, Insert(s, o).issued, id) { assert RowIssuedAt(s.durable, s.issued, id); }
    forall key ensures LeaseIssuedAt(s.durable, Insert(s, o).issued, key) { assert LeaseIssuedAt(s.durable, s.issued, key); }
  }

  lemma InsertFrame(s: State, o: Operation)
    requires Frame(s) && ParentHasRoom(s, o.request.parent) && |s.operations| < s.config.maxOperations
    requires Insert(s, o).operations.Keys == s.operations.Keys + {o.request.operationId}
    ensures Frame(Insert(s, o))
  {
    GrownSize(s.operations, Insert(s, o).operations, o.request.operationId);
    InsertLeases(s, o);
  }

  /** One record was added and the others followed. */
  ghost predicate Grows(ops: map<Id, Operation>, ops': map<Id, Operation>, id: Id) {
    && ops'.Keys == ops.Keys + {id}
    && forall other {:trigger FollowsAt(ops, ops', other)} :: other != id ==> FollowsAt(ops, ops', other)
  }

  lemma InsertGrows(s: State, o: Operation)
    requires Records(s.operations) && ParentHasRoom(s, o.request.parent)
    ensures Grows(s.operations, Insert(s, o).operations, o.request.operationId)
  {
    forall other | other != o.request.operationId ensures FollowsAt(s.operations, Insert(s, o).operations, other) {
      assert RecordAt(s.operations, other);
    }
  }

  lemma GrownIsBacked(s: State, s': State, id: Id)
    requires Backed(s, {}) && Issued(s) && id !in s.issued && Grows(s.operations, s'.operations, id)
    requires Archived(s') == Archived(s) && s'.durable == s.durable && s'.config == s.config
    ensures Backed(s', {id})
  {
    forall other ensures BackedAt(s', {id}, other) {
      assert BackedAt(s, {}, other) && (other != id ==> FollowsAt(s.operations, s'.operations, other));
    }
  }

  lemma GrownEvolves(s: State, s': State, id: Id)
    requires Issued(s) && id !in s.issued && Grows(s.operations, s'.operations, id)
    requires Archived(s') == Archived(s) && s'.durable == s.durable && s'.config == s.config
    ensures MemoryEvolves(s, s')
  {
    forall other ensures EvolvesAt(s, s', other) { assert other != id ==> FollowsAt(s.operations, s'.operations, other); }
  }

  lemma InsertUnknown(s: State, o: Operation)
    requires s.operations.Keys <= s.issued && o.request.operationId !in s.issued && ParentHasRoom(s, o.request.parent)
    ensures KeepsUnknown(s.operations, Insert(s, o).operations, {})
  {
    forall other ensures UnknownAt(s.operations, Insert(s, o).operations, {}, other) { }
  }

  lemma InsertStep(s0: State, s: State, o: Operation)
    requires Reach(s0, s, {}, {}) && Admissible(s, o)
    ensures Reach(s0, Insert(s, o), {o.request.operationId}, {})
  {
    InsertPool(s, o);
    InsertGuards(s, o);
    InsertGrows(s, o);
    InsertFrame(s, o);
    InsertChanges(s0, s, o);
  }

  lemma InsertChanges(s0: State, s: State, o: Operation)
    requires Reach(s0, s, {}, {}) && o.request.operationId !in s.issued && ParentHasRoom(s, o.request.parent)
    ensures Backed(Insert(s, o), {o.request.operationId}) && MemoryEvolves(s0, Insert(s, o))
    ensures KeepsUnknown(s0.operations, Insert(s, o).operations, {})
  {
    var s', id := Insert(s, o), o.request.operationId;
    InsertGrows(s, o);
    GrownIsBacked(s, s', id);
    GrownEvolves(s, s', id);
    MemoryEvolvesTransitive(s0, s, s');
    InsertUnknown(s, o);
    KeepsUnknownTransitive(s0.operations, s.operations, s'.operations, {});
  }

  // ---------------------------------------------------------------- rollback

  lemma RollbackChanges(s0: State, s: State, o: Operation, at: int)
    requires Reach(s0, s, {o.request.operationId}, {}) && o.request.operationId in s.operations
    ensures Backed(Rollback(s, o, at), {}) && MemoryEvolves(s0, Rollback(s, o, at))
    ensures KeepsUnknown(s0.operations, Rollback(s, o, at).operations, {})
  {
    var s', id := Rollback(s, o, at), o.request.operationId;
    UnlinkFollows(s.operations, id, Some(at));
    forall other
      ensures BackedAt(s', {}, other) && EvolvesAt(s0, s', other) && UnknownAt(s0.operations, s'.operations, {}, other)
    {
      assert BackedAt(s, {id}, other) && EvolvesAt(s0, s, other) && UnknownAt(s0.operations, s.operations, {}, other);
      assert FollowsAt(s.operations, s'.operations, other) && ApartAt(s.operations, Archived(s), id, id);
    }
  }

  lemma RollbackPool(s: State, o: Operation, at: int)
    requires Pool(s) && o.request.operationId in s.operations
    requires s.operations[o.request.operationId].children == {} && s.operations[o.request.operationId].key == o.key
    ensures Pool(Rollback(s, o, at))
  {
    var s', id := Rollback(s, o, at), o.request.operationId;
    UnlinkFollows(s.operations, id, Some(at));
    RecordsKept(s.operations, s'.operations);
    UnlinkForest(s.operations, id, Some(at));
    UnlinkIndex(s.operations, s.requests, id, Some(at));
    UnlinkApart(s.operations, Archived(s), id, Some(at));
  }

  lemma RollbackFrame(s: State, o: Operation, at: int)
    requires Frame(s) && o.request.operationId in s.operations
    ensures Frame(Rollback(s, o, at))
  {
    var s' := Rollback(s, o, at);
    assert s'.operations.Keys == s.operations.Keys - {o.request.operationId};
    assert |s'.operations.Keys| <= |s.operations.Keys|;
  }

  lemma RollbackStep(s0: State, s: State, o: Operation, at: int)
    requires Reach(s0, s, {o.request.operationId}, {}) && o.request.operationId in s.operations
    requires s.operations[o.request.operationId].children == {} && s.operations[o.request.operationId].key == o.key
    ensures Reach(s0, Rollback(s, o, at), {}, {})
  {
    var s' := Rollback(s, o, at);
    RollbackChanges(s0, s, o, at);
    RollbackPool(s, o, at);
    RollbackFrame(s, o, at);
    UnlinkFollows(s.operations, o.request.operationId, Some(at));
    GuardsKept(s, s');
  }

  lemma UndoStep(s0: State, s: State, o: Operation, at: int, now: int, io: Io, undo: Io)
    requires Reach(s0, s, {o.request.operationId}, {}) && !Persist(s, now, io).1
    requires o.request.operationId in s.operations && s.operations[o.request.operationId] == o && o.children == {}
    ensures var t := Persist(s, now, io).0;
            o.request.operationId in t.operations && Good(s0, Persist(Rollback(t, o, at), now, undo).0, {})
  {
    var t := Persist(s, now, io).0;
    PersistFails(s0, s, {o.request.operationId}, {}, now, io);
    PersistKeeps(s, now, io);
    assert KeepsAt(s.operations, t.operations, o.request.operationId);
    RollbackStep(s0, t, o, at);
    assert Reach(s0, Rollback(t, o, at), {}, {});
    PersistStep(s0, Rollback(t, o, at), {}, now, undo);
  }

  /** Storing an admissible record is good whichever writes fail. */
  lemma StoreStep(s0: State, s: State, o: Operation, now: int, io1: Io, io2: Io)
    requires Good(s0, s, {}) && Admissible(s, o)
    ensures Good(s0, StoreOperation(s, o, now, io1, io2).0, {})
  {
    assert Reach(s0, s, {}, {});
    InsertStep(s0, s, o);
    if Persist(Insert(s, o), now, io1).1 {
      PersistSucceeds(s0, Insert(s, o), {o.request.operationId}, {}, now, io1);
      assert Reach(s0, Persist(Insert(s, o), now, io1).0, {}, {});
    } else {
      UndoStep(s0, Insert(s, o), o, ParentUpdatedAt(s, o.request.parent), now, io1, io2);
    }
  }
}
