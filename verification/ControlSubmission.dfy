/**
  Submission and confirmation: the sections that check, release the lock while
  the Host answers, and check again before they store or queue anything.
 */
module ControlSubmission {
  import opened ControlTypes
  import opened OperationRecord
  import OperationRestore
  import opened ControlPlane
  import opened ControlInvariants
  import opened ControlSteps
  import ControlAdmission
  import opened ControlSections

  // ---------------------------------------------------------------- what a check establishes

  ghost predicate PreparedFor(s: State, now: int, principal: Principal, submission: Submission, snapshot: Snapshot) {
    && HasActor(s, submission.target) && snapshot.actor == ActorAt(s, submission.target)
    && submission.target in s.controllers && s.controllers[submission.target] == snapshot.controller
    && snapshot.controller.expiresAt > now
    && MatchesActor(snapshot.controller, submission.target, snapshot.actor)
    && CanAccess(principal, snapshot.actor, ActorExecute)
    && snapshot.actor.epoch == submission.action.expectedEpoch
    && ParentError(s, submission, principal, snapshot.actor, snapshot.controller.leaseId).None?
    && snapshot.stopped == StopActive(s, submission.target)
  }

  lemma PrepareStep(s0: State, s: State, now: int, principal: Principal, submission: Submission)
    requires Good(s0, s, {})
    ensures Good(s0, Prepare(s, now, principal, submission).0, {})
    ensures Prepare(s, now, principal, submission).1.Ok? ==>
              PreparedFor(Prepare(s, now, principal, submission).0, now, principal, submission,
                          Prepare(s, now, principal, submission).1.value)
  {
    var (after, result) := Prepare(s, now, principal, submission);
    var (s1, authorized) := Authorize(s, now, principal, submission.target, ActorExecute);
    AuthorizeStep(s0, s, now, principal, submission.target, ActorExecute);
    EndStep(s0, s1, {}, Expired(s1.controllers, now) * {submission.target}, now);
    if authorized.Err? {
      assert after == s1;
    } else if authorized.value.epoch != submission.action.expectedEpoch
              || !RecentObservationGap(authorized.value.observationSeq, submission.action.observationSeq)
    {
      assert after == s1;
    } else {
      assert after == ExpireController(s1, submission.target, now);
    }
  }

  lemma PrepareFrame(s: State, now: int, principal: Principal, submission: Submission)
    ensures var t := Prepare(s, now, principal, submission).0;
            t.issued == s.issued && t.flights == s.flights && t.confirming == s.confirming
  {
    var (s1, authorized) := Authorize(s, now, principal, submission.target, ActorExecute);
    assert s1 == s.(operations := s1.operations, dirty := s1.dirty);
    var s2 := ExpireController(s1, submission.target, now);
    assert s2 == s1.(controllers := s2.controllers, operations := s2.operations, dirty := s2.dirty);
    var t := Prepare(s, now, principal, submission).0;
    if authorized.Err? || authorized.value.epoch != submission.action.expectedEpoch
       || !RecentObservationGap(authorized.value.observationSeq, submission.action.observationSeq)
    {
      assert t == s1;
    } else {
      assert t == s2;
    }
  }

  // ---------------------------------------------------------------- idempotency

  ghost predicate FreeAt(s: State, key: Key, id: Id) {
    Where(s, id).Some? ==> Where(s, id).value.key != key
  }

  /** No record anywhere in memory carries the key. */
  ghost predicate KeyFree(s: State, key: Key) {
    forall id {:trigger FreeAt(s, key, id)} :: FreeAt(s, key, id)
  }

  lemma KeyFreeKept(s: State, s': State, key: Key)
    requires KeyFree(s, key) && MemoryEvolves(s, s') && Issued(s') && s'.issued == s.issued
    ensures KeyFree(s', key)
  {
    forall id ensures FreeAt(s', key, id) { assert FreeAt(s, key, id) && EvolvesAt(s, s', id); }
  }

  lemma KeyFreeMeans(s: State, key: Key)
    requires KeyFree(s, key) && Pool(s)
    ensures key !in s.requests && ControlAdmission.UnarchivedKey(s, key)
  {
    assert key !in s.requests by {
      assert ResolvedAt(s.operations, s.requests, key);
      assert key in s.requests ==> FreeAt(s, key, s.requests[key]);
    }
    forall id ensures !ArchivedAt(s, key, id) {
      assert FreeAt(s, key, id) && ApartAt(s.operations, Archived(s), id, id);
    }
  }

  lemma MissingMeansFree(s: State, key: Key)
    requires Core(s) && key !in s.requests
    requires s.config.store == Sqlite ==> !exists id :: ArchivedAt(s, key, id)
    ensures KeyFree(s, key)
  {
    forall id ensures FreeAt(s, key, id) {
      assert IndexedAt(s.operations, s.requests, id);
      assert s.config.store == Sqlite ==> !ArchivedAt(s, key, id);
    }
  }

  lemma RefreshHostStep(s0: State, s: State, now: int, hostId: Id)
    requires Good(s0, s, {})
    ensures Good(s0, RefreshHost(s, now, hostId), {})
  {
    SweepStep(s0, s, {}, HostExpired(hostId), now);
    assert RefreshHost(s, now, hostId) == s || RefreshHost(s, now, hostId) == SweepState(s, HostExpired(hostId), now);
  }

  lemma RefreshStep(s0: State, s: State, now: int, id: Id)
    requires Good(s0, s, {}) && id in s.operations
    ensures Good(s0, Refresh(s, now, id), {})
  {
    var o := s.operations[id];
    if Hit(TtlExpired(s.config.ttl), now, o) {
      assert RecordAt(s.operations, id) by { assert Reach(s0, s, {}, {}); }
      SweptKeeps(TtlExpired(s.config.ttl), now, o);
      SetStep(s0, s, {}, id, Swept(TtlExpired(s.config.ttl), now, o));
    } else {
      RefreshHostStep(s0, s, now, o.request.target.hostId);
    }
  }

  lemma HotShown(s0: State, s: State, id: Id)
    requires Good(s0, s, {}) && id in s.operations
    ensures Shown(s, Viewed(s.operations[id]))
  {
    assert RecordAt(s.operations, id) by { assert Reach(s0, s, {}, {}); }
  }

  /** Reading an archived record, whole or restored, shows that record. */
  lemma ArchivedRead(s: State, id: Id)
    requires Core(s) && ArchivedOperation(s, id).Some?
    ensures Shown(s, Viewed(ArchivedOperation(s, id).value))
    ensures ArchivedOperation(s, id).value.request.operationId == id
    ensures Where(s, id) == Some(Archived(s)[id]) && SameResult(Archived(s)[id], ArchivedOperation(s, id).value)
  {
    assert RecordAt(Archived(s), id) && RetiredAt(Archived(s), id) && ApartAt(s.operations, Archived(s), id, id);
    if id !in s.staged {
      OperationRestore.RestoredIsQuiet(s.durable.archive[id]);
      OperationRestore.SettledRoundTrip(s.durable.archive[id]);
    }
  }

  lemma StillShown(s: State, s': State, o: Operation)
    requires Shown(s, Viewed(o)) && MemoryEvolves(s, s') && s.config.store == Sqlite
    ensures Shown(s', Viewed(o))
  {
    assert EvolvesAt(s, s', o.request.operationId);
  }

  /** An archived record found before a write is still the known one after it. */
  lemma ArchivedShown(s0: State, s: State, now: int, id: Id, io: Io)
    requires Good(s0, s, {}) && s.config.store == Sqlite && ArchivedOperation(s, id).Some?
    ensures Shown(Persist(s, now, io).0, Viewed(ArchivedOperation(s, id).value))
  {
    var t := Persist(s, now, io).0;
    assert Inv(s) by { assert Reach(s0, s, {}, {}); }
    ArchivedRead(s, id);
    assert MemoryEvolves(s, t) by {
      Begin(s, {});
      PersistStep(s, s, {}, now, io);
      assert Reach(s, t, {}, {});
    }
    StillShown(s, t, ArchivedOperation(s, id).value);
  }

  /** What resolving a key promises: good state, a known record, or proof that the key is free. */
  ghost predicate Resolved(s0: State, s: State, key: Key, done: (State, Known)) {
    && Good(s0, done.0, {})
    && (done.1.Hot? ==> Shown(done.0, Viewed(done.1.operation)))
    && (done.1.Missing? ==> done.0 == s && KeyFree(s, key))
  }

  lemma HotRequestStep(s0: State, s: State, now: int, key: Key, id: Id, fingerprint: Fingerprint, io: Io)
    requires Good(s0, s, {})
    ensures Resolved(s0, s, key, HotRequest(s, now, id, fingerprint, io))
  {
    var t := HotRequest(s, now, id, fingerprint, io).0;
    if id in s.operations && FingerprintOf(s.operations[id].request) == fingerprint {
      RefreshStep(s0, s, now, id);
      PersistStep(s0, Refresh(s, now, id), {}, now, io);
      assert t == Persist(Refresh(s, now, id), now, io).0;
      if id in t.operations { HotShown(s0, t, id); }
    } else {
      assert t == s;
    }
  }

  lemma ArchivedRequestStep(s0: State, s: State, now: int, key: Key, id: Id, fingerprint: Fingerprint, io: Io)
    requires Good(s0, s, {}) && s.config.store == Sqlite
    ensures Resolved(s0, s, key, ArchivedRequest(s, now, id, fingerprint, io))
  {
    var t := ArchivedRequest(s, now, id, fingerprint, io).0;
    var found := ArchivedOperation(s, id);
    if found.Some? && FingerprintOf(found.value.request) == fingerprint {
      PersistStep(s0, s, {}, now, io);
      assert t == Persist(s, now, io).0;
      ArchivedShown(s0, s, now, id, io);
    } else {
      assert t == s;
    }
  }

  lemma IdempotentStep(s0: State, s: State, now: int, key: Key, fingerprint: Fingerprint, io: Io)
    requires Good(s0, s, {})
    ensures Resolved(s0, s, key, Idempotent(s, now, key, fingerprint, io))
  {
    var done := Idempotent(s, now, key, fingerprint, io);
    if key in s.requests {
      HotRequestStep(s0, s, now, key, s.requests[key], fingerprint, io);
    } else if s.config.store == Sqlite && exists id :: ArchivedAt(s, key, id) {
      var id :| ArchivedAt(s, key, id) && done == ArchivedRequest(s, now, id, fingerprint, io);
      ArchivedRequestStep(s0, s, now, key, id, fingerprint, io);
    } else {
      assert Core(s) by { assert Reach(s0, s, {}, {}); }
      MissingMeansFree(s, key);
    }
  }

  // ---------------------------------------------------------------- pruning and retirement

  lemma {:induction false} DropStep(s0: State, s: State, now: int, order: seq<Id>)
    requires Good(s0, s, {})
    ensures Good(s0, Drop(s, now, order), {})
    decreases |order|
  {
    if order != [] {
      if order[0] in s.operations && Prunable(s.config, s.operations[order[0]], now) {
        RemoveStep(s0, s, order[0], Some(now));
        DropStep(s0, Remove(s, order[0], Some(now)), now, order[1..]);
      } else {
        DropStep(s0, s, now, order[1..]);
      }
    }
  }

  lemma PruneStep(s0: State, s: State, now: int, order: seq<Id>)
    requires Good(s0, s, {})
    ensures Good(s0, Prune(s, now, order), {})
  {
    SweepStep(s0, s, {}, TtlExpired(s.config.ttl), now);
    DropStep(s0, SweepState(s, TtlExpired(s.config.ttl), now), now, order);
  }

  lemma RetireStep(s0: State, s: State, retire: Option<Id>)
    requires Good(s0, s, {})
    ensures Good(s0, Retire(s, retire), {})
  {
    if Retire(s, retire) != s { RemoveStep(s0, s, retire.value, None); }
  }

  // ---------------------------------------------------------------- admitting a submission

  function Roomy(s: State, now: int, b: Bound, io: Io): (State, bool) {
    Persist(Retire(Prune(s, now, b.order), b.retire), now, io)
  }

  lemma RoomStep(s0: State, s: State, now: int, b: Bound, io: Io)
    requires Good(s0, s, {})
    ensures Good(s0, Roomy(s, now, b, io).0, {})
  {
    PruneStep(s0, s, now, b.order);
    RetireStep(s0, Prune(s, now, b.order), b.retire);
    PersistStep(s0, Retire(Prune(s, now, b.order), b.retire), {}, now, io);
  }

  /** What making room leaves alone: identifiers, publications, stops and every live lease. */
  ghost predicate SameAuthority(s: State, t: State, now: int) {
    && t.issued == s.issued && t.hosts == s.hosts && t.stops == s.stops && t.config == s.config
    && t.loose == s.loose && t.defied == s.defied && t.revived == s.revived
    && (t.controllers == s.controllers || t.controllers == s.controllers - Expired(s.controllers, now))
  }

  lemma RoomFrame(s: State, now: int, b: Bound, io: Io)
    ensures SameAuthority(s, Roomy(s, now, b, io).0, now)
  {
    PruneFrame(s, now, b.order);
    RetireFrame(Prune(s, now, b.order), b.retire);
    PersistFrame(Retire(Prune(s, now, b.order), b.retire), now, io);
  }

  lemma PruneFrame(s: State, now: int, order: seq<Id>)
    ensures var t := Prune(s, now, order);
            t == s.(operations := t.operations, requests := t.requests, staged := t.staged, dirty := t.dirty)
  {
  }

  lemma RetireFrame(s: State, retire: Option<Id>)
    ensures var t := Retire(s, retire);
            t == s.(operations := t.operations, requests := t.requests, staged := t.staged, dirty := t.dirty)
  {
  }

  lemma PersistFrame(s: State, now: int, io: Io)
    ensures SameAuthority(s, Persist(s, now, io).0, now)
  {
    var t := Persist(s, now, io).0;
    if !s.dirty || s.config.store == Memory {
      assert t == s.(dirty := false);
    } else {
      var expired := ExpireControllers(s, now);
      assert t == expired.(durable := t.durable, staged := t.staged, dirty := t.dirty);
    }
  }

  /** A submission that passed its checks at `s` and whose Host binding is consistent with them. */
  ghost predicate Submittable(
    s: State, now: int, flight: Flight, current: Snapshot, binding: HostBinding, decision: Decision, id: Id)
  {
    && PreparedFor(s, now, flight.principal, flight.submission, current)
    && KeyFree(s, BeginKey(flight.principal, flight.submission))
    && flight.submission.action.actorId == flight.submission.target.actorId
    && BindingOk(binding, flight)
    && (current.stopped ==> decision.result == Deny)
    && id !in s.issued
  }

  lemma NewRecordOk(
    s: State, now: int, flight: Flight, current: Snapshot, binding: HostBinding, decision: Decision, id: Id)
    requires Submittable(s, now, flight, current, binding, decision, id) && flight.submission.parent != Some(id)
    ensures RecordOk(NewOperation(id, flight, current, binding, decision, now))
    ensures NewOperation(id, flight, current, binding, decision, now).key == BeginKey(flight.principal, flight.submission)
  {
  }

  lemma NewIsFenced(
    s: State, t: State, now: int, flight: Flight, current: Snapshot, binding: HostBinding, decision: Decision, id: Id)
    requires Submittable(s, now, flight, current, binding, decision, id) && SameAuthority(s, t, now)
    requires ControllerAt(s, flight.submission.target)
    ensures var o := NewOperation(id, flight, current, binding, decision, now);
            && o.request.binding.controllerLeaseId in t.issued && BoundAs(t.controllers, o.request)
            && (InForce(o) ==> o.ack.None? && Fenced(t, o.request))
  {
    assert flight.submission.target !in Expired(s.controllers, now);
  }

  lemma NewHasOwner(
    s: State, t: State, now: int, flight: Flight, current: Snapshot, binding: HostBinding, decision: Decision, id: Id)
    requires Submittable(s, now, flight, current, binding, decision, id) && MemoryEvolves(s, t)
    requires flight.submission.parent.Some? && flight.submission.parent.value in t.operations
    ensures SameOwner(t.operations[flight.submission.parent.value].request,
                      NewOperation(id, flight, current, binding, decision, now).request)
  {
    assert EvolvesAt(s, t, flight.submission.parent.value);
  }

  lemma NewIsAdmissible(
    s0: State, s: State, t: State, now: int, flight: Flight, current: Snapshot, binding: HostBinding, decision: Decision, id: Id)
    requires Submittable(s, now, flight, current, binding, decision, id)
    requires Good(s0, s, {}) && Good(s, t, {}) && SameAuthority(s, t, now)
    requires ParentHasRoom(t, flight.submission.parent) && |t.operations| < t.config.maxOperations
    ensures ControlAdmission.Admissible(t, NewOperation(id, flight, current, binding, decision, now))
  {
    var key := BeginKey(flight.principal, flight.submission);
    assert MemoryEvolves(s, t) && Pool(t) && Issued(t) by { assert Reach(s, t, {}, {}); }
    assert key !in t.requests && ControlAdmission.UnarchivedKey(t, key) by { KeyFreeKept(s, t, key); KeyFreeMeans(t, key); }
    NewRecordOk(s, now, flight, current, binding, decision, id);
    assert ControllerAt(s, flight.submission.target) by { assert Reach(s0, s, {}, {}); }
    NewIsFenced(s, t, now, flight, current, binding, decision, id);
    if flight.submission.parent.Some? { NewHasOwner(s, t, now, flight, current, binding, decision, id); }
  }

  lemma GoodHere(s0: State, s: State)
    requires Good(s0, s, {})
    ensures Good(s, s, {})
  {
    assert Reach(s0, s, {}, {});
    Begin(s, {});
  }

  lemma StoredIsShown(s0: State, s: State, o: Operation, now: int, io1: Io, io2: Io)
    requires Good(s0, s, {}) && ControlAdmission.Admissible(s, o)
    ensures Shown(StoreOperation(s, o, now, io1, io2).0, StoreOperation(s, o, now, io1, io2).1)
  {
    var (t, reply) := StoreOperation(s, o, now, io1, io2);
    if reply.Viewed? {
      assert Reach(s0, s, {}, {});
      ControlAdmission.InsertStep(s0, s, o);
      PersistKeeps(Insert(s, o), now, io1);
      assert KeepsAt(Insert(s, o).operations, t.operations, o.request.operationId);
    }
  }

  lemma AdmitStep(
    s0: State, s: State, now: int, flight: Flight, current: Snapshot, binding: HostBinding, decision: Decision,
    b: Bound, io: SubmitIo)
    requires Good(s0, s, {}) && Submittable(s, now, flight, current, binding, decision, b.id)
    ensures SectionFrom(s0, Admit(s, now, flight, current, binding, decision, b, io))
  {
    var (s1, ok) := Roomy(s, now, b, io.prepare);
    var after := Admit(s, now, flight, current, binding, decision, b, io).0;
    RoomStep(s0, s, now, b, io.prepare);
    if !ok || |s1.operations| >= s1.config.maxOperations || !ParentHasRoom(s1, flight.submission.parent) {
      assert after == s1;
    } else {
      GoodHere(s0, s);
      RoomStep(s, s, now, b, io.prepare);
      RoomFrame(s, now, b, io.prepare);
      NewIsAdmissible(s0, s, s1, now, flight, current, binding, decision, b.id);
      var o := NewOperation(b.id, flight, current, binding, decision, now);
      ControlAdmission.StoreStep(s0, s1, o, now, io.store, io.undo);
      StoredIsShown(s0, s1, o, now, io.store, io.undo);
      assert after == StoreOperation(s1, o, now, io.store, io.undo).0;
    }
  }

  ghost predicate SectionFrom(s0: State, done: (State, Reply)) {
    Good(s0, done.0, {}) && Shown(done.0, done.1)
  }

  // ---------------------------------------------------------------- the two sections of a submission

  lemma BeginSubmitOk(s: State, now: int, principal: Principal, submission: Submission, io: Io)
    requires Good(s, s, {})
    ensures SectionOk(s, BeginSubmit(s, now, principal, submission, io), {})
  {
    var key := BeginKey(principal, submission);
    var fingerprint := Fingerprint(submission.action, submission.parent, principal);
    var after := BeginSubmit(s, now, principal, submission, io).0;
    if submission.action.actorId != submission.target.actorId {
      assert after == s;
    } else {
      IdempotentStep(s, s, now, key, fingerprint, io);
      var (s1, known) := Idempotent(s, now, key, fingerprint, io);
      if !known.Missing? || key in s1.flights {
        assert after == s1;
      } else {
        FlightStep(s, s1, now, principal, submission);
      }
    }
  }

  lemma FlightStep(s0: State, s: State, now: int, principal: Principal, submission: Submission)
    requires Good(s0, s, {}) && submission.action.actorId == submission.target.actorId
    ensures var (t, prepared) := Prepare(s, now, principal, submission);
            && Good(s0, t, {})
            && (prepared.Ok? ==>
                  Good(s0, t.(flights := t.flights[BeginKey(principal, submission) := Flight(principal, submission, prepared.value)]), {}))
  {
    var (t, prepared) := Prepare(s, now, principal, submission);
    PrepareStep(s0, s, now, principal, submission);
    if prepared.Ok? {
      var flights := t.flights[BeginKey(principal, submission) := Flight(principal, submission, prepared.value)];
      assert FlightsOk(flights) by {
        assert Reach(s0, t, {}, {});
        forall key ensures FlightAt(flights, key) { assert FlightAt(t.flights, key); }
      }
      UnchangedStep(s0, t, {}, t.(flights := flights));
    }
  }

  lemma FinishSubmitOk(s: State, now: int, key: Key, b: Bound, io: SubmitIo)
    requires Good(s, s, {})
    ensures SectionOk(s, FinishSubmit(s, now, key, b, io), {})
  {
    if key in s.flights && b.id !in s.issued && b.binding.Ok? && BindingOk(b.binding.value, s.flights[key])
       && b.decision.Some? && !(s.flights[key].snapshot.stopped && b.decision.value.result != Deny) && !b.interrupted
    {
      RecheckStep(s, now, key, b.binding.value, b.decision.value, b, io);
    }
  }

  lemma RecheckStep(s: State, now: int, key: Key, binding: HostBinding, decision: Decision, b: Bound, io: SubmitIo)
    requires Good(s, s, {}) && key in s.flights && b.id !in s.issued && BindingOk(binding, s.flights[key])
    requires s.flights[key].snapshot.stopped ==> decision.result == Deny
    ensures SectionFrom(s, Recheck(s, now, key, s.flights[key], binding, decision, b, io))
  {
    var flight := s.flights[key];
    var (t, prepared) := Prepare(s, now, flight.principal, flight.submission);
    PrepareStep(s, s, now, flight.principal, flight.submission);
    PrepareFrame(s, now, flight.principal, flight.submission);
    if prepared.Ok? && SameSnapshot(flight.snapshot, prepared.value) {
      ResolveStep(s, t, now, key, flight, prepared.value, binding, decision, b, io);
    }
  }

  lemma ResolveStep(
    s0: State, s: State, now: int, key: Key, flight: Flight, current: Snapshot, binding: HostBinding,
    decision: Decision, b: Bound, io: SubmitIo)
    requires Good(s0, s, {}) && key in s.flights && s.flights[key] == flight
    requires PreparedFor(s, now, flight.principal, flight.submission, current)
    requires b.id !in s.issued && BindingOk(binding, flight) && (current.stopped ==> decision.result == Deny)
    ensures SectionFrom(s0, ResolveOrAdmit(s, now, key, flight, current, binding, decision, b, io))
  {
    var fingerprint := Fingerprint(flight.submission.action, flight.submission.parent, flight.principal);
    IdempotentStep(s0, s, now, key, fingerprint, io.known);
    if Idempotent(s, now, key, fingerprint, io.known).1.Missing? {
      assert FlightAt(s.flights, key) by { assert Reach(s0, s, {}, {}); }
      AdmitStep(s0, s, now, flight, current, binding, decision, b, io);
    }
  }

  lemma EndFlightOk(s: State, key: Key)
    requires Good(s, s, {})
    ensures SectionOk(s, EndFlight(s, key), {})
  {
    var flights := s.flights - {key};
    assert FlightsOk(flights) by {
      assert Reach(s, s, {}, {});
      forall other ensures FlightAt(flights, other) { assert FlightAt(s.flights, other); }
    }
    UnchangedStep(s, s, {}, s.(flights := flights));
  }

  // ---------------------------------------------------------------- the sections of a confirmation

  lemma StaleStep(s0: State, s: State, now: int, id: Id, error: Error, io: Io)
    requires Good(s0, s, {}) && id in s.operations && Undispatched(s.operations[id])
    ensures SectionFrom(s0, StaleAndPersist(s, now, id, error, io))
  {
    assert RecordAt(s.operations, id) by { assert Reach(s0, s, {}, {}); }
    StaledKeeps(s.operations[id], now);
    SetStep(s0, s, {}, id, Staled(s.operations[id], now));
    PersistStep(s0, SetOperation(s, id, Staled(s.operations[id], now)), {}, now, io);
  }

  ghost predicate UndispatchedAt(s: State, id: Id) {
    id in s.operations && RecordOk(s.operations[id]) && Undispatched(s.operations[id])
  }

  lemma ExpireUndispatched(s: State, keys: set<ActorKey>, now: int, id: Id)
    requires UndispatchedAt(s, id)
    ensures UndispatchedAt(EndControllers(s, keys, now), id)
    ensures keys == {} ==> EndControllers(s, keys, now).operations[id] == s.operations[id]
  {
    var o := s.operations[id];
    var swept := Swept(LeaseEnded(o.request.binding.controllerLeaseId), now, o);
    SweptUndispatched(LeaseEnded(o.request.binding.controllerLeaseId), now, o);
    var o' := EndControllers(s, keys, now).operations[id];
    if o.request.binding.controllerLeaseId in LeaseIds(s.controllers, keys) {
      assert o' == swept;
    } else {
      assert o' == o;
    }
  }

  lemma AuthorizeUndispatched(s: State, now: int, principal: Principal, key: ActorKey, scope: Scope, id: Id)
    requires UndispatchedAt(s, id)
    ensures UndispatchedAt(Authorize(s, now, principal, key, scope).0, id)
    ensures Authorize(s, now, principal, key, scope).1.Ok? ==> Authorize(s, now, principal, key, scope).0 == s
  {
    SweptUndispatched(HostExpired(key.hostId), now, s.operations[id]);
    var t := Authorize(s, now, principal, key, scope).0;
    if Published(s, key) && s.hosts[key.hostId].expiresAt <= now {
      assert t.operations[id] == Swept(HostExpired(key.hostId), now, s.operations[id]);
    } else {
      assert t == s;
    }
  }

  /** Re-checking a waiting record's target leaves the record waiting, or ends it; a passed check leaves it alone. */
  lemma PrepareWaiting(s: State, now: int, principal: Principal, submission: Submission, id: Id)
    requires UndispatchedAt(s, id)
    ensures var (t, prepared) := Prepare(s, now, principal, submission);
            UndispatchedAt(t, id) && (prepared.Ok? ==> t.operations[id] == s.operations[id])
  {
    var (t, prepared) := Prepare(s, now, principal, submission);
    var (s1, authorized) := Authorize(s, now, principal, submission.target, ActorExecute);
    AuthorizeUndispatched(s, now, principal, submission.target, ActorExecute, id);
    var expired := Expired(s1.controllers, now) * {submission.target};
    ExpireUndispatched(s1, expired, now, id);
    assert t == s1 || t == EndControllers(s1, expired, now);
    if prepared.Ok? {
      assert t == EndControllers(s1, expired, now) && submission.target in t.controllers;
      assert expired == {};
    }
  }

  lemma BeginConfirmOk(s: State, now: int, approver: Principal, id: Id, io: Io)
    requires Good(s, s, {})
    ensures SectionOk(s, BeginConfirm(s, now, approver, id, io), {})
  {
    if id !in s.operations { return; }
    var o := s.operations[id];
    HotShown(s, s, id);
    if o.status != AwaitingConfirmation || id in s.confirming { return; }
    var (s1, authorized) := Authorize(s, now, approver, o.request.target, ActorControl);
    AuthorizeStep(s, s, now, approver, o.request.target, ActorControl);
    if authorized.Ok? {
      assert s1 == s;
      WaitStep(s, now, id, io);
    }
  }

  lemma WaitStep(s: State, now: int, id: Id, io: Io)
    requires Good(s, s, {}) && UndispatchedAt(s, id)
    ensures SectionFrom(s, AwaitApproval(s, now, id, io))
  {
    var o := s.operations[id];
    var (t, prepared) := Prepare(s, now, o.request.principal, SubmissionOf(o.request));
    PrepareStep(s, s, now, o.request.principal, SubmissionOf(o.request));
    PrepareWaiting(s, now, o.request.principal, SubmissionOf(o.request), id);
    if prepared.Err? {
      StaleStep(s, t, now, id, prepared.error, io);
    } else if prepared.value.stopped || prepared.value.controller.leaseId != o.request.binding.controllerLeaseId {
      StaleStep(s, t, now, id, StaleValue, io);
    } else {
      assert FlightsOk(t.flights) by { assert Reach(s, t, {}, {}); }
      UnchangedStep(s, t, {}, t.(confirming := t.confirming[id := o.request]));
    }
  }

  /** Writing one changed record and showing it. */
  lemma SavedIsShown(s0: State, s: State, now: int, id: Id, o: Operation, io: Io)
    requires Good(s0, s, {}) && id in s.operations && Keeps(s.operations[id], o)
    requires ReconciliationPending(s.operations[id]) ==> ReconciliationPending(o)
    ensures Good(s0, Persist(SetOperation(s, id, o), now, io).0, {})
    ensures Shown(Persist(SetOperation(s, id, o), now, io).0, Viewed(o))
    ensures id in Persist(SetOperation(s, id, o), now, io).0.operations
            && Keeps(o, Persist(SetOperation(s, id, o), now, io).0.operations[id])
  {
    var set', t := SetOperation(s, id, o), Persist(SetOperation(s, id, o), now, io).0;
    SetStep(s0, s, {}, id, o);
    PersistStep(s0, set', {}, now, io);
    assert Records(set'.operations) && RecordAt(set'.operations, id) by { assert Reach(s0, set', {}, {}); }
    PersistKeeps(set', now, io);
    assert KeepsAt(set'.operations, t.operations, id);
  }

  lemma RecordDecisionStep(s: State, now: int, id: Id, decision: Decision, io: Io)
    requires Good(s, s, {}) && decision.result != Allow
    ensures SectionOk(s, RecordDecision(s, now, id, decision, io), {})
  {
    if id in s.operations {
      HotShown(s, s, id);
      if s.operations[id].status == AwaitingConfirmation {
        assert RecordAt(s.operations, id) by { assert Reach(s, s, {}, {}); }
        PendingDecisionKeeps(s.operations[id], decision, now);
        SavedIsShown(s, s, now, id, DecisionRecorded(s.operations[id], decision, now), io);
      }
    }
  }

  /** A confirmed record is queued; if that cannot be written it is ended instead. */
  lemma QueueStep(s0: State, s: State, now: int, id: Id, decision: Decision, io1: Io, io2: Io)
    requires Good(s0, s, {}) && id in s.operations && s.operations[id].status == AwaitingConfirmation
    requires decision.result == Allow
    ensures SectionFrom(s0, QueueConfirmed(s, now, id, decision, io1, io2))
  {
    var o := Confirmed(s.operations[id], decision, now);
    assert RecordAt(s.operations, id) by { assert Reach(s0, s, {}, {}); }
    PendingDecisionKeeps(s.operations[id], decision, now);
    SavedIsShown(s0, s, now, id, o, io1);
    var (s1, ok) := Persist(SetOperation(s, id, o), now, io1);
    if !ok {
      QueueFailed(s0, s, now, id, o, io1, io2);
    }
  }

  lemma QueueFailed(s0: State, s: State, now: int, id: Id, o: Operation, io1: Io, io2: Io)
    requires Good(s0, s, {}) && id in s.operations && Keeps(s.operations[id], o) && Undispatched(o)
    requires s.operations[id].status == AwaitingConfirmation
    ensures var s1 := Persist(SetOperation(s, id, o), now, io1).0;
            id in s1.operations
            && Good(s0, Persist(SetOperation(s1, id, Staled(s1.operations[id], now)), now, io2).0, {})
  {
    var s1 := Persist(SetOperation(s, id, o), now, io1).0;
    SavedIsShown(s0, s, now, id, o, io1);
    PersistedQueued(SetOperation(s, id, o), now, id, io1);
    StaledKeeps(s1.operations[id], now);
    SetStep(s0, s1, {}, id, Staled(s1.operations[id], now));
    PersistStep(s0, SetOperation(s1, id, Staled(s1.operations[id], now)), {}, now, io2);
  }

  /** A write may end a queued record with its lease, and do nothing else to it. */
  lemma PersistedQueued(s: State, now: int, id: Id, io: Io)
    requires UndispatchedAt(s, id)
    ensures UndispatchedAt(Persist(s, now, io).0, id)
  {
    var t := Persist(s, now, io).0;
    if !s.dirty || s.config.store == Memory {
      assert t.operations == s.operations;
    } else {
      ExpireUndispatched(s, Expired(s.controllers, now), now, id);
      assert t.operations == ExpireControllers(s, now).operations;
    }
  }

  lemma AllowStep(
    s: State, now: int, id: Id, request: ControlRequest, epoch: Epoch, seen: nat, decision: Decision, io1: Io, io2: Io)
    requires Good(s, s, {}) && decision.result == Allow
    ensures SectionOk(s, AllowConfirmed(s, now, id, request, epoch, seen, decision, io1, io2), {})
  {
    if id !in s.operations { return; }
    HotShown(s, s, id);
    if s.operations[id].status != AwaitingConfirmation { return; }
    assert RecordAt(s.operations, id) by { assert Reach(s, s, {}, {}); }
    var (s1, prepared) := Prepare(s, now, request.principal, SubmissionOf(request));
    PrepareStep(s, s, now, request.principal, SubmissionOf(request));
    PrepareWaiting(s, now, request.principal, SubmissionOf(request), id);
    if prepared.Err? {
      StaleStep(s, s1, now, id, prepared.error, io1);
    } else if prepared.value.stopped || prepared.value.actor.epoch != epoch || prepared.value.actor.observationSeq != seen
              || prepared.value.controller.leaseId != s1.operations[id].request.binding.controllerLeaseId
    {
      StaleStep(s, s1, now, id, StaleValue, io1);
    } else {
      QueueStep(s, s1, now, id, decision, io1, io2);
    }
  }

  lemma FinishConfirmOk(s: State, now: int, id: Id, seen: Observed, io1: Io, io2: Io)
    requires Good(s, s, {})
    ensures SectionOk(s, FinishConfirm(s, now, id, seen, io1, io2), {})
  {
    if id !in s.confirming || seen.snapshot.Err? { return; }
    var request := s.confirming[id];
    if seen.snapshot.value.0 != request.bound.request.expectedEpoch || seen.snapshot.value.1 != request.bound.observationSeq {
      if id in s.operations && s.operations[id].status == AwaitingConfirmation {
        assert RecordAt(s.operations, id) by { assert Reach(s, s, {}, {}); }
        StaleStep(s, s, now, id, StaleValue, io1);
      }
    } else if seen.approved && seen.decision.Some? {
      if seen.decision.value.result != Allow {
        RecordDecisionStep(s, now, id, seen.decision.value, io1);
      } else {
        AllowStep(s, now, id, request, seen.snapshot.value.0, seen.snapshot.value.1, seen.decision.value, io1, io2);
      }
    }
  }

  lemma EndConfirmOk(s: State, id: Id)
    requires Good(s, s, {})
    ensures SectionOk(s, EndConfirm(s, id), {})
  {
    assert FlightsOk(s.flights) by { assert Reach(s, s, {}, {}); }
    UnchangedStep(s, s, {}, s.(confirming := s.confirming - {id}));
  }

  // ---------------------------------------------------------------- looking a submission up

  lemma FindActionOperationOk(s: State, now: int, principal: Principal, submission: Submission, io: Io)
    requires Good(s, s, {})
    ensures SectionOk(s, FindActionOperation(s, now, principal, submission, io), {})
  {
    IdempotentStep(s, s, now, BeginKey(principal, submission), Fingerprint(submission.action, submission.parent, principal), io);
  }
}
