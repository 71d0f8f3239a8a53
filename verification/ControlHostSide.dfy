/**
  The Host's side of the protocol (poll, acknowledgement, run, result), the
  clients' reads and cancellations, and what a poll may deliver.
 */
module ControlHostSide {
  import opened ControlTypes
  import opened OperationRecord
  import opened ControlPlane
  import opened ControlInvariants
  import opened ControlSteps
  import ControlSections
  import ControlSubmission

  // ---------------------------------------------------------------- polling

  /** The lease that authorises an unacknowledged delivery is live, current and not stopped. */
  ghost predicate Authorized(s: State, now: int, r: ControlRequest) {
    && r.target in s.controllers
    && s.controllers[r.target].leaseId == r.binding.controllerLeaseId
    && s.controllers[r.target].expiresAt > now
    && HasActor(s, r.target)
    && ActorAt(s, r.target).epoch == r.binding.epoch
    && ActorAt(s, r.target).authority.revision == r.binding.authorityRevision
    && !StopActive(s, r.target)
  }

  /** A poll's reply hands out only records of its Host, each authorised or already accepted by that Host. */
  ghost predicate DeliversFenced(s: State, now: int, hostId: Id, reply: Reply) {
    reply.Batch? ==> forall i :: 0 <= i < |reply.deliveries| ==> DeliveredFenced(s, now, hostId, reply.deliveries[i])
  }

  ghost predicate DeliveredFenced(s: State, now: int, hostId: Id, o: Operation) {
    && o.request.target.hostId == hostId && !o.cancel && o.attempts > 0
    && if o.ack.None? then o.status == Delivered && Authorized(s, now, o.request)
       else AcceptedByHost(o) && o.status == Accepted && RedeliveredHeld(s, now, o)
  }

  /**
    A record that its Host has accepted is handed out again under a lease that
    is held and live, for an actor that is not stopped, exactly unless its
    history says otherwise; and a published actor still is as it was bound.
   */
  ghost predicate RedeliveredHeld(s: State, now: int, o: Operation) {
    var id, r := o.request.operationId, o.request;
    && (LeaseHeld(s, r) && s.controllers[r.target].expiresAt > now <==> id !in s.loose)
    && (StopActive(s, r.target) <==> UnderStop(s, id, r.target))
    && (id !in s.loose && Published(s, r.target) ==>
          && HasActor(s, r.target) && ActorAt(s, r.target).epoch == r.binding.epoch
          && ActorAt(s, r.target).authority.revision == r.binding.authorityRevision)
  }

  ghost predicate LiveAt(s: State, now: int, key: ActorKey) {
    key in s.controllers ==> s.controllers[key].expiresAt > now
  }

  ghost predicate LeasesLive(s: State, now: int) {
    forall key {:trigger LiveAt(s, now, key)} :: LiveAt(s, now, key)
  }

  lemma ExpiryLeavesLive(s: State, now: int)
    ensures LeasesLive(ExpireControllers(s, now), now)
  {
    forall key ensures LiveAt(ExpireControllers(s, now), now, key) { }
  }

  lemma LiveKept(s: State, t: State, now: int)
    requires LeasesLive(s, now) && ControlSubmission.SameAuthority(s, t, now)
    ensures LeasesLive(t, now) && t.controllers == s.controllers
  {
    forall key ensures LiveAt(t, now, key) { assert LiveAt(s, now, key); }
    forall key | key in s.controllers ensures key !in Expired(s.controllers, now) { assert LiveAt(s, now, key); }
  }

  /** The state in which a poll collects its batch. */
  function Polled(s: State, now: int, order: seq<Id>, io: Io): (State, bool) {
    Persist(Prune(ExpireControllers(s, now), now, order), now, io)
  }

  lemma PolledStep(s: State, now: int, order: seq<Id>, io: Io)
    requires Good(s, s, {})
    ensures Good(s, Polled(s, now, order, io).0, {}) && LeasesLive(Polled(s, now, order, io).0, now)
  {
    var expired := ExpireControllers(s, now);
    EndStep(s, s, {}, Expired(s.controllers, now), now);
    ControlSubmission.PruneStep(s, expired, now, order);
    PersistStep(s, Prune(expired, now, order), {}, now, io);
    ExpiryLeavesLive(s, now);
    ControlSubmission.PruneFrame(expired, now, order);
    ControlSubmission.PersistFrame(Prune(expired, now, order), now, io);
    LiveKept(expired, Prune(expired, now, order), now);
    LiveKept(Prune(expired, now, order), Polled(s, now, order, io).0, now);
  }

  lemma CollectStep(s0: State, s: State, now: int, limit: nat, gateway: nat, queue: seq<Id>, io: Io)
    requires Good(s0, s, {}) && forall i :: 0 <= i < |queue| ==> queue[i] in s.operations
    ensures Good(s0, Collect(s, now, limit, gateway, queue, io).0, {})
  {
    var room := BatchRoom(limit, |Cancellations(s.operations, queue, limit)| + gateway);
    var picked := Picked(s.operations, queue, room);
    var delivered := s.(operations := DeliverOps(s.operations, picked, now));
    DeliverStep(s0, s, {}, picked, now);
    PersistStep(s0, delivered, {}, now, io);
    var after := Collect(s, now, limit, gateway, queue, io).0;
    assert after == s || after == Persist(delivered, now, io).0;
  }

  lemma PickedIsFenced(s: State, t: State, now: int, id: Id)
    requires Core(s) && LeasesLive(s, now) && id in s.operations && Deliverable(s.operations[id])
    requires t.hosts == s.hosts && t.stops == s.stops && t.controllers == s.controllers
    requires t.loose == s.loose && t.defied == s.defied
    ensures DeliveredFenced(t, now, s.operations[id].request.target.hostId, Redelivered(s.operations[id], now))
  {
    var r := s.operations[id].request;
    assert RecordAt(s.operations, id) && FencedAt(s, id) && HeldAt(s, id) && ControllerAt(s, r.target) && LiveAt(s, now, r.target);
    RedeliveredKeeps(s.operations[id], now);
  }

  lemma CollectDelivers(s0: State, s: State, now: int, hostId: Id, limit: nat, gateway: nat, queue: seq<Id>, io: Io)
    requires Good(s0, s, {}) && LeasesLive(s, now) && IsQueue(s.operations, hostId, queue)
    ensures DeliversFenced(Collect(s, now, limit, gateway, queue, io).0, now, hostId, Collect(s, now, limit, gateway, queue, io).1)
  {
    var cancellations := Cancellations(s.operations, queue, limit);
    var picked := Picked(s.operations, queue, BatchRoom(limit, |cancellations| + gateway));
    forall id | id in picked ensures s.operations[id].request.target.hostId == hostId {
      var i :| 0 <= i < |queue| && queue[i] == id;
    }
    DispatchDelivers(s0, s, now, hostId, cancellations, picked, gateway, io);
  }

  lemma DispatchDelivers(
    s0: State, s: State, now: int, hostId: Id, cancellations: seq<Id>, picked: seq<Id>, gateway: nat, io: Io)
    requires Good(s0, s, {}) && LeasesLive(s, now)
    requires forall id :: id in picked ==>
               id in s.operations && Deliverable(s.operations[id]) && s.operations[id].request.target.hostId == hostId
    ensures DeliversFenced(Dispatch(s, now, cancellations, picked, gateway, io).0, now, hostId,
                           Dispatch(s, now, cancellations, picked, gateway, io).1)
  {
    var (t, reply) := Dispatch(s, now, cancellations, picked, gateway, io);
    if reply.Batch? {
      var delivered := s.(operations := DeliverOps(s.operations, picked, now));
      ControlSubmission.PersistFrame(delivered, now, io);
      LiveKept(s, t, now);
      assert Core(s) by { assert Reach(s0, s, {}, {}); }
      forall i | 0 <= i < |reply.deliveries| ensures DeliveredFenced(t, now, hostId, reply.deliveries[i]) {
        assert picked[i] in picked && reply.deliveries[i] == Redelivered(s.operations[picked[i]], now);
        PickedIsFenced(s, t, now, picked[i]);
      }
    }
  }

  lemma PollHostOk(
    s: State, now: int, hostId: Id, leaseId: Id, limit: nat, gateway: nat, order: seq<Id>, queue: seq<Id>, io1: Io, io2: Io)
    requires Good(s, s, {})
    ensures ControlSections.SectionOk(s, PollHost(s, now, hostId, leaseId, limit, gateway, order, queue, io1, io2), {})
    ensures DeliversFenced(PollHost(s, now, hostId, leaseId, limit, gateway, order, queue, io1, io2).0, now, hostId,
                           PollHost(s, now, hostId, leaseId, limit, gateway, order, queue, io1, io2).1)
  {
    var (s1, ok) := Polled(s, now, order, io1);
    PolledStep(s, now, order, io1);
    if ok && IsQueue(s1.operations, hostId, queue) {
      CollectStep(s, s1, now, limit, gateway, queue, io2);
      CollectDelivers(s, s1, now, hostId, limit, gateway, queue, io2);
    }
  }

  /** A batch leaves work behind only when it is full, and keeps the queue's order. */
  lemma {:induction false} PickedIsComplete(ops: map<Id, Operation>, queue: seq<Id>, room: nat)
    requires forall i :: 0 <= i < |queue| ==> queue[i] in ops
    ensures |Picked(ops, queue, room)| < room ==> forall id :: id in queue && Deliverable(ops[id]) ==> id in Picked(ops, queue, room)
    ensures InOrder(queue, Picked(ops, queue, room))
    decreases |queue|
  {
    if queue != [] && room > 0 {
      assert queue == [queue[0]] + queue[1..];
      PickedIsComplete(ops, queue[1..], if Deliverable(ops[queue[0]]) then room - 1 else room);
    }
  }

  lemma {:induction false} CancellationsAreComplete(ops: map<Id, Operation>, queue: seq<Id>, room: nat)
    requires forall i :: 0 <= i < |queue| ==> queue[i] in ops
    ensures var picked := Cancellations(ops, queue, room);
            && (forall id :: id in picked ==> id in ops && ops[id].cancel && !Complete(ops[id]))
            && (|picked| < room ==> forall id :: id in queue && ops[id].cancel && !Complete(ops[id]) ==> id in picked)
            && InOrder(queue, picked)
    decreases |queue|
  {
    if queue != [] && room > 0 {
      assert queue == [queue[0]] + queue[1..];
      CancellationsAreComplete(ops, queue[1..], if ops[queue[0]].cancel && !Complete(ops[queue[0]]) then room - 1 else room);
    }
  }

  /** The picked identifiers appear in the queue in the same order. */
  predicate InOrder(queue: seq<Id>, picked: seq<Id>)
    decreases |queue|
  {
    picked == [] || (queue != [] && (if queue[0] == picked[0] then InOrder(queue[1..], picked[1..]) else InOrder(queue[1..], picked)))
  }

  // ---------------------------------------------------------------- reports

  /** Writing one changed record without showing it. */
  lemma SaveStep(s0: State, s: State, reported: set<Id>, now: int, id: Id, o: Operation, io: Io)
    requires Good(s0, s, reported) && id in s.operations && Keeps(s.operations[id], o)
    requires ReconciliationPending(s.operations[id]) ==> ReconciliationPending(o) || id in reported
    ensures Good(s0, SaveRecord(s, now, id, o, io).0, reported)
  {
    SetStep(s0, s, reported, id, o);
    PersistStep(s0, SetOperation(s, id, o), reported, now, io);
  }

  lemma AcknowledgeHostOk(s: State, now: int, hostId: Id, leaseId: Id, ack: Ack, io1: Io, io2: Io)
    requires Good(s, s, {})
    ensures ControlSections.SectionOk(s, AcknowledgeHost(s, now, hostId, leaseId, ack, io1, io2), {})
  {
    var after := AcknowledgeHost(s, now, hostId, leaseId, ack, io1, io2).0;
    var (s1, ok) := Persist(s, now, io1);
    PersistStep(s, s, {}, now, io1);
    var found := HostRecord(s1, hostId, ack.operationId);
    if ok && HoldsHostLease(s1, now, hostId, leaseId) && found.Ok? && found.value.ack.None?
       && found.value.status == Delivered && ack.operationId in s1.operations
    {
      assert RecordAt(s1.operations, ack.operationId) by { assert Reach(s, s1, {}, {}); }
      AcknowledgedKeeps(found.value, ack, now);
      SaveStep(s, s1, {}, now, ack.operationId, Acknowledged(found.value, ack, now), io2);
      assert after == SaveRecord(s1, now, ack.operationId, Acknowledged(found.value, ack, now), io2).0;
    } else {
      assert after == s1;
    }
  }

  lemma ReportRunOk(s: State, now: int, hostId: Id, leaseId: Id, run: ActionRun, io: Io)
    requires Good(s, s, {run.operationId})
    ensures ControlSections.SectionOk(s, ReportRun(s, now, hostId, leaseId, run, io), {run.operationId})
  {
    var (t, ok) := Persist(s, now, io);
    PersistStep(s, s, {run.operationId}, now, io);
    var found := HostRecord(t, hostId, run.operationId);
    var after := ReportRun(s, now, hostId, leaseId, run, io).0;
    if !ok || !HoldsHostLease(t, now, hostId, leaseId) || found.Err? {
      assert after == t;
    } else {
      RecordRunStep(s, t, now, found.value, run);
      assert after == RecordRun(t, now, found.value, run).0;
    }
  }

  lemma RecordRunStep(s0: State, s: State, now: int, o: Operation, run: ActionRun)
    requires Good(s0, s, {run.operationId})
    requires run.operationId in s.operations ==> s.operations[run.operationId] == o
    ensures Good(s0, RecordRun(s, now, o, run).0, {run.operationId})
  {
    if CheckRun(o, run) == Ok(true) && run.operationId in s.operations { RunStep(s0, s, now, o, run); }
  }

  lemma RunStep(s0: State, s: State, now: int, o: Operation, run: ActionRun)
    requires Good(s0, s, {run.operationId}) && run.operationId in s.operations && s.operations[run.operationId] == o
    requires CheckRun(o, run) == Ok(true)
    ensures Good(s0, WithRun(s, now, o, run), {run.operationId})
  {
    var id, o' := run.operationId, RunReported(o, run, now);
    assert RecordAt(s.operations, id) && FlightsOk(s.flights) by { assert Reach(s0, s, {}, {id}); }
    RunReportedKeeps(o, run, now);
    if Revives(o, o') {
      RunRevives(o, run, now);
      ReviveStep(s0, s, id, o');
    } else {
      SetStep(s0, s, {id}, id, o');
      UnchangedStep(s0, SetOperation(s, id, o'), {id}, s.(operations := s.operations[id := o']));
    }
  }

  // ---------------------------------------------------------------- a record put back to work

  /** A record of unknown outcome changes into one that may be in force; its history notes its lease and stop. */
  ghost predicate Revival(s: State, id: Id, o': Operation) {
    && id in s.operations && ReconciliationPending(s.operations[id])
    && SameShape(s.operations[id], o') && RecordOk(o') && o'.run.Some? && !LiveUnacked(o')
    && (NeedsReservation(o') ==> !o'.reserved)
  }

  function Revived(s: State, id: Id, o': Operation): State {
    NoteRevival(s.(operations := s.operations[id := o']), id, o'.request)
  }

  lemma RevivedGuards(s: State, id: Id, o': Operation)
    requires Guards(s) && Revival(s, id, o')
    ensures Guards(Revived(s, id, o'))
  {
    var s' := Revived(s, id, o');
    forall key ensures ControllerAt(s', key) { assert ControllerAt(s, key); }
    forall other ensures FencedAt(s', other) { assert FencedAt(s, other); }
    forall other ensures HeldAt(s', other) { assert HeldAt(s, other); }
  }

  lemma RevivedPool(s: State, id: Id, o': Operation)
    requires Pool(s) && Revival(s, id, o')
    ensures Pool(Revived(s, id, o'))
  {
    var s' := Revived(s, id, o');
    forall other ensures RecordAt(s'.operations, other) && ShapeAt(s.operations, s'.operations, other) {
      assert RecordAt(s.operations, other) && RecordAt(s.operations, id);
    }
    PoolKept(s, s');
  }

  lemma RevivedEvolves(s: State, id: Id, o': Operation)
    requires Revival(s, id, o')
    ensures MemoryEvolves(s, Revived(s, id, o')) && KeepsUnknown(s.operations, Revived(s, id, o').operations, {id})
    ensures KeepsHistory(s, Revived(s, id, o'), {id})
  {
    var s' := Revived(s, id, o');
    forall other ensures EvolvesAt(s, s', other) { }
    forall other ensures UnknownAt(s.operations, s'.operations, {id}, other) { }
  }

  lemma ReviveStep(s0: State, s: State, id: Id, o': Operation)
    requires Good(s0, s, {id}) && Revival(s, id, o')
    ensures Good(s0, Revived(s, id, o'), {id})
  {
    assert Reach(s0, s, {}, {id});
    RevivedGuards(s, id, o');
    RevivedPool(s, id, o');
    RevivedEvolves(s, id, o');
    FrameKept(s, Revived(s, id, o'));
    Onward(s0, s, Revived(s, id, o'), {}, {id});
    assert Reach(s0, Revived(s, id, o'), {}, {id});
  }

  lemma ReportResultOk(
    s: State, now: int, hostId: Id, leaseId: Id, outcome: ActionOutcome, output: Option<Id>, io1: Io, io2: Io)
    requires Good(s, s, {outcome.operationId})
    ensures ControlSections.SectionOk(s, ReportResult(s, now, hostId, leaseId, outcome, output, io1, io2), {outcome.operationId})
  {
    if TerminalRun(outcome.status) {
      var (t, ok) := Persist(s, now, io1);
      PersistStep(s, s, {outcome.operationId}, now, io1);
      var found := HostRecord(t, hostId, outcome.operationId);
      var after := ReportResult(s, now, hostId, leaseId, outcome, output, io1, io2).0;
      if !ok || !HoldsHostLease(t, now, hostId, leaseId) || found.Err? {
        assert after == t;
      } else {
        ResultStep(s, t, now, found.value, outcome, output, io2);
        assert after == RecordResult(t, now, found.value, outcome, output, io2).0;
      }
    }
  }

  lemma ResultStep(s0: State, s: State, now: int, o: Operation, outcome: ActionOutcome, output: Option<Id>, io: Io)
    requires Good(s0, s, {outcome.operationId}) && TerminalRun(outcome.status)
    requires outcome.operationId in s.operations ==> s.operations[outcome.operationId] == o
    ensures Good(s0, RecordResult(s, now, o, outcome, output, io).0, {outcome.operationId})
  {
    var id := outcome.operationId;
    var checked := CheckResult(o, outcome, output);
    if checked.Err? || id !in s.operations { return; }
    assert RecordAt(s.operations, id) by { assert Reach(s0, s, {}, {id}); }
    if checked.value {
      ResultReportedKeeps(o, outcome, output, s.config.sinks, now);
      SaveStep(s0, s, {id}, now, id, ResultReported(o, outcome, output, s.config.sinks, now), io);
    } else {
      OutcomeQueuedKeeps(o, s.config.sinks);
      SaveStep(s0, s, {id}, now, id, OutcomeQueued(o, s.config.sinks), io);
    }
  }

  // ---------------------------------------------------------------- clients

  lemma RefreshFoundStep(s0: State, s: State, now: int, id: Id)
    requires Good(s0, s, {})
    ensures Good(s0, RefreshFound(s, now, id), {})
  {
    if id in s.operations { ControlSubmission.RefreshStep(s0, s, now, id); }
    else if LookupOperation(s, id).Some? {
      ControlSubmission.RefreshHostStep(s0, s, now, LookupOperation(s, id).value.request.target.hostId);
    }
  }

  lemma LookupShown(s0: State, s: State, id: Id)
    requires Good(s0, s, {}) && LookupOperation(s, id).Some?
    ensures ControlSections.Shown(s, Viewed(LookupOperation(s, id).value))
  {
    if id in s.operations { ControlSubmission.HotShown(s0, s, id); }
    else {
      assert Core(s) by { assert Reach(s0, s, {}, {}); }
      ControlSubmission.ArchivedRead(s, id);
    }
  }

  lemma ReadOperationOk(s: State, now: int, principal: Principal, id: Id, io: Io)
    requires Good(s, s, {})
    ensures ControlSections.SectionOk(s, ReadOperation(s, now, principal, id, io), {})
  {
    RefreshFoundStep(s, s, now, id);
    PersistStep(s, RefreshFound(s, now, id), {}, now, io);
    var (s1, ok) := Persist(RefreshFound(s, now, id), now, io);
    if LookupOperation(s1, id).Some? { LookupShown(s, s1, id); }
    var after := ReadOperation(s, now, principal, id, io).0;
    if LookupOperation(s, id).None? { assert after == s; } else { assert after == s1; }
  }

  lemma CancelOperationOk(s: State, now: int, principal: Principal, id: Id, io1: Io, io2: Io)
    requires Good(s, s, {})
    ensures ControlSections.SectionOk(s, CancelOperation(s, now, principal, id, io1, io2), {})
  {
    if LookupOperation(s, id).None? { return; }
    RefreshFoundStep(s, s, now, id);
    PersistStep(s, RefreshFound(s, now, id), {}, now, io1);
    var (s1, ok) := Persist(RefreshFound(s, now, id), now, io1);
    if ok && LookupOperation(s1, id).Some? {
      LookupShown(s, s1, id);
      CancelFoundOk(s, s1, now, principal, id, LookupOperation(s1, id).value, io2);
    }
  }

  lemma CancelFoundOk(s0: State, s: State, now: int, principal: Principal, id: Id, found: Operation, io: Io)
    requires Good(s0, s, {}) && ControlSections.Shown(s, Viewed(found)) && (id in s.operations ==> found == s.operations[id])
    ensures ControlSubmission.SectionFrom(s0, CancelFound(s, now, principal, id, found, io))
  {
    if id in s.operations && !Complete(found) { CancelStep(s0, s, now, id, io); }
  }

  lemma CancelStep(s0: State, s: State, now: int, id: Id, io: Io)
    requires Good(s0, s, {}) && id in s.operations && !Complete(s.operations[id])
    ensures var o := CancelAsked(s.operations[id], now);
            var t := Persist(if o == s.operations[id] then s else SetOperation(s, id, o), now, io).0;
            Good(s0, t, {}) && ControlSections.Shown(t, Viewed(o))
  {
    var o := CancelAsked(s.operations[id], now);
    assert RecordAt(s.operations, id) && Records(s.operations) by { assert Reach(s0, s, {}, {}); }
    CancelAskedKeeps(s.operations[id], now);
    if o == s.operations[id] {
      PersistStep(s0, s, {}, now, io);
      PersistKeeps(s, now, io);
      assert KeepsAt(s.operations, Persist(s, now, io).0.operations, id);
    } else {
      ControlSubmission.SavedIsShown(s0, s, now, id, o, io);
    }
  }

  lemma OutcomeAckedOk(s: State, now: int, id: Id, sink: Id, io: Io)
    requires Good(s, s, {})
    ensures ControlSections.SectionOk(s, OutcomeAcked(s, now, id, sink, io), {})
  {
    var (after, reply) := OutcomeAcked(s, now, id, sink, io);
    assert ControlSections.Shown(after, reply);
    if id !in s.operations || s.operations[id].outcome.None? || sink !in s.operations[id].delivery {
      assert after == s;
    } else {
      var (s1, ok) := Persist(SetOperation(s, id, OutcomeDelivered(s.operations[id], sink)), now, io);
      AckSaved(s, now, id, sink, io);
      if ok {
        assert after == s1;
      } else {
        AckTakenBack(s, s1, id, sink);
        assert after == Unacked(s1, id, sink);
      }
    }
  }

  lemma AckSaved(s: State, now: int, id: Id, sink: Id, io: Io)
    requires Good(s, s, {}) && id in s.operations && s.operations[id].outcome.Some? && sink in s.operations[id].delivery
    ensures var s1 := Persist(SetOperation(s, id, OutcomeDelivered(s.operations[id], sink)), now, io).0;
            Good(s, s1, {}) && id in s1.operations && s1.operations[id].outcome.Some?
  {
    assert RecordAt(s.operations, id) by { assert Reach(s, s, {}, {}); }
    OutcomeDeliveredKeeps(s.operations[id], sink, true);
    ControlSubmission.SavedIsShown(s, s, now, id, OutcomeDelivered(s.operations[id], sink), io);
  }

  function Unacked(s: State, id: Id, sink: Id): State
    requires id in s.operations
  {
    SetOperation(s, id, s.operations[id].(delivery := s.operations[id].delivery[sink := false]))
  }

  lemma AckTakenBack(s0: State, s: State, id: Id, sink: Id)
    requires Good(s0, s, {}) && id in s.operations
    requires s.operations[id].outcome.Some?
    ensures Good(s0, Unacked(s, id, sink), {})
  {
    assert RecordAt(s.operations, id) by { assert Reach(s0, s, {}, {}); }
    OutcomeDeliveredKeeps(s.operations[id], sink, false);
    SetStep(s0, s, {}, id, s.operations[id].(delivery := s.operations[id].delivery[sink := false]));
  }

  lemma FlushOk(s: State, now: int, io: Io)
    requires Good(s, s, {})
    ensures ControlSections.SectionOk(s, Flush(s, now, io), {})
  {
    assert FlightsOk(s.flights) by { assert Reach(s, s, {}, {}); }
    UnchangedStep(s, s, {}, s.(dirty := true));
    PersistStep(s, s.(dirty := true), {}, now, io);
  }

  lemma {:induction false} RefreshEachStep(s0: State, s: State, now: int, principal: Principal, order: seq<Id>)
    requires Good(s0, s, {})
    ensures Good(s0, RefreshEach(s, now, principal, order), {})
    decreases |order|
  {
    if order != [] {
      if order[0] in s.operations
         && (HasScope(principal, HostAdmin) || principal.id == s.operations[order[0]].request.principal.id)
      {
        ControlSubmission.RefreshStep(s0, s, now, order[0]);
        RefreshEachStep(s0, Refresh(s, now, order[0]), now, principal, order[1..]);
      } else {
        RefreshEachStep(s0, s, now, principal, order[1..]);
      }
    }
  }

  lemma ListOperationsOk(s: State, now: int, principal: Principal, order: seq<Id>, io: Io)
    requires Good(s, s, {})
    ensures ControlSections.SectionOk(s, ListOperations(s, now, principal, order, io), {})
  {
    RefreshEachStep(s, s, now, principal, order);
    PersistStep(s, RefreshEach(s, now, principal, order), {}, now, io);
  }

  /** Any section that only writes what changed before it. */
  lemma PersistOk(s: State, now: int, io: Io)
    requires Good(s, s, {})
    ensures ControlSections.SectionOk(s, (Persist(s, now, io).0, Done), {})
  {
    PersistStep(s, s, {}, now, io);
  }
}
