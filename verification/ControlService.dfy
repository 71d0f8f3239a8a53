/**
  The service object: its fields, the loops that its methods run over them while
  they hold the lock, and the critical sections built from those loops. Each
  method leaves the state that the corresponding function of `ControlPlane`
  computes from the state it found.
 */
module ControlService {
  import opened ControlTypes
  import opened OperationRecord
  import OperationRestore
  import CP = ControlPlane
  import CI = ControlInvariants
  import CS = ControlSteps
  import CA = ControlSubmission
  import CH = ControlHostSide
  import CR = ControlRuns

  // ---------------------------------------------------------------- facts the loops need

  lemma SweptTwice(lease: Id, now: int, o: Operation)
    ensures Swept(LeaseEnded(lease), now, Swept(LeaseEnded(lease), now, o)) == Swept(LeaseEnded(lease), now, o)
  {
  }

  /** Ending one more lease after others is ending them together. */
  lemma EndOneMore(s: CP.State, done: set<ActorKey>, key: ActorKey, now: int)
    requires key in s.controllers && key !in done
    ensures CP.EndControllers(CP.EndControllers(s, done, now), {key}, now) == CP.EndControllers(s, done + {key}, now)
  {
    var first, both := CP.LeaseIds(s.controllers, done), CP.LeaseIds(s.controllers, done + {key});
    var lease := s.controllers[key].leaseId;
    var t := CP.EndControllers(s, done, now);
    assert CP.LeaseIds(t.controllers, {key}) == {lease};
    assert both == first + {lease};
    EndLeasesTogether(s.operations, first, lease, now);
    assert s.controllers - done - {key} == s.controllers - (done + {key});
    assert key in {key} * t.controllers.Keys;
    assert key in (done + {key}) * s.controllers.Keys;
  }

  lemma EndLeasesTogether(ops: map<Id, Operation>, first: set<Id>, lease: Id, now: int)
    ensures CP.EndLeases(CP.EndLeases(ops, first, now), {lease}, now) == CP.EndLeases(ops, first + {lease}, now)
  {
    forall id | id in ops
      ensures CP.EndLeases(CP.EndLeases(ops, first, now), {lease}, now)[id] == CP.EndLeases(ops, first + {lease}, now)[id]
    {
      SweptTwice(ops[id].request.binding.controllerLeaseId, now, ops[id]);
    }
  }

  lemma EndNone(s: CP.State, keys: set<ActorKey>, now: int)
    requires keys !! s.controllers.Keys
    ensures CP.EndControllers(s, keys, now) == s
  {
    assert CP.LeaseIds(s.controllers, keys) == {};
    assert CP.EndLeases(s.operations, {}, now) == s.operations;
    assert s.controllers - keys == s.controllers;
  }

  lemma {:induction false} DropOneMore(s: CP.State, now: int, order: seq<Id>, id: Id)
    ensures var t := CP.Drop(s, now, order);
            CP.Drop(s, now, order + [id])
            == if id in t.operations && CP.Prunable(t.config, t.operations[id], now) then CP.Remove(t, id, Some(now)) else t
    decreases |order|
  {
    if order != [] {
      assert (order + [id])[1..] == order[1..] + [id];
      var rest :=
        if order[0] in s.operations && CP.Prunable(s.config, s.operations[order[0]], now) then CP.Remove(s, order[0], Some(now)) else s;
      DropOneMore(rest, now, order[1..], id);
    } else {
      assert (order + [id])[1..] == [];
    }
  }

  lemma {:induction false} RefreshOneMore(s: CP.State, now: int, principal: Principal, order: seq<Id>, id: Id)
    ensures var t := CP.RefreshEach(s, now, principal, order);
            CP.RefreshEach(s, now, principal, order + [id])
            == if id in t.operations && (CP.HasScope(principal, HostAdmin) || principal.id == t.operations[id].request.principal.id)
               then CP.Refresh(t, now, id) else t
    decreases |order|
  {
    if order != [] {
      assert (order + [id])[1..] == order[1..] + [id];
      var seen := order[0] in s.operations
                  && (CP.HasScope(principal, HostAdmin) || principal.id == s.operations[order[0]].request.principal.id);
      RefreshOneMore(if seen then CP.Refresh(s, now, order[0]) else s, now, principal, order[1..], id);
    } else {
      assert (order + [id])[1..] == [];
    }
  }

  /** The hot records when a sweep still has some of them before it. */
  function SweptPart(ops: map<Id, Operation>, remaining: set<Id>, sweep: Sweep, now: int): map<Id, Operation> {
    map id | id in ops :: if id in remaining then ops[id] else Swept(sweep, now, ops[id])
  }

  predicate AnySwept(ops: map<Id, Operation>, remaining: set<Id>, sweep: Sweep, now: int) {
    exists id :: id in ops && id !in remaining && Hit(sweep, now, ops[id])
  }

  lemma SweepOneMore(ops: map<Id, Operation>, remaining: set<Id>, id: Id, sweep: Sweep, now: int)
    requires id in remaining && remaining <= ops.Keys
    ensures SweptPart(ops, remaining, sweep, now)[id] == ops[id]
    ensures SweptPart(ops, remaining, sweep, now)[id := Swept(sweep, now, ops[id])] == SweptPart(ops, remaining - {id}, sweep, now)
    ensures AnySwept(ops, remaining - {id}, sweep, now) <==> AnySwept(ops, remaining, sweep, now) || Hit(sweep, now, ops[id])
  {
    if AnySwept(ops, remaining, sweep, now) {
      var other :| other in ops && other !in remaining && Hit(sweep, now, ops[other]);
      assert other !in remaining - {id};
    }
  }

  lemma SweepEnds(ops: map<Id, Operation>, sweep: Sweep, now: int)
    ensures SweptPart(ops, ops.Keys, sweep, now) == ops && !AnySwept(ops, ops.Keys, sweep, now)
    ensures SweptPart(ops, {}, sweep, now) == CP.SweepOps(ops, sweep, now)
    ensures AnySwept(ops, {}, sweep, now) <==> CP.AnyHit(ops, sweep, now)
  {
  }

  class Service {
    const config: CP.Config
    var hosts: map<Id, Host>
    var controllers: map<ActorKey, ControllerLease>
    var stops: map<ActorKey, EmergencyStop>
    var operations: map<Id, Operation>
    var requests: map<Key, Id>
    var staged: map<Id, Operation>
    var flights: map<Key, CP.Flight>
    var confirming: map<Id, ControlRequest>
    var dirty: bool
    var durable: CP.Durable
    ghost var issued: set<Id>
    ghost var loose: set<Id>
    ghost var defied: map<Id, nat>
    ghost var revived: set<Id>

    ghost function View(): CP.State
      reads this
    {
      CP.State(config, hosts, controllers, stops, operations, requests, staged, flights, confirming, dirty, durable, issued,
               loose, defied, revived)
    }

    constructor (config: CP.Config)
      ensures View() == CP.State(config, map[], map[], map[], map[], map[], map[], map[], map[], false,
                                 CP.Durable(map[], map[], map[], map[]), {}, {}, map[], {})
      ensures CI.Sane(View())
    {
      this.config := config;
      hosts, controllers, stops, operations, requests := map[], map[], map[], map[], map[];
      staged, flights, confirming, dirty := map[], map[], map[], false;
      durable, issued, loose, defied, revived := CP.Durable(map[], map[], map[], map[]), {}, {}, map[], {};
      new;
      CR.FreshInv(config);
    }

    // ---------------------------------------------------------------- loops over the hot records

    /** Ends or fences every hot record that the sweep hits. */
    method SweepOperations(sweep: Sweep, now: int)
      modifies this`operations, this`dirty
      ensures operations == CP.SweepOps(old(operations), sweep, now)
      ensures dirty == (old(dirty) || CP.AnyHit(old(operations), sweep, now))
    {
      ghost var before := operations;
      var remaining := operations.Keys;
      var changed := false;
      SweepEnds(before, sweep, now);
      while remaining != {}
        invariant remaining <= before.Keys
        invariant operations == SweptPart(before, remaining, sweep, now)
        invariant changed <==> AnySwept(before, remaining, sweep, now)
        invariant dirty == old(dirty)
      {
        var id :| id in remaining;
        SweepOneMore(before, remaining, id, sweep, now);
        if Hit(sweep, now, operations[id]) {
          operations := operations[id := Swept(sweep, now, operations[id])];
          changed := true;
        }
        remaining := remaining - {id};
      }
      dirty := dirty || changed;
    }

    /** Removes one controller lease and fences the records bound to it. */
    method InvalidateController(key: ActorKey, now: int)
      modifies this`controllers, this`operations, this`dirty
      ensures View() == CP.EndControllers(old(View()), {key}, now)
    {
      if key !in controllers {
        EndNone(View(), {key}, now);
        return;
      }
      var lease := controllers[key].leaseId;
      ghost var before := operations;
      assert CP.LeaseIds(controllers, {key}) == {lease};
      controllers := controllers - {key};
      SweepOperations(LeaseEnded(lease), now);
      dirty := true;
      assert operations == CP.EndLeases(before, {lease}, now) by {
        forall id | id in before ensures CP.EndLeases(before, {lease}, now)[id] == Swept(LeaseEnded(lease), now, before[id]) { }
      }
      assert key in {key} * old(controllers).Keys;
    }

    /** Removes the leases of the given actors, one after the other. */
    method InvalidateControllers(keys: set<ActorKey>, now: int)
      requires keys <= controllers.Keys
      modifies this`controllers, this`operations, this`dirty
      ensures View() == CP.EndControllers(old(View()), keys, now)
    {
      var remaining := keys;
      EndNone(View(), {}, now);
      while remaining != {}
        invariant remaining <= keys
        invariant View() == CP.EndControllers(old(View()), keys - remaining, now)
      {
        var key :| key in remaining;
        EndOneMore(old(View()), keys - remaining, key, now);
        assert keys - remaining + {key} == keys - (remaining - {key});
        InvalidateController(key, now);
        remaining := remaining - {key};
      }
      assert keys - remaining == keys;
    }

    method ExpireController(key: ActorKey, now: int)
      modifies this`controllers, this`operations, this`dirty
      ensures View() == CP.ExpireController(old(View()), key, now)
    {
      if key in controllers && controllers[key].expiresAt <= now {
        assert CP.Expired(controllers, now) * {key} == {key};
        InvalidateController(key, now);
      } else {
        assert CP.Expired(controllers, now) * {key} == {};
        EndNone(View(), {}, now);
      }
    }

    method ExpireControllers(now: int)
      modifies this`controllers, this`operations, this`dirty
      ensures View() == CP.ExpireControllers(old(View()), now)
    {
      var expired := set key | key in controllers && controllers[key].expiresAt <= now;
      assert expired == CP.Expired(controllers, now);
      InvalidateControllers(expired, now);
    }

    // ---------------------------------------------------------------- durable writes

    /** Writes the whole state if it changed; `io` says what became of the write. */
    method PersistOperations(now: int, io: CP.Io) returns (ok: bool)
      modifies this`controllers, this`operations, this`staged, this`durable, this`dirty
      ensures (View(), ok) == CP.Persist(old(View()), now, io)
    {
      if !dirty {
        return true;
      }
      if config.store == CP.Memory {
        dirty := false;
        return true;
      }
      ExpireControllers(now);
      if io == CP.NotCommitted {
        return false;
      }
      durable := CP.Durable(operations, controllers, stops, durable.archive + staged);
      if io == CP.Ambiguous {
        return false;
      }
      staged, dirty := map[], false;
      return true;
    }

    // ---------------------------------------------------------------- removal from the hot pool

    /** Takes a settled record out of the hot pool, its key and its parent's children. */
    method RemoveOperation(id: Id, at: Option<int>)
      requires id in operations
      modifies this`operations, this`requests, this`staged, this`dirty
      ensures View() == CP.Remove(old(View()), id, at)
    {
      var o := operations[id];
      if config.store == CP.Sqlite {
        staged := staged[id := o];
      }
      operations := operations - {id};
      requests := requests - {o.key};
      if o.request.parent.Some? && o.request.parent.value in operations {
        var parent := operations[o.request.parent.value];
        var touched := if at.Some? then at.value else parent.updatedAt;
        operations := operations[o.request.parent.value := parent.(children := parent.children - {id}, updatedAt := touched)];
      }
      dirty := true;
    }

    /** Ends what its deadline caught, then drops or archives settled records, in the order the map yields them. */
    method PruneOperations(now: int) returns (ghost order: seq<Id>)
      modifies this`operations, this`requests, this`staged, this`dirty
      ensures View() == CP.Prune(old(View()), now, order)
    {
      SweepOperations(TtlExpired(config.ttl), now);
      ghost var swept := View();
      var remaining := operations.Keys;
      order := [];
      while remaining != {}
        invariant View() == CP.Drop(swept, now, order)
      {
        var id :| id in remaining;
        DropOneMore(swept, now, order, id);
        order := order + [id];
        if id in operations && CP.Prunable(config, operations[id], now) {
          RemoveOperation(id, Some(now));
        }
        remaining := remaining - {id};
      }
    }

    /** The settled, childless record that changed longest ago, ties broken by identifier. */
    method OldestSettled() returns (oldest: Option<Id>)
      ensures oldest.None? ==> forall id :: id in operations ==> !CP.Retirable(operations[id])
      ensures oldest.Some? ==>
        && oldest.value in operations && CP.Retirable(operations[oldest.value])
        && forall id :: id in operations && CP.Retirable(operations[id]) ==> !Older(operations, id, oldest.value)
    {
      oldest := None;
      var remaining := operations.Keys;
      while remaining != {}
        invariant remaining <= operations.Keys
        invariant oldest.None? ==> forall id :: id in operations && id !in remaining ==> !CP.Retirable(operations[id])
        invariant oldest.Some? ==>
          && oldest.value in operations && CP.Retirable(operations[oldest.value])
          && forall id :: id in operations && id !in remaining && CP.Retirable(operations[id])
               ==> !Older(operations, id, oldest.value)
      {
        var id :| id in remaining;
        if CP.Retirable(operations[id]) && (oldest.None? || Older(operations, id, oldest.value)) {
          oldest := Some(id);
        }
        remaining := remaining - {id};
      }
    }

    /** Makes room in a full pool by archiving the oldest settled record. */
    method RetireSettledOperation() returns (oldest: Option<Id>)
      modifies this`operations, this`requests, this`staged, this`dirty
      ensures View() == CP.Retire(old(View()), oldest)
      ensures old(|operations|) >= config.maxOperations && config.store == CP.Sqlite && oldest.None? ==>
        forall id :: id in old(operations) ==> !CP.Retirable(old(operations)[id])
      ensures oldest.Some? ==>
        && oldest.value in old(operations) && CP.Retirable(old(operations)[oldest.value])
        && forall id :: id in old(operations) && CP.Retirable(old(operations)[id]) ==> !Older(old(operations), id, oldest.value)
    {
      oldest := None;
      if |operations| < config.maxOperations || config.store != CP.Sqlite {
        return;
      }
      oldest := OldestSettled();
      if oldest.Some? {
        RemoveOperation(oldest.value, None);
      }
    }

    // ---------------------------------------------------------------- polling

    /** The Host's record that comes first among the candidates in delivery order. */
    method FirstToDeliver(candidates: set<Id>) returns (first: Id)
      requires candidates != {} && candidates <= operations.Keys
      ensures first in candidates
      ensures forall id :: id in candidates && id != first ==> CP.Before(operations, first, id)
    {
      first :| first in candidates;
      var remaining := candidates - {first};
      while remaining != {}
        invariant remaining <= candidates && first in candidates
        invariant forall id :: id in candidates && id !in remaining && id != first ==> CP.Before(operations, first, id)
      {
        var id :| id in remaining;
        if CP.Before(operations, id, first) {
          first := id;
        }
        remaining := remaining - {id};
      }
    }

    /** The Host's records in delivery order. */
    method HostQueue(hostId: Id) returns (queue: seq<Id>)
      ensures CP.IsQueue(operations, hostId, queue)
    {
      var mine := set id | id in operations && operations[id].request.target.hostId == hostId;
      var remaining := mine;
      queue := [];
      while remaining != {}
        invariant remaining <= mine
        invariant forall id :: id in mine <==> id in remaining || id in queue
        invariant forall i :: 0 <= i < |queue| ==> queue[i] in mine
        invariant forall i, id :: 0 <= i < |queue| && id in remaining ==> CP.Before(operations, queue[i], id)
        invariant forall i, j :: 0 <= i < j < |queue| ==> CP.Before(operations, queue[i], queue[j])
      {
        var first := FirstToDeliver(remaining);
        queue := queue + [first];
        remaining := remaining - {first};
      }
    }

    /** The cancellation requests of one batch. */
    method CollectCancellations(queue: seq<Id>, limit: nat) returns (cancellations: seq<Id>)
      requires Hot(operations, queue)
      ensures AllHot(operations, queue) && cancellations == CP.Cancellations(operations, queue, limit)
    {
      HotMeansAll(operations, queue);
      cancellations := [];
      var i := 0;
      while i < |queue| && |cancellations| < limit
        invariant CancelledSoFar(operations, queue, limit, i, cancellations)
      {
        assert HotAt(operations, queue, i);
        CancelOneMore(operations, queue, limit, i, cancellations);
        if operations[queue[i]].cancel && !Complete(operations[queue[i]]) {
          cancellations := cancellations + [queue[i]];
        }
        i := i + 1;
      }
      CancelledAll(operations, queue, limit, i, cancellations);
    }

    /** Delivers into the room that the batch has left. */
    method DeliverQueued(queue: seq<Id>, room: nat, now: int) returns (deliveries: seq<Operation>)
      requires Hot(operations, queue) && Distinct(queue)
      modifies this`operations
      ensures AllHot(old(operations), queue)
      ensures var picked := CP.Picked(old(operations), queue, room);
              && operations == CP.DeliverOps(old(operations), picked, now)
              && deliveries == CP.RecordsOf(operations, picked)
    {
      HotMeansAll(operations, queue);
      ghost var before := operations;
      ghost var picked: seq<Id> := [];
      deliveries := [];
      var i := 0;
      DeliverNone(before, now);
      while i < |queue| && |deliveries| < room
        invariant PickedSoFar(before, queue, room, i, picked) && |picked| == |deliveries|
        invariant operations == CP.DeliverOps(before, picked, now)
        invariant deliveries == Handed(before, picked, now)
      {
        assert HotAt(before, queue, i);
        PickOneMore(before, queue, room, i, picked, now);
        picked := WithPicked(before, picked, queue[i]);
        if Deliverable(operations[queue[i]]) {
          operations := operations[queue[i] := Redelivered(operations[queue[i]], now)];
          deliveries := deliveries + [operations[queue[i]]];
        }
        i := i + 1;
      }
      PickedAll(before, queue, room, i, picked);
      HandedAreRecords(before, picked, now);
    }

    function HoldsLease(now: int, hostId: Id, leaseId: Id): (holds: bool)
      reads this
      ensures holds == CP.HoldsHostLease(View(), now, hostId, leaseId)
    {
      hostId in hosts && hosts[hostId].leaseId == leaseId && hosts[hostId].expiresAt > now
    }

    /** One poll: expire, prune, persist, collect, persist what was delivered. */
    method PollHost(now: int, hostId: Id, leaseId: Id, limit: nat, gateway: nat, io1: CP.Io, io2: CP.Io)
      returns (reply: CP.Reply, ghost order: seq<Id>, ghost queue: seq<Id>)
      modifies this
      ensures (View(), reply) == CP.PollHost(old(View()), now, hostId, leaseId, limit, gateway, order, queue, io1, io2)
    {
      order, queue := [], [];
      if limit == 0 || limit > 64 {
        return CP.Errored(Invalid), order, queue;
      }
      if !HoldsLease(now, hostId, leaseId) {
        return CP.Errored(LeaseExpired), order, queue;
      }
      ExpireControllers(now);
      order := PruneOperations(now);
      var ok := PersistOperations(now, io1);
      if !ok {
        return CP.Errored(Persistence), order, queue;
      }
      var sorted := HostQueue(hostId);
      queue := sorted;
      QueueIsDistinct(operations, hostId, sorted);
      reply := CollectHostWork(sorted, limit, gateway, now, io2);
    }

    method CollectHostWork(queue: seq<Id>, limit: nat, gateway: nat, now: int, io: CP.Io) returns (reply: CP.Reply)
      requires Hot(operations, queue) && Distinct(queue)
      modifies this
      ensures AllHot(old(operations), queue)
      ensures (View(), reply) == CP.Collect(old(View()), now, limit, gateway, queue, io)
    {
      ghost var before := View();
      var cancellations := CollectCancellations(queue, limit);
      ghost var picked := CP.Picked(operations, queue, CP.BatchRoom(limit, |cancellations| + gateway));
      var deliveries := DeliverQueued(queue, CP.BatchRoom(limit, |cancellations| + gateway), now);
      reply := SendBatch(before, cancellations, deliveries, picked, gateway, now, io);
    }

    /** Writes what was delivered and hands it out. */
    method SendBatch(ghost before: CP.State, cancellations: seq<Id>, deliveries: seq<Operation>, ghost picked: seq<Id>,
                     gateway: nat, now: int, io: CP.Io)
      returns (reply: CP.Reply)
      requires forall id :: id in picked ==> id in before.operations
      requires View() == before.(operations := CP.DeliverOps(before.operations, picked, now))
      requires deliveries == CP.RecordsOf(operations, picked)
      modifies this
      ensures (View(), reply) == CP.Dispatch(before, now, cancellations, picked, gateway, io)
    {
      if cancellations == [] && deliveries == [] && gateway == 0 {
        DeliverNone(before.operations, now);
        return CP.Waiting;
      }
      var ok := PersistOperations(now, io);
      reply := if ok then CP.Batch(deliveries, cancellations) else CP.Errored(Persistence);
    }

    // ---------------------------------------------------------------- Host reports

    /** A record by identifier, from the hot pool, the staged archive or the stored archive. */
    method LookupOperation(id: Id) returns (found: Option<Operation>)
      ensures found == CP.LookupOperation(View(), id)
    {
      if id in operations {
        return Some(operations[id]);
      }
      if config.store != CP.Sqlite {
        return None;
      }
      if id in staged {
        return Some(staged[id]);
      }
      if id !in durable.archive {
        return None;
      }
      found := OperationRestore.RestoreOperation(OperationRestore.ToPersisted(durable.archive[id]));
      if found.Some? && (!Complete(found.value) || found.value.status == OutcomeUnknown) {
        found := None;
      }
    }

    method HostOperation(hostId: Id, id: Id) returns (found: Result<Operation>)
      ensures found == CP.HostRecord(View(), hostId, id)
    {
      var record := LookupOperation(id);
      if record.None? {
        return Err(NotFound);
      }
      if record.value.request.target.hostId != hostId {
        return Err(Forbidden);
      }
      return Ok(record.value);
    }

    method SaveRecord(now: int, id: Id, o: Operation, io: CP.Io) returns (reply: CP.Reply)
      modifies this
      ensures (View(), reply) == CP.SaveRecord(old(View()), now, id, o, io)
    {
      operations := operations[id := o];
      dirty := true;
      var ok := PersistOperations(now, io);
      reply := if ok then CP.Done else CP.Errored(Persistence);
    }

    method AcknowledgeHost(now: int, hostId: Id, leaseId: Id, ack: Ack, io1: CP.Io, io2: CP.Io) returns (reply: CP.Reply)
      modifies this
      ensures (View(), reply) == CP.AcknowledgeHost(old(View()), now, hostId, leaseId, ack, io1, io2)
    {
      var ok := PersistOperations(now, io1);
      if !ok {
        return CP.Errored(Persistence);
      }
      if !HoldsLease(now, hostId, leaseId) {
        return CP.Errored(LeaseExpired);
      }
      var found := HostOperation(hostId, ack.operationId);
      if found.Err? {
        return CP.Errored(found.error);
      }
      if found.value.ack.Some? {
        return if found.value.ack.value == ack then CP.Done else CP.Errored(Conflict);
      }
      if found.value.status != Delivered || ack.operationId !in operations {
        return CP.Errored(Conflict);
      }
      reply := SaveRecord(now, ack.operationId, Acknowledged(found.value, ack, now), io2);
    }

    method ReportHostRun(now: int, hostId: Id, leaseId: Id, run: ActionRun, io: CP.Io) returns (reply: CP.Reply)
      modifies this
      ensures (View(), reply) == CP.ReportRun(old(View()), now, hostId, leaseId, run, io)
    {
      var ok := PersistOperations(now, io);
      if !ok {
        return CP.Errored(Persistence);
      }
      if !HoldsLease(now, hostId, leaseId) {
        return CP.Errored(LeaseExpired);
      }
      var found := HostOperation(hostId, run.operationId);
      if found.Err? {
        return CP.Errored(found.error);
      }
      reply := RecordRun(now, found.value, run);
    }

    /** Takes a run report; history notes the lease and the stop under which it puts a record back to work. */
    method RecordRun(now: int, o: Operation, run: ActionRun) returns (reply: CP.Reply)
      modifies this`operations, this`loose, this`defied, this`revived
      ensures (View(), reply) == CP.RecordRun(old(View()), now, o, run)
    {
      var checked := CheckRun(o, run);
      if checked.Err? {
        return CP.Errored(checked.error);
      }
      if checked.value && run.operationId in operations {
        ghost var after := CP.WithRun(View(), now, o, run);
        operations := operations[run.operationId := RunReported(o, run, now)];
        loose, defied, revived := after.loose, after.defied, after.revived;
      }
      return CP.Done;
    }

    method RecordResult(now: int, o: Operation, outcome: ActionOutcome, output: Option<Id>, io: CP.Io)
      returns (reply: CP.Reply)
      modifies this
      ensures (View(), reply) == CP.RecordResult(old(View()), now, o, outcome, output, io)
    {
      var checked := CheckResult(o, outcome, output);
      if checked.Err? {
        return CP.Errored(checked.error);
      }
      if outcome.operationId !in operations {
        return CP.Done;
      }
      if checked.value {
        reply := SaveRecord(now, outcome.operationId, ResultReported(o, outcome, output, config.sinks, now), io);
      } else if OutcomeQueued(o, config.sinks) == o {
        reply := CP.Done;
      } else {
        reply := SaveRecord(now, outcome.operationId, OutcomeQueued(o, config.sinks), io);
      }
    }

    method ReportHostResult(
      now: int, hostId: Id, leaseId: Id, outcome: ActionOutcome, output: Option<Id>, io1: CP.Io, io2: CP.Io)
      returns (reply: CP.Reply)
      modifies this
      ensures (View(), reply) == CP.ReportResult(old(View()), now, hostId, leaseId, outcome, output, io1, io2)
    {
      if !TerminalRun(outcome.status) {
        return CP.Errored(Invalid);
      }
      var ok := PersistOperations(now, io1);
      if !ok {
        return CP.Errored(Persistence);
      }
      if !HoldsLease(now, hostId, leaseId) {
        return CP.Errored(LeaseExpired);
      }
      var found := HostOperation(hostId, outcome.operationId);
      if found.Err? {
        return CP.Errored(found.error);
      }
      reply := RecordResult(now, found.value, outcome, output, io2);
    }

    // ---------------------------------------------------------------- clients

    method RefreshHost(now: int, hostId: Id)
      modifies this
      ensures View() == CP.RefreshHost(old(View()), now, hostId)
    {
      if hostId in hosts && hosts[hostId].expiresAt <= now {
        SweepOperations(HostExpired(hostId), now);
      }
    }

    /** Lets the deadline or the Host lease of a hot record expire before it is read. */
    method RefreshOperation(now: int, id: Id)
      requires id in operations
      modifies this
      ensures View() == CP.Refresh(old(View()), now, id)
    {
      if Hit(TtlExpired(config.ttl), now, operations[id]) {
        operations := operations[id := Swept(TtlExpired(config.ttl), now, operations[id])];
        dirty := true;
      } else {
        RefreshHost(now, operations[id].request.target.hostId);
      }
    }

    method RefreshFound(now: int, id: Id) returns (found: bool)
      modifies this
      ensures found == CP.LookupOperation(old(View()), id).Some?
      ensures View() == CP.RefreshFound(old(View()), now, id)
    {
      var record := LookupOperation(id);
      if record.None? {
        return false;
      }
      if id in operations {
        RefreshOperation(now, id);
      } else {
        RefreshHost(now, record.value.request.target.hostId);
      }
      return true;
    }

    method ReadOperation(now: int, principal: Principal, id: Id, io: CP.Io) returns (reply: CP.Reply)
      modifies this
      ensures (View(), reply) == CP.ReadOperation(old(View()), now, principal, id, io)
    {
      var known := RefreshFound(now, id);
      if !known {
        return CP.Errored(NotFound);
      }
      var ok := PersistOperations(now, io);
      if !ok {
        return CP.Errored(Persistence);
      }
      var found := LookupOperation(id);
      if found.None? {
        return CP.Errored(NotFound);
      }
      if !CP.HasScope(principal, HostAdmin) && principal.id != found.value.request.principal.id {
        return CP.Errored(Forbidden);
      }
      return CP.Viewed(found.value);
    }

    method CancelOperation(now: int, principal: Principal, id: Id, io1: CP.Io, io2: CP.Io) returns (reply: CP.Reply)
      modifies this
      ensures (View(), reply) == CP.CancelOperation(old(View()), now, principal, id, io1, io2)
    {
      var known := RefreshFound(now, id);
      if !known {
        return CP.Errored(NotFound);
      }
      var ok := PersistOperations(now, io1);
      if !ok {
        return CP.Errored(Persistence);
      }
      var found := LookupOperation(id);
      if found.None? {
        return CP.Errored(NotFound);
      }
      if !CP.HasScope(principal, HostAdmin)
         && (principal.id != found.value.request.principal.id || !CP.HasScope(principal, OperationCancel))
      {
        return CP.Errored(Forbidden);
      }
      if Complete(found.value) || id !in operations {
        return CP.Viewed(found.value);
      }
      reply := MarkCancelled(now, id, io2);
    }

    method MarkCancelled(now: int, id: Id, io: CP.Io) returns (reply: CP.Reply)
      requires id in operations
      modifies this
      ensures var o := CancelAsked(old(operations)[id], now);
              var (t, ok) := CP.Persist(if o == old(operations)[id] then old(View()) else CP.SetOperation(old(View()), id, o), now, io);
              View() == t && reply == if ok then CP.Viewed(o) else CP.Errored(Persistence)
    {
      var o := CancelAsked(operations[id], now);
      if o != operations[id] {
        operations := operations[id := o];
        dirty := true;
      }
      var ok := PersistOperations(now, io);
      reply := if ok then CP.Viewed(o) else CP.Errored(Persistence);
    }

    /** Refreshes every record its caller may see, in the order the map yields them. */
    method ListOperations(now: int, principal: Principal, io: CP.Io) returns (reply: CP.Reply, ghost order: seq<Id>)
      modifies this
      ensures (View(), reply) == CP.ListOperations(old(View()), now, principal, order, io)
    {
      order := [];
      ghost var before := View();
      var remaining := operations.Keys;
      while remaining != {}
        invariant View() == CP.RefreshEach(before, now, principal, order)
      {
        var id :| id in remaining;
        RefreshOneMore(before, now, principal, order, id);
        order := order + [id];
        if id in operations
           && (CP.HasScope(principal, HostAdmin) || principal.id == operations[id].request.principal.id)
        {
          RefreshOperation(now, id);
        }
        remaining := remaining - {id};
      }
      var ok := PersistOperations(now, io);
      reply := if ok then CP.Done else CP.Errored(Persistence);
    }

    /** Marks one outcome delivered to a projection; a failed write takes the mark back. */
    method AckOutcome(now: int, id: Id, sink: Id, io: CP.Io) returns (reply: CP.Reply)
      modifies this
      ensures (View(), reply) == CP.OutcomeAcked(old(View()), now, id, sink, io)
    {
      if id !in operations || operations[id].outcome.None? || sink !in operations[id].delivery {
        return CP.Errored(NotFound);
      }
      operations := operations[id := OutcomeDelivered(operations[id], sink)];
      dirty := true;
      var ok := PersistOperations(now, io);
      if ok || id !in operations {
        return CP.Done;
      }
      operations := operations[id := operations[id].(delivery := operations[id].delivery[sink := false])];
      dirty := true;
      return CP.Errored(Persistence);
    }

    // ---------------------------------------------------------------- Host leases and publications

    method RegisterHost(now: int, r: CP.Registration, leaseId: Id, io1: CP.Io, io2: CP.Io) returns (reply: CP.Reply)
      modifies this
      ensures (View(), reply) == CP.RegisterHost(old(View()), now, r, leaseId, io1, io2)
    {
      var ok := PersistOperations(now, io1);
      if !ok {
        return CP.Errored(Persistence);
      }
      reply := AdmitHost(now, r, leaseId, io2);
    }

    /** A live Host renews; a new one starts, and an expired one starts over once its work is fenced. */
    method AdmitHost(now: int, r: CP.Registration, leaseId: Id, io: CP.Io) returns (reply: CP.Reply)
      modifies this
      ensures (View(), reply) == CP.AdmitHost(old(View()), now, r, leaseId, io)
    {
      if r.hostId in hosts && hosts[r.hostId].expiresAt > now {
        var current := hosts[r.hostId];
        if current.instance != r.instance || current.manifest != r.manifest {
          return CP.Errored(LeaseConflict);
        }
        hosts := hosts[r.hostId := current.(ttl := r.ttl, expiresAt := now + r.ttl)];
        return CP.Done;
      }
      if r.hostId in hosts {
        SweepOperations(HostExpired(r.hostId), now);
        var ok := PersistOperations(now, io);
        if !ok {
          return CP.Errored(Persistence);
        }
      }
      hosts := hosts[r.hostId := Host(r.instance, r.manifest, leaseId, r.ttl, now + r.ttl, map[])];
      return CP.Done;
    }

    method RenewHost(now: int, hostId: Id, leaseId: Id, io: CP.Io) returns (reply: CP.Reply)
      modifies this
      ensures (View(), reply) == CP.RenewHost(old(View()), now, hostId, leaseId, io)
    {
      var ok := PersistOperations(now, io);
      if !ok {
        return CP.Errored(Persistence);
      }
      if !HoldsLease(now, hostId, leaseId) {
        return CP.Errored(LeaseExpired);
      }
      hosts := hosts[hostId := hosts[hostId].(expiresAt := now + hosts[hostId].ttl)];
      return CP.Done;
    }

    method UnregisterHost(now: int, hostId: Id, leaseId: Id, io1: CP.Io, io2: CP.Io) returns (reply: CP.Reply)
      modifies this
      ensures (View(), reply) == CP.UnregisterHost(old(View()), now, hostId, leaseId, io1, io2)
    {
      var ok := PersistOperations(now, io1);
      if !ok {
        return CP.Errored(Persistence);
      }
      if !HoldsLease(now, hostId, leaseId) {
        return CP.Errored(LeaseExpired);
      }
      hosts := hosts[hostId := hosts[hostId].(expiresAt := now)];
      SweepOperations(HostExpired(hostId), now);
      ok := PersistOperations(now, io2);
      reply := if ok then CP.Done else CP.Errored(Persistence);
    }

    /** A newer publication of a world replaces it; an exact repeat changes nothing. */
    method PublishWorld(now: int, hostId: Id, leaseId: Id, worldId: Id, world: World) returns (reply: CP.Reply)
      modifies this
      ensures (View(), reply) == CP.PublishWorld(old(View()), now, hostId, leaseId, worldId, world)
    {
      if !HoldsLease(now, hostId, leaseId) {
        return CP.Errored(LeaseExpired);
      }
      var current := hosts[hostId];
      if worldId in current.worlds && world.sequence < current.worlds[worldId].sequence {
        return CP.Errored(StaleValue);
      }
      if worldId in current.worlds && world.sequence == current.worlds[worldId].sequence {
        return if world == current.worlds[worldId] then CP.Done else CP.Errored(StaleValue);
      }
      if worldId !in current.worlds && |current.worlds| >= MAX_WORLDS {
        return CP.Errored(Invalid);
      }
      ReplaceWorld(now, hostId, worldId, world);
      return CP.Done;
    }

    /** Fences superseded authority, drops the leases that no longer match, then replaces the world. */
    method ReplaceWorld(now: int, hostId: Id, worldId: Id, world: World)
      requires hostId in hosts
      modifies this
      ensures var s1 := CP.SweepState(old(View()), AuthorityChanged(hostId, worldId, world.actors), now);
              var s2 := CP.EndControllers(s1, CP.Mismatched(s1, hostId, worldId, world), now);
              View() == s2.(hosts := s2.hosts[hostId := s2.hosts[hostId].(worlds := s2.hosts[hostId].worlds[worldId := world])])
    {
      SweepOperations(AuthorityChanged(hostId, worldId, world.actors), now);
      var mismatched := set key | key in controllers && key.hostId == hostId && key.worldId == worldId
                          && !(key.actorId in world.actors && CP.MatchesActor(controllers[key], key, world.actors[key.actorId]));
      assert mismatched == CP.Mismatched(View(), hostId, worldId, world);
      InvalidateControllers(mismatched, now);
      hosts := hosts[hostId := hosts[hostId].(worlds := hosts[hostId].worlds[worldId := world])];
    }

    // ---------------------------------------------------------------- controller leases and stops

    method AuthorizeActor(now: int, principal: Principal, key: ActorKey, scope: Scope) returns (actor: Result<Actor>)
      modifies this
      ensures (View(), actor) == CP.Authorize(old(View()), now, principal, key, scope)
    {
      if key.hostId !in hosts || key.worldId !in hosts[key.hostId].worlds {
        return Err(NotFound);
      }
      if hosts[key.hostId].expiresAt <= now {
        SweepOperations(HostExpired(key.hostId), now);
        return Err(Unavailable);
      }
      var world := hosts[key.hostId].worlds[key.worldId];
      if key.actorId !in world.actors {
        return Err(NotFound);
      }
      if !CP.CanAccess(principal, world.actors[key.actorId], scope) {
        return Err(Forbidden);
      }
      return Ok(world.actors[key.actorId]);
    }

    method AcquireController(
      now: int, principal: Principal, key: ActorKey, controllerId: Id, ttl: nat, leaseId: Id, io: CP.Io)
      returns (reply: CP.Reply)
      requires leaseId !in issued
      modifies this
      ensures (View(), reply) == CP.AcquireController(old(View()), now, principal, key, controllerId, ttl, leaseId, io)
    {
      var authorized := AuthorizeActor(now, principal, key, ActorControl);
      if authorized.Err? {
        return CP.Errored(authorized.error);
      }
      var actor := authorized.value;
      if !CP.ControllerAllowed(principal, actor.authority) {
        return CP.Errored(Forbidden);
      }
      ExpireController(key, now);
      var lease := ControllerLease(leaseId, controllerId, principal.id, key, actor.authority.source, actor.authority.persona,
                                   actor.authority.revision, actor.epoch, now, now + ttl);
      if key in controllers {
        var current := controllers[key];
        if current.controllerId != controllerId || current.principalId != principal.id
           || current.source != actor.authority.source || current.persona != actor.authority.persona
           || current.authorityRevision != actor.authority.revision || current.epoch != actor.epoch
        {
          return CP.Errored(LeaseConflict);
        }
        lease := current.(expiresAt := now + ttl);
      }
      issued := issued + {leaseId};
      reply := WriteLease(now, key, lease, io);
    }

    method WriteLease(now: int, key: ActorKey, lease: ControllerLease, io: CP.Io) returns (reply: CP.Reply)
      modifies this
      ensures var (t, ok) := CP.Persist(old(View()).(controllers := old(View()).controllers[key := lease], dirty := true), now, io);
              View() == t && reply == if ok then CP.Leased(lease) else CP.Errored(Persistence)
    {
      controllers := controllers[key := lease];
      dirty := true;
      var ok := PersistOperations(now, io);
      reply := if ok then CP.Leased(lease) else CP.Errored(Persistence);
    }

    /** Reading a lease first lets it expire. */
    method GetController(now: int, principal: Principal, key: ActorKey, io: CP.Io) returns (reply: CP.Reply)
      modifies this
      ensures (View(), reply) == CP.GetController(old(View()), now, principal, key, io)
    {
      var authorized := AuthorizeActor(now, principal, key, ActorRead);
      if authorized.Err? {
        return CP.Errored(authorized.error);
      }
      ExpireController(key, now);
      if key !in controllers {
        return CP.Errored(NotFound);
      }
      var lease := controllers[key];
      var ok := PersistOperations(now, io);
      reply := if ok then CP.Leased(lease) else CP.Errored(Persistence);
    }

    method RenewController(now: int, principal: Principal, key: ActorKey, leaseId: Id, ttl: nat, io: CP.Io)
      returns (reply: CP.Reply)
      modifies this
      ensures (View(), reply) == CP.RenewController(old(View()), now, principal, key, leaseId, ttl, io)
    {
      ExpireController(key, now);
      if key !in controllers || controllers[key].leaseId != leaseId {
        return CP.Errored(LeaseExpired);
      }
      var current := controllers[key];
      if current.principalId != principal.id && !CP.HasScope(principal, HostAdmin) {
        return CP.Errored(Forbidden);
      }
      var authorized := AuthorizeActor(now, principal, key, ActorControl);
      if authorized.Err? {
        return CP.Errored(authorized.error);
      }
      if !CP.MatchesActor(current, key, authorized.value) {
        InvalidateController(key, now);
        return CP.Errored(LeaseExpired);
      }
      reply := WriteLease(now, key, current.(expiresAt := now + ttl), io);
    }

    method ReleaseController(now: int, principal: Principal, key: ActorKey, leaseId: Id, io: CP.Io) returns (reply: CP.Reply)
      modifies this
      ensures (View(), reply) == CP.ReleaseController(old(View()), now, principal, key, leaseId, io)
    {
      if key !in controllers || controllers[key].leaseId != leaseId {
        return CP.Errored(LeaseExpired);
      }
      if controllers[key].principalId != principal.id && !CP.HasScope(principal, HostAdmin) {
        return CP.Errored(Forbidden);
      }
      InvalidateController(key, now);
      var ok := PersistOperations(now, io);
      reply := if ok then CP.Done else CP.Errored(Persistence);
    }

    method SetActorEmergencyStop(now: int, principal: Principal, key: ActorKey, active: bool, io: CP.Io)
      returns (reply: CP.Reply)
      modifies this
      ensures (View(), reply) == CP.SetEmergencyStop(old(View()), now, principal, key, active, io)
    {
      if key.hostId !in hosts || key.worldId !in hosts[key.hostId].worlds
         || key.actorId !in hosts[key.hostId].worlds[key.worldId].actors
      {
        return CP.Errored(NotFound);
      }
      var actor := hosts[key.hostId].worlds[key.worldId].actors[key.actorId];
      if !CP.CanAccess(principal, actor, ActorControl)
         || (principal.id != actor.owner && !CP.HasScope(principal, HostAdmin))
      {
        return CP.Errored(Forbidden);
      }
      var current := if key in stops then stops[key] else EmergencyStop(false, 0, 0);
      if current.active == active && current.revision != 0 {
        return CP.Done;
      }
      SetStop(now, key, EmergencyStop(active, current.revision + 1, now));
      var ok := PersistOperations(now, io);
      reply := if ok then CP.Done else CP.Errored(Persistence);
    }

    method SetStop(now: int, key: ActorKey, stop: EmergencyStop)
      modifies this`stops, this`operations, this`dirty
      ensures View() == CP.WithStop(old(View()), now, key, stop)
    {
      stops := stops[key := stop];
      dirty := true;
      if stop.active {
        SweepOperations(ActorStopped(key), now);
      }
    }

    // ---------------------------------------------------------------- submission

    /** The checks that a submission and a confirmation repeat whenever they hold the lock. */
    method PrepareAction(now: int, principal: Principal, submission: CP.Submission) returns (snapshot: Result<CP.Snapshot>)
      modifies this
      ensures (View(), snapshot) == CP.Prepare(old(View()), now, principal, submission)
    {
      var authorized := AuthorizeActor(now, principal, submission.target, ActorExecute);
      if authorized.Err? {
        return Err(authorized.error);
      }
      var actor := authorized.value;
      if actor.epoch != submission.action.expectedEpoch
         || !RecentObservationGap(actor.observationSeq, submission.action.observationSeq)
      {
        return Err(StaleValue);
      }
      ExpireController(submission.target, now);
      if submission.target !in controllers {
        return Err(LeaseExpired);
      }
      var controller := controllers[submission.target];
      if controller.controllerId != submission.action.controllerId || controller.principalId != principal.id
         || !CP.MatchesActor(controller, submission.target, actor)
      {
        return Err(Forbidden);
      }
      var refusal := ValidateParent(submission, principal, actor, controller.leaseId);
      if refusal.Some? {
        return Err(refusal.value);
      }
      var stop := if submission.target in stops then stops[submission.target] else EmergencyStop(false, 0, 0);
      return Ok(CP.Snapshot(actor, controller, stop.active, stop.revision));
    }

    method ValidateParent(submission: CP.Submission, principal: Principal, actor: Actor, lease: Id)
      returns (refusal: Option<Error>)
      ensures refusal == CP.ParentError(View(), submission, principal, actor, lease)
    {
      if submission.parent.None? {
        return None;
      }
      if submission.parent.value !in operations {
        return Some(NotFound);
      }
      var parent := operations[submission.parent.value];
      if Complete(parent) || parent.request.principal.id != principal.id
         || parent.request.target != submission.target || parent.request.binding.controllerLeaseId != lease
         || (parent.status != Accepted && parent.status != Running)
         || submission.action.taskId.None? || parent.request.action.taskId != submission.action.taskId
         || (parent.request.action.capability, parent.request.action.specDigest) !in actor.macros
      {
        return Some(Conflict);
      }
      return if |parent.children| >= MAX_CHILDREN then Some(Capacity) else None;
    }

    /** Searches the archive for a key. */
    method ArchivedKey(key: Key) returns (found: Option<Id>)
      ensures found.Some? ==> CP.ArchivedAt(View(), key, found.value)
      ensures found.None? ==> forall id :: !CP.ArchivedAt(View(), key, id)
    {
      var archived := durable.archive + staged;
      var remaining := archived.Keys;
      while remaining != {}
        invariant remaining <= archived.Keys
        invariant forall id :: id in archived && id !in remaining ==> archived[id].key != key
      {
        var id :| id in remaining;
        if archived[id].key == key {
          return Some(id);
        }
        remaining := remaining - {id};
      }
      return None;
    }

    /** Resolves an idempotency key against the hot pool and then the archive. */
    method IdempotentAction(now: int, key: Key, fingerprint: Fingerprint, io: CP.Io) returns (known: CP.Known)
      requires CI.Sane(View())
      modifies this
      ensures (View(), known) == CP.Idempotent(old(View()), now, key, fingerprint, io)
    {
      if key in requests {
        known := HotRequest(now, requests[key], fingerprint, io);
        return;
      }
      if config.store != CP.Sqlite {
        return CP.Missing;
      }
      var archived := ArchivedKey(key);
      if archived.None? {
        return CP.Missing;
      }
      ArchiveIsApart(View());
      CP.ArchivedKeyIsUnique(View(), key, archived.value);
      known := ArchivedRequest(now, archived.value, fingerprint, io);
    }

    method HotRequest(now: int, id: Id, fingerprint: Fingerprint, io: CP.Io) returns (known: CP.Known)
      modifies this
      ensures (View(), known) == CP.HotRequest(old(View()), now, id, fingerprint, io)
    {
      if id !in operations || FingerprintOf(operations[id].request) != fingerprint {
        return CP.Refused(Conflict);
      }
      RefreshOperation(now, id);
      var ok := PersistOperations(now, io);
      return if ok && id in operations then CP.Hot(operations[id]) else CP.Refused(Persistence);
    }

    method ArchivedRequest(now: int, id: Id, fingerprint: Fingerprint, io: CP.Io) returns (known: CP.Known)
      requires id !in operations && config.store == CP.Sqlite
      modifies this
      ensures (View(), known) == CP.ArchivedRequest(old(View()), now, id, fingerprint, io)
    {
      var found := LookupOperation(id);
      if found.None? {
        return CP.Refused(Persistence);
      }
      if FingerprintOf(found.value.request) != fingerprint {
        return CP.Refused(Conflict);
      }
      var ok := PersistOperations(now, io);
      return if ok then CP.Hot(found.value) else CP.Refused(Persistence);
    }

    /** Stores a checked record; if its first write fails it is taken back and the state written again. */
    method StoreOperation(o: Operation, now: int, io1: CP.Io, io2: CP.Io) returns (reply: CP.Reply)
      modifies this
      ensures (View(), reply) == CP.StoreOperation(old(View()), o, now, io1, io2)
    {
      var parent := o.request.parent;
      if parent.Some? && (parent.value !in operations || |operations[parent.value].children| >= MAX_CHILDREN) {
        return CP.Errored(Conflict);
      }
      reply := WriteNew(o, if parent.Some? then operations[parent.value].updatedAt else 0, now, io1, io2);
    }

    method WriteNew(o: Operation, parentUpdatedAt: int, now: int, io1: CP.Io, io2: CP.Io) returns (reply: CP.Reply)
      requires CP.ParentHasRoom(View(), o.request.parent)
      modifies this
      ensures (View(), reply) == CP.WriteNew(old(View()), o, parentUpdatedAt, now, io1, io2)
    {
      InsertOperation(o);
      var ok := PersistOperations(now, io1);
      if ok {
        return CP.Viewed(o);
      }
      if o.request.operationId in operations {
        WriteWithout(o, parentUpdatedAt, now, io2);
      }
      return CP.Errored(Persistence);
    }

    method WriteWithout(o: Operation, parentUpdatedAt: int, now: int, io: CP.Io)
      requires o.request.operationId in operations
      modifies this
      ensures View() == CP.Persist(CP.Rollback(old(View()), o, parentUpdatedAt), now, io).0
    {
      TakeBack(o, parentUpdatedAt);
      var _ := PersistOperations(now, io);
    }

    method InsertOperation(o: Operation)
      requires CP.ParentHasRoom(View(), o.request.parent)
      modifies this`operations, this`requests, this`dirty, this`issued
      ensures View() == CP.Insert(old(View()), o)
    {
      var id, parent := o.request.operationId, o.request.parent;
      if parent.Some? {
        operations := operations[parent.value := WithChild(operations[parent.value], id, o.request.submittedAt)];
      }
      operations := operations[id := o];
      requests := requests[o.key := id];
      issued := issued + {id};
      dirty := true;
    }

    method TakeBack(o: Operation, parentUpdatedAt: int)
      requires o.request.operationId in operations
      modifies this`operations, this`requests, this`dirty
      ensures View() == CP.Rollback(old(View()), o, parentUpdatedAt)
    {
      var id := o.request.operationId;
      var parent := operations[id].request.parent;
      operations := operations - {id};
      requests := requests - {o.key};
      if parent.Some? && parent.value in operations {
        var p := operations[parent.value];
        operations := operations[parent.value := p.(children := p.children - {id}, updatedAt := parentUpdatedAt)];
      }
      dirty := true;
    }

    /** Makes room, persists, and stores a submission whose checks all passed. */
    method AdmitSubmission(
      now: int, flight: CP.Flight, current: CP.Snapshot, binding: CP.HostBinding, decision: Decision, id: Id, io: CP.SubmitIo)
      returns (reply: CP.Reply, ghost order: seq<Id>, ghost retired: Option<Id>)
      modifies this
      ensures forall b: CP.Bound :: b.id == id && b.order == order && b.retire == retired ==>
        (View(), reply) == CP.Admit(old(View()), now, flight, current, binding, decision, b, io)
    {
      retired := None;
      order := PruneOperations(now);
      var oldest := RetireSettledOperation();
      retired := oldest;
      var ok := PersistOperations(now, io.prepare);
      if !ok {
        return CP.Errored(Persistence), order, retired;
      }
      if |operations| >= config.maxOperations {
        return CP.Errored(Capacity), order, retired;
      }
      reply := StoreOperation(CP.NewOperation(id, flight, current, binding, decision, now), now, io.store, io.undo);
    }

    /** The first section of a submission: a known key is answered, a new one takes off. */
    method BeginSubmit(now: int, principal: Principal, submission: CP.Submission, io: CP.Io) returns (reply: CP.Reply)
      requires CI.Sane(View())
      modifies this
      ensures (View(), reply) == CP.BeginSubmit(old(View()), now, principal, submission, io)
    {
      if submission.action.actorId != submission.target.actorId {
        return CP.Errored(Invalid);
      }
      var key := CP.BeginKey(principal, submission);
      var fingerprint := Fingerprint(submission.action, submission.parent, principal);
      var known := IdempotentAction(now, key, fingerprint, io);
      if known.Hot? {
        return CP.Viewed(known.operation);
      }
      if known.Refused? {
        return CP.Errored(known.error);
      }
      if key in flights {
        var other := flights[key];
        return if Fingerprint(other.submission.action, other.submission.parent, other.principal) != fingerprint
          then CP.Errored(Conflict) else CP.Waiting;
      }
      var prepared := PrepareAction(now, principal, submission);
      if prepared.Err? {
        return CP.Errored(prepared.error);
      }
      flights := flights[key := CP.Flight(principal, submission, prepared.value)];
      return CP.Done;
    }

    /**
      The second section: judge what the Host and the policy returned, check
      again, compare with the first check, and store.
     */
    method FinishSubmit(
      now: int, key: Key, binding: Result<CP.HostBinding>, decision: Option<Decision>, interrupted: bool, id: Id,
      io: CP.SubmitIo)
      returns (reply: CP.Reply, ghost order: seq<Id>, ghost retired: Option<Id>)
      requires CI.Sane(View()) && key in flights && id !in issued
      modifies this
      ensures (View(), reply)
              == CP.FinishSubmit(old(View()), now, key, CP.Bound(binding, decision, interrupted, id, order, retired), io)
    {
      order, retired := [], None;
      if binding.Err? {
        return CP.Errored(binding.error), order, retired;
      }
      if !CP.BindingOk(binding.value, flights[key]) {
        return CP.Errored(StaleValue), order, retired;
      }
      if decision.None? || (flights[key].snapshot.stopped && decision.value.result != Deny) {
        return CP.Errored(Invalid), order, retired;
      }
      if interrupted {
        return CP.Errored(Error.Interrupted), order, retired;
      }
      reply, order, retired := RecheckSubmission(now, key, flights[key], binding.value, decision.value, id, io);
    }

    /** Repeats the checks of the first section and compares what they saw. */
    method RecheckSubmission(
      now: int, key: Key, flight: CP.Flight, binding: CP.HostBinding, decision: Decision, id: Id, io: CP.SubmitIo)
      returns (reply: CP.Reply, ghost order: seq<Id>, ghost retired: Option<Id>)
      requires CI.Sane(View())
      modifies this
      ensures forall b: CP.Bound :: b.id == id && b.order == order && b.retire == retired ==>
        (View(), reply) == CP.Recheck(old(View()), now, key, flight, binding, decision, b, io)
    {
      order, retired := [], None;
      PrepareKeeps(View(), now, flight.principal, flight.submission);
      var prepared := PrepareAction(now, flight.principal, flight.submission);
      if prepared.Err? {
        return CP.Errored(prepared.error), order, retired;
      }
      if !CP.SameSnapshot(flight.snapshot, prepared.value) || binding.epoch != prepared.value.actor.epoch
         || !RecentObservationGap(prepared.value.actor.observationSeq, binding.observationSeq)
      {
        return CP.Errored(StaleValue), order, retired;
      }
      reply, order, retired := ResolveOrAdmit(now, key, flight, prepared.value, binding, decision, id, io);
    }

    method ResolveOrAdmit(
      now: int, key: Key, flight: CP.Flight, current: CP.Snapshot, binding: CP.HostBinding, decision: Decision, id: Id,
      io: CP.SubmitIo)
      returns (reply: CP.Reply, ghost order: seq<Id>, ghost retired: Option<Id>)
      requires CI.Sane(View())
      modifies this
      ensures forall b: CP.Bound :: b.id == id && b.order == order && b.retire == retired ==>
        (View(), reply) == CP.ResolveOrAdmit(old(View()), now, key, flight, current, binding, decision, b, io)
    {
      order, retired := [], None;
      var fingerprint := Fingerprint(flight.submission.action, flight.submission.parent, flight.principal);
      var known := IdempotentAction(now, key, fingerprint, io.known);
      match known
      case Hot(operation) => reply := CP.Viewed(operation);
      case Refused(error) => reply := CP.Errored(error);
      case Missing => reply, order, retired := AdmitSubmission(now, flight, current, binding, decision, id, io);
    }

    /** Resolves an exact submitted intent and starts nothing. */
    method FindActionOperation(now: int, principal: Principal, submission: CP.Submission, io: CP.Io) returns (reply: CP.Reply)
      requires CI.Sane(View())
      modifies this
      ensures (View(), reply) == CP.FindActionOperation(old(View()), now, principal, submission, io)
    {
      if !CP.HasScope(principal, ActorExecute) && !CP.HasScope(principal, HostAdmin) {
        return CP.Errored(Forbidden);
      }
      var key := CP.BeginKey(principal, submission);
      var known := IdempotentAction(now, key, Fingerprint(submission.action, submission.parent, principal), io);
      match known
      case Hot(operation) => return CP.Viewed(operation);
      case Refused(error) => return CP.Errored(error);
      case Missing => return CP.Errored(if key in flights then Unavailable else NotFound);
    }

    // ---------------------------------------------------------------- confirmation

    method StalePending(now: int, id: Id, error: Error, io: CP.Io) returns (reply: CP.Reply)
      requires id in operations
      modifies this
      ensures (View(), reply) == CP.StaleAndPersist(old(View()), now, id, error, io)
    {
      operations := operations[id := Staled(operations[id], now)];
      dirty := true;
      var ok := PersistOperations(now, io);
      return CP.Errored(if ok then error else Persistence);
    }

    /** The first section of a confirmation: a record that passes its checks waits for the Host. */
    method BeginConfirm(now: int, approver: Principal, id: Id, io: CP.Io) returns (reply: CP.Reply)
      modifies this
      ensures (View(), reply) == CP.BeginConfirm(old(View()), now, approver, id, io)
    {
      if id !in operations {
        return CP.Errored(NotFound);
      }
      var o := operations[id];
      if o.status != AwaitingConfirmation {
        return if Complete(o) then CP.Viewed(o) else CP.Errored(Conflict);
      }
      if id in confirming {
        return CP.Errored(Conflict);
      }
      var authorized := AuthorizeActor(now, approver, o.request.target, ActorControl);
      if authorized.Err? {
        return CP.Errored(authorized.error);
      }
      reply := AwaitApproval(now, id, io);
    }

    method AwaitApproval(now: int, id: Id, io: CP.Io) returns (reply: CP.Reply)
      requires id in operations
      modifies this
      ensures (View(), reply) == CP.AwaitApproval(old(View()), now, id, io)
    {
      var request := operations[id].request;
      var prepared := PrepareAction(now, request.principal, CP.SubmissionOf(request));
      if id !in operations {
        return CP.Errored(NotFound);
      }
      if prepared.Err? {
        reply := StalePending(now, id, prepared.error, io);
        return;
      }
      if prepared.value.stopped || prepared.value.controller.leaseId != request.binding.controllerLeaseId {
        reply := StalePending(now, id, StaleValue, io);
        return;
      }
      confirming := confirming[id := request];
      return CP.Done;
    }

    /** A decision other than `Allow` is written onto the waiting record. */
    method RecordDecision(now: int, id: Id, decision: Decision, io: CP.Io) returns (reply: CP.Reply)
      requires decision.result != Allow
      modifies this
      ensures (View(), reply) == CP.RecordDecision(old(View()), now, id, decision, io)
    {
      if id !in operations {
        return CP.Errored(NotFound);
      }
      if operations[id].status != AwaitingConfirmation {
        return CP.Viewed(operations[id]);
      }
      var o := DecisionRecorded(operations[id], decision, now);
      operations := operations[id := o];
      dirty := true;
      var ok := PersistOperations(now, io);
      return if ok then CP.Viewed(o) else CP.Errored(Persistence);
    }

    /** The last section of a confirmation: check again and queue, or end the record. */
    method ApproveOperation(
      now: int, id: Id, request: ControlRequest, epoch: Epoch, seen: nat, decision: Decision, io1: CP.Io, io2: CP.Io)
      returns (reply: CP.Reply)
      modifies this
      ensures (View(), reply) == CP.AllowConfirmed(old(View()), now, id, request, epoch, seen, decision, io1, io2)
    {
      if id !in operations {
        return CP.Errored(NotFound);
      }
      if operations[id].status != AwaitingConfirmation {
        return CP.Viewed(operations[id]);
      }
      var prepared := PrepareAction(now, request.principal, CP.SubmissionOf(request));
      if id !in operations {
        return CP.Errored(NotFound);
      }
      if prepared.Err? {
        reply := StalePending(now, id, prepared.error, io1);
        return;
      }
      var current := prepared.value;
      if current.stopped || current.actor.epoch != epoch || current.actor.observationSeq != seen
         || current.controller.leaseId != operations[id].request.binding.controllerLeaseId
      {
        reply := StalePending(now, id, StaleValue, io1);
        return;
      }
      reply := QueueConfirmed(now, id, decision, io1, io2);
    }

    /** What the Host observed and the policy decided is applied to the waiting record. */
    method FinishConfirm(now: int, id: Id, seen: CP.Observed, io1: CP.Io, io2: CP.Io) returns (reply: CP.Reply)
      modifies this
      ensures (View(), reply) == CP.FinishConfirm(old(View()), now, id, seen, io1, io2)
    {
      if id !in confirming {
        return CP.Errored(Invalid);
      }
      if seen.snapshot.Err? {
        return CP.Errored(seen.snapshot.error);
      }
      var request, epoch, sequence := confirming[id], seen.snapshot.value.0, seen.snapshot.value.1;
      if epoch != request.bound.request.expectedEpoch || sequence != request.bound.observationSeq {
        if id !in operations || operations[id].status != AwaitingConfirmation {
          return CP.Errored(StaleValue);
        }
        reply := StalePending(now, id, StaleValue, io1);
      } else if !seen.approved || seen.decision.None? {
        reply := CP.Errored(Forbidden);
      } else if seen.decision.value.result != Allow {
        reply := RecordDecision(now, id, seen.decision.value, io1);
      } else {
        reply := ApproveOperation(now, id, request, epoch, sequence, seen.decision.value, io1, io2);
      }
    }

    method QueueConfirmed(now: int, id: Id, decision: Decision, io1: CP.Io, io2: CP.Io) returns (reply: CP.Reply)
      requires id in operations
      modifies this
      ensures (View(), reply) == CP.QueueConfirmed(old(View()), now, id, decision, io1, io2)
    {
      var o := Confirmed(operations[id], decision, now);
      operations := operations[id := o];
      dirty := true;
      var ok := PersistOperations(now, io1);
      if ok {
        return CP.Viewed(o);
      }
      if id in operations {
        operations := operations[id := Staled(operations[id], now)];
        dirty := true;
        ok := PersistOperations(now, io2);
      }
      return CP.Errored(Persistence);
    }

    // ---------------------------------------------------------------- one request after the other

    method ServeHost(now: int, e: CR.HostEvent) returns (reply: CP.Reply, ghost done: CR.HostEvent)
      modifies this
      ensures SameHostEvent(e, done) && (View(), reply) == CR.HostSection(old(View()), now, done)
    {
      done := e;
      match e
      case Register(r, leaseId, io1, io2) => reply := RegisterHost(now, r, leaseId, io1, io2);
      case Renew(hostId, leaseId, io1) => reply := RenewHost(now, hostId, leaseId, io1);
      case Unregister(hostId, leaseId, io1, io2) => reply := UnregisterHost(now, hostId, leaseId, io1, io2);
      case Publish(hostId, leaseId, worldId, world) => reply := PublishWorld(now, hostId, leaseId, worldId, world);
      case Poll(hostId, leaseId, limit, gateway, _, _, io1, io2) =>
        ghost var order, queue;
        reply, order, queue := PollHost(now, hostId, leaseId, limit, gateway, io1, io2);
        done := CR.Poll(hostId, leaseId, limit, gateway, order, queue, io1, io2);
      case Acknowledge(hostId, leaseId, ack, io1, io2) => reply := AcknowledgeHost(now, hostId, leaseId, ack, io1, io2);
      case Run(hostId, leaseId, run, io1) => reply := ReportHostRun(now, hostId, leaseId, run, io1);
      case Report(hostId, leaseId, outcome, output, io1, io2) =>
        reply := ReportHostResult(now, hostId, leaseId, outcome, output, io1, io2);
    }

    method ServeControl(now: int, e: CR.ControlEvent) returns (reply: CP.Reply)
      requires e.Acquire? ==> e.leaseId !in issued
      modifies this
      ensures (View(), reply) == CR.ControlSection(old(View()), now, e)
    {
      match e
      case Acquire(principal, key, controllerId, ttl, leaseId, io1) =>
        reply := AcquireController(now, principal, key, controllerId, ttl, leaseId, io1);
      case Extend(principal, key, leaseId, ttl, io1) => reply := RenewController(now, principal, key, leaseId, ttl, io1);
      case Release(principal, key, leaseId, io1) => reply := ReleaseController(now, principal, key, leaseId, io1);
      case Stop(principal, key, active, io1) => reply := SetActorEmergencyStop(now, principal, key, active, io1);
      case Inspect(principal, key, io1) => reply := GetController(now, principal, key, io1);
    }

    method ServeAction(now: int, e: CR.ActionEvent) returns (reply: CP.Reply, ghost done: CR.ActionEvent)
      requires CI.Sane(View()) && (e.Store? ==> e.key in flights && e.bound.id !in issued)
      modifies this
      ensures SameActionEvent(e, done) && (View(), reply) == CR.ActionSection(old(View()), now, done)
    {
      done := e;
      match e
      case Submit(principal, submission, io1) => reply := BeginSubmit(now, principal, submission, io1);
      case Store(key, b, ios) =>
        ghost var order, retired;
        reply, order, retired := FinishSubmit(now, key, b.binding, b.decision, b.interrupted, b.id, ios);
        done := CR.Store(key, b.(order := order, retire := retired), ios);
      case Land(key) =>
        flights := flights - {key};
        reply := CP.Done;
      case Find(principal, submission, io1) => reply := FindActionOperation(now, principal, submission, io1);
      case AskApproval(approver, id, io1) => reply := BeginConfirm(now, approver, id, io1);
      case Approve(id, seen, io1, io2) => reply := FinishConfirm(now, id, seen, io1, io2);
      case EndApproval(id) =>
        confirming := confirming - {id};
        reply := CP.Done;
    }

    method ServeClient(now: int, e: CR.ClientEvent) returns (reply: CP.Reply, ghost done: CR.ClientEvent)
      modifies this
      ensures SameClientEvent(e, done) && (View(), reply) == CR.ClientSection(old(View()), now, done)
    {
      done := e;
      match e
      case Read(principal, id, io1) => reply := ReadOperation(now, principal, id, io1);
      case Cancel(principal, id, io1, io2) => reply := CancelOperation(now, principal, id, io1, io2);
      case AckOutcome(id, sink, io1) => reply := AckOutcome(now, id, sink, io1);
      case List(principal, _, io1) =>
        ghost var order;
        reply, order := ListOperations(now, principal, io1);
        done := CR.List(principal, order, io1);
      case Write(io1) =>
        var _ := PersistOperations(now, io1);
        reply := CP.Done;
      case Checkpoint(io1) =>
        dirty := true;
        var ok := PersistOperations(now, io1);
        reply := if ok then CP.Done else CP.Errored(Persistence);
    }

    method ServeSection(now: int, e: CR.Event) returns (reply: CP.Reply, ghost done: CR.Event)
      requires CI.Sane(View()) && Servable(View(), e)
      modifies this
      ensures SameEvent(e, done) && (View(), reply) == CR.Section(old(View()), now, done)
    {
      done := e;
      match e
      case OnHost(host) =>
        ghost var event;
        reply, event := ServeHost(now, host);
        done := CR.OnHost(event);
      case OnControl(control) => reply := ServeControl(now, control);
      case OnAction(action) =>
        ghost var event;
        reply, event := ServeAction(now, action);
        done := CR.OnAction(event);
      case OnClient(client) =>
        ghost var event;
        reply, event := ServeClient(now, client);
        done := CR.OnClient(event);
    }

    /**
      Whatever request the object serves, its next state is the one of that event
      of the state machine, keeps the invariant, and hands out only records that
      their Host may work on.
     */
    method Serve(now: int, e: CR.Event) returns (reply: CP.Reply, ghost done: CR.Event)
      requires CI.Sane(View()) && Servable(View(), e)
      modifies this
      ensures SameEvent(e, done) && CR.Step(CR.Up(old(View())), now, done) == (CR.Up(View()), reply)
      ensures CI.Sane(View())
      ensures e.OnHost? && e.host.Poll? ==> CH.DeliversFenced(View(), now, e.host.hostId, reply)
    {
      reply, done := ServeSection(now, e);
      ServedKeeps(old(View()), now, e, done, View(), reply);
    }
  }

  // ---------------------------------------------------------------- requests and events

  /** The event is a request up to the order in which the service met its own records. */
  predicate SameHostEvent(e: CR.HostEvent, done: CR.HostEvent) {
    if e.Poll? && done.Poll? then done == e.(order := done.order, queue := done.queue) else done == e
  }

  predicate SameActionEvent(e: CR.ActionEvent, done: CR.ActionEvent) {
    if e.Store? && done.Store? then done == e.(bound := e.bound.(order := done.bound.order, retire := done.bound.retire))
    else done == e
  }

  predicate SameClientEvent(e: CR.ClientEvent, done: CR.ClientEvent) {
    if e.List? && done.List? then done == e.(order := done.order) else done == e
  }

  predicate SameEvent(e: CR.Event, done: CR.Event) {
    match (e, done)
    case (OnHost(a), OnHost(b)) => SameHostEvent(a, b)
    case (OnAction(a), OnAction(b)) => SameActionEvent(a, b)
    case (OnClient(a), OnClient(b)) => SameClientEvent(a, b)
    case _ => done == e
  }

  /** A request brings identifiers that are not in use, and finishes a submission that it began. */
  predicate Servable(s: CP.State, e: CR.Event) {
    match e
    case OnControl(Acquire(_, _, _, _, leaseId, _)) => leaseId !in s.issued
    case OnAction(Store(key, b, _)) => key in s.flights && b.id !in s.issued
    case Crash => false
    case Open => false
    case _ => true
  }

  lemma ServedKeeps(s: CP.State, now: int, e: CR.Event, done: CR.Event, t: CP.State, reply: CP.Reply)
    requires CI.Sane(s) && CR.Section(s, now, done) == (t, reply) && SameEvent(e, done) && Servable(s, e)
    ensures CI.Sane(t) && CR.Step(CR.Up(s), now, done) == (CR.Up(t), reply)
    ensures e.OnHost? && e.host.Poll? ==> CH.DeliversFenced(t, now, e.host.hostId, reply)
  {
    CR.SectionKeeps(s, now, done);
    if e.OnHost? && e.host.Poll? { PollDelivers(s, now, done.host); }
  }

  lemma PollDelivers(s: CP.State, now: int, e: CR.HostEvent)
    requires CI.Sane(s) && e.Poll?
    ensures CH.DeliversFenced(CR.HostSection(s, now, e).0, now, e.hostId, CR.HostSection(s, now, e).1)
  {
    assert CI.Inv(s);
    CS.Begin(s, {});
    CH.PollHostOk(s, now, e.hostId, e.leaseId, e.limit, e.gateway, e.order, e.queue, e.io1, e.io2);
  }

  lemma PrepareKeeps(s: CP.State, now: int, principal: Principal, submission: CP.Submission)
    requires CI.Sane(s)
    ensures CI.Sane(CP.Prepare(s, now, principal, submission).0)
  {
    assert CI.Inv(s);
    CS.Begin(s, {});
    CA.PrepareStep(s, s, now, principal, submission);
    assert CI.Reach(s, CP.Prepare(s, now, principal, submission).0, {}, {});
  }

  /** Archived keys are unique and no archived record is hot. */
  lemma ArchiveIsApart(s: CP.State)
    requires CI.Sane(s)
    ensures CP.KeysDistinct(CP.Archived(s)) && CP.Archived(s).Keys !! s.operations.Keys
  {
    assert CI.Inv(s);
    forall id | id in s.operations ensures id !in CP.Archived(s) {
      assert CI.ApartAt(s.operations, CP.Archived(s), id, id);
    }
  }

  lemma QueueIsDistinct(ops: map<Id, Operation>, hostId: Id, queue: seq<Id>)
    requires CP.IsQueue(ops, hostId, queue)
    ensures Distinct(queue) && Hot(ops, queue)
  {
    forall i, j ensures DifferAt(queue, i, j) { assert 0 <= i < j < |queue| ==> CP.Before(ops, queue[i], queue[j]); }
  }

  lemma DeliverNone(ops: map<Id, Operation>, now: int)
    ensures CP.DeliverOps(ops, [], now) == ops
  {
  }

  predicate DifferAt(queue: seq<Id>, i: int, j: int) {
    0 <= i < j < |queue| ==> queue[i] != queue[j]
  }

  ghost predicate Distinct(queue: seq<Id>) {
    forall i, j {:trigger DifferAt(queue, i, j)} :: DifferAt(queue, i, j)
  }

  predicate HotAt(ops: map<Id, Operation>, queue: seq<Id>, i: int) {
    0 <= i < |queue| ==> queue[i] in ops
  }

  ghost predicate Hot(ops: map<Id, Operation>, queue: seq<Id>) {
    forall i {:trigger HotAt(ops, queue, i)} :: HotAt(ops, queue, i)
  }

  predicate AllHot(ops: map<Id, Operation>, queue: seq<Id>) {
    forall i :: 0 <= i < |queue| ==> queue[i] in ops
  }

  lemma HotMeansAll(ops: map<Id, Operation>, queue: seq<Id>)
    requires Hot(ops, queue)
    ensures AllHot(ops, queue)
  {
    forall i | 0 <= i < |queue| ensures queue[i] in ops { assert HotAt(ops, queue, i); }
  }

  // ---------------------------------------------------------------- the two loops of a batch

  /** The cancellations found in the first `i` records of the queue, and those still to come. */
  ghost predicate CancelledSoFar(ops: map<Id, Operation>, queue: seq<Id>, limit: nat, i: int, found: seq<Id>) {
    && 0 <= i <= |queue| && |found| <= limit && AllHot(ops, queue)
    && CP.Cancellations(ops, queue, limit) == found + CP.Cancellations(ops, queue[i..], limit - |found|)
  }

  lemma CancelOneMore(ops: map<Id, Operation>, queue: seq<Id>, limit: nat, i: int, found: seq<Id>)
    requires CancelledSoFar(ops, queue, limit, i, found) && i < |queue| && |found| < limit
    ensures CancelledSoFar(ops, queue, limit, i + 1,
                           if ops[queue[i]].cancel && !Complete(ops[queue[i]]) then found + [queue[i]] else found)
  {
    assert queue[i..][1..] == queue[i + 1..];
    if ops[queue[i]].cancel && !Complete(ops[queue[i]]) {
      var rest := CP.Cancellations(ops, queue[i + 1..], limit - |found| - 1);
      assert found + ([queue[i]] + rest) == (found + [queue[i]]) + rest;
    }
  }

  lemma CancelledAll(ops: map<Id, Operation>, queue: seq<Id>, limit: nat, i: int, found: seq<Id>)
    requires CancelledSoFar(ops, queue, limit, i, found) && (i == |queue| || |found| == limit)
    ensures CP.Cancellations(ops, queue, limit) == found
  {
  }

  predicate SeenBefore(queue: seq<Id>, i: int, id: Id) {
    exists k :: 0 <= k < i && k < |queue| && queue[k] == id
  }

  ghost predicate PickedAt(ops: map<Id, Operation>, queue: seq<Id>, i: int, picked: seq<Id>, id: Id) {
    id in picked ==> id in ops && SeenBefore(queue, i, id)
  }

  ghost predicate PickedBefore(ops: map<Id, Operation>, queue: seq<Id>, i: int, picked: seq<Id>) {
    forall id {:trigger PickedAt(ops, queue, i, picked, id)} :: PickedAt(ops, queue, i, picked, id)
  }

  /** What has been picked from the first `i` records of the queue, and what is still to come. */
  ghost predicate PickedSoFar(ops: map<Id, Operation>, queue: seq<Id>, room: nat, i: int, picked: seq<Id>) {
    && 0 <= i <= |queue| && |picked| <= room && AllHot(ops, queue)
    && CP.Picked(ops, queue, room) == picked + CP.Picked(ops, queue[i..], room - |picked|)
    && PickedBefore(ops, queue, i, picked)
    && (forall id :: id in picked ==> id in ops)
  }

  function WithPicked(ops: map<Id, Operation>, picked: seq<Id>, id: Id): seq<Id>
    requires id in ops
  {
    if Deliverable(ops[id]) then picked + [id] else picked
  }

  lemma PickedFromNext(ops: map<Id, Operation>, queue: seq<Id>, room: nat, i: int, picked: seq<Id>)
    requires 0 <= i < |queue| && |picked| < room && AllHot(ops, queue)
    requires CP.Picked(ops, queue, room) == picked + CP.Picked(ops, queue[i..], room - |picked|)
    ensures var next := WithPicked(ops, picked, queue[i]);
            CP.Picked(ops, queue, room) == next + CP.Picked(ops, queue[i + 1..], room - |next|)
  {
    var tail := queue[i..];
    assert tail[0] == queue[i] && tail[1..] == queue[i + 1..];
    if Deliverable(ops[queue[i]]) {
      var rest := CP.Picked(ops, queue[i + 1..], room - |picked| - 1);
      assert CP.Picked(ops, tail, room - |picked|) == [queue[i]] + rest;
      assert picked + ([queue[i]] + rest) == (picked + [queue[i]]) + rest;
    }
  }

  lemma PickedBeforeNext(ops: map<Id, Operation>, queue: seq<Id>, i: int, picked: seq<Id>)
    requires 0 <= i < |queue| && AllHot(ops, queue) && Distinct(queue) && PickedBefore(ops, queue, i, picked)
    ensures PickedBefore(ops, queue, i + 1, WithPicked(ops, picked, queue[i])) && queue[i] !in picked
  {
    var next, j := WithPicked(ops, picked, queue[i]), i + 1;
    forall id ensures PickedAt(ops, queue, j, next, id) {
      assert PickedAt(ops, queue, i, picked, id);
      if id in picked {
        var k :| 0 <= k < i && k < |queue| && queue[k] == id;
        assert queue[k] == id && k < j;
      }
    }
    assert PickedAt(ops, queue, i, picked, queue[i]);
    assert !SeenBefore(queue, i, queue[i]) by {
      forall k | 0 <= k < i ensures queue[k] != queue[i] { assert DifferAt(queue, k, i); }
    }
  }

  lemma DeliveredNext(ops: map<Id, Operation>, picked: seq<Id>, id: Id, now: int)
    requires id in ops && id !in picked && forall other :: other in picked ==> other in ops
    ensures CP.DeliverOps(ops, picked, now)[id] == ops[id]
    ensures var next := WithPicked(ops, picked, id);
            Deliverable(ops[id]) ==>
              && CP.DeliverOps(ops, next, now) == CP.DeliverOps(ops, picked, now)[id := Redelivered(ops[id], now)]
              && Handed(ops, next, now) == Handed(ops, picked, now) + [Redelivered(ops[id], now)]
  {
    DeliverOneMore(ops, picked, id, now);
    HandedOneMore(ops, picked, id, now);
  }

  /** One more record of the queue is looked at, and delivered if it may be. */
  lemma PickOneMore(ops: map<Id, Operation>, queue: seq<Id>, room: nat, i: int, picked: seq<Id>, now: int)
    requires PickedSoFar(ops, queue, room, i, picked) && i < |queue| && |picked| < room && Distinct(queue)
    ensures CP.DeliverOps(ops, picked, now)[queue[i]] == ops[queue[i]]
    ensures var next := WithPicked(ops, picked, queue[i]);
            && PickedSoFar(ops, queue, room, i + 1, next)
            && (Deliverable(ops[queue[i]]) ==>
                  && CP.DeliverOps(ops, next, now) == CP.DeliverOps(ops, picked, now)[queue[i] := Redelivered(ops[queue[i]], now)]
                  && Handed(ops, next, now) == Handed(ops, picked, now) + [Redelivered(ops[queue[i]], now)])
  {
    PickedFromNext(ops, queue, room, i, picked);
    PickedBeforeNext(ops, queue, i, picked);
    DeliveredNext(ops, picked, queue[i], now);
  }

  lemma PickedAll(ops: map<Id, Operation>, queue: seq<Id>, room: nat, i: int, picked: seq<Id>)
    requires PickedSoFar(ops, queue, room, i, picked) && (i == |queue| || |picked| == room)
    ensures CP.Picked(ops, queue, room) == picked
  {
  }

  /** The delivered records in the order in which they are handed out. */
  function Handed(ops: map<Id, Operation>, picked: seq<Id>, now: int): seq<Operation>
    requires forall id :: id in picked ==> id in ops
  {
    seq(|picked|, k requires 0 <= k < |picked| => Redelivered(ops[picked[k]], now))
  }

  lemma HandedOneMore(ops: map<Id, Operation>, picked: seq<Id>, id: Id, now: int)
    requires id in ops && forall other :: other in picked ==> other in ops
    ensures Handed(ops, picked + [id], now) == Handed(ops, picked, now) + [Redelivered(ops[id], now)]
  {
  }

  lemma HandedAreRecords(ops: map<Id, Operation>, picked: seq<Id>, now: int)
    requires forall id :: id in picked ==> id in ops
    ensures Handed(ops, picked, now) == CP.RecordsOf(CP.DeliverOps(ops, picked, now), picked)
  {
    forall k | 0 <= k < |picked| ensures CP.DeliverOps(ops, picked, now)[picked[k]] == Redelivered(ops[picked[k]], now) {
      assert picked[k] in picked;
    }
  }

  lemma DeliverOneMore(ops: map<Id, Operation>, picked: seq<Id>, id: Id, now: int)
    requires id in ops && id !in picked
    ensures CP.DeliverOps(ops, picked, now)[id := Redelivered(ops[id], now)] == CP.DeliverOps(ops, picked + [id], now)
  {
  }

  predicate Older(ops: map<Id, Operation>, a: Id, b: Id)
    requires a in ops && b in ops
  {
    ops[a].updatedAt < ops[b].updatedAt || (ops[a].updatedAt == ops[b].updatedAt && a < b)
  }
}
