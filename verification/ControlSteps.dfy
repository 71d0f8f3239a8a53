/**
  The building blocks of the critical sections, each shown to lead from one
  good intermediate state to another.
 */
module ControlSteps {
  import opened ControlTypes
  import opened OperationRecord
  import opened ControlPlane
  import opened ControlInvariants

  // ---------------------------------------------------------------- composing changes

  lemma MemoryEvolvesTransitive(a: State, b: State, c: State)
    requires MemoryEvolves(a, b) && MemoryEvolves(b, c) && a.issued <= b.issued && a.config == b.config && Issued(a)
    ensures MemoryEvolves(a, c)
  {
    forall id ensures EvolvesAt(a, c, id) { assert EvolvesAt(a, b, id) && EvolvesAt(b, c, id); }
  }

  lemma RowsEvolveTransitive(i: set<Id>, j: set<Id>, a: Durable, b: Durable, c: Durable)
    requires RowsEvolve(i, a, b) && RowsEvolve(j, b, c) && i <= j
    requires a.operations.Keys <= i && a.archive.Keys <= i
    ensures RowsEvolve(i, a, c)
  {
    forall id ensures RowEvolves(i, a, c, id) { assert RowEvolves(i, a, b, id) && RowEvolves(j, b, c, id); }
  }

  lemma Begin(s: State, reported: set<Id>)
    requires Inv(s)
    ensures Good(s, s, reported)
  {
    forall id ensures EvolvesAt(s, s, id) { }
    forall id ensures RowEvolves(s.issued, s.durable, s.durable, id) { }
    forall id ensures UnknownAt(s.operations, s.operations, reported, id) { }
    assert Reach(s, s, {}, reported);
  }

  lemma KeepsUnknownTransitive(a: map<Id, Operation>, b: map<Id, Operation>, c: map<Id, Operation>, reported: set<Id>)
    requires KeepsUnknown(a, b, reported) && KeepsUnknown(b, c, reported)
    ensures KeepsUnknown(a, c, reported)
  {
    forall id ensures UnknownAt(a, c, reported, id) { assert UnknownAt(a, b, reported, id) && UnknownAt(b, c, reported, id); }
  }

  /** Memory that evolves over an unchanged store stays backed by it. */
  lemma BackedKept(s: State, s': State, skip: set<Id>)
    requires Backed(s, skip) && MemoryEvolves(s, s') && s'.config == s.config && s'.durable == s.durable
    requires Issued(s) && Issued(s') && s'.issued == s.issued
    ensures Backed(s', skip)
  {
    forall id ensures BackedAt(s', skip, id) { assert BackedAt(s, skip, id) && EvolvesAt(s, s', id); }
  }

  /** One more step of a section, over an unchanged durable store and without new identifiers. */
  lemma Onward(s0: State, s: State, s': State, skip: set<Id>, reported: set<Id>)
    requires Reach(s0, s, skip, reported) && Core(s') && MemoryEvolves(s, s')
    requires s'.config == s.config && s'.durable == s.durable && s'.issued == s.issued
    requires KeepsUnknown(s.operations, s'.operations, reported) && KeepsHistory(s, s', reported)
    ensures Reach(s0, s', skip, reported)
  {
    assert Backed(s', skip) by { BackedKept(s, s', skip); }
    assert MemoryEvolves(s0, s') by { MemoryEvolvesTransitive(s0, s, s'); }
    assert KeepsUnknown(s0.operations, s'.operations, reported) by {
      KeepsUnknownTransitive(s0.operations, s.operations, s'.operations, reported);
    }
  }

  // ---------------------------------------------------------------- pointwise changes

  ghost predicate KeepsAt(ops: map<Id, Operation>, ops': map<Id, Operation>, id: Id) {
    id in ops && id in ops' ==> Keeps(ops[id], ops'[id])
  }

  ghost predicate KeepsAll(ops: map<Id, Operation>, ops': map<Id, Operation>) {
    ops'.Keys == ops.Keys && forall id {:trigger KeepsAt(ops, ops', id)} :: KeepsAt(ops, ops', id)
  }

  /** The links, owners and keys of a record; what pool, index and forest depend on. */
  predicate SameShape(o: Operation, o': Operation) {
    SameIdentity(o, o') && o'.children == o.children
  }

  ghost predicate ShapeAt(ops: map<Id, Operation>, ops': map<Id, Operation>, id: Id) {
    id in ops && id in ops' ==> SameShape(ops[id], ops'[id])
  }

  ghost predicate ShapeAll(ops: map<Id, Operation>, ops': map<Id, Operation>) {
    ops'.Keys == ops.Keys && forall id {:trigger ShapeAt(ops, ops', id)} :: ShapeAt(ops, ops', id)
  }

  ghost predicate FollowsAt(ops: map<Id, Operation>, ops': map<Id, Operation>, id: Id) {
    id in ops' ==> id in ops && Follows(ops[id], ops'[id])
  }

  ghost predicate FollowsAll(ops: map<Id, Operation>, ops': map<Id, Operation>) {
    forall id {:trigger FollowsAt(ops, ops', id)} :: FollowsAt(ops, ops', id)
  }

  lemma KeepsFollows(ops: map<Id, Operation>, ops': map<Id, Operation>)
    requires KeepsAll(ops, ops')
    ensures FollowsAll(ops, ops') && ShapeAll(ops, ops')
  {
    forall id ensures FollowsAt(ops, ops', id) && ShapeAt(ops, ops', id) { assert KeepsAt(ops, ops', id); }
  }

  lemma RecordsKept(ops: map<Id, Operation>, ops': map<Id, Operation>)
    requires Records(ops) && FollowsAll(ops, ops')
    ensures Records(ops')
  {
    forall id ensures RecordAt(ops', id) { assert RecordAt(ops, id) && FollowsAt(ops, ops', id); }
  }

  lemma ForestKept(ops: map<Id, Operation>, ops': map<Id, Operation>)
    requires Forest(ops) && ShapeAll(ops, ops')
    ensures Forest(ops')
  {
    forall id ensures LinkedUp(ops', id) {
      assert LinkedUp(ops, id) && ShapeAt(ops, ops', id);
      if id in ops && ops[id].request.parent.Some? { assert ShapeAt(ops, ops', ops[id].request.parent.value); }
    }
    forall id ensures LinkedDown(ops', id) {
      assert LinkedDown(ops, id) && ShapeAt(ops, ops', id);
      forall child ensures ChildOf(ops', id, child) { assert ChildOf(ops, id, child) && ShapeAt(ops, ops', child); }
    }
    forall ids | ParentClosed(ops', ids) ensures false {
      forall id ensures ParentWithin(ops, ids, id) { assert ParentWithin(ops', ids, id) && ShapeAt(ops, ops', id); }
      assert ParentClosed(ops, ids);
    }
  }

  lemma IndexKept(ops: map<Id, Operation>, ops': map<Id, Operation>, requests: map<Key, Id>)
    requires ShapeAll(ops, ops') && KeyIndex(ops, requests)
    ensures KeyIndex(ops', requests)
  {
    forall id ensures IndexedAt(ops', requests, id) { assert IndexedAt(ops, requests, id) && ShapeAt(ops, ops', id); }
    forall key ensures ResolvedAt(ops', requests, key) {
      assert ResolvedAt(ops, requests, key);
      if key in requests { assert ShapeAt(ops, ops', requests[key]); }
    }
  }

  lemma ApartKept(ops: map<Id, Operation>, ops': map<Id, Operation>, cold: map<Id, Operation>)
    requires ShapeAll(ops, ops') && Apart(ops, cold)
    ensures Apart(ops', cold)
  {
    forall a, b ensures ApartAt(ops', cold, a, b) { assert ApartAt(ops, cold, a, b) && ShapeAt(ops, ops', a); }
  }

  lemma PoolKept(s: State, s': State)
    requires Pool(s) && ShapeAll(s.operations, s'.operations) && Records(s'.operations)
    requires s'.requests == s.requests && Archived(s') == Archived(s)
    ensures Pool(s')
  {
    ForestKept(s.operations, s'.operations);
    IndexKept(s.operations, s'.operations, s.requests);
    ApartKept(s.operations, s'.operations, Archived(s));
  }

  lemma FrameKept(s: State, s': State)
    requires Frame(s) && s'.operations.Keys == s.operations.Keys
    requires s'.config == s.config && s'.durable == s.durable && s'.staged == s.staged && s'.issued == s.issued
    requires s'.flights == s.flights && s'.loose <= s.issued && s'.defied.Keys <= s.issued && s'.revived <= s.issued
    ensures Frame(s')
  {
    assert |s'.operations.Keys| == |s.operations.Keys|;
  }

  lemma MemoryEvolvesPointwise(s: State, s': State)
    requires FollowsAll(s.operations, s'.operations) && s'.config == s.config && Archived(s') == Archived(s)
    requires s'.operations.Keys == s.operations.Keys
    ensures MemoryEvolves(s, s')
  {
    forall id ensures EvolvesAt(s, s', id) { assert FollowsAt(s.operations, s'.operations, id); }
  }

  lemma GuardsKept(s: State, s': State)
    requires Guards(s) && FollowsAll(s.operations, s'.operations) && SameAuthorities(s, s')
    ensures Guards(s')
  {
    forall key ensures ControllerAt(s', key) { assert ControllerAt(s, key); }
    forall id ensures FencedAt(s', id) { assert FencedAt(s, id) && FollowsAt(s.operations, s'.operations, id); }
    forall id ensures HeldAt(s', id) { assert HeldAt(s, id) && FollowsAt(s.operations, s'.operations, id); }
  }

  /** Everything besides the records that the guards speak of. */
  predicate SameAuthorities(s: State, s': State) {
    && s'.controllers == s.controllers && s'.hosts == s.hosts && s'.stops == s.stops
    && s'.issued == s.issued && s'.loose == s.loose && s'.defied == s.defied && s'.revived == s.revived
  }

  /** Records change within their frame while nothing else does. */
  lemma ChangeRecords(s: State, s': State)
    requires Core(s) && KeepsAll(s.operations, s'.operations)
    requires s' == s.(operations := s'.operations, dirty := s'.dirty)
    ensures Core(s') && MemoryEvolves(s, s')
  {
    KeepsFollows(s.operations, s'.operations);
    RecordsKept(s.operations, s'.operations);
    PoolKept(s, s');
    GuardsKept(s, s');
    FrameKept(s, s');
    MemoryEvolvesPointwise(s, s');
  }

  lemma SweepStep(s0: State, s: State, reported: set<Id>, sweep: Sweep, now: int)
    requires Good(s0, s, reported)
    ensures Good(s0, SweepState(s, sweep, now), reported)
  {
    assert Reach(s0, s, {}, reported);
    var s' := SweepState(s, sweep, now);
    forall id
      ensures KeepsAt(s.operations, s'.operations, id) && UnknownAt(s.operations, s'.operations, reported, id)
    {
      assert RecordAt(s.operations, id);
      if id in s.operations { SweptKeeps(sweep, now, s.operations[id]); }
    }
    ChangeRecords(s, s');
    Onward(s0, s, s', {}, reported);
    assert Reach(s0, s', {}, reported);
  }

  lemma SetStep(s0: State, s: State, reported: set<Id>, id: Id, o: Operation)
    requires Good(s0, s, reported) && id in s.operations && Keeps(s.operations[id], o)
    requires ReconciliationPending(s.operations[id]) ==> ReconciliationPending(o) || id in reported
    ensures Good(s0, SetOperation(s, id, o), reported)
  {
    assert Reach(s0, s, {}, reported);
    var s' := SetOperation(s, id, o);
    forall other
      ensures KeepsAt(s.operations, s'.operations, other) && UnknownAt(s.operations, s'.operations, reported, other)
    {
      assert RecordAt(s.operations, other);
    }
    ChangeRecords(s, s');
    Onward(s0, s, s', {}, reported);
    assert Reach(s0, s', {}, reported);
  }

  lemma DeliverStep(s0: State, s: State, reported: set<Id>, picked: seq<Id>, now: int)
    requires Good(s0, s, reported)
    requires forall id :: id in picked ==> id in s.operations && Deliverable(s.operations[id])
    ensures Good(s0, s.(operations := DeliverOps(s.operations, picked, now)), reported)
  {
    assert Reach(s0, s, {}, reported);
    var s' := s.(operations := DeliverOps(s.operations, picked, now));
    forall id
      ensures KeepsAt(s.operations, s'.operations, id) && UnknownAt(s.operations, s'.operations, reported, id)
    {
      assert RecordAt(s.operations, id);
      if id in picked { RedeliveredKeeps(s.operations[id], now); }
    }
    ChangeRecords(s, s');
    Onward(s0, s, s', {}, reported);
    assert Reach(s0, s', {}, reported);
  }

  // ---------------------------------------------------------------- ending controller leases

  lemma EndLeasesKeeps(ops: map<Id, Operation>, leases: set<Id>, now: int, reported: set<Id>)
    requires Records(ops)
    ensures KeepsAll(ops, EndLeases(ops, leases, now))
    ensures KeepsUnknown(ops, EndLeases(ops, leases, now), reported)
  {
    forall id
      ensures KeepsAt(ops, EndLeases(ops, leases, now), id) && UnknownAt(ops, EndLeases(ops, leases, now), reported, id)
    {
      assert RecordAt(ops, id);
      if id in ops { SweptKeeps(LeaseEnded(ops[id].request.binding.controllerLeaseId), now, ops[id]); }
    }
  }

  /** Ending leases ends or fences every record that was in force under one of them, and leaves the others alone. */
  lemma EndedOrSame(s: State, keys: set<ActorKey>, now: int, id: Id)
    requires RecordAt(s.operations, id) && id in s.operations
    ensures var o, o' := s.operations[id], EndControllers(s, keys, now).operations[id];
            && o'.request == o.request
            && (InForce(o') ==> o' == o && o.request.binding.controllerLeaseId !in LeaseIds(s.controllers, keys))
  {
    SweptKeeps(LeaseEnded(s.operations[id].request.binding.controllerLeaseId), now, s.operations[id]);
  }

  lemma EndControllersHeld(s: State, keys: set<ActorKey>, now: int, id: Id)
    requires RecordAt(s.operations, id) && HeldAt(s, id)
    ensures HeldAt(EndControllers(s, keys, now), id)
  {
    if id in s.operations {
      var r, s' := s.operations[id].request, EndControllers(s, keys, now);
      EndedOrSame(s, keys, now, id);
      if InForce(s'.operations[id]) {
        assert r.target in keys && r.target in s.controllers ==> s.controllers[r.target].leaseId in LeaseIds(s.controllers, keys);
        assert LeaseHeld(s', r) <==> LeaseHeld(s, r);
      }
    }
  }

  lemma EndControllersGuards(s: State, keys: set<ActorKey>, now: int)
    requires Records(s.operations) && Guards(s)
    ensures Guards(EndControllers(s, keys, now))
  {
    var s' := EndControllers(s, keys, now);
    forall key ensures ControllerAt(s', key) { assert ControllerAt(s, key); }
    forall a, b ensures LeasesDiffer(s'.controllers, a, b) { assert LeasesDiffer(s.controllers, a, b); }
    forall id ensures FencedAt(s', id) {
      assert FencedAt(s, id) && RecordAt(s.operations, id);
      if id in s.operations {
        var r := s.operations[id].request;
        SweptKeeps(LeaseEnded(r.binding.controllerLeaseId), now, s.operations[id]);
        assert r.target in keys && r.target in s.controllers
               ==> s.controllers[r.target].leaseId in LeaseIds(s.controllers, keys);
      }
    }
    forall id ensures HeldAt(s', id) {
      assert HeldAt(s, id) && RecordAt(s.operations, id);
      EndControllersHeld(s, keys, now, id);
    }
  }

  lemma EndControllersCore(s: State, keys: set<ActorKey>, now: int)
    requires Core(s)
    ensures Core(EndControllers(s, keys, now)) && MemoryEvolves(s, EndControllers(s, keys, now))
  {
    EndLeasesKeeps(s.operations, LeaseIds(s.controllers, keys), now, {});
    EndControllersGuards(s, keys, now);
    KeptCore(s, EndControllers(s, keys, now));
  }

  /** Records that all kept what they must leave the pool and the frame as they were. */
  lemma KeptCore(s: State, s': State)
    requires Core(s) && Guards(s') && KeepsAll(s.operations, s'.operations)
    requires s' == s.(controllers := s'.controllers, operations := s'.operations, dirty := s'.dirty)
    ensures Core(s') && MemoryEvolves(s, s')
  {
    KeepsFollows(s.operations, s'.operations);
    assert Pool(s') by { RecordsKept(s.operations, s'.operations); PoolKept(s, s'); }
    assert Frame(s') by { FrameKept(s, s'); }
    assert MemoryEvolves(s, s') by { MemoryEvolvesPointwise(s, s'); }
  }

  lemma EndControllersStep(s0: State, s: State, skip: set<Id>, reported: set<Id>, keys: set<ActorKey>, now: int)
    requires Reach(s0, s, skip, reported)
    ensures Reach(s0, EndControllers(s, keys, now), skip, reported)
  {
    EndLeasesKeeps(s.operations, LeaseIds(s.controllers, keys), now, reported);
    EndControllersCore(s, keys, now);
    Onward(s0, s, EndControllers(s, keys, now), skip, reported);
  }

  lemma EndStep(s0: State, s: State, reported: set<Id>, keys: set<ActorKey>, now: int)
    requires Good(s0, s, reported)
    ensures Good(s0, EndControllers(s, keys, now), reported)
  {
    assert Reach(s0, s, {}, reported);
    EndControllersStep(s0, s, {}, reported, keys, now);
    assert Reach(s0, EndControllers(s, keys, now), {}, reported);
  }

  // ---------------------------------------------------------------- durable writes

  lemma HotKeysDistinct(ops: map<Id, Operation>, requests: map<Key, Id>)
    requires KeyIndex(ops, requests)
    ensures KeysDistinct(ops)
  {
    forall a, b ensures KeysDiffer(ops, a, b) { assert IndexedAt(ops, requests, a) && IndexedAt(ops, requests, b); }
  }

  lemma CommitOk(s: State)
    requires Pool(s) && Guards(s)
    ensures DurableOk(Commit(s))
  {
    HotKeysDistinct(s.operations, s.requests);
    forall key ensures LeaseAt(s.controllers, key) { assert ControllerAt(s, key); }
    forall id ensures RowHeldAt(Commit(s), id) { assert HeldAt(s, id); }
  }

  lemma CommitIssued(s: State)
    requires Guards(s)
    ensures LeasesIssued(Commit(s), s.issued)
  {
    forall id ensures RowIssuedAt(Commit(s), s.issued, id) { assert HeldAt(s, id); }
    forall key ensures LeaseIssuedAt(Commit(s), s.issued, key) { assert ControllerAt(s, key); }
  }

  /** Writing the whole state: the rows follow memory, and memory is fully backed again. */
  lemma CommitRows(s0: State, s: State, skip: set<Id>, s': State)
    requires Backed(s, skip) && Issued(s0) && skip !! s0.issued && Evolves(s0, s) && s.config.store != Memory
    requires s'.durable == Commit(s) && s'.operations == s.operations && Archived(s') == Archived(s) && s'.config == s.config
    ensures RowsEvolve(s0.issued, s0.durable, s'.durable) && Backed(s', {})
  {
    forall id ensures RowEvolves(s0.issued, s0.durable, s'.durable, id) && BackedAt(s', {}, id) {
      assert RowEvolves(s0.issued, s0.durable, s.durable, id) && BackedAt(s, skip, id);
      assert StoredAt(s'.durable, id) == Where(s, id);
    }
  }

  lemma SamePoolEvolves(s0: State, s: State, s': State)
    requires MemoryEvolves(s0, s) && s'.operations == s.operations && Archived(s') == Archived(s)
    ensures MemoryEvolves(s0, s')
  {
    forall id ensures EvolvesAt(s0, s', id) { assert EvolvesAt(s0, s, id); }
  }

  lemma SameGuards(s: State, s': State)
    requires Guards(s) && s'.operations == s.operations && SameAuthorities(s, s')
    ensures Guards(s')
  {
    forall key ensures ControllerAt(s', key) { assert ControllerAt(s, key); }
    forall id ensures FencedAt(s', id) && HeldAt(s', id) { assert FencedAt(s, id) && HeldAt(s, id); }
  }

  lemma CommitStep(s0: State, s: State, skip: set<Id>, reported: set<Id>, s': State)
    requires Reach(s0, s, skip, reported) && s.config.store != Memory
    requires s' == s.(durable := Commit(s), dirty := s'.dirty, staged := s'.staged)
    requires s'.staged == s.staged || s'.staged == map[]
    ensures Reach(s0, s', {}, reported)
  {
    CommitArchived(s, s');
    CommitOk(s);
    CommitIssued(s);
    CommitRows(s0, s, skip, s');
    SamePoolEvolves(s0, s, s');
    SameGuards(s, s');
    CommitFrame(s, s');
  }

  lemma CommitArchived(s: State, s': State)
    requires s'.durable == Commit(s) && (s'.staged == s.staged || s'.staged == map[])
    ensures Archived(s') == Archived(s)
  {
    assert s.durable.archive + s.staged + s'.staged == s.durable.archive + s.staged;
  }

  lemma CommitFrame(s: State, s': State)
    requires Frame(s) && DurableOk(Commit(s)) && LeasesIssued(Commit(s), s.issued)
    requires s' == s.(durable := Commit(s), dirty := s'.dirty, staged := s'.staged)
    requires s'.staged == s.staged || s'.staged == map[]
    ensures Frame(s')
  {
    assert (s.durable.archive + s.staged).Keys == s.durable.archive.Keys + s.staged.Keys;
  }

  lemma StillReached(s0: State, s: State, skip: set<Id>, reported: set<Id>, s': State)
    requires Reach(s0, s, skip, reported)
    requires s' == s.(dirty := s'.dirty, flights := s'.flights, confirming := s'.confirming) && FlightsOk(s'.flights)
    ensures Reach(s0, s', skip, reported)
  {
    SamePoolEvolves(s0, s, s');
    SameGuards(s, s');
    forall id ensures BackedAt(s', skip, id) { assert BackedAt(s, skip, id); }
  }

  /** Without a durable store nothing needs a durable counterpart. */
  lemma MemoryIsBacked(s: State, skip: set<Id>)
    requires Backed(s, skip) && s.config.store == Memory
    ensures Backed(s, {})
  {
    forall id ensures BackedAt(s, {}, id) { assert BackedAt(s, skip, id); }
  }

  lemma UnchangedStep(s0: State, s: State, reported: set<Id>, s': State)
    requires Good(s0, s, reported)
    requires s' == s.(dirty := s'.dirty, flights := s'.flights, confirming := s'.confirming) && FlightsOk(s'.flights)
    ensures Good(s0, s', reported)
  {
    assert Reach(s0, s, {}, reported);
    StillReached(s0, s, {}, reported, s');
    assert Reach(s0, s', {}, reported);
  }

  lemma BackedMeansSkipped(s: State, skip: set<Id>)
    requires Backed(s, {})
    ensures Backed(s, skip)
  {
    forall id ensures BackedAt(s, skip, id) { assert BackedAt(s, {}, id); }
  }

  /** A failed write leaves the section where expiring the controllers brought it. */
  lemma PersistFails(s0: State, s: State, skip: set<Id>, reported: set<Id>, now: int, io: Io)
    requires Reach(s0, s, skip, reported) && !Persist(s, now, io).1
    ensures Reach(s0, Persist(s, now, io).0, skip, reported)
  {
    var t := ExpireControllers(s, now);
    EndControllersStep(s0, s, skip, reported, Expired(s.controllers, now), now);
    if io.Ambiguous? {
      CommitStep(s0, t, skip, reported, t.(durable := Commit(t)));
      BackedMeansSkipped(t.(durable := Commit(t)), skip);
    }
  }

  /** A successful write of a changed state backs every record in memory. */
  lemma PersistSucceeds(s0: State, s: State, skip: set<Id>, reported: set<Id>, now: int, io: Io)
    requires Reach(s0, s, skip, reported) && Persist(s, now, io).1 && s.dirty
    ensures Reach(s0, Persist(s, now, io).0, {}, reported)
  {
    if s.config.store == Memory {
      StillReached(s0, s, skip, reported, s.(dirty := false));
      MemoryIsBacked(s.(dirty := false), skip);
    } else {
      var t := ExpireControllers(s, now);
      EndControllersStep(s0, s, skip, reported, Expired(s.controllers, now), now);
      CommitStep(s0, t, skip, reported, t.(durable := Commit(t), staged := map[], dirty := false));
    }
  }

  lemma PersistStep(s0: State, s: State, reported: set<Id>, now: int, io: Io)
    requires Good(s0, s, reported)
    ensures Good(s0, Persist(s, now, io).0, reported)
  {
    assert Reach(s0, s, {}, reported);
    if !Persist(s, now, io).1 { PersistFails(s0, s, {}, reported, now, io); }
    else if s.dirty { PersistSucceeds(s0, s, {}, reported, now, io); }
    assert Reach(s0, Persist(s, now, io).0, {}, reported);
  }

  lemma PersistKeeps(s: State, now: int, io: Io)
    requires Records(s.operations)
    ensures KeepsAll(s.operations, Persist(s, now, io).0.operations)
  {
    if s.dirty && s.config.store != Memory {
      EndLeasesKeeps(s.operations, LeaseIds(s.controllers, Expired(s.controllers, now)), now, {});
    } else {
      forall id ensures KeepsAt(s.operations, s.operations, id) { assert RecordAt(s.operations, id); }
    }
  }

  // ---------------------------------------------------------------- unlinking a record

  lemma UnlinkFollows(ops: map<Id, Operation>, id: Id, at: Option<int>)
    requires Records(ops) && id in ops
    ensures FollowsAll(ops, Unlink(ops, id, at)) && Unlink(ops, id, at).Keys == ops.Keys - {id}
  {
    forall other ensures FollowsAt(ops, Unlink(ops, id, at), other) { assert RecordAt(ops, other); }
  }

  lemma UnlinkForest(ops: map<Id, Operation>, id: Id, at: Option<int>)
    requires Forest(ops) && id in ops && ops[id].children == {}
    ensures Forest(Unlink(ops, id, at))
  {
    var ops' := Unlink(ops, id, at);
    forall other ensures LinkedUp(ops', other) {
      assert LinkedUp(ops, other) && LinkedUp(ops, id);
    }
    forall other ensures LinkedDown(ops', other) {
      assert LinkedDown(ops, other);
      forall child ensures ChildOf(ops', other, child) { assert ChildOf(ops, other, child) && LinkedUp(ops, child); }
      if other in ops' { assert ops'[other].children <= ops[other].children; SubsetSize(ops'[other].children, ops[other].children); }
    }
    forall ids | ParentClosed(ops', ids) ensures false {
      forall other ensures ParentWithin(ops, ids, other) { assert ParentWithin(ops', ids, other); }
      assert ParentClosed(ops, ids);
    }
  }

  lemma SubsetSize<T>(a: set<T>, b: set<T>)
    requires a <= b
    ensures |a| <= |b|
  {
    assert b == a + (b - a) && a !! b - a;
  }

  lemma UnlinkIndex(ops: map<Id, Operation>, requests: map<Key, Id>, id: Id, at: Option<int>)
    requires KeyIndex(ops, requests) && id in ops
    ensures KeyIndex(Unlink(ops, id, at), requests - {ops[id].key})
  {
    var ops', requests' := Unlink(ops, id, at), requests - {ops[id].key};
    assert IndexedAt(ops, requests, id);
    forall other ensures IndexedAt(ops', requests', other) { assert IndexedAt(ops, requests, other); }
    forall key ensures ResolvedAt(ops', requests', key) { assert ResolvedAt(ops, requests, key); }
  }

  lemma UnlinkApart(ops: map<Id, Operation>, cold: map<Id, Operation>, id: Id, at: Option<int>)
    requires Apart(ops, cold) && id in ops
    ensures Apart(Unlink(ops, id, at), cold)
  {
    forall a, b ensures ApartAt(Unlink(ops, id, at), cold, a, b) { assert ApartAt(ops, cold, a, b); }
  }

  lemma StagedRetired(s: State, id: Id, at: Option<int>)
    requires Pool(s) && id in s.operations && Retirable(s.operations[id])
    ensures Retired(Archived(s)[id := s.operations[id]])
    ensures Apart(Unlink(s.operations, id, at), Archived(s)[id := s.operations[id]])
  {
    var cold := Archived(s)[id := s.operations[id]];
    forall other ensures RecordAt(cold, other) && RetiredAt(cold, other) {
      assert RecordAt(Archived(s), other) && RetiredAt(Archived(s), other) && RecordAt(s.operations, other);
    }
    forall a, b ensures KeysDiffer(cold, a, b) {
      assert KeysDiffer(Archived(s), a, b) && ApartAt(s.operations, Archived(s), id, a) && ApartAt(s.operations, Archived(s), id, b);
    }
    HotKeysDistinct(s.operations, s.requests);
    forall a, b ensures ApartAt(Unlink(s.operations, id, at), cold, a, b) {
      assert ApartAt(s.operations, Archived(s), a, b) && KeysDiffer(s.operations, a, id);
    }
  }

  lemma RemovePool(s: State, id: Id, at: Option<int>)
    requires Pool(s) && id in s.operations && Retirable(s.operations[id])
    ensures Pool(Remove(s, id, at))
  {
    var s' := Remove(s, id, at);
    UnlinkFollows(s.operations, id, at);
    RecordsKept(s.operations, s'.operations);
    UnlinkForest(s.operations, id, at);
    UnlinkIndex(s.operations, s.requests, id, at);
    if s.config.store == Sqlite {
      assert Archived(s') == Archived(s)[id := s.operations[id]];
      StagedRetired(s, id, at);
    } else {
      UnlinkApart(s.operations, Archived(s), id, at);
    }
  }

  lemma RemoveEvolves(s: State, id: Id, at: Option<int>)
    requires Records(s.operations) && id in s.operations && Retirable(s.operations[id])
    requires Apart(s.operations, Archived(s))
    ensures MemoryEvolves(s, Remove(s, id, at))
    ensures KeepsUnknown(s.operations, Remove(s, id, at).operations, {})
  {
    var s' := Remove(s, id, at);
    UnlinkFollows(s.operations, id, at);
    assert s.config.store == Sqlite ==> Archived(s') == Archived(s)[id := s.operations[id]];
    forall other ensures EvolvesAt(s, s', other) && UnknownAt(s.operations, s'.operations, {}, other) {
      assert FollowsAt(s.operations, s'.operations, other) && ApartAt(s.operations, Archived(s), id, id);
    }
  }

  lemma RemoveFrame(s: State, id: Id, at: Option<int>)
    requires Frame(s) && id in s.operations
    ensures Frame(Remove(s, id, at))
  {
    var s' := Remove(s, id, at);
    assert s'.operations.Keys == s.operations.Keys - {id};
    assert |s'.operations.Keys| <= |s.operations.Keys|;
  }

  /** Dropping or archiving one settled, childless record. */
  lemma RemoveStep(s0: State, s: State, id: Id, at: Option<int>)
    requires Good(s0, s, {}) && id in s.operations && Retirable(s.operations[id])
    ensures Good(s0, Remove(s, id, at), {})
  {
    assert Reach(s0, s, {}, {});
    var s' := Remove(s, id, at);
    RemovePool(s, id, at);
    RemoveEvolves(s, id, at);
    RemoveFrame(s, id, at);
    assert Guards(s') by { UnlinkFollows(s.operations, id, at); GuardsKept(s, s'); }
    Onward(s0, s, s', {}, {});
    assert Reach(s0, s', {}, {});
  }
}
