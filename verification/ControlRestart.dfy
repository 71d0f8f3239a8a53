/**
  Restart: which durable states can be opened, and what opening one yields.
 */
module ControlRestart {
  import opened ControlTypes
  import opened OperationRecord
  import opened OperationRestore
  import opened ControlPlane
  import opened ControlInvariants

  // ---------------------------------------------------------------- which stores open

  /** What a record must meet to be loaded again: its own guards, and the reservation of its decision. */
  predicate RowFit(o: Operation) {
    TimesOk(ToPersisted(o)) && BoundExactly(o.request) && RunAgrees(o) && ReservedRow(ToPersisted(o))
  }

  predicate RowsFit(ops: map<Id, Operation>) {
    forall id :: id in ops ==> RowFit(ops[id])
  }

  lemma ChildrenMatch(ops: map<Id, Operation>, id: Id)
    requires Forest(ops) && id in ops
    ensures ChildrenOf(ops, id) == ops[id].children
  {
    assert LinkedDown(ops, id);
    forall child ensures child in ChildrenOf(ops, id) <==> child in ops[id].children {
      assert ChildOf(ops, id, child) && LinkedUp(ops, child);
    }
  }

  lemma ForestOpens(ops: map<Id, Operation>)
    requires Forest(ops)
    ensures ParentsOk(ops) && !HasCycle(ops)
  {
    forall id | id in ops && ops[id].request.parent.Some?
      ensures ops[id].request.parent.value in ops && SameOwner(ops[ops[id].request.parent.value].request, ops[id].request)
    {
      assert LinkedUp(ops, id);
    }
    forall id | id in ops ensures |ChildrenOf(ops, id)| <= MAX_CHILDREN {
      assert LinkedDown(ops, id);
      ChildrenMatch(ops, id);
    }
  }

  /**
    The structural checks of a restore (keys, parents, child limit, cycles, lease
    identifiers) never fail on a store the service wrote: it opens exactly when
    each operation, each controller lease and each emergency stop passes its own.
   */
  lemma OpensIff(config: Config, d: Durable)
    requires DurableOk(d) && |d.operations| <= config.maxOperations
    ensures CanOpen(config, d) <==> RowsFit(d.operations) && LeaseRowsOk(d.controllers) && StopRowsOk(d.stops)
  {
    ForestOpens(d.operations);
    forall id | id in d.operations ensures RestoredRow(d.operations[id]).Some? <==> RowFit(d.operations[id]) {
      assert RecordAt(d.operations, id);
      RestorableIff(d.operations[id]);
    }
  }

  // ---------------------------------------------------------------- what opening yields

  /** How a loaded record relates to its durable row. */
  ghost predicate ReloadedAs(o: Operation, loaded: Operation) {
    && RecordOk(loaded) && SameIdentity(o, loaded) && loaded.request == o.request && !LiveUnacked(loaded)
    && (Settled(o) ==> SameResult(o, loaded))
    && (NeedsReservation(loaded) ==> loaded.reserved)
    && Quiet(loaded) && (InForce(loaded) ==> InForce(o) && o.run.None? && loaded.run.None?)
  }

  lemma RowReloads(o: Operation, sinks: set<Id>, children: set<Id>, at: int)
    requires RecordOk(o) && RestoredRow(o).Some?
    ensures ReloadedAs(o, OutcomeQueued(RestoredRow(o).value, sinks).(children := children, updatedAt := at))
  {
    RestoredIsQuiet(o);
    if Settled(o) { SettledRoundTrip(o); }
    var restored := RestoredRow(o).value;
    OutcomeQueuedKeeps(restored, sinks);
  }

  ghost predicate ReloadedAt(ops: map<Id, Operation>, ops': map<Id, Operation>, id: Id) {
    id in ops ==> id in ops' && ReloadedAs(ops[id], ops'[id]) && ops'[id].children == ChildrenOf(ops, id)
  }

  ghost predicate ReloadedAll(ops: map<Id, Operation>, ops': map<Id, Operation>) {
    ops'.Keys == ops.Keys && forall id {:trigger ReloadedAt(ops, ops', id)} :: ReloadedAt(ops, ops', id)
  }

  lemma ReloadRecords(ops: map<Id, Operation>, sinks: set<Id>, now: int)
    requires Records(ops) && RowsOk(ops)
    ensures ReloadedAll(ops, Reload(ops, sinks, now))
  {
    forall id ensures ReloadedAt(ops, Reload(ops, sinks, now), id) {
      if id in ops {
        assert RecordAt(ops, id);
        var restored := RestoredRow(ops[id]).value;
        RowReloads(ops[id], sinks, ChildrenOf(ops, id),
                   if restored.status == ops[id].status then restored.updatedAt else now);
      }
    }
  }

  lemma ReloadedForest(ops: map<Id, Operation>, ops': map<Id, Operation>)
    requires Forest(ops) && ReloadedAll(ops, ops')
    ensures Forest(ops')
  {
    forall id ensures LinkedUp(ops', id) {
      assert LinkedUp(ops, id) && ReloadedAt(ops, ops', id);
      if id in ops && ops[id].request.parent.Some? {
        assert ReloadedAt(ops, ops', ops[id].request.parent.value);
        ChildrenMatch(ops, ops[id].request.parent.value);
      }
    }
    forall id ensures LinkedDown(ops', id) {
      assert LinkedDown(ops, id) && ReloadedAt(ops, ops', id);
      if id in ops { ChildrenMatch(ops, id); }
      forall child ensures ChildOf(ops', id, child) { assert ChildOf(ops, id, child) && ReloadedAt(ops, ops', child); }
    }
    forall ids | ParentClosed(ops', ids) ensures false {
      forall id ensures ParentWithin(ops, ids, id) { assert ParentWithin(ops', ids, id) && ReloadedAt(ops, ops', id); }
      assert ParentClosed(ops, ids);
    }
  }

  ghost function IndexOf(ops: map<Id, Operation>): map<Key, Id> {
    map key | key in (set id | id in ops :: ops[id].key) :: IdOfKey(ops, key)
  }

  lemma ReloadedIndex(ops: map<Id, Operation>, ops': map<Id, Operation>)
    requires KeysDistinct(ops) && ReloadedAll(ops, ops')
    ensures KeyIndex(ops', IndexOf(ops'))
  {
    var requests := IndexOf(ops');
    forall id ensures IndexedAt(ops', requests, id) {
      if id in ops' {
        var key := ops'[id].key;
        assert key in requests && ops'[requests[key]].key == key;
        assert ReloadedAt(ops, ops', id) && ReloadedAt(ops, ops', requests[key]) && KeysDiffer(ops, id, requests[key]);
      }
    }
    forall key ensures ResolvedAt(ops', requests, key) { }
  }

  lemma ReloadedApart(ops: map<Id, Operation>, ops': map<Id, Operation>, cold: map<Id, Operation>)
    requires Apart(ops, cold) && ReloadedAll(ops, ops')
    ensures Apart(ops', cold)
  {
    forall a, b ensures ApartAt(ops', cold, a, b) { assert ApartAt(ops, cold, a, b) && ReloadedAt(ops, ops', a); }
  }

  lemma OpenedArchive(config: Config, d: Durable, issued: set<Id>, now: int)
    requires RowsOk(d.operations)
    ensures Archived(Opened(config, d, issued, now)) == d.archive
  {
  }

  lemma OpenedPool(config: Config, d: Durable, issued: set<Id>, now: int)
    requires DurableOk(d) && RowsOk(d.operations)
    ensures Pool(Opened(config, d, issued, now))
    ensures ReloadedAll(d.operations, Opened(config, d, issued, now).operations)
  {
    var s := Opened(config, d, issued, now);
    ReloadRecords(d.operations, config.sinks, now);
    forall id ensures RecordAt(s.operations, id) {
      assert RecordAt(d.operations, id) && ReloadedAt(d.operations, s.operations, id);
    }
    ReloadedForest(d.operations, s.operations);
    ReloadedIndex(d.operations, s.operations);
    assert s.requests == IndexOf(s.operations);
    OpenedArchive(config, d, issued, now);
    ReloadedApart(d.operations, s.operations, d.archive);
  }

  lemma OpenedGuards(config: Config, d: Durable, issued: set<Id>, now: int)
    requires DurableOk(d) && RowsOk(d.operations) && LeasesIssued(d, issued)
    ensures Guards(Opened(config, d, issued, now))
  {
    var s := Opened(config, d, issued, now);
    ReloadRecords(d.operations, config.sinks, now);
    forall key ensures ControllerAt(s, key) { assert LeaseAt(d.controllers, key) && LeaseIssuedAt(d, issued, key); }
    forall a, b ensures LeasesDiffer(s.controllers, a, b) { assert LeasesDiffer(d.controllers, a, b); }
    forall id ensures FencedAt(s, id) { assert ReloadedAt(d.operations, s.operations, id); }
    forall id ensures HeldAt(s, id) {
      assert ReloadedAt(d.operations, s.operations, id) && RowHeldAt(d, id) && RowIssuedAt(d, issued, id);
    }
  }

  /** What a stopped process leaves behind. */
  ghost predicate Rested(config: Config, d: Durable, issued: set<Id>) {
    && DurableOk(d) && |d.operations| <= config.maxOperations
    && d.operations.Keys <= issued && d.archive.Keys <= issued && LeasesIssued(d, issued)
    && (config.store != Sqlite ==> d.archive == map[])
  }

  lemma OpenedFrame(config: Config, d: Durable, issued: set<Id>, now: int)
    requires Rested(config, d, issued) && RowsOk(d.operations)
    ensures Frame(Opened(config, d, issued, now))
  {
    var s := Opened(config, d, issued, now);
    assert s.operations.Keys == d.operations.Keys;
    assert |s.operations.Keys| == |d.operations.Keys|;
    forall key ensures FlightAt(s.flights, key) { }
  }

  /** Each record in memory after opening is its durable row, reloaded. */
  lemma OpenedBacked(config: Config, d: Durable, issued: set<Id>, now: int)
    requires DurableOk(d) && RowsOk(d.operations)
    ensures Backed(Opened(config, d, issued, now), {})
  {
    var s := Opened(config, d, issued, now);
    ReloadRecords(d.operations, config.sinks, now);
    forall id ensures BackedAt(s, {}, id) { assert ReloadedAt(d.operations, s.operations, id); }
  }

  lemma OpenedInv(config: Config, d: Durable, issued: set<Id>, now: int)
    requires Rested(config, d, issued) && RowsOk(d.operations)
    ensures Inv(Opened(config, d, issued, now))
  {
    OpenedPool(config, d, issued, now);
    OpenedGuards(config, d, issued, now);
    OpenedFrame(config, d, issued, now);
    OpenedBacked(config, d, issued, now);
  }
}
