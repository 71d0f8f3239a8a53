/**
  A small world for concrete runs: one Host publishes one actor, whose controller
  submits one action at a time. Each step of such a run has its lemma here.
 */
module ControlScenario {
  import opened ControlTypes
  import opened OperationRecord
  import opened ControlPlane
  import ControlRestart
  import opened ControlRuns
  import ControlTheorems

  const CONFIG := Config(File, 8, 20, {})
  const EPOCH := Epoch(1, 1, 1)
  const ADMIN := Principal(1, {HostAdmin})
  const KEY := ActorKey(1, 1, 1)
  const ACTOR := Actor(1, 5, EPOCH, Authority(Internal, 0, 1, 0), {})
  const WORLD := World(1, map[1 := ACTOR])
  const ACTION := ActionRequest(1, 1, 1, 1, 1, EPOCH, 5, None, 1, 0)
  const SUBMISSION := Submission(KEY, ACTION, None)
  /** Allowed, but counted against a budget. */
  const DECISION := Decision(Allow, 1, 0, true)
  const HOST := Host(1, 1, 50, 100, 100, map[])
  const REQUEST_KEY := Key(1, 1)
  const EMPTY := Durable(map[], map[], map[], map[])

  const OPENED := State(CONFIG, map[], map[], map[], map[], map[], map[], map[], map[], false, EMPTY, {}, {}, map[], {})
  const REGISTERED := OPENED.(hosts := map[1 := HOST])
  const PUBLISHED := OPENED.(hosts := map[1 := HOST.(worlds := map[1 := WORLD])])

  function LeaseOf(leaseId: Id, at: int): ControllerLease {
    ControllerLease(leaseId, 1, 1, KEY, Internal, 0, 1, EPOCH, at, at + 10)
  }

  function FlightOf(lease: ControllerLease): Flight {
    Flight(ADMIN, SUBMISSION, Snapshot(ACTOR, lease, false, 0))
  }

  function LeasedBy(lease: ControllerLease, issued: set<Id>): State {
    PUBLISHED.(controllers := map[KEY := lease], issued := issued, durable := Durable(map[], map[KEY := lease], map[], map[]))
  }

  function SubmittedBy(lease: ControllerLease, issued: set<Id>): State {
    LeasedBy(lease, issued).(flights := map[REQUEST_KEY := FlightOf(lease)])
  }

  /** What the Host and the policy answer; the Host may be some observations ahead of the request. */
  function Bind(id: Id, ahead: nat): Bound {
    Bound(Ok(HostBinding(BoundAction(ACTION, 5 + ahead, 1), EPOCH, 5)), Some(DECISION), false, id, [], None)
  }

  function QueuedBy(id: Id, lease: ControllerLease, ahead: nat, now: int): Operation {
    NewOperation(id, FlightOf(lease), FlightOf(lease).snapshot, Bind(id, ahead).binding.value, DECISION, now)
  }

  function StoredBy(id: Id, lease: ControllerLease, issued: set<Id>, ahead: nat, now: int): State {
    var o := QueuedBy(id, lease, ahead, now);
    SubmittedBy(lease, issued).(operations := map[id := o], requests := map[REQUEST_KEY := id], issued := issued + {id},
                                durable := Durable(map[id := o], map[KEY := lease], map[], map[]))
  }

  const LEASE := LeaseOf(20, 0)
  const IOS := SubmitIo(Committed, Committed, Committed, Committed)

  function Queued7(ahead: nat): Operation {
    QueuedBy(7, LEASE, ahead, 2)
  }

  function Stored(ahead: nat): State {
    StoredBy(7, LEASE, {20}, ahead, 2)
  }

  // ---------------------------------------------------------------- writes and expiry

  lemma NoneExpire(s: State, now: int)
    requires Expired(s.controllers, now) == {}
    ensures ExpireControllers(s, now) == s
  {
    assert LeaseIds(s.controllers, {}) == {};
    assert EndLeases(s.operations, {}, now) == s.operations;
    assert s.controllers - {} == s.controllers;
  }

  lemma Writes(s: State, now: int)
    requires s.config.store == File && s.dirty && Expired(s.controllers, now) == {} && s.staged == map[] && s.durable.archive == map[]
    ensures Persist(s, now, Committed)
            == (s.(durable := Durable(s.operations, s.controllers, s.stops, map[]), dirty := false), true)
  {
    NoneExpire(s, now);
  }

  lemma ExpireNone(s: State, key: ActorKey, now: int)
    requires key in s.controllers ==> s.controllers[key].expiresAt > now
    ensures ExpireController(s, key, now) == s
  {
    assert Expired(s.controllers, now) * {key} == {};
    assert LeaseIds(s.controllers, {}) == {};
    assert EndLeases(s.operations, {}, now) == s.operations;
    assert s.controllers - {} == s.controllers;
  }

  lemma AfterOne(run: seq<Timed>, next: Timed)
    ensures ControlTheorems.Reached(CONFIG, run + [next]) == Step(ControlTheorems.Reached(CONFIG, run), next.now, next.event).0
  {
    assert (run + [next])[..|run|] == run;
  }

  // ---------------------------------------------------------------- up to a published actor

  lemma OpenEmpty()
    ensures Step(Start(CONFIG), 0, Open).0 == Up(OPENED)
  {
    StartSound(CONFIG);
    ControlRestart.OpensIff(CONFIG, EMPTY);
    var s := Opened(CONFIG, EMPTY, {}, 0);
    assert Reload(EMPTY.operations, {}, 0) == map[];
    assert s.controllers == map[] && s.requests == map[] && s.loose == {};
  }

  lemma RegisterFirst()
    ensures HostSection(OPENED, 0, Register(Registration(1, 1, 1, 100), 50, Committed, Committed)).0 == REGISTERED
  {
  }

  lemma PublishFirst()
    ensures HostSection(REGISTERED, 0, Publish(1, 50, 1, WORLD)).0 == PUBLISHED
  {
    var s1 := SweepState(REGISTERED, AuthorityChanged(1, 1, WORLD.actors), 0);
    assert s1.operations == map[] && s1 == REGISTERED;
    assert Mismatched(s1, 1, 1, WORLD) == {};
    assert LeaseIds(s1.controllers, {}) == {};
    assert EndControllers(s1, {}, 0) == REGISTERED;
  }

  const REGISTER := Timed(0, OnHost(Register(Registration(1, 1, 1, 100), 50, Committed, Committed)))
  const PUBLISH := Timed(0, OnHost(Publish(1, 50, 1, WORLD)))
  const PUBLISH_RUN := [Timed(0, Open)] + [REGISTER] + [PUBLISH]

  lemma BegunPublished()
    ensures ControlTheorems.Reached(CONFIG, PUBLISH_RUN) == Up(PUBLISHED)
  {
    var r1 := [Timed(0, Open)];
    assert ControlTheorems.Reached(CONFIG, r1) == Up(OPENED) by {
      OpenEmpty();
      AfterOne([], Timed(0, Open));
      assert [] + [Timed(0, Open)] == r1;
    }
    assert ControlTheorems.Reached(CONFIG, r1 + [REGISTER]) == Up(REGISTERED) by { RegisterFirst(); AfterOne(r1, REGISTER); }
    PublishFirst();
    AfterOne(r1 + [REGISTER], PUBLISH);
  }

  // ---------------------------------------------------------------- acquire, submit, store

  lemma AcquireOn(s: State, now: int, leaseId: Id)
    requires s == PUBLISHED.(issued := s.issued) && leaseId !in s.issued && 0 <= now < 100
    ensures ControlSection(s, now, Acquire(ADMIN, KEY, 1, 10, leaseId, Committed)).0
            == LeasedBy(LeaseOf(leaseId, now), s.issued + {leaseId})
  {
    ExpireNone(s, KEY, now);
    var granted := s.(issued := s.issued + {leaseId}, controllers := map[KEY := LeaseOf(leaseId, now)], dirty := true);
    assert Expired(granted.controllers, now) == {};
    Writes(granted, now);
  }

  lemma PrepareHolds(s: State, now: int, lease: ControllerLease)
    requires lease == LeaseOf(lease.leaseId, lease.acquiredAt) && 0 <= now < 100 && now < lease.expiresAt
    requires s.hosts == PUBLISHED.hosts && s.controllers == map[KEY := lease] && KEY !in s.stops
    ensures Prepare(s, now, ADMIN, SUBMISSION) == (s, Ok(FlightOf(lease).snapshot))
  {
    ExpireNone(s, KEY, now);
    assert HasActor(s, KEY) && ActorAt(s, KEY) == ACTOR;
    assert Authorize(s, now, ADMIN, KEY, ActorExecute) == (s, Ok(ACTOR));
  }

  lemma SubmitOn(lease: ControllerLease, issued: set<Id>, now: int)
    requires lease == LeaseOf(lease.leaseId, lease.acquiredAt) && 0 <= now < 100 && now < lease.expiresAt
    ensures ActionSection(LeasedBy(lease, issued), now, Submit(ADMIN, SUBMISSION, Committed)).0 == SubmittedBy(lease, issued)
  {
    PrepareHolds(LeasedBy(lease, issued), now, lease);
    assert BeginKey(ADMIN, SUBMISSION) == REQUEST_KEY;
  }

  lemma InsertOn(id: Id, lease: ControllerLease, issued: set<Id>, ahead: nat, now: int)
    requires now < lease.expiresAt
    ensures StoreOperation(SubmittedBy(lease, issued), QueuedBy(id, lease, ahead, now), now, Committed, Committed)
            == (StoredBy(id, lease, issued, ahead, now), Viewed(QueuedBy(id, lease, ahead, now)))
  {
    var s, o := SubmittedBy(lease, issued), QueuedBy(id, lease, ahead, now);
    var inserted := s.(operations := map[id := o], requests := map[REQUEST_KEY := id], issued := issued + {id}, dirty := true);
    assert Insert(s, o) == inserted;
    assert Expired(inserted.controllers, now) == {};
    Writes(inserted, now);
  }

  lemma AdmitOn(id: Id, lease: ControllerLease, issued: set<Id>, ahead: nat, now: int)
    requires now < lease.expiresAt
    ensures Admit(SubmittedBy(lease, issued), now, FlightOf(lease), FlightOf(lease).snapshot, Bind(id, ahead).binding.value, DECISION,
                  Bind(id, ahead), IOS)
            == (StoredBy(id, lease, issued, ahead, now), Viewed(QueuedBy(id, lease, ahead, now)))
  {
    var s := SubmittedBy(lease, issued);
    var swept := SweepState(s, TtlExpired(20), now);
    assert swept.operations == map[] && swept == s;
    assert Retire(Prune(s, now, []), None) == s;
    InsertOn(id, lease, issued, ahead, now);
  }

  lemma RecheckOn(id: Id, lease: ControllerLease, issued: set<Id>, ahead: nat, now: int)
    requires lease == LeaseOf(lease.leaseId, lease.acquiredAt) && 0 <= now < 100 && now < lease.expiresAt
    ensures Recheck(SubmittedBy(lease, issued), now, REQUEST_KEY, FlightOf(lease), Bind(id, ahead).binding.value, DECISION,
                    Bind(id, ahead), IOS)
            == (StoredBy(id, lease, issued, ahead, now), Viewed(QueuedBy(id, lease, ahead, now)))
  {
    PrepareHolds(SubmittedBy(lease, issued), now, lease);
    AdmitOn(id, lease, issued, ahead, now);
    assert ResolveOrAdmit(SubmittedBy(lease, issued), now, REQUEST_KEY, FlightOf(lease), FlightOf(lease).snapshot,
                          Bind(id, ahead).binding.value, DECISION, Bind(id, ahead), IOS)
           == (StoredBy(id, lease, issued, ahead, now), Viewed(QueuedBy(id, lease, ahead, now)));
  }

  lemma StoreOn(id: Id, lease: ControllerLease, issued: set<Id>, ahead: nat, now: int)
    requires lease == LeaseOf(lease.leaseId, lease.acquiredAt) && 0 <= now < 100 && now < lease.expiresAt
    requires ahead <= MAX_OBSERVATION_GAP && id !in issued
    ensures ActionSection(SubmittedBy(lease, issued), now, Store(REQUEST_KEY, Bind(id, ahead), IOS))
            == (StoredBy(id, lease, issued, ahead, now), Viewed(QueuedBy(id, lease, ahead, now)))
  {
    RecheckOn(id, lease, issued, ahead, now);
    assert BindingOk(Bind(id, ahead).binding.value, FlightOf(lease));
  }

  // ---------------------------------------------------------------- the common beginning

  function Acquiring(now: int, leaseId: Id): Timed {
    Timed(now, OnControl(Acquire(ADMIN, KEY, 1, 10, leaseId, Committed)))
  }

  function Submitting(now: int): Timed {
    Timed(now, OnAction(Submit(ADMIN, SUBMISSION, Committed)))
  }

  function Storing(now: int, id: Id, ahead: nat): Timed {
    Timed(now, OnAction(Store(REQUEST_KEY, Bind(id, ahead), IOS)))
  }

  const SUBMIT_RUN := PUBLISH_RUN + [Acquiring(0, 20)] + [Submitting(1)]

  /** Open, register, publish, acquire, submit, store. */
  function Beginning(ahead: nat): seq<Timed> {
    SUBMIT_RUN + [Storing(2, 7, ahead)]
  }

  lemma BegunSubmitted()
    ensures ControlTheorems.Reached(CONFIG, SUBMIT_RUN) == Up(SubmittedBy(LEASE, {20}))
  {
    var r4 := PUBLISH_RUN + [Acquiring(0, 20)];
    assert ControlTheorems.Reached(CONFIG, r4) == Up(LeasedBy(LEASE, {20})) by {
      BegunPublished();
      AcquireOn(PUBLISHED, 0, 20);
      assert {} + {20} == {20};
      AfterOne(PUBLISH_RUN, Acquiring(0, 20));
    }
    SubmitOn(LEASE, {20}, 1);
    AfterOne(r4, Submitting(1));
  }

  lemma Begun(ahead: nat)
    requires ahead <= MAX_OBSERVATION_GAP
    ensures ControlTheorems.Reached(CONFIG, Beginning(ahead)) == Up(Stored(ahead))
  {
    BegunSubmitted();
    StoreOn(7, LEASE, {20}, ahead, 2);
    AfterOne(SUBMIT_RUN, Storing(2, 7, ahead));
  }

  // ---------------------------------------------------------------- steps over a pool of one record

  /** A service that holds the one record, has written everything and whose Host is alive. */
  ghost predicate One(s: State, o: Operation, hostLease: Id) {
    && s.config == CONFIG && s.operations == map[7 := o] && o.request == Queued7(0).request
    && 1 in s.hosts && s.hosts[1].leaseId == hostLease
    && s.staged == map[] && s.durable.archive == map[]
  }

  lemma PollOne(s: State, o: Operation, hostLease: Id, now: int)
    requires One(s, o, hostLease) && !s.dirty && s.hosts[1].expiresAt > now && Expired(s.controllers, now) == {}
    requires Deliverable(o) && o.updatedAt > now - 20
    ensures HostSection(s, now, Poll(1, hostLease, 1, 0, [], [7], Committed, Committed))
            == (s.(operations := map[7 := Redelivered(o, now)]), Batch([Redelivered(o, now)], []))
  {
    NoneExpire(s, now);
    var swept := SweepState(s, TtlExpired(20), now);
    assert swept.operations == map[7 := o] && !AnyHit(s.operations, TtlExpired(20), now);
    assert Prune(s, now, []) == s;
    assert IsQueue(s.operations, 1, [7]);
    assert [7][1..] == [];
    assert Cancellations(s.operations, [7], 1) == [] && Picked(s.operations, [7], 1) == [7];
    var delivered := s.(operations := map[7 := Redelivered(o, now)]);
    assert DeliverOps(s.operations, [7], now) == delivered.operations;
    assert RecordsOf(delivered.operations, [7]) == [Redelivered(o, now)];
  }

  lemma AcknowledgeOne(s: State, o: Operation, hostLease: Id, now: int)
    requires One(s, o, hostLease) && !s.dirty && s.hosts[1].expiresAt > now && Expired(s.controllers, now) == {}
    requires o.ack.None? && o.status == Delivered
    ensures var o' := Acknowledged(o, Ack(7, true, 0), now);
            HostSection(s, now, Acknowledge(1, hostLease, Ack(7, true, 0), Committed, Committed)).0
            == s.(operations := map[7 := o'], durable := Durable(map[7 := o'], s.controllers, s.stops, map[]))
  {
    var o' := Acknowledged(o, Ack(7, true, 0), now);
    var set' := SetOperation(s, 7, o');
    assert set'.operations == map[7 := o'];
    Writes(set', now);
  }

  lemma RunOne(s: State, o: Operation, hostLease: Id, now: int, run: ActionRun)
    requires One(s, o, hostLease) && !s.dirty && s.hosts[1].expiresAt > now && run.operationId == 7
    requires AcceptedByHost(o) && o.outcome.None? && o.run.None? && CheckRun(o, run) == Ok(true)
    ensures HostSection(s, now, Run(1, hostLease, run, Committed)).0 == WithRun(s, now, o, run)
  {
    assert HostRecord(s, 1, 7) == Ok(o);
    assert RecordRun(s, now, o, run).0 == WithRun(s, now, o, run);
    assert HostSection(s, now, Run(1, hostLease, run, Committed)) == ReportRun(s, now, 1, hostLease, run, Committed);
  }

  lemma UnregisterOne(s: State, o: Operation, hostLease: Id, now: int)
    requires One(s, o, hostLease) && !s.dirty && s.hosts[1].expiresAt > now && Expired(s.controllers, now) == {}
    requires Hit(HostExpired(1), now, o)
    ensures var o' := Swept(HostExpired(1), now, o);
            HostSection(s, now, Unregister(1, hostLease, Committed, Committed)).0
            == s.(hosts := s.hosts[1 := s.hosts[1].(expiresAt := now)], operations := map[7 := o'],
                  durable := Durable(map[7 := o'], s.controllers, s.stops, map[]))
  {
    var ended := s.(hosts := s.hosts[1 := s.hosts[1].(expiresAt := now)]);
    var swept := SweepState(ended, HostExpired(1), now);
    assert 7 in ended.operations && Hit(HostExpired(1), now, ended.operations[7]);
    assert swept == ended.(operations := map[7 := Swept(HostExpired(1), now, o)], dirty := true);
    Writes(swept, now);
  }

  /** An expired Host starts over; the complete record stays as it is. */
  lemma RegisterOne(s: State, o: Operation, hostLease: Id, leaseId: Id, now: int)
    requires One(s, o, hostLease) && !s.dirty && s.hosts[1].expiresAt <= now && !Hit(HostExpired(1), now, o)
    ensures HostSection(s, now, Register(Registration(1, 1, 1, 100), leaseId, Committed, Committed)).0
            == s.(hosts := s.hosts[1 := HOST.(leaseId := leaseId, expiresAt := now + 100)])
  {
    assert SweepOps(s.operations, HostExpired(1), now) == s.operations && !AnyHit(s.operations, HostExpired(1), now);
    assert SweepState(s, HostExpired(1), now) == s;
  }

  lemma FlushOne(s: State, o: Operation, hostLease: Id, now: int)
    requires One(s, o, hostLease) && Expired(s.controllers, now) == {}
    ensures ClientSection(s, now, Checkpoint(Committed)).0
            == s.(durable := Durable(s.operations, s.controllers, s.stops, map[]), dirty := false)
  {
    Writes(s.(dirty := true), now);
  }

  lemma CrashOne(run: seq<Timed>, s: State, now: int)
    requires ControlTheorems.Reached(CONFIG, run) == Up(s) && s.config == CONFIG
    ensures ControlTheorems.Reached(CONFIG, run + [Timed(now, Crash)]) == Down(CONFIG, s.durable, s.issued)
  {
    AfterOne(run, Timed(now, Crash));
  }

  lemma ReopenOne(run: seq<Timed>, d: Durable, issued: set<Id>, o: Operation, now: int)
    requires ControlTheorems.Reached(CONFIG, run) == Down(CONFIG, d, issued) && d.operations == map[7 := o]
    requires ControlRestart.RowFit(o) && RowsOk(d.operations)
    requires LeaseRowsOk(d.controllers) && StopRowsOk(d.stops)
    ensures ControlTheorems.Reached(CONFIG, run + [Timed(now, Open)]) == Up(Opened(CONFIG, d, issued, now))
  {
    ControlTheorems.ReachedOpensIff(CONFIG, run);
    assert CanOpen(CONFIG, d);
    AfterOne(run, Timed(now, Open));
  }
}
