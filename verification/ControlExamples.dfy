/**
  Concrete runs that show where the code does not keep what one might expect.
 */
module ControlExamples {
  import opened ControlTypes
  import opened OperationRecord
  import OperationRestore
  import opened ControlPlane
  import ControlRestart
  import opened ControlRuns
  import opened ControlTheorems
  import opened ControlScenario

  // ---------------------------------------------------------------- a tolerated observation gap

  /** The binding is one observation ahead of its request, which the submission tolerates. */
  const GAP_RUN := Beginning(1) + [Timed(3, Crash)]

  /** An operation whose binding saw one observation more is stored, and the service never opens again. */
  lemma GapClosesStore()
    ensures Reached(CONFIG, GAP_RUN).Down?
    ensures !CanOpen(CONFIG, DurableOf(Reached(CONFIG, GAP_RUN)))
  {
    Begun(1);
    AfterOne(Beginning(1), Timed(3, Crash));
    var row := Queued7(1);
    assert DurableOf(Reached(CONFIG, GAP_RUN)).operations[7] == row && !OperationRestore.BoundExactly(row.request);
    ReachedOpensIff(CONFIG, GAP_RUN);
    assert !ControlRestart.RowFit(DurableOf(Reached(CONFIG, GAP_RUN)).operations[7]);
  }

  // ---------------------------------------------------------------- delivered and accepted

  const DELIVERED := Redelivered(Queued7(0), 3)
  const ACCEPTED := Acknowledged(DELIVERED, Ack(7, true, 0), 4)
  const POLLED := Stored(0).(operations := map[7 := DELIVERED])
  const HELD :=
    Stored(0).(operations := map[7 := ACCEPTED], durable := Durable(map[7 := ACCEPTED], map[KEY := LEASE], map[], map[]))

  const ACCEPT_RUN :=
    Beginning(0)
    + [Timed(3, OnHost(Poll(1, 50, 1, 0, [], [7], Committed, Committed)))]
    + [Timed(4, OnHost(Acknowledge(1, 50, Ack(7, true, 0), Committed, Committed)))]

  lemma Accepting()
    ensures Reached(CONFIG, ACCEPT_RUN) == Up(HELD)
  {
    var r7 := Beginning(0) + [Timed(3, OnHost(Poll(1, 50, 1, 0, [], [7], Committed, Committed)))];
    assert Reached(CONFIG, r7) == Up(POLLED) by {
      Begun(0);
      PollOne(Stored(0), Queued7(0), 50, 3);
      AfterOne(Beginning(0), Timed(3, OnHost(Poll(1, 50, 1, 0, [], [7], Committed, Committed))));
    }
    AcknowledgeOne(POLLED, DELIVERED, 50, 4);
    AfterOne(r7, Timed(4, OnHost(Acknowledge(1, 50, Ack(7, true, 0), Committed, Committed))));
  }

  // ---------------------------------------------------------------- a run that outlives two restarts

  const PROGRESS := ActionRun(7, RunRunning, 1, 10, 1, 20)
  const RUNNING := RunReported(ACCEPTED, PROGRESS, 5)
  const RAN := HELD.(operations := map[7 := RUNNING], durable := Durable(map[7 := RUNNING], map[KEY := LEASE], map[], map[]))

  const FIRST_RESTART :=
    RAN_RUN
    + [Timed(6, OnClient(Checkpoint(Committed)))]
    + [Timed(7, Crash)]
    + [Timed(8, Open)]

  const RAN_RUN := ACCEPT_RUN + [Timed(5, OnHost(Run(1, 50, PROGRESS, Committed)))]

  lemma Running()
    ensures Reached(CONFIG, RAN_RUN) == Up(HELD.(operations := map[7 := RUNNING]))
  {
    Accepting();
    assert CheckRun(ACCEPTED, PROGRESS) == Ok(true);
    RunOne(HELD, ACCEPTED, 50, 5, PROGRESS);
    assert WithRun(HELD, 5, ACCEPTED, PROGRESS) == HELD.(operations := map[7 := RUNNING]);
    AfterOne(ACCEPT_RUN, Timed(5, OnHost(Run(1, 50, PROGRESS, Committed))));
  }

  lemma RunsAndCheckpoints()
    ensures Reached(CONFIG, RAN_RUN + [Timed(6, OnClient(Checkpoint(Committed)))]) == Up(RAN)
  {
    Running();
    FlushOne(HELD.(operations := map[7 := RUNNING]), RUNNING, 50, 6);
    AfterOne(RAN_RUN, Timed(6, OnClient(Checkpoint(Committed))));
  }

  lemma RestartedOnce()
    ensures Reached(CONFIG, FIRST_RESTART) == Up(Opened(CONFIG, RAN.durable, Stored(0).issued, 8))
  {
    var r10 := RAN_RUN + [Timed(6, OnClient(Checkpoint(Committed)))];
    RunsAndCheckpoints();
    CrashOne(r10, RAN, 7);
    assert ControlRestart.RowFit(RUNNING);
    ReopenOne(r10 + [Timed(7, Crash)], RAN.durable, Stored(0).issued, RUNNING, 8);
  }

  lemma ReloadedUnknown()
    ensures RowsOk(RAN.durable.operations)
    ensures var ops := Opened(CONFIG, RAN.durable, Stored(0).issued, 8).operations;
            7 in ops && ReconciliationPending(ops[7]) && ops[7].run == Some(PROGRESS)
  {
    var row := RestoredRow(RUNNING);
    assert row.Some? && ReconciliationPending(row.value) && row.value.run == Some(PROGRESS);
  }

  /** A running operation survives one restart as unknown, and after the next checkpoint the service never opens again. */
  lemma SecondRestartCloses()
    ensures Reached(CONFIG, FIRST_RESTART).Up?
    ensures !CanOpen(CONFIG, DurableOf(Step(Reached(CONFIG, FIRST_RESTART), 9, OnClient(Checkpoint(Committed))).0))
  {
    RestartedOnce();
    ReloadedUnknown();
    UnknownRunClosesStore(CONFIG, FIRST_RESTART, 9, 7);
  }

  // ---------------------------------------------------------------- accepted work reloaded after its lease expired

  ghost const RELOADED := Opened(CONFIG, HELD.durable, Stored(0).issued, 12)
  const RELOAD_RUN :=
    ACCEPT_RUN + [Timed(5, Crash)] + [Timed(12, Open)]
    + [Timed(12, OnHost(Register(Registration(1, 1, 1, 100), 51, Committed, Committed)))]

  lemma Reloading()
    ensures Reached(CONFIG, ACCEPT_RUN + [Timed(5, Crash)] + [Timed(12, Open)]) == Up(RELOADED)
  {
    Accepting();
    CrashOne(ACCEPT_RUN, HELD, 5);
    assert ControlRestart.RowFit(ACCEPTED);
    ReopenOne(ACCEPT_RUN + [Timed(5, Crash)], HELD.durable, Stored(0).issued, ACCEPTED, 12);
  }

  lemma ReloadedShape()
    ensures RELOADED.operations == map[7 := ACCEPTED] && RELOADED.controllers == map[] && RELOADED.hosts == map[]
    ensures RELOADED.staged == map[] && RELOADED.durable.archive == map[] && RELOADED.config == CONFIG && RELOADED.dirty
  {
    assert RestoredRow(ACCEPTED) == Some(ACCEPTED);
    assert ChildrenOf(HELD.durable.operations, 7) == {};
    assert Reload(HELD.durable.operations, {}, 12) == map[7 := ACCEPTED];
  }

  /** The state after the Host registered again. */
  ghost const REGISTERED_AGAIN :=
    RELOADED.(hosts := map[1 := HOST.(leaseId := 51, expiresAt := 112)], dirty := false,
              durable := Durable(RELOADED.operations, RELOADED.controllers, RELOADED.stops, map[]))

  lemma RegisteringAgain()
    ensures Reached(CONFIG, RELOAD_RUN) == Up(REGISTERED_AGAIN)
  {
    var before := ACCEPT_RUN + [Timed(5, Crash)] + [Timed(12, Open)];
    var register := Register(Registration(1, 1, 1, 100), 51, Committed, Committed);
    Reloading();
    ReloadedShape();
    Writes(RELOADED, 12);
    assert HostSection(RELOADED, 12, register).0 == REGISTERED_AGAIN;
    AfterOne(before, Timed(12, OnHost(register)));
  }

  /**
    An accepted operation that is loaded after its lease expired is handed out
    again, although no lease authorises it any more.
   */
  lemma ReloadedWorkIsRedelivered()
    ensures var (p, reply) := Step(Reached(CONFIG, RELOAD_RUN), 13, OnHost(Poll(1, 51, 1, 0, [], [7], Committed, Committed)));
            && p.Up? && reply.Batch? && |reply.deliveries| == 1 && AcceptedByHost(reply.deliveries[0])
            && !LeaseHeld(p.state, reply.deliveries[0].request)
  {
    RegisteringAgain();
    ReloadedShape();
    PollOne(REGISTERED_AGAIN, ACCEPTED, 51, 13);
  }

  // ---------------------------------------------------------------- work put back by a report, after its lease was released

  const UNKNOWN := Ended(ACCEPTED, OutcomeUnknown, 5)
  const QUEUED_RUN := ActionRun(7, RunQueued, 1, 0, 1, 20)
  const BACK := RunReported(UNKNOWN, QUEUED_RUN, 8)

  const UNREGISTERED :=
    HELD.(hosts := map[1 := HELD.hosts[1].(expiresAt := 5)], operations := map[7 := UNKNOWN],
          durable := Durable(map[7 := UNKNOWN], map[KEY := LEASE], map[], map[]))
  const RELEASED := UNREGISTERED.(controllers := map[], durable := Durable(map[7 := UNKNOWN], map[], map[], map[]))
  const RETURNED := RELEASED.(hosts := map[1 := HOST.(leaseId := 52, expiresAt := 107)])
  const PUT_BACK := RETURNED.(operations := map[7 := BACK], loose := {7}, revived := {7})

  const REVIVAL_RUN :=
    ACCEPT_RUN
    + [Timed(5, OnHost(Unregister(1, 50, Committed, Committed)))]
    + [Timed(6, OnControl(Release(ADMIN, KEY, 20, Committed)))]
    + [Timed(7, OnHost(Register(Registration(1, 1, 1, 100), 52, Committed, Committed)))]
    + [Timed(8, OnHost(Run(1, 52, QUEUED_RUN, Committed)))]

  lemma Unregistering()
    ensures HostSection(HELD, 5, Unregister(1, 50, Committed, Committed)).0 == UNREGISTERED
  {
    assert Hit(HostExpired(1), 5, ACCEPTED) && Swept(HostExpired(1), 5, ACCEPTED) == UNKNOWN;
    UnregisterOne(HELD, ACCEPTED, 50, 5);
  }

  lemma Releasing()
    ensures ControlSection(UNREGISTERED, 6, Release(ADMIN, KEY, 20, Committed)).0 == RELEASED
  {
    var ended := EndControllers(UNREGISTERED, {KEY}, 6);
    assert Swept(LeaseEnded(20), 6, UNKNOWN) == UNKNOWN;
    assert ended.operations == map[7 := UNKNOWN];
    assert ended.controllers == map[];
    assert KEY in {KEY} * UNREGISTERED.controllers.Keys;
    Writes(ended, 6);
  }

  lemma Returning()
    ensures HostSection(RELEASED, 7, Register(Registration(1, 1, 1, 100), 52, Committed, Committed)).0 == RETURNED
  {
    assert !Hit(HostExpired(1), 7, UNKNOWN);
    RegisterOne(RELEASED, UNKNOWN, 50, 52, 7);
  }

  lemma PuttingBack()
    ensures HostSection(RETURNED, 8, Run(1, 52, QUEUED_RUN, Committed)).0 == PUT_BACK
  {
    assert CheckRun(UNKNOWN, QUEUED_RUN) == Ok(true);
    RunOne(RETURNED, UNKNOWN, 52, 8, QUEUED_RUN);
    assert Revives(UNKNOWN, BACK);
    assert WithRun(RETURNED, 8, UNKNOWN, QUEUED_RUN) == PUT_BACK;
  }

  lemma Reviving()
    ensures Reached(CONFIG, REVIVAL_RUN) == Up(PUT_BACK)
  {
    var r9 := ACCEPT_RUN + [Timed(5, OnHost(Unregister(1, 50, Committed, Committed)))];
    var r10 := r9 + [Timed(6, OnControl(Release(ADMIN, KEY, 20, Committed)))];
    var r11 := r10 + [Timed(7, OnHost(Register(Registration(1, 1, 1, 100), 52, Committed, Committed)))];
    assert Reached(CONFIG, r9) == Up(UNREGISTERED) by {
      Accepting();
      Unregistering();
      AfterOne(ACCEPT_RUN, Timed(5, OnHost(Unregister(1, 50, Committed, Committed))));
    }
    assert Reached(CONFIG, r10) == Up(RELEASED) by {
      Releasing();
      AfterOne(r9, Timed(6, OnControl(Release(ADMIN, KEY, 20, Committed))));
    }
    assert Reached(CONFIG, r11) == Up(RETURNED) by {
      Returning();
      AfterOne(r10, Timed(7, OnHost(Register(Registration(1, 1, 1, 100), 52, Committed, Committed))));
    }
    PuttingBack();
    AfterOne(r11, Timed(8, OnHost(Run(1, 52, QUEUED_RUN, Committed))));
  }

  /**
    Without any restart: a record that went unknown with its Host, lost its
    controller lease and was then reported as queued is handed out again, not
    cancelled, although no lease authorises it.
   */
  lemma RevivedWorkIsRedelivered()
    ensures var (p, reply) := Step(Reached(CONFIG, REVIVAL_RUN), 9, OnHost(Poll(1, 52, 1, 0, [], [7], Committed, Committed)));
            && p.Up? && reply.Batch? && |reply.deliveries| == 1 && AcceptedByHost(reply.deliveries[0])
            && !LeaseHeld(p.state, reply.deliveries[0].request)
  {
    Reviving();
    PollOne(PUT_BACK, BACK, 52, 9);
  }

  // ---------------------------------------------------------------- work put back by a report, without its reservation

  /**
    The same record is active again under a budgeted decision whose reservation
    went when its Host expired: although it meets every other condition, the
    service never opens again once it is checkpointed.
   */
  lemma LostReservationClosesStore()
    ensures !CanOpen(CONFIG, DurableOf(Step(Reached(CONFIG, REVIVAL_RUN), 9, OnClient(Checkpoint(Committed))).0))
    ensures Reached(CONFIG, REVIVAL_RUN) == Up(PUT_BACK) && PUT_BACK.operations == map[7 := BACK]
    ensures OperationRestore.TimesOk(OperationRestore.ToPersisted(BACK)) && OperationRestore.BoundExactly(BACK.request)
    ensures OperationRestore.RunAgrees(BACK) && !BACK.reserved
  {
    Reviving();
    CheckpointOpensIff(CONFIG, REVIVAL_RUN, 9);
    FlushOne(PUT_BACK, BACK, 52, 9);
    assert PUT_BACK.operations[7] == BACK && !ControlRestart.RowFit(BACK);
    var p := Step(Reached(CONFIG, REVIVAL_RUN), 9, OnClient(Checkpoint(Committed))).0;
    assert p.state.operations[7] == BACK;
  }

  // ---------------------------------------------------------------- a lease renewed after the clock went back

  /** Acquired at 40, renewed at 10 for another ten: the lease is live, and its row expires before it was acquired. */
  const CLOCK_RUN :=
    PUBLISH_RUN + [Acquiring(40, 20)] + [Timed(10, OnControl(Extend(ADMIN, KEY, 20, 10, Committed)))] + [Timed(11, Crash)]

  const RENEWED := LeaseOf(20, 40).(expiresAt := 20)

  lemma Renewing()
    ensures ControlSection(LeasedBy(LeaseOf(20, 40), {20}), 10, Extend(ADMIN, KEY, 20, 10, Committed)).0 == LeasedBy(RENEWED, {20})
  {
    var s := LeasedBy(LeaseOf(20, 40), {20});
    ExpireNone(s, KEY, 10);
    assert Authorize(s, 10, ADMIN, KEY, ActorControl) == (s, Ok(ACTOR));
    var renewed := s.(controllers := map[KEY := RENEWED], dirty := true);
    assert s.controllers[KEY := RENEWED] == map[KEY := RENEWED];
    assert Expired(renewed.controllers, 10) == {};
    Writes(renewed, 10);
  }

  /** The clock went back between acquiring and renewing a lease, and the service never opens again. */
  lemma RenewedLeaseClosesStore()
    ensures Reached(CONFIG, CLOCK_RUN).Down? && DurableOf(Reached(CONFIG, CLOCK_RUN)).operations == map[]
    ensures !CanOpen(CONFIG, DurableOf(Reached(CONFIG, CLOCK_RUN)))
  {
    var r4 := PUBLISH_RUN + [Acquiring(40, 20)];
    var r5 := r4 + [Timed(10, OnControl(Extend(ADMIN, KEY, 20, 10, Committed)))];
    assert Reached(CONFIG, r4) == Up(LeasedBy(LeaseOf(20, 40), {20})) by {
      BegunPublished();
      AcquireOn(PUBLISHED, 40, 20);
      assert {} + {20} == {20};
      AfterOne(PUBLISH_RUN, Acquiring(40, 20));
    }
    assert Reached(CONFIG, r5) == Up(LeasedBy(RENEWED, {20})) by {
      Renewing();
      AfterOne(r4, Timed(10, OnControl(Extend(ADMIN, KEY, 20, 10, Committed))));
    }
    CrashOne(r5, LeasedBy(RENEWED, {20}), 11);
    assert !LeaseRowOk(LeasedBy(RENEWED, {20}).durable.controllers[KEY]);
  }

  // ---------------------------------------------------------------- one key, two operations

  const LANDED := Stored(0).(flights := map[])
  const CANCELLED := CancelAsked(Queued7(0), 3)
  const ENDED :=
    LANDED.(operations := map[7 := CANCELLED], durable := Durable(map[7 := CANCELLED], map[KEY := LEASE], map[], map[]))
  const PRUNED := PUBLISHED.(issued := Stored(0).issued)
  const SECOND := LeaseOf(21, 23)

  const CANCEL := Timed(3, OnClient(Cancel(ADMIN, 7, Committed, Committed)))
  const PRUNE := Timed(23, OnHost(Poll(1, 50, 1, 0, [7], [], Committed, Committed)))
  const REUSE_RUN := PRUNE_RUN + [Acquiring(23, 21)] + [Submitting(24)]

  lemma Cancelling()
    ensures ClientSection(LANDED, 3, Cancel(ADMIN, 7, Committed, Committed)).0 == ENDED
  {
    assert !Hit(TtlExpired(20), 3, Queued7(0));
    assert RefreshFound(LANDED, 3, 7) == LANDED;
    var set' := SetOperation(LANDED, 7, CANCELLED);
    assert set'.operations == map[7 := CANCELLED];
    Writes(set', 3);
  }

  /** The expired lease goes, and with it nothing of the ended record. */
  lemma ExpiringLease()
    ensures ExpireControllers(ENDED, 23) == ENDED.(controllers := map[], dirty := true)
  {
    assert Expired(ENDED.controllers, 23) == {KEY};
    assert LeaseIds(ENDED.controllers, {KEY}) == {20};
    assert Swept(LeaseEnded(20), 23, CANCELLED) == CANCELLED;
    assert EndLeases(ENDED.operations, {20}, 23) == ENDED.operations;
    assert ENDED.controllers - {KEY} == map[];
    assert KEY in {KEY} * ENDED.controllers.Keys;
  }

  lemma PruningOne(s: State)
    requires s == ENDED.(controllers := map[], dirty := true)
    ensures Prune(s, 23, [7]) == s.(operations := map[], requests := map[])
  {
    assert CANCELLED.key == REQUEST_KEY && Prunable(CONFIG, CANCELLED, 23) && !Hit(TtlExpired(20), 23, CANCELLED);
    PruneLast(s, CANCELLED, 23);
  }

  lemma PruneLast(s: State, o: Operation, now: int)
    requires s.config == CONFIG && s.operations == map[7 := o] && s.requests == map[o.key := 7] && s.dirty
    requires Prunable(CONFIG, o, now) && !Hit(TtlExpired(20), now, o) && o.request.parent.None?
    ensures Prune(s, now, [7]) == s.(operations := map[], requests := map[])
  {
    assert SweepOps(s.operations, TtlExpired(20), now) == s.operations && !AnyHit(s.operations, TtlExpired(20), now);
    assert SweepState(s, TtlExpired(20), now) == s;
    assert Unlink(s.operations, 7, Some(now)) == map[];
    assert s.requests - {o.key} == map[];
    assert Remove(s, 7, Some(now)) == s.(operations := map[], requests := map[]);
    assert [7][1..] == [];
  }

  /** A poll that leaves the pool empty hands out nothing. */
  lemma PollLast(s: State, pruned: State, hostLease: Id, now: int)
    requires 1 in s.hosts && s.hosts[1].leaseId == hostLease && s.hosts[1].expiresAt > now && s.config == CONFIG
    requires pruned == Prune(ExpireControllers(s, now), now, [7]) && pruned.dirty && pruned.config == CONFIG
    requires pruned.operations == map[] && pruned.controllers == map[] && pruned.staged == map[] && pruned.durable.archive == map[]
    ensures HostSection(s, now, Poll(1, hostLease, 1, 0, [7], [], Committed, Committed)).0
            == pruned.(durable := Durable(map[], map[], pruned.stops, map[]), dirty := false)
  {
    Writes(pruned, now);
    var t := Persist(pruned, now, Committed).0;
    assert IsQueue(t.operations, 1, []);
    assert Collect(t, now, 1, 0, [], Committed) == (t, Reply.Waiting);
  }

  lemma Pruning()
    ensures HostSection(ENDED, 23, PRUNE.event.host).0 == PRUNED
  {
    ExpiringLease();
    PruningOne(ENDED.(controllers := map[], dirty := true));
    var pruned := ENDED.(controllers := map[], dirty := true, operations := map[], requests := map[]);
    assert pruned.(durable := EMPTY, dirty := false) == PRUNED;
    PollLast(ENDED, pruned, 50, 23);
  }

  const PRUNE_RUN := Beginning(0) + [Timed(3, OnAction(Land(REQUEST_KEY)))] + [CANCEL] + [PRUNE]

  lemma Landing()
    ensures Reached(CONFIG, Beginning(0) + [Timed(3, OnAction(Land(REQUEST_KEY)))]) == Up(LANDED)
  {
    Begun(0);
    assert Stored(0).flights - {REQUEST_KEY} == map[];
    AfterOne(Beginning(0), Timed(3, OnAction(Land(REQUEST_KEY))));
  }

  lemma UpToPruned()
    ensures Reached(CONFIG, PRUNE_RUN) == Up(PRUNED)
  {
    var r7 := Beginning(0) + [Timed(3, OnAction(Land(REQUEST_KEY)))];
    Landing();
    assert Reached(CONFIG, r7 + [CANCEL]) == Up(ENDED) by { Cancelling(); AfterOne(r7, CANCEL); }
    Pruning();
    AfterOne(r7 + [CANCEL], PRUNE);
  }

  lemma Reusing()
    ensures Reached(CONFIG, REUSE_RUN) == Up(SubmittedBy(SECOND, PRUNED.issued + {21}))
  {
    var r10 := PRUNE_RUN + [Acquiring(23, 21)];
    assert Reached(CONFIG, r10) == Up(LeasedBy(SECOND, PRUNED.issued + {21})) by {
      UpToPruned();
      AcquireOn(PRUNED, 23, 21);
      AfterOne(PRUNE_RUN, Acquiring(23, 21));
    }
    SubmitOn(SECOND, PRUNED.issued + {21}, 24);
    AfterOne(r10, Submitting(24));
  }

  /**
    Without an archive the very same submission is answered with one operation,
    and after that was pruned with another one.
   */
  lemma PrunedKeyIsReused()
    ensures var first := Step(Reached(CONFIG, SUBMIT_RUN), 2, Storing(2, 7, 0).event).1;
            var second := Step(Reached(CONFIG, REUSE_RUN), 25, Storing(25, 8, 0).event).1;
            && first.Viewed? && second.Viewed? && first.operation.key == second.operation.key
            && FingerprintOf(first.operation.request) == FingerprintOf(second.operation.request)
            && first.operation.request.operationId != second.operation.request.operationId
  {
    BegunSubmitted();
    StoreOn(7, LEASE, {20}, 0, 2);
    Reusing();
    StoreOn(8, SECOND, PRUNED.issued + {21}, 0, 25);
  }
}
