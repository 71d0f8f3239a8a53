/**
  Every critical section keeps the invariant, changes records only within their
  frame and shows its caller only records it knows.
 */
module ControlSections {
  import opened ControlTypes
  import opened OperationRecord
  import opened ControlPlane
  import opened ControlInvariants
  import opened ControlSteps

  /** A record returned to a caller is known afterwards under the same identity. */
  ghost predicate Shown(s: State, reply: Reply) {
    reply.Viewed? ==>
      && Where(s, reply.operation.request.operationId).Some?
      && SameIdentity(Where(s, reply.operation.request.operationId).value, reply.operation)
      && RecordOk(reply.operation)
  }

  ghost predicate SectionOk(s: State, done: (State, Reply), reported: set<Id>) {
    Good(s, done.0, reported) && Shown(done.0, done.1)
  }

  // ---------------------------------------------------------------- changing what authorises dispatch

  lemma GuardStep(s0: State, s: State, s': State)
    requires Good(s0, s, {}) && Guards(s')
    requires s' == s.(hosts := s'.hosts, controllers := s'.controllers, stops := s'.stops, dirty := s'.dirty)
    ensures Good(s0, s', {})
  {
    assert Reach(s0, s, {}, {});
    forall id ensures EvolvesAt(s, s', id) { }
    forall id ensures UnknownAt(s.operations, s'.operations, {}, id) { }
    Onward(s0, s, s', {}, {});
    assert Reach(s0, s', {}, {});
  }

  ghost predicate QuietAt(ops: map<Id, Operation>, hostId: Id, id: Id) {
    id in ops && ops[id].request.target.hostId == hostId ==> !LiveUnacked(ops[id])
  }

  /** No record of the Host may still be dispatched without an acknowledgement. */
  ghost predicate HostQuiet(ops: map<Id, Operation>, hostId: Id) {
    forall id {:trigger QuietAt(ops, hostId, id)} :: QuietAt(ops, hostId, id)
  }

  lemma SweptHostIsQuiet(ops: map<Id, Operation>, hostId: Id, now: int)
    requires Records(ops)
    ensures HostQuiet(SweepOps(ops, HostExpired(hostId), now), hostId)
  {
    forall id ensures QuietAt(SweepOps(ops, HostExpired(hostId), now), hostId, id) {
      assert RecordAt(ops, id);
      if id in ops { SweptKeeps(HostExpired(hostId), now, ops[id]); }
    }
  }

  lemma QuietKept(ops: map<Id, Operation>, ops': map<Id, Operation>, hostId: Id)
    requires HostQuiet(ops, hostId) && FollowsAll(ops, ops')
    ensures HostQuiet(ops', hostId)
  {
    forall id ensures QuietAt(ops', hostId, id) { assert QuietAt(ops, hostId, id) && FollowsAt(ops, ops', id); }
  }

  lemma UnknownHostIsQuiet(s: State, hostId: Id)
    requires Guards(s) && hostId !in s.hosts
    ensures HostQuiet(s.operations, hostId)
  {
    forall id ensures QuietAt(s.operations, hostId, id) { assert FencedAt(s, id); }
  }

  /** A Host that starts over publishes nothing, so it may only replace a quiet one. */
  lemma RestartedHostGuards(s: State, hostId: Id, host: Host)
    requires Guards(s) && HostQuiet(s.operations, hostId) && host.worlds == map[]
    ensures Guards(s.(hosts := s.hosts[hostId := host]))
  {
    var s' := s.(hosts := s.hosts[hostId := host]);
    forall key ensures ControllerAt(s', key) { assert ControllerAt(s, key); }
    forall id ensures FencedAt(s', id) { assert FencedAt(s, id) && QuietAt(s.operations, hostId, id); }
    forall id ensures HeldAt(s', id) { assert HeldAt(s, id); }
  }

  lemma RenewedHostGuards(s: State, hostId: Id, host: Host)
    requires Guards(s) && hostId in s.hosts && host.worlds == s.hosts[hostId].worlds
    ensures Guards(s.(hosts := s.hosts[hostId := host]))
  {
    var s' := s.(hosts := s.hosts[hostId := host]);
    forall key ensures ControllerAt(s', key) { assert ControllerAt(s, key); }
    forall id ensures FencedAt(s', id) { assert FencedAt(s, id); }
    forall id ensures HeldAt(s', id) { assert HeldAt(s, id); }
  }

  lemma PublishedGuards(s: State, hostId: Id, worldId: Id, world: World)
    requires Guards(s) && hostId in s.hosts && Mismatched(s, hostId, worldId, world) == {}
    ensures Guards(s.(hosts := s.hosts[hostId := s.hosts[hostId].(worlds := s.hosts[hostId].worlds[worldId := world])]))
  {
    var s' := s.(hosts := s.hosts[hostId := s.hosts[hostId].(worlds := s.hosts[hostId].worlds[worldId := world])]);
    forall key ensures ControllerAt(s', key) {
      assert ControllerAt(s, key) && key !in Mismatched(s, hostId, worldId, world);
    }
    forall id ensures FencedAt(s', id) { assert FencedAt(s, id); }
    forall id ensures HeldAt(s', id) { assert HeldAt(s, id); }
  }

  /**
    A lease may be set when it matches its actor and either renews the one in
    place or carries an identifier under which nothing was bound.
   */
  lemma LeasedGuards(s: State, key: ActorKey, lease: ControllerLease)
    requires Guards(s) && HasActor(s, key) && MatchesActor(lease, key, ActorAt(s, key)) && lease.leaseId in s.issued
    requires if key in s.controllers then lease.leaseId == s.controllers[key].leaseId else Unbound(s, lease.leaseId)
    ensures Guards(s.(controllers := s.controllers[key := lease], dirty := true))
  {
    var s' := s.(controllers := s.controllers[key := lease], dirty := true);
    forall other ensures ControllerAt(s', other) { assert ControllerAt(s, other); }
    forall a, b ensures LeasesDiffer(s'.controllers, a, b) {
      assert LeasesDiffer(s.controllers, a, b) && LeasesDiffer(s.controllers, a, key) && LeasesDiffer(s.controllers, b, key);
      assert key !in s.controllers ==> UnleasedAt(s, lease.leaseId, a) && UnleasedAt(s, lease.leaseId, b);
    }
    forall id ensures FencedAt(s', id) { assert FencedAt(s, id) && ControllerAt(s, key); }
    forall id ensures HeldAt(s', id) {
      assert HeldAt(s, id) && ControllerAt(s, key) && (key !in s.controllers ==> UnboundAt(s, lease.leaseId, id));
    }
  }

  predicate UnboundAt(s: State, leaseId: Id, id: Id) {
    id in s.operations ==> s.operations[id].request.binding.controllerLeaseId != leaseId
  }

  predicate UnleasedAt(s: State, leaseId: Id, key: ActorKey) {
    key in s.controllers ==> s.controllers[key].leaseId != leaseId
  }

  /** No hot record is bound under the lease, and no actor is under it. */
  ghost predicate Unbound(s: State, leaseId: Id) {
    && (forall id {:trigger UnboundAt(s, leaseId, id)} :: UnboundAt(s, leaseId, id))
    && (forall key {:trigger UnleasedAt(s, leaseId, key)} :: UnleasedAt(s, leaseId, key))
  }

  /** A newer stop leaves nothing of its actor in force; a newer release of the stop defies nothing. */
  lemma StoppedHeld(s: State, key: ActorKey, stop: EmergencyStop, now: int, id: Id)
    requires RecordAt(s.operations, id) && HeldAt(s, id) && (key in s.stops ==> stop.revision > s.stops[key].revision)
    ensures HeldAt(WithStop(s, now, key, stop), id)
  {
    if id in s.operations { SweptKeeps(ActorStopped(key), now, s.operations[id]); }
  }

  lemma StoppedGuards(s: State, key: ActorKey, stop: EmergencyStop, now: int)
    requires Guards(s) && Records(s.operations) && (key in s.stops ==> stop.revision > s.stops[key].revision)
    ensures Guards(WithStop(s, now, key, stop))
  {
    var s' := WithStop(s, now, key, stop);
    forall other ensures ControllerAt(s', other) { assert ControllerAt(s, other); }
    forall id ensures FencedAt(s', id) {
      assert FencedAt(s, id) && RecordAt(s.operations, id);
      if id in s.operations { SweptKeeps(ActorStopped(key), now, s.operations[id]); }
    }
    forall id ensures HeldAt(s', id) {
      assert HeldAt(s, id) && RecordAt(s.operations, id);
      StoppedHeld(s, key, stop, now, id);
    }
  }

  lemma HostRestartStep(s0: State, s: State, hostId: Id, host: Host)
    requires Good(s0, s, {}) && host.worlds == map[]
    requires hostId !in s.hosts || HostQuiet(s.operations, hostId)
    ensures Good(s0, s.(hosts := s.hosts[hostId := host]), {})
  {
    assert Reach(s0, s, {}, {});
    if hostId !in s.hosts { UnknownHostIsQuiet(s, hostId); }
    RestartedHostGuards(s, hostId, host);
    GuardStep(s0, s, s.(hosts := s.hosts[hostId := host]));
  }

  lemma HostRenewStep(s0: State, s: State, hostId: Id, host: Host)
    requires Good(s0, s, {}) && hostId in s.hosts && host.worlds == s.hosts[hostId].worlds
    ensures Good(s0, s.(hosts := s.hosts[hostId := host]), {})
  {
    assert Reach(s0, s, {}, {});
    RenewedHostGuards(s, hostId, host);
    GuardStep(s0, s, s.(hosts := s.hosts[hostId := host]));
  }

  // ---------------------------------------------------------------- Host leases and publications

  lemma RegisterHostOk(s: State, now: int, r: Registration, leaseId: Id, io1: Io, io2: Io)
    requires Good(s, s, {})
    ensures SectionOk(s, RegisterHost(s, now, r, leaseId, io1, io2), {})
  {
    var (s1, ok) := Persist(s, now, io1);
    PersistStep(s, s, {}, now, io1);
    if ok { AdmitHostOk(s, s1, now, r, leaseId, io2); }
  }

  lemma AdmitHostOk(s0: State, s: State, now: int, r: Registration, leaseId: Id, io: Io)
    requires Good(s0, s, {})
    ensures SectionOk(s0, AdmitHost(s, now, r, leaseId, io), {})
  {
    var after := AdmitHost(s, now, r, leaseId, io).0;
    var started := Host(r.instance, r.manifest, leaseId, r.ttl, now + r.ttl, map[]);
    if r.hostId !in s.hosts {
      HostRestartStep(s0, s, r.hostId, started);
      assert after == s.(hosts := s.hosts[r.hostId := started]);
    } else if s.hosts[r.hostId].expiresAt > now {
      var renewed := s.hosts[r.hostId].(ttl := r.ttl, expiresAt := now + r.ttl);
      HostRenewStep(s0, s, r.hostId, renewed);
      if after != s { assert after == s.(hosts := s.hosts[r.hostId := renewed]); }
    } else {
      ReplaceHost(s0, s, now, r.hostId, started, io);
      var (t, ok) := Persist(SweepState(s, HostExpired(r.hostId), now), now, io);
      assert after == if ok then t.(hosts := t.hosts[r.hostId := started]) else t;
    }
  }

  lemma ReplaceHost(s0: State, s: State, now: int, hostId: Id, started: Host, io: Io)
    requires Good(s0, s, {}) && started.worlds == map[]
    ensures var (t, _) := Persist(SweepState(s, HostExpired(hostId), now), now, io);
            Good(s0, t, {}) && Good(s0, t.(hosts := t.hosts[hostId := started]), {})
  {
    var swept := SweepState(s, HostExpired(hostId), now);
    SweepStep(s0, s, {}, HostExpired(hostId), now);
    PersistStep(s0, swept, {}, now, io);
    var t := Persist(swept, now, io).0;
    assert HostQuiet(t.operations, hostId) by {
      assert Reach(s0, s, {}, {}) && Reach(s0, swept, {}, {});
      SweptHostIsQuiet(s.operations, hostId, now);
      PersistKeeps(swept, now, io);
      KeepsFollows(swept.operations, t.operations);
      QuietKept(swept.operations, t.operations, hostId);
    }
    HostRestartStep(s0, t, hostId, started);
  }

  lemma RenewHostOk(s: State, now: int, hostId: Id, leaseId: Id, io: Io)
    requires Good(s, s, {})
    ensures SectionOk(s, RenewHost(s, now, hostId, leaseId, io), {})
  {
    var after := RenewHost(s, now, hostId, leaseId, io).0;
    var (s1, ok) := Persist(s, now, io);
    PersistStep(s, s, {}, now, io);
    if ok && HoldsHostLease(s1, now, hostId, leaseId) {
      var renewed := s1.hosts[hostId].(expiresAt := now + s1.hosts[hostId].ttl);
      HostRenewStep(s, s1, hostId, renewed);
      assert after == s1.(hosts := s1.hosts[hostId := renewed]);
    } else {
      assert after == s1;
    }
  }

  lemma UnregisterHostOk(s: State, now: int, hostId: Id, leaseId: Id, io1: Io, io2: Io)
    requires Good(s, s, {})
    ensures SectionOk(s, UnregisterHost(s, now, hostId, leaseId, io1, io2), {})
  {
    var after := UnregisterHost(s, now, hostId, leaseId, io1, io2).0;
    var (s1, ok) := Persist(s, now, io1);
    PersistStep(s, s, {}, now, io1);
    if ok && HoldsHostLease(s1, now, hostId, leaseId) {
      var ended := s1.hosts[hostId].(expiresAt := now);
      var s2 := s1.(hosts := s1.hosts[hostId := ended]);
      HostRenewStep(s, s1, hostId, ended);
      SweepStep(s, s2, {}, HostExpired(hostId), now);
      PersistStep(s, SweepState(s2, HostExpired(hostId), now), {}, now, io2);
      assert after == Persist(SweepState(s2, HostExpired(hostId), now), now, io2).0;
    } else {
      assert after == s1;
    }
  }

  lemma PublishWorldOk(s: State, now: int, hostId: Id, leaseId: Id, worldId: Id, world: World)
    requires Good(s, s, {})
    ensures SectionOk(s, PublishWorld(s, now, hostId, leaseId, worldId, world), {})
  {
    var after := PublishWorld(s, now, hostId, leaseId, worldId, world).0;
    if after != s {
      PublishStep(s, now, hostId, worldId, world);
    }
  }

  lemma PublishStep(s: State, now: int, hostId: Id, worldId: Id, world: World)
    requires Good(s, s, {}) && hostId in s.hosts
    ensures var s1 := SweepState(s, AuthorityChanged(hostId, worldId, world.actors), now);
            var s2 := EndControllers(s1, Mismatched(s1, hostId, worldId, world), now);
            Good(s, s2.(hosts := s2.hosts[hostId := s.hosts[hostId].(worlds := s.hosts[hostId].worlds[worldId := world])]), {})
  {
    var sweep := AuthorityChanged(hostId, worldId, world.actors);
    var s1 := SweepState(s, sweep, now);
    SweepStep(s, s, {}, sweep, now);
    var s2 := EndControllers(s1, Mismatched(s1, hostId, worldId, world), now);
    EndStep(s, s1, {}, Mismatched(s1, hostId, worldId, world), now);
    assert Mismatched(s2, hostId, worldId, world) == {};
    assert Guards(s2) by { assert Reach(s, s2, {}, {}); }
    PublishedGuards(s2, hostId, worldId, world);
    GuardStep(s, s2, s2.(hosts := s2.hosts[hostId := s2.hosts[hostId].(worlds := s2.hosts[hostId].worlds[worldId := world])]));
  }

  // ---------------------------------------------------------------- controllers and stops

  lemma AuthorizeStep(s0: State, s: State, now: int, principal: Principal, key: ActorKey, scope: Scope)
    requires Good(s0, s, {})
    ensures Good(s0, Authorize(s, now, principal, key, scope).0, {})
  {
    var after := Authorize(s, now, principal, key, scope).0;
    if after != s {
      SweepStep(s0, s, {}, HostExpired(key.hostId), now);
      assert after == SweepState(s, HostExpired(key.hostId), now);
    }
  }

  lemma IssueCore(s: State, newId: Id)
    requires Core(s) && newId !in s.issued
    ensures Core(s.(issued := s.issued + {newId})) && Unbound(s.(issued := s.issued + {newId}), newId)
  {
    var s' := s.(issued := s.issued + {newId});
    forall key ensures ControllerAt(s', key) && UnleasedAt(s', newId, key) { assert ControllerAt(s, key); }
    forall id ensures FencedAt(s', id) { assert FencedAt(s, id); }
    forall id ensures HeldAt(s', id) && UnboundAt(s', newId, id) { assert HeldAt(s, id); }
    forall id ensures RowIssuedAt(s.durable, s'.issued, id) { assert RowIssuedAt(s.durable, s.issued, id); }
    forall key ensures LeaseIssuedAt(s.durable, s'.issued, key) { assert LeaseIssuedAt(s.durable, s.issued, key); }
  }

  /** A new identifier is handed out. */
  lemma IssueStep(s0: State, s: State, newId: Id)
    requires Good(s0, s, {}) && newId !in s.issued
    ensures Good(s0, s.(issued := s.issued + {newId}), {}) && Unbound(s.(issued := s.issued + {newId}), newId)
  {
    assert Reach(s0, s, {}, {});
    var s' := s.(issued := s.issued + {newId});
    IssueCore(s, newId);
    forall id ensures BackedAt(s', {}, id) { assert BackedAt(s, {}, id); }
    SamePoolEvolves(s0, s, s');
    assert Reach(s0, s', {}, {});
  }

  lemma AcquireControllerOk(
    s: State, now: int, principal: Principal, key: ActorKey, controllerId: Id, ttl: nat, leaseId: Id, io: Io)
    requires Good(s, s, {})
    ensures SectionOk(s, AcquireController(s, now, principal, key, controllerId, ttl, leaseId, io), {})
  {
    var after := AcquireController(s, now, principal, key, controllerId, ttl, leaseId, io).0;
    var (s1, authorized) := Authorize(s, now, principal, key, ActorControl);
    AuthorizeStep(s, s, now, principal, key, ActorControl);
    if leaseId in s.issued {
      assert after == s;
    } else if authorized.Err? || !ControllerAllowed(principal, authorized.value.authority) {
      assert after == s1;
    } else {
      EndStep(s, s1, {}, Expired(s1.controllers, now) * {key}, now);
      var s2, actor := ExpireController(s1, key, now), authorized.value;
      var lease :=
        if key in s2.controllers then s2.controllers[key].(expiresAt := now + ttl)
        else ControllerLease(leaseId, controllerId, principal.id, key, actor.authority.source,
                             actor.authority.persona, actor.authority.revision, actor.epoch, now, now + ttl);
      if key !in s2.controllers || MatchesActor(s2.controllers[key], key, actor) {
        IssueLease(s, s2, now, key, lease, leaseId, io);
      }
      var s3 := s2.(issued := s2.issued + {leaseId});
      assert ControllerAt(s2, key) by { assert Reach(s, s2, {}, {}); }
      assert after == s2 || after == Persist(s3.(controllers := s3.controllers[key := lease], dirty := true), now, io).0;
    }
  }

  /** A lease identifier is handed out, and the lease is a new one under it or the one in place. */
  lemma IssueLease(s0: State, s: State, now: int, key: ActorKey, lease: ControllerLease, leaseId: Id, io: Io)
    requires Good(s0, s, {}) && leaseId !in s.issued && HasActor(s, key) && MatchesActor(lease, key, ActorAt(s, key))
    requires lease.leaseId == if key in s.controllers then s.controllers[key].leaseId else leaseId
    ensures var s' := s.(issued := s.issued + {leaseId});
            Good(s0, Persist(s'.(controllers := s'.controllers[key := lease], dirty := true), now, io).0, {})
  {
    assert ControllerAt(s, key) by { assert Reach(s0, s, {}, {}); }
    IssueStep(s0, s, leaseId);
    GrantLease(s0, s.(issued := s.issued + {leaseId}), now, key, lease, io);
  }

  lemma GetControllerOk(s: State, now: int, principal: Principal, key: ActorKey, io: Io)
    requires Good(s, s, {})
    ensures SectionOk(s, GetController(s, now, principal, key, io), {})
  {
    var after := GetController(s, now, principal, key, io).0;
    var (s1, authorized) := Authorize(s, now, principal, key, ActorRead);
    AuthorizeStep(s, s, now, principal, key, ActorRead);
    if authorized.Err? {
      assert after == s1;
    } else {
      var s2 := ExpireController(s1, key, now);
      EndStep(s, s1, {}, Expired(s1.controllers, now) * {key}, now);
      PersistStep(s, s2, {}, now, io);
      if after != s2 { assert after == Persist(s2, now, io).0; }
    }
  }

  lemma GrantLease(s0: State, s: State, now: int, key: ActorKey, lease: ControllerLease, io: Io)
    requires Good(s0, s, {}) && HasActor(s, key) && MatchesActor(lease, key, ActorAt(s, key)) && lease.leaseId in s.issued
    requires if key in s.controllers then lease.leaseId == s.controllers[key].leaseId else Unbound(s, lease.leaseId)
    ensures Good(s0, Persist(s.(controllers := s.controllers[key := lease], dirty := true), now, io).0, {})
  {
    var leased := s.(controllers := s.controllers[key := lease], dirty := true);
    assert Guards(s) by { assert Reach(s0, s, {}, {}); }
    LeasedGuards(s, key, lease);
    GuardStep(s0, s, leased);
    PersistStep(s0, leased, {}, now, io);
  }

  lemma RenewControllerOk(s: State, now: int, principal: Principal, key: ActorKey, leaseId: Id, ttl: nat, io: Io)
    requires Good(s, s, {})
    ensures SectionOk(s, RenewController(s, now, principal, key, leaseId, ttl, io), {})
  {
    var after := RenewController(s, now, principal, key, leaseId, ttl, io).0;
    var s1 := ExpireController(s, key, now);
    EndStep(s, s, {}, Expired(s.controllers, now) * {key}, now);
    if key !in s1.controllers || s1.controllers[key].leaseId != leaseId
       || (s1.controllers[key].principalId != principal.id && !HasScope(principal, HostAdmin))
    {
      assert after == s1;
    } else {
      AuthorizeStep(s, s1, now, principal, key, ActorControl);
      var (s2, authorized) := Authorize(s1, now, principal, key, ActorControl);
      if authorized.Err? {
        assert after == s2;
      } else if MatchesActor(s1.controllers[key], key, authorized.value) {
        var lease := s1.controllers[key].(expiresAt := now + ttl);
        assert ControllerAt(s2, key) by { assert Reach(s, s2, {}, {}); }
        GrantLease(s, s2, now, key, lease, io);
        assert after == Persist(s2.(controllers := s2.controllers[key := lease], dirty := true), now, io).0;
      } else {
        EndStep(s, s2, {}, {key}, now);
        assert after == EndControllers(s2, {key}, now);
      }
    }
  }

  lemma ReleaseControllerOk(s: State, now: int, principal: Principal, key: ActorKey, leaseId: Id, io: Io)
    requires Good(s, s, {})
    ensures SectionOk(s, ReleaseController(s, now, principal, key, leaseId, io), {})
  {
    var after := ReleaseController(s, now, principal, key, leaseId, io).0;
    if after != s {
      EndStep(s, s, {}, {key}, now);
      PersistStep(s, EndControllers(s, {key}, now), {}, now, io);
      assert after == Persist(EndControllers(s, {key}, now), now, io).0;
    }
  }

  lemma StopStep(s0: State, s: State, key: ActorKey, stop: EmergencyStop, now: int)
    requires Good(s0, s, {}) && (key in s.stops ==> stop.revision > s.stops[key].revision)
    ensures Good(s0, WithStop(s, now, key, stop), {})
  {
    var s' := WithStop(s, now, key, stop);
    assert Guards(s') by { assert Reach(s0, s, {}, {}); StoppedGuards(s, key, stop, now); }
    if stop.active {
      SweepStep(s0, s, {}, ActorStopped(key), now);
      GuardStep(s0, SweepState(s, ActorStopped(key), now), s');
    } else {
      GuardStep(s0, s, s');
    }
  }

  lemma SetEmergencyStopOk(s: State, now: int, principal: Principal, key: ActorKey, active: bool, io: Io)
    requires Good(s, s, {})
    ensures SectionOk(s, SetEmergencyStop(s, now, principal, key, active, io), {})
  {
    var current := if key in s.stops then s.stops[key] else EmergencyStop(false, 0, 0);
    var stop := EmergencyStop(active, current.revision + 1, now);
    var after := SetEmergencyStop(s, now, principal, key, active, io).0;
    if !HasActor(s, key) || !CanAccess(principal, ActorAt(s, key), ActorControl)
       || (principal.id != ActorAt(s, key).owner && !HasScope(principal, HostAdmin))
       || (current.active == active && current.revision != 0)
    {
      assert after == s;
    } else {
      StopStep(s, s, key, stop, now);
      PersistStep(s, WithStop(s, now, key, stop), {}, now, io);
      assert after == Persist(WithStop(s, now, key, stop), now, io).0;
    }
  }
}
