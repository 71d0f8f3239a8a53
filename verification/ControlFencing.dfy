/**
  When a record in force is still under its controller lease, when its actor is
  stopped, and when its budget is still reserved: exactly unless it was loaded, or
  put back to work by a run report, while the lease was gone, the stop was on or
  the reservation finalized.
 */
module ControlFencing {
  import opened ControlTypes
  import opened OperationRecord
  import opened ControlPlane
  import ControlInvariants
  import ControlSubmission
  import ControlHostSide
  import opened ControlRuns
  import opened ControlTheorems

  // ---------------------------------------------------------------- the causes, along a run

  /** The state in which a run report finds its record: whatever was pending has been written. */
  function FoundBy(s: State, now: int, e: Event): State {
    match e
    case OnHost(Run(_, _, _, io1)) => Persist(s, now, io1).0
    case _ => s
  }

  /** The event is a run report that puts the record of unknown outcome back to work. */
  ghost predicate RevivedBy(s: State, now: int, e: Event, id: Id) {
    && (match e case OnHost(Run(_, _, run, _)) => run.operationId == id case _ => false)
    && id in FoundBy(s, now, e).operations && id in Section(s, now, e).0.operations
    && Revives(FoundBy(s, now, e).operations[id], Section(s, now, e).0.operations[id])
  }

  /**
    Whether the record's lease was gone when it was last loaded or put back to
    work: absent from the durable file, stored under another identifier or
    expired at the load, or no longer held at the report.
   */
  ghost function Loosened(config: Config, run: seq<Timed>, id: Id): bool
    decreases |run|
  {
    if run == [] then false
    else
      var before, last := run[..|run| - 1], run[|run| - 1];
      match Reached(config, before)
      case Down(_, durable, _) =>
        last.event.Open? && id in durable.operations && LeaseGone(durable, durable.operations[id].request, last.now)
      case Up(s) =>
        if RevivedBy(s, last.now, last.event, id) then
          !LeaseHeld(FoundBy(s, last.now, last.event), FoundBy(s, last.now, last.event).operations[id].request)
        else Loosened(config, before, id)
  }

  /** The revision of the emergency stop under which the record was last put back to work. */
  ghost function Defiance(config: Config, run: seq<Timed>, id: Id): Option<nat>
    decreases |run|
  {
    if run == [] then None
    else
      var before, last := run[..|run| - 1], run[|run| - 1];
      match Reached(config, before)
      case Down(_, _, _) => None
      case Up(s) =>
        if RevivedBy(s, last.now, last.event, id) then
          var found := FoundBy(s, last.now, last.event);
          var key := found.operations[id].request.target;
          if StopActive(found, key) then Some(found.stops[key].revision) else None
        else Defiance(config, before, id)
  }

  /** Whether a run report has put the record back to work since the process opened its store. */
  ghost function PutBack(config: Config, run: seq<Timed>, id: Id): bool
    decreases |run|
  {
    if run == [] then false
    else
      var before, last := run[..|run| - 1], run[|run| - 1];
      match Reached(config, before)
      case Down(_, _, _) => false
      case Up(s) => RevivedBy(s, last.now, last.event, id) || PutBack(config, before, id)
  }

  // ---------------------------------------------------------------- the history fields record them

  predicate SameHistory(s: State, t: State) {
    t.loose == s.loose && t.defied == s.defied && t.revived == s.revived
  }

  lemma SaveKeepsHistory(s: State, now: int, id: Id, o: Operation, io: Io)
    ensures SameHistory(s, SaveRecord(s, now, id, o, io).0)
  {
    ControlSubmission.PersistFrame(SetOperation(s, id, o), now, io);
  }

  lemma RecordResultKeepsHistory(s: State, now: int, o: Operation, outcome: ActionOutcome, output: Option<Id>, io: Io)
    ensures SameHistory(s, RecordResult(s, now, o, outcome, output, io).0)
  {
    var after := RecordResult(s, now, o, outcome, output, io).0;
    var checked := CheckResult(o, outcome, output);
    if checked.Err? || outcome.operationId !in s.operations {
      assert after == s;
    } else if checked.value {
      SaveKeepsHistory(s, now, outcome.operationId, ResultReported(o, outcome, output, s.config.sinks, now), io);
      assert after == SaveRecord(s, now, outcome.operationId, ResultReported(o, outcome, output, s.config.sinks, now), io).0;
    } else {
      SaveKeepsHistory(s, now, outcome.operationId, OutcomeQueued(o, s.config.sinks), io);
      if after != s { assert after == SaveRecord(s, now, outcome.operationId, OutcomeQueued(o, s.config.sinks), io).0; }
    }
  }

  lemma ResultKeepsHistory(s: State, now: int, hostId: Id, leaseId: Id, outcome: ActionOutcome, output: Option<Id>, io1: Io, io2: Io)
    ensures SameHistory(s, ReportResult(s, now, hostId, leaseId, outcome, output, io1, io2).0)
  {
    var after := ReportResult(s, now, hostId, leaseId, outcome, output, io1, io2).0;
    if !TerminalRun(outcome.status) { return; }
    var (t, ok) := Persist(s, now, io1);
    ControlSubmission.PersistFrame(s, now, io1);
    var found := HostRecord(t, hostId, outcome.operationId);
    if !ok || !HoldsHostLease(t, now, hostId, leaseId) || found.Err? {
      assert after == t;
    } else {
      RecordResultKeepsHistory(t, now, found.value, outcome, output, io2);
      assert after == RecordResult(t, now, found.value, outcome, output, io2).0;
    }
  }

  /** What the report of a run does to the history of its record. */
  ghost predicate Noted(found: State, t: State, id: Id) {
    if id in found.operations && id in t.operations && Revives(found.operations[id], t.operations[id]) then
      var r := found.operations[id].request;
      && (id in t.loose <==> !LeaseHeld(found, r))
      && (id in t.defied <==> StopActive(found, r.target))
      && (id in t.defied ==> t.defied[id] == found.stops[r.target].revision)
      && id in t.revived
    else SameHistory(found, t)
  }

  lemma UnchangedNotes(s: State, id: Id)
    ensures Noted(s, s, id)
  {
  }

  lemma WithRunNotes(s: State, now: int, o: Operation, run: ActionRun)
    requires run.operationId in s.operations && s.operations[run.operationId] == o
    ensures Noted(s, WithRun(s, now, o, run), run.operationId)
  {
    var reported := RunReported(o, run, now);
    var t := s.(operations := s.operations[run.operationId := reported]);
    assert t.operations[run.operationId] == reported && reported.request == o.request;
    if Revives(o, reported) {
      assert WithRun(s, now, o, run) == NoteRevival(t, run.operationId, o.request);
    } else {
      assert WithRun(s, now, o, run) == t;
    }
  }

  lemma RecordRunNotes(s: State, now: int, o: Operation, run: ActionRun)
    requires run.operationId in s.operations ==> s.operations[run.operationId] == o
    ensures Noted(s, RecordRun(s, now, o, run).0, run.operationId)
  {
    var checked := CheckRun(o, run);
    if checked.Err? || !checked.value || run.operationId !in s.operations {
      UnchangedNotes(s, run.operationId);
      assert RecordRun(s, now, o, run).0 == s;
    } else {
      WithRunNotes(s, now, o, run);
    }
  }

  lemma ReportRunNotes(s: State, now: int, hostId: Id, leaseId: Id, run: ActionRun, io: Io)
    ensures Noted(Persist(s, now, io).0, ReportRun(s, now, hostId, leaseId, run, io).0, run.operationId)
    ensures SameHistory(s, Persist(s, now, io).0)
  {
    var (t, ok) := Persist(s, now, io);
    var after := ReportRun(s, now, hostId, leaseId, run, io).0;
    ControlSubmission.PersistFrame(s, now, io);
    var found := HostRecord(t, hostId, run.operationId);
    if !ok || !HoldsHostLease(t, now, hostId, leaseId) || found.Err? {
      assert after == t;
    } else {
      RecordRunNotes(t, now, found.value, run);
      assert after == RecordRun(t, now, found.value, run).0;
    }
  }

  /** How one section changes the history of one record. */
  ghost predicate Continues(s: State, now: int, e: Event, t: State, id: Id) {
    if RevivedBy(s, now, e, id) then
      var found := FoundBy(s, now, e);
      var r := found.operations[id].request;
      && (id in t.loose <==> !LeaseHeld(found, r))
      && (id in t.defied <==> StopActive(found, r.target))
      && (id in t.defied ==> t.defied[id] == found.stops[r.target].revision)
      && id in t.revived
    else
      && (id in t.loose <==> id in s.loose) && (id in t.defied <==> id in s.defied)
      && (id in t.defied ==> t.defied[id] == s.defied[id])
      && (id in t.revived <==> id in s.revived)
  }

  lemma RunContinues(s: State, now: int, host: HostEvent, id: Id)
    requires ControlInvariants.Inv(s) && host.Run?
    ensures Continues(s, now, OnHost(host), HostSection(s, now, host).0, id)
  {
    ReportRunNotes(s, now, host.hostId, host.leaseId, host.run, host.io1);
    if id != host.run.operationId {
      HostSectionOk(s, now, host);
      var t := HostSection(s, now, host).0;
      assert ControlInvariants.Reach(s, t, {}, {host.run.operationId});
      HistoryBeside(s, t, {host.run.operationId}, id);
    }
  }

  lemma SectionHistory(s: State, now: int, e: Event, id: Id)
    requires ControlInvariants.Inv(s)
    ensures Continues(s, now, e, Section(s, now, e).0, id)
  {
    if e.OnHost? && e.host.Run? {
      RunContinues(s, now, e.host, id);
    } else if e.OnHost? && e.host.Report? {
      ResultKeepsHistory(s, now, e.host.hostId, e.host.leaseId, e.host.outcome, e.host.output, e.host.io1, e.host.io2);
    } else {
      SectionHolds(s, now, e);
      assert ControlInvariants.Reach(s, Section(s, now, e).0, {}, {});
      HistoryBeside(s, Section(s, now, e).0, {}, id);
    }
  }

  lemma HistoryBeside(s: State, t: State, reported: set<Id>, id: Id)
    requires ControlInvariants.KeepsHistory(s, t, reported) && id !in reported
    ensures (id in t.loose <==> id in s.loose) && (id in t.defied <==> id in s.defied)
    ensures id in t.defied ==> t.defied[id] == s.defied[id]
    ensures id in t.revived <==> id in s.revived
  {
    assert id in t.loose - reported <==> id in t.loose;
    assert id in s.loose - reported <==> id in s.loose;
    assert id in t.revived - reported <==> id in t.revived;
    assert id in s.revived - reported <==> id in s.revived;
    assert id in t.defied - reported <==> id in t.defied;
    assert id in s.defied - reported <==> id in s.defied;
    if id in t.defied { assert (t.defied - reported)[id] == (s.defied - reported)[id]; }
  }

  ghost predicate Recorded(config: Config, run: seq<Timed>, s: State, id: Id) {
    && (id in s.loose <==> Loosened(config, run, id))
    && (id in s.revived <==> PutBack(config, run, id))
    && (if id in s.defied then Defiance(config, run, id) == Some(s.defied[id]) else Defiance(config, run, id) == None)
  }

  lemma {:induction false} HistoryIsRecorded(config: Config, run: seq<Timed>, id: Id)
    requires Reached(config, run).Up?
    ensures Recorded(config, run, Reached(config, run).state, id)
    decreases |run|
  {
    var before, last := run[..|run| - 1], run[|run| - 1];
    ReachedSound(config, before);
    match Reached(config, before)
    case Down(_, _, _) =>
    case Up(s) =>
      HistoryIsRecorded(config, before, id);
      SectionHistory(s, last.now, last.event, id);
  }

  // ---------------------------------------------------------------- main results

  /**
    In every reachable state, the lease of a record in force is held, by the same
    identifier, epoch and authority revision, if and only if it was not gone when
    the record was last loaded or put back to work; and its actor is stopped if
    and only if the record was put back to work under the very stop now on.
   */
  lemma InForceIsHeldIff(config: Config, run: seq<Timed>, id: Id)
    ensures var p := Reached(config, run);
            p.Up? && id in p.state.operations && InForce(p.state.operations[id]) ==>
              var r := p.state.operations[id].request;
              && (LeaseHeld(p.state, r) <==> !Loosened(config, run, id))
              && (StopActive(p.state, r.target) <==>
                    && Defiance(config, run, id).Some? && r.target in p.state.stops
                    && p.state.stops[r.target].revision == Defiance(config, run, id).value)
  {
    ReachedSound(config, run);
    if Reached(config, run).Up? {
      HistoryIsRecorded(config, run, id);
      assert ControlInvariants.HeldAt(Reached(config, run).state, id);
    }
  }

  /**
    In every reachable state, active work under a budgeted decision still holds
    its reservation, which a restart will demand, if and only if no run report has
    put it back to work since the process opened its store.
   */
  lemma ReservationIsOpenIff(config: Config, run: seq<Timed>, id: Id)
    ensures var p := Reached(config, run);
            p.Up? && id in p.state.operations && NeedsReservation(p.state.operations[id]) ==>
              (p.state.operations[id].reserved <==> !PutBack(config, run, id))
  {
    ReachedSound(config, run);
    if Reached(config, run).Up? {
      HistoryIsRecorded(config, run, id);
      assert ControlInvariants.HeldAt(Reached(config, run).state, id);
    }
  }

  /**
    A poll hands an accepted record out again under a held and live lease if and
    only if the lease was not gone when the record was last loaded or put back to
    work, and for an actor that is not stopped if and only if it was not put back
    to work under that stop.
   */
  lemma RedeliveryIsHeldIff(config: Config, run: seq<Timed>, now: int, poll: HostEvent, i: nat)
    requires poll.Poll?
    ensures var (p, reply) := Step(Reached(config, run), now, OnHost(poll));
            p.Up? && reply.Batch? && i < |reply.deliveries| && AcceptedByHost(reply.deliveries[i]) ==>
              var (id, r) := (reply.deliveries[i].request.operationId, reply.deliveries[i].request);
              && (LeaseHeld(p.state, r) && p.state.controllers[r.target].expiresAt > now <==> !Loosened(config, run, id))
              && (StopActive(p.state, r.target) <==>
                    && Defiance(config, run, id).Some? && r.target in p.state.stops
                    && p.state.stops[r.target].revision == Defiance(config, run, id).value)
  {
    var (p, reply) := Step(Reached(config, run), now, OnHost(poll));
    if p.Up? && reply.Batch? && i < |reply.deliveries| && AcceptedByHost(reply.deliveries[i]) {
      var longer := run + [Timed(now, OnHost(poll))];
      var id := reply.deliveries[i].request.operationId;
      assert longer[..|run|] == run;
      assert Reached(config, longer) == p;
      FencedDelivery(config, run, now, poll);
      assert ControlHostSide.DeliveredFenced(p.state, now, poll.hostId, reply.deliveries[i]);
      HistoryIsRecorded(config, longer, id);
      assert Loosened(config, longer, id) == Loosened(config, run, id);
      assert Defiance(config, longer, id) == Defiance(config, run, id);
    }
  }
}
