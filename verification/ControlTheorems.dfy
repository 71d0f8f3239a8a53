/**
  What holds of every run of the control plane, for every interleaving of
  sections, write failures, crashes and restarts.
 */
module ControlTheorems {
  import opened ControlTypes
  import opened OperationRecord
  import opened ControlPlane
  import opened ControlInvariants
  import ControlSteps
  import ControlSubmission
  import ControlHostSide
  import ControlRestart
  import opened ControlRuns

  ghost function Reached(config: Config, run: seq<Timed>): Process {
    After(Start(config), run)
  }

  lemma ReachedSound(config: Config, run: seq<Timed>)
    ensures Sound(Reached(config, run)) && ConfigOf(Reached(config, run)) == config
  {
    StartSound(config);
    RunSound(Start(config), run);
    ConfigKept(Start(config), run);
  }

  // ---------------------------------------------------------------- dispatch

  /**
    Fenced delivery: whatever happened before, an operation that a poll hands
    out before its Host acknowledged it is bound to the controller lease that is
    live at that poll, to the epoch and authority revision of the actor as
    published now, and its actor is not stopped.
   */
  lemma FencedDelivery(config: Config, run: seq<Timed>, now: int, poll: HostEvent)
    requires poll.Poll?
    ensures var (p, reply) := Step(Reached(config, run), now, OnHost(poll));
            p.Up? ==> ControlHostSide.DeliversFenced(p.state, now, poll.hostId, reply)
  {
    ReachedSound(config, run);
    if Reached(config, run).Up? {
      var s := Reached(config, run).state;
      ControlSteps.Begin(s, {});
      ControlHostSide.PollHostOk(s, now, poll.hostId, poll.leaseId, poll.limit, poll.gateway, poll.order, poll.queue, poll.io1,
                                 poll.io2);
    }
  }

  /** In every reachable state, work that may still be dispatched is fenced, and belongs to no stopped actor. */
  lemma StoppedActorsAreQuiet(config: Config, run: seq<Timed>, id: Id)
    ensures var p := Reached(config, run);
            p.Up? && id in p.state.operations && LiveUnacked(p.state.operations[id]) ==>
              && Fenced(p.state, p.state.operations[id].request)
              && !StopActive(p.state, p.state.operations[id].request.target)
  {
    ReachedSound(config, run);
    if Reached(config, run).Up? { assert FencedAt(Reached(config, run).state, id); }
  }

  // ---------------------------------------------------------------- proof of execution

  /** Every record the service can show, hot or archived, proves what it confirms. */
  lemma ConfirmedMeansExecuted(config: Config, run: seq<Timed>, id: Id)
    requires Reached(config, run).Up?
    requires Where(Reached(config, run).state, id).Some?
    requires ExecutionConfirmed(Where(Reached(config, run).state, id).value)
    ensures var o := Where(Reached(config, run).state, id).value;
            && o.outcome.value.status == RunSucceeded && AcceptedByHost(o) && o.attempts > 0
            && o.request.decision.result == Allow
            && o.outcome.value.epoch == o.request.binding.epoch
            && o.outcome.value.worldSeq >= o.request.binding.observationSeq
  {
    ReachedSound(config, run);
    var s := Reached(config, run).state;
    assert RecordAt(s.operations, id) && RecordAt(Archived(s), id);
    ConfirmedExecutionHasProof(Where(s, id).value);
  }

  // ---------------------------------------------------------------- runs without a crash

  ghost predicate Uninterrupted(run: seq<Timed>) {
    forall i :: 0 <= i < |run| ==> !run[i].event.Crash?
  }

  /** Between two crashes memory only evolves. */
  lemma {:induction false} UninterruptedEvolves(s: State, run: seq<Timed>)
    requires Inv(s) && Uninterrupted(run)
    ensures After(Up(s), run).Up? && Inv(After(Up(s), run).state) && Evolves(s, After(Up(s), run).state)
    decreases |run|
  {
    ControlSteps.Begin(s, {});
    assert Reach(s, s, {}, {});
    if run != [] {
      var last := run[|run| - 1];
      UninterruptedEvolves(s, run[..|run| - 1]);
      var t := After(Up(s), run[..|run| - 1]).state;
      SectionHolds(t, last.now, last.event);
      var u := Section(t, last.now, last.event).0;
      assert Reach(t, u, {}, Reported(last.event));
      ControlSteps.MemoryEvolvesTransitive(s, t, u);
      ControlSteps.RowsEvolveTransitive(s.issued, t.issued, s.durable, t.durable, u.durable);
    }
  }

  /**
    Settled is final: while the process lives, a settled record keeps its
    request, status, acknowledgement, run, outcome, output and rejection for as
    long as it is kept at all, and with an archive it is kept for ever.
   */
  lemma SettledIsFinal(config: Config, before: seq<Timed>, later: seq<Timed>, id: Id)
    requires Reached(config, before).Up? && Uninterrupted(later)
    requires Where(Reached(config, before).state, id).Some? && Settled(Where(Reached(config, before).state, id).value)
    ensures After(Reached(config, before), later).Up?
    ensures var s, t := Reached(config, before).state, After(Reached(config, before), later).state;
            && (Where(t, id).Some? ==> SameResult(Where(s, id).value, Where(t, id).value))
            && (config.store == Sqlite ==> Where(t, id).Some?)
  {
    ReachedSound(config, before);
    var s := Reached(config, before).state;
    UninterruptedEvolves(s, later);
    assert s.config == config;
    assert EvolvesAt(s, After(Up(s), later).state, id);
  }

  function ConfigOf(p: Process): Config {
    match p case Up(s) => s.config case Down(config, _, _) => config
  }

  lemma {:induction false} ConfigKept(p: Process, run: seq<Timed>)
    requires Sound(p)
    ensures ConfigOf(After(p, run)) == ConfigOf(p)
    decreases |run|
  {
    if run != [] {
      ConfigKept(p, run[..|run| - 1]);
      RunSound(p, run[..|run| - 1]);
      var q, last := After(p, run[..|run| - 1]), run[|run| - 1];
      if q.Up? && !last.event.Crash? {
        SectionHolds(q.state, last.now, last.event);
        assert Reach(q.state, Section(q.state, last.now, last.event).0, {}, Reported(last.event));
      }
    }
  }

  /** No event of the run is a Host report on the record. */
  ghost predicate Unreported(run: seq<Timed>, id: Id) {
    forall i :: 0 <= i < |run| ==> id !in Reported(run[i].event)
  }

  /** An outcome that is unknown stays hot and unknown until the Host reports on it: nothing prunes or retires it. */
  lemma {:induction false} UnknownStaysOpen(s: State, run: seq<Timed>, id: Id)
    requires Inv(s) && Uninterrupted(run) && Unreported(run, id)
    requires id in s.operations && ReconciliationPending(s.operations[id])
    ensures After(Up(s), run).Up?
    ensures id in After(Up(s), run).state.operations && ReconciliationPending(After(Up(s), run).state.operations[id])
    decreases |run|
  {
    if run != [] {
      var last := run[|run| - 1];
      UnknownStaysOpen(s, run[..|run| - 1], id);
      UninterruptedEvolves(s, run[..|run| - 1]);
      var t := After(Up(s), run[..|run| - 1]).state;
      SectionHolds(t, last.now, last.event);
      var u := Section(t, last.now, last.event).0;
      assert Reach(t, u, {}, Reported(last.event));
      assert UnknownAt(t.operations, u.operations, Reported(last.event), id);
    }
  }

  // ---------------------------------------------------------------- runs with crashes and restarts

  function DurableOf(p: Process): Durable {
    match p case Up(s) => s.durable case Down(_, durable, _) => durable
  }

  function IssuedOf(p: Process): set<Id> {
    match p case Up(s) => s.issued case Down(_, _, issued) => issued
  }

  lemma StepRows(p: Process, now: int, e: Event)
    requires Sound(p)
    ensures IssuedOf(p) <= IssuedOf(Step(p, now, e).0)
    ensures RowsEvolve(IssuedOf(p), DurableOf(p), DurableOf(Step(p, now, e).0))
  {
    forall id ensures RowEvolves(IssuedOf(p), DurableOf(p), DurableOf(p), id) { }
    if p.Up? && !e.Crash? {
      SectionHolds(p.state, now, e);
      assert Reach(p.state, Section(p.state, now, e).0, {}, Reported(e));
    }
  }

  lemma {:induction false} RunRows(p: Process, run: seq<Timed>)
    requires Sound(p)
    ensures IssuedOf(p) <= IssuedOf(After(p, run))
    ensures RowsEvolve(IssuedOf(p), DurableOf(p), DurableOf(After(p, run)))
    decreases |run|
  {
    if run == [] {
      forall id ensures RowEvolves(IssuedOf(p), DurableOf(p), DurableOf(p), id) { }
    } else {
      var q := After(p, run[..|run| - 1]);
      RunRows(p, run[..|run| - 1]);
      RunSound(p, run[..|run| - 1]);
      StepRows(q, run[|run| - 1].now, run[|run| - 1].event);
      ControlSteps.RowsEvolveTransitive(IssuedOf(p), IssuedOf(q), DurableOf(p), DurableOf(q), DurableOf(After(p, run)));
    }
  }

  /**
    A result that reached the durable store is final across crashes and
    restarts: whatever happens later, the row keeps it for as long as it exists,
    and a row that was dropped never comes back.
   */
  lemma WrittenResultIsFinal(config: Config, before: seq<Timed>, later: seq<Timed>, id: Id)
    ensures var d, d' := DurableOf(Reached(config, before)), DurableOf(After(Reached(config, before), later));
            && (StoredAt(d, id).Some? && Settled(StoredAt(d, id).value) && StoredAt(d', id).Some? ==>
                  SameResult(StoredAt(d, id).value, StoredAt(d', id).value))
            && (StoredAt(d, id).None? && id in IssuedOf(Reached(config, before)) ==> StoredAt(d', id).None?)
  {
    ReachedSound(config, before);
    var p := Reached(config, before);
    RunRows(p, later);
    assert RowEvolves(IssuedOf(p), DurableOf(p), DurableOf(After(p, later)), id);
  }

  // ---------------------------------------------------------------- one operation per idempotency key

  ghost function Known(p: Process, id: Id): Option<Operation> {
    match p case Up(s) => Where(s, id) case Down(_, durable, _) => StoredAt(durable, id)
  }

  ghost predicate KnownAs(p: Process, id: Id, key: Key) {
    Known(p, id).Some? && Known(p, id).value.key == key
  }

  /** No two records anywhere share a key. */
  lemma KeyIsUnique(p: Process, a: Id, b: Id, key: Key)
    requires Sound(p) && KnownAs(p, a, key) && KnownAs(p, b, key)
    ensures a == b
  {
    match p
    case Up(s) =>
      ControlSteps.HotKeysDistinct(s.operations, s.requests);
      UniqueAcross(s.operations, Archived(s), a, b);
    case Down(_, d, _) =>
      UniqueAcross(d.operations, d.archive, a, b);
  }

  lemma UniqueAcross(hot: map<Id, Operation>, cold: map<Id, Operation>, a: Id, b: Id)
    requires KeysDistinct(hot) && KeysDistinct(cold) && Apart(hot, cold)
    requires (a in hot || a in cold) && (b in hot || b in cold)
    requires (if a in hot then hot[a] else cold[a]).key == (if b in hot then hot[b] else cold[b]).key
    ensures a == b
  {
    assert KeysDiffer(hot, a, b) && KeysDiffer(cold, a, b) && ApartAt(hot, cold, a, b) && ApartAt(hot, cold, b, a);
  }

  lemma OpenKeepsKnown(config: Config, d: Durable, issued: set<Id>, now: int, id: Id, key: Key)
    requires ControlRestart.Rested(config, d, issued) && RowsOk(d.operations) && KnownAs(Down(config, d, issued), id, key)
    ensures KnownAs(Up(Opened(config, d, issued, now)), id, key)
  {
    var s := Opened(config, d, issued, now);
    ControlRestart.ReloadRecords(d.operations, config.sinks, now);
    assert ControlRestart.ReloadedAt(d.operations, s.operations, id);
    ControlRestart.OpenedArchive(config, d, issued, now);
  }

  /** With an archive nothing is forgotten, across write failures, crashes and restarts. */
  lemma StepKeepsKnown(p: Process, now: int, e: Event, id: Id, key: Key)
    requires Sound(p) && ConfigOf(p).store == Sqlite && KnownAs(p, id, key)
    ensures KnownAs(Step(p, now, e).0, id, key)
  {
    match p
    case Up(s) =>
      if e.Crash? {
        assert BackedAt(s, {}, id);
      } else {
        SectionHolds(s, now, e);
        var t := Section(s, now, e).0;
        assert Reach(s, t, {}, Reported(e));
        assert EvolvesAt(s, t, id);
      }
    case Down(config, durable, issued) =>
      if e.Open? && CanOpen(config, durable) { OpenKeepsKnown(config, durable, issued, now, id, key); }
  }

  lemma {:induction false} RunKeepsKnown(p: Process, run: seq<Timed>, id: Id, key: Key)
    requires Sound(p) && ConfigOf(p).store == Sqlite && KnownAs(p, id, key)
    ensures KnownAs(After(p, run), id, key)
    decreases |run|
  {
    if run != [] {
      var q, last := After(p, run[..|run| - 1]), run[|run| - 1];
      RunKeepsKnown(p, run[..|run| - 1], id, key);
      RunSound(p, run[..|run| - 1]);
      ConfigKept(p, run[..|run| - 1]);
      StepKeepsKnown(q, last.now, last.event, id, key);
    }
  }

  /** A record shown to a caller is known afterwards. */
  lemma ShownIsKnown(p: Process, now: int, e: Event)
    requires Sound(p) && Step(p, now, e).1.Viewed?
    ensures var (q, reply) := Step(p, now, e); KnownAs(q, reply.operation.request.operationId, reply.operation.key)
  {
    if p.Up? { SectionHolds(p.state, now, e); }
  }

  /**
    One operation per idempotency key: with the archive, any two calls of one
    run that return an operation for the same principal and key return the same
    operation, whatever crashed, failed or was retired between them.
   */
  lemma OneOperationPerKey(config: Config, before: seq<Timed>, first: Timed, between: seq<Timed>, second: Timed)
    requires config.store == Sqlite
    ensures var (p, r1) := Step(Reached(config, before), first.now, first.event);
            var r2 := Step(After(p, between), second.now, second.event).1;
            r1.Viewed? && r2.Viewed? && r1.operation.key == r2.operation.key ==>
              r1.operation.request.operationId == r2.operation.request.operationId
  {
    ReachedSound(config, before);
    SameOperation(Reached(config, before), first, between, second);
  }

  lemma SameOperation(p0: Process, first: Timed, between: seq<Timed>, second: Timed)
    requires Sound(p0) && ConfigOf(p0).store == Sqlite
    ensures var (p, r1) := Step(p0, first.now, first.event);
            var r2 := Step(After(p, between), second.now, second.event).1;
            r1.Viewed? && r2.Viewed? && r1.operation.key == r2.operation.key ==>
              r1.operation.request.operationId == r2.operation.request.operationId
  {
    var (p, r1) := Step(p0, first.now, first.event);
    var q := After(p, between);
    var (r, r2) := Step(q, second.now, second.event);
    if r1.Viewed? && r2.Viewed? && r1.operation.key == r2.operation.key {
      var id, key := r1.operation.request.operationId, r1.operation.key;
      ShownIsKnown(p0, first.now, first.event);
      StepSound(p0, first.now, first.event);
      StepConfig(p0, first.now, first.event);
      RunKeepsKnown(p, between, id, key);
      RunSound(p, between);
      ConfigKept(p, between);
      StepKeepsKnown(q, second.now, second.event, id, key);
      ShownIsKnown(q, second.now, second.event);
      StepSound(q, second.now, second.event);
      KeyIsUnique(r, id, r2.operation.request.operationId, key);
    }
  }

  lemma ArchivedRequestRefuses(s: State, now: int, fingerprint: Fingerprint, io: Io, id: Id)
    requires Core(s) && id in Archived(s) && FingerprintOf(Archived(s)[id].request) != fingerprint
    ensures ArchivedRequest(s, now, id, fingerprint, io) == (s, Refused(Conflict))
            || ArchivedRequest(s, now, id, fingerprint, io) == (s, Refused(Persistence))
  {
    if ArchivedOperation(s, id).Some? { ControlSubmission.ArchivedRead(s, id); }
  }

  lemma ArchivedKeyRefuses(s: State, now: int, key: Key, fingerprint: Fingerprint, io: Io, id: Id)
    requires Core(s) && ArchivedAt(s, key, id) && FingerprintOf(Archived(s)[id].request) != fingerprint
    ensures Idempotent(s, now, key, fingerprint, io) == (s, Refused(Conflict))
            || Idempotent(s, now, key, fingerprint, io) == (s, Refused(Persistence))
  {
    assert key !in s.requests by {
      assert ResolvedAt(s.operations, s.requests, key);
      assert key in s.requests ==> ApartAt(s.operations, Archived(s), s.requests[key], id);
    }
    ArchivedKeyIsUnique(s, key, id);
    ArchivedRequestRefuses(s, now, fingerprint, io, id);
    assert s.config.store == Sqlite;
  }

  /** A key that a known record carries is refused for any other request, and nothing changes. */
  lemma KeyReuseIsRefused(s: State, now: int, principal: Principal, submission: Submission, io: Io, id: Id)
    requires Inv(s)
    ensures var (t, reply) := BeginSubmit(s, now, principal, submission, io);
            && Where(s, id).Some? && Where(s, id).value.key == BeginKey(principal, submission)
            && FingerprintOf(Where(s, id).value.request) != Fingerprint(submission.action, submission.parent, principal) ==>
              t == s && reply in {Errored(Invalid), Errored(Conflict), Errored(Persistence)}
  {
    var key := BeginKey(principal, submission);
    var fingerprint := Fingerprint(submission.action, submission.parent, principal);
    if Where(s, id).Some? && Where(s, id).value.key == key && FingerprintOf(Where(s, id).value.request) != fingerprint {
      if id in s.operations {
        assert IndexedAt(s.operations, s.requests, id);
        assert Idempotent(s, now, key, fingerprint, io) == (s, Refused(Conflict));
      } else {
        ArchivedKeyRefuses(s, now, key, fingerprint, io, id);
      }
    }
  }

  lemma StepConfig(p: Process, now: int, e: Event)
    requires Sound(p)
    ensures ConfigOf(Step(p, now, e).0) == ConfigOf(p)
  {
    if p.Up? && !e.Crash? {
      SectionHolds(p.state, now, e);
      assert Reach(p.state, Section(p.state, now, e).0, {}, Reported(e));
    }
  }

  /**
    The archive is what the previous theorem rests on: removing a settled record
    keeps its key known exactly when the service has one.
   */
  lemma RemovalForgetsIff(s: State, id: Id, at: Option<int>)
    requires Inv(s) && id in s.operations && Retirable(s.operations[id])
    ensures ControlSubmission.KeyFree(Remove(s, id, at), s.operations[id].key) <==> s.config.store != Sqlite
  {
    var t, key := Remove(s, id, at), s.operations[id].key;
    if s.config.store == Sqlite {
      assert t.staged[id].key == key && Where(t, id) == Some(s.operations[id]);
      assert !ControlSubmission.FreeAt(t, key, id);
    } else {
      ControlSteps.HotKeysDistinct(s.operations, s.requests);
      assert Archived(t) == Archived(s);
      forall other ensures ControlSubmission.FreeAt(t, key, other) {
        assert KeysDiffer(s.operations, id, other) && ApartAt(s.operations, Archived(s), id, other);
      }
    }
  }

  // ---------------------------------------------------------------- restart

  /** A stopped service opens again exactly when every row of its store passes its own check; no structural check can fail. */
  lemma ReachedOpensIff(config: Config, run: seq<Timed>)
    requires Reached(config, run).Down?
    ensures var p := Reached(config, run);
            CanOpen(p.config, p.durable)
            <==> ControlRestart.RowsFit(p.durable.operations) && LeaseRowsOk(p.durable.controllers) && StopRowsOk(p.durable.stops)
  {
    ReachedSound(config, run);
    ControlRestart.OpensIff(Reached(config, run).config, Reached(config, run).durable);
  }

  /**
    Restart never dispatches: right after opening, every record is settled,
    waits for reconciliation, or was accepted by its Host and never started;
    and whatever may later be dispatched unacknowledged was stored after it.
   */
  lemma RestartDispatchesNothing(config: Config, run: seq<Timed>, now: int, later: seq<Timed>)
    requires Uninterrupted(later)
    ensures var down := Reached(config, run);
            var p := Step(down, now, Open).0;
            down.Down? && p.Up? ==>
              && After(p, later).Up?
              && (forall id :: id in p.state.operations ==> Quiet(p.state.operations[id]))
              && (forall id :: id in After(p, later).state.operations && LiveUnacked(After(p, later).state.operations[id]) ==>
                    id !in down.issued)
  {
    ReachedSound(config, run);
    var q := Reached(config, run);
    var p := Step(q, now, Open).0;
    if q.Down? && p.Up? {
      var s := p.state;
      assert p == Up(Opened(q.config, q.durable, q.issued, now));
      ControlRestart.OpenedInv(q.config, q.durable, q.issued, now);
      ControlRestart.ReloadRecords(q.durable.operations, q.config.sinks, now);
      forall id | id in s.operations ensures !LiveUnacked(s.operations[id]) && Quiet(s.operations[id]) {
        assert ControlRestart.ReloadedAt(q.durable.operations, s.operations, id);
      }
      UninterruptedEvolves(s, later);
      var t := After(p, later).state;
      forall id | id in t.operations && LiveUnacked(t.operations[id]) ensures id !in q.issued { assert EvolvesAt(s, t, id); }
    }
  }

  /** A checkpoint taken now opens again exactly when every record, lease and stop in memory passes its own row check. */
  lemma CheckpointOpensIff(config: Config, run: seq<Timed>, now: int)
    requires Reached(config, run).Up? && config.store != Memory
    ensures var p := Step(Reached(config, run), now, OnClient(Checkpoint(Committed))).0;
            var down := Step(p, now, Crash).0;
            && down.Down? && p.Up?
            && (CanOpen(config, down.durable) <==>
                  ControlRestart.RowsFit(p.state.operations) && LeaseRowsOk(p.state.controllers) && StopRowsOk(p.state.stops))
  {
    ReachedSound(config, run);
    var s := Reached(config, run).state;
    var p := Step(Reached(config, run), now, OnClient(Checkpoint(Committed))).0;
    StepSound(Reached(config, run), now, OnClient(Checkpoint(Committed)));
    StepConfig(Reached(config, run), now, OnClient(Checkpoint(Committed)));
    assert p.state == Persist(s.(dirty := true), now, Committed).0;
    assert p.state.durable.operations == p.state.operations;
    ControlRestart.OpensIff(config, p.state.durable);
  }

  /**
    A record that went unknown while its run was in progress closes the store:
    whatever run led to it, once it is checkpointed the service does not open
    again.
   */
  lemma UnknownRunClosesStore(config: Config, run: seq<Timed>, now: int, id: Id)
    requires config.store != Memory
    ensures var p := Reached(config, run);
            p.Up? && id in p.state.operations && ReconciliationPending(p.state.operations[id])
            && p.state.operations[id].run.Some? && p.state.operations[id].run.value.status != RunUnknown ==>
              !CanOpen(config, DurableOf(Step(p, now, OnClient(Checkpoint(Committed))).0))
  {
    var p := Reached(config, run);
    if p.Up? && id in p.state.operations && ReconciliationPending(p.state.operations[id])
       && p.state.operations[id].run.Some? && p.state.operations[id].run.value.status != RunUnknown
    {
      ReachedSound(config, run);
      CheckpointOpensIff(config, run, now);
      CheckpointKeepsUnfit(p.state, now, id);
    }
  }

  lemma CheckpointKeepsUnfit(s: State, now: int, id: Id)
    requires id in s.operations && ReconciliationPending(s.operations[id])
    requires s.operations[id].run.Some? && s.operations[id].run.value.status != RunUnknown
    ensures var t := Step(Up(s), now, OnClient(Checkpoint(Committed))).0.state;
            id in t.operations && !ControlRestart.RowFit(t.operations[id])
  {
    CompleteStays(s.(dirty := true), now, Committed, id);
    assert Step(Up(s), now, OnClient(Checkpoint(Committed))).0.state == Persist(s.(dirty := true), now, Committed).0;
  }

  /** A write changes no complete record. */
  lemma CompleteStays(s: State, now: int, io: Io, id: Id)
    requires id in s.operations && Complete(s.operations[id])
    ensures id in Persist(s, now, io).0.operations && Persist(s, now, io).0.operations[id] == s.operations[id]
  {
    var t := Persist(s, now, io).0;
    if !s.dirty || s.config.store == Memory {
      assert t.operations == s.operations;
    } else {
      assert t.operations == ExpireControllers(s, now).operations;
    }
  }

  // ---------------------------------------------------------------- the operation forest

  /**
    In every reachable state parents stay hot while a child is hot, `children`
    is exactly the inverse of the parent link and bounded, relatives share
    target, principal and lease, nothing cycles, and the key index is the exact
    inverse of the hot records' keys.
   */
  lemma OperationForest(config: Config, run: seq<Timed>, id: Id)
    requires Reached(config, run).Up? && id in Reached(config, run).state.operations
    ensures var s := Reached(config, run).state;
            var o := s.operations[id];
            && o.children == ChildrenOf(s.operations, id) && |o.children| <= MAX_CHILDREN
            && (o.request.parent.Some? ==>
                  && o.request.parent.value in s.operations
                  && SameOwner(s.operations[o.request.parent.value].request, o.request))
            && !HasCycle(s.operations)
            && o.key in s.requests && s.requests[o.key] == id
            && s.requests.Values == s.operations.Keys
  {
    ReachedSound(config, run);
    var s := Reached(config, run).state;
    assert LinkedUp(s.operations, id) && LinkedDown(s.operations, id) && IndexedAt(s.operations, s.requests, id);
    ControlRestart.ChildrenMatch(s.operations, id);
    forall other ensures other in s.requests.Values <==> other in s.operations {
      assert IndexedAt(s.operations, s.requests, other);
      if other in s.requests.Values {
        var key :| key in s.requests && s.requests[key] == other;
        assert ResolvedAt(s.operations, s.requests, key);
      }
    }
  }
}
