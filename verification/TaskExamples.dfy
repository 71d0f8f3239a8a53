/**
  Concrete runs of one task that end where one might not expect: one finishes
  over an operation that the gateway forgot, one is refused its next model call
  by what a speculation was charged.
 */
module TaskExamples {
  import opened ControlTypes
  import OperationRecord
  import OperationRestore
  import T = TaskTypes
  import A = TaskActions
  import P = TaskActionProofs
  import L = Lookahead
  import LP = LookaheadProofs

  // ---------------------------------------------------------------- a forgotten operation

  const START := A.System(A.Task(T.Active, false, false, None, None, 0, 0, 5, 0, 0), A.Idle, map[], [], {}, false)

  /** Stored by a submission whose answer was lost, delivered, and ended with its Host before it was accepted. */
  const STORED := OperationRestore.RunningExample().(status := OperationRecord.Queued, attempts := 0, ack := None, run := None)
  const GONE := STORED.(status := OperationRecord.Stale, attempts := 1)

  const LOSING := [A.Select(false)] + [A.BeginSubmit] + [A.EndSubmit(A.Unclear(Some(STORED)), true)]
  const FORGETTING := LOSING + [A.Gateway(map[1 := GONE])] + [A.Forget(1)]
  const RETRYING := FORGETTING + [A.Resume] + [A.BeginSubmit] + [A.EndSubmit(A.Outdated, true)]
  const FINISHING := RETRYING + [A.Resume] + [A.CompleteNow]

  const SELECTED := A.Pending(1, false, true, None)
  const LOST := START.(task := START.task.(status := T.Paused, pending := Some(SELECTED), actions := 1),
                       ops := map[1 := STORED], created := {1})
  const FORGOTTEN := LOST.(ops := map[], dropped := [GONE])
  const RETRIED := FORGOTTEN.(task := FORGOTTEN.task.(pending := None, rejected := 1))

  lemma NextStep(s: A.System, events: seq<A.Event>, e: A.Event)
    ensures A.Run(s, events + [e]) == A.Step(A.Run(s, events), e)
  {
    assert (events + [e])[..|events|] == events;
  }

  const SUBMITTING := START.(task := START.task.(pending := Some(SELECTED), actions := 1), runner := A.Submitting(1, true))

  lemma Submitting()
    ensures A.Run(START, [A.Select(false)] + [A.BeginSubmit]) == SUBMITTING
  {
    assert A.Run(START, [A.Select(false)]) == A.Step(START, A.Select(false)) by {
      NextStep(START, [], A.Select(false));
      assert [] + [A.Select(false)] == [A.Select(false)];
    }
    NextStep(START, [A.Select(false)], A.BeginSubmit);
  }

  lemma RecordsAreOk()
    ensures OperationRecord.RecordOk(STORED) && OperationRecord.RecordOk(GONE) && A.GatewayAdvances(map[1 := STORED], map[1 := GONE])
    ensures A.Forgettable(GONE) && A.OutcomeIsUnknown(GONE)
  {
  }

  lemma LosingAnswer()
    ensures A.EndSubmitStep(SUBMITTING, A.Unclear(Some(STORED)), true) == LOST
  {
    RecordsAreOk();
    assert A.Plausible(SUBMITTING, 1, A.Unclear(Some(STORED)));
    var t := A.Stored(SUBMITTING, 1, A.Unclear(Some(STORED)));
    assert t.ops == map[1 := STORED] && t.created == {1};
  }

  lemma Losing()
    ensures A.Run(START, LOSING) == LOST
  {
    Submitting();
    LosingAnswer();
    NextStep(START, [A.Select(false)] + [A.BeginSubmit], A.EndSubmit(A.Unclear(Some(STORED)), true));
  }

  lemma Forgetting()
    ensures A.Run(START, FORGETTING) == FORGOTTEN
  {
    Losing();
    NextStep(START, LOSING, A.Gateway(map[1 := GONE]));
    NextStep(START, LOSING + [A.Gateway(map[1 := GONE])], A.Forget(1));
    ForgettingSteps();
  }

  lemma ForgettingSteps()
    ensures A.Step(A.Step(LOST, A.Gateway(map[1 := GONE])), A.Forget(1)) == FORGOTTEN
  {
    RecordsAreOk();
    var gone := LOST.(ops := map[1 := GONE]);
    assert A.Step(LOST, A.Gateway(map[1 := GONE])) == gone;
    assert gone.ops - {1} == map[];
  }

  lemma Retrying()
    ensures A.Run(START, RETRYING) == RETRIED
  {
    Forgetting();
    NextStep(START, FORGETTING, A.Resume);
    NextStep(START, FORGETTING + [A.Resume], A.BeginSubmit);
    NextStep(START, FORGETTING + [A.Resume] + [A.BeginSubmit], A.EndSubmit(A.Outdated, true));
  }

  /**
    A task completes although an operation that it submitted was delivered and its
    result is unknown: the gateway without archive forgot it before the task found it.
   */
  lemma FinishesOverForgotten()
    ensures P.Fresh(START) && A.Run(START, FINISHING).task.status == T.Completed
    ensures A.Run(START, FINISHING).dropped == [GONE] && GONE.attempts > 0 && A.OutcomeIsUnknown(GONE)
  {
    Retrying();
    RecordsAreOk();
    NextStep(START, RETRYING, A.Resume);
    NextStep(START, RETRYING + [A.Resume], A.CompleteNow);
  }

  // ---------------------------------------------------------------- an over-reported speculation

  const IDLE := L.Speculation(L.Task(T.Active, false, 0, 0, Some(1), L.Budget(10, 100), 0, 0, None), None, L.Free, [])

  const RESERVING :=
    [L.Lock] + [L.Recover(T.Saved)] + [L.StartJob(1, 10, 0, T.Saved)] + [L.Unlock] + [L.ReserveTokens(40, true, T.Saved)]
  const SETTLING := RESERVING + [L.Finish(Some(100), true, true, 5, true, T.Saved)]
  const CALLING := SETTLING + [L.Lock] + [L.Recover(T.Saved)] + [L.ModelCall(Some(1), T.Saved)]

  lemma NextEvent(w: L.Speculation, events: seq<L.Event>, e: L.Event)
    ensures L.Run(w, events + [e]) == L.Step(L.Run(w, events), e)
  {
    assert (events + [e])[..|events|] == events;
  }

  const JOB := L.Job(1, 0, 0, 10, true, false, false)
  const RESERVED :=
    L.Speculation(IDLE.task.(calls := 1, look := Some(L.Look(1, L.Running, 40, 1, 0, 0))), Some(JOB), L.Free, [L.Reserve(40)])

  lemma Reserving()
    ensures L.Run(IDLE, RESERVING) == RESERVED
  {
    var r1, r2 := [L.Lock], [L.Lock] + [L.Recover(T.Saved)];
    NextEvent(IDLE, [], L.Lock);
    assert [] + [L.Lock] == [L.Lock];
    NextEvent(IDLE, r1, L.Recover(T.Saved));
    NextEvent(IDLE, r2, L.StartJob(1, 10, 0, T.Saved));
    NextEvent(IDLE, r2 + [L.StartJob(1, 10, 0, T.Saved)], L.Unlock);
    NextEvent(IDLE, r2 + [L.StartJob(1, 10, 0, T.Saved)] + [L.Unlock], L.ReserveTokens(40, true, T.Saved));
  }

  /**
    A provider that reports more than was reserved for it uses up the room: the
    next ordinary call is allowed while the reservation is open, and after the
    settlement it fails the task.
   */
  lemma OverReportRefusesCall()
    ensures LP.Fresh(IDLE) && L.CallAllowed(L.Run(IDLE, RESERVING).task)
    ensures L.Run(IDLE, SETTLING).task.tokens == 100 && L.Run(IDLE, SETTLING).task.status == T.Active
    ensures L.Run(IDLE, CALLING).task.status == T.Failed
  {
    Reserving();
    NextEvent(IDLE, RESERVING, L.Finish(Some(100), true, true, 5, true, T.Saved));
    NextEvent(IDLE, SETTLING, L.Lock);
    NextEvent(IDLE, SETTLING + [L.Lock], L.Recover(T.Saved));
    NextEvent(IDLE, SETTLING + [L.Lock] + [L.Recover(T.Saved)], L.ModelCall(Some(1), T.Saved));
  }
}
