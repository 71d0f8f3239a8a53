/**
  What holds of every interleaving of a task, its cancellation, crashes and the
  gateway: selected actions are conserved, cancellation hides no operation, and
  finished tasks stay finished.
 */
module TaskActionProofs {
  import opened ControlTypes
  import opened OperationRecord
  import ControlInvariants
  import opened T = TaskTypes
  import opened TaskActions

  // ---------------------------------------------------------------- the invariant

  function Count(b: bool): nat { if b then 1 else 0 }

  /** Where each selected action is: ended, rejected, pending, or the running macro. */
  predicate Conserved(task: Task) {
    var accounted := task.terminal + task.rejected + Count(task.pending.Some?) + Count(task.macroOp.Some?);
    && accounted <= task.actions <= task.maxActions
    && (!task.cancelRequested && task.status != T.Failed ==> accounted == task.actions)
  }

  predicate StatusOk(task: Task) {
    && (task.cancelRequested ==> task.status != T.Completed && task.status != T.Failed)
    && (task.status in {T.Cancelling, T.Cancelled} ==> task.cancelRequested)
    && (task.status in {T.Completed, T.Cancelled} ==> task.pending.None? && task.macroOp.None?)
    && (task.completionRequested ==> task.pending.None? && task.macroOp.None? && !task.cancelRequested)
    && (task.pending.Some? && (task.pending.value.opId.Some? || task.status == T.Unknown) ==> task.pending.value.started)
  }

  predicate RunnerOk(s: System) {
    s.runner.Submitting? ==>
      && s.task.pending.Some? && s.task.pending.value == Pending(s.runner.key, s.task.pending.value.macro, true, None)
      && (s.runner.current ==> Runnable(s.task))
      && (!s.runner.current ==> s.task.cancelRequested && s.task.status == T.Cancelling)
  }

  /** The task still answers for an operation: it is the pending one, or the running macro. */
  predicate Tracked(task: Task, key: nat, o: Operation) {
    || (task.pending.Some? && task.pending.value.key == key && task.pending.value.started
        && (task.pending.value.opId.Some? ==> task.pending.value.opId == Some(o.request.operationId)))
    || task.macroOp == Some(o.request.operationId)
  }

  ghost predicate TrackedAt(s: System, key: nat) {
    key in s.ops ==> Resolved(s.ops[key]) || Tracked(s.task, key, s.ops[key])
  }

  ghost predicate UniqueAt(s: System, a: nat, b: nat) {
    a in s.ops && b in s.ops && s.ops[a].request.operationId == s.ops[b].request.operationId ==> a == b
  }

  ghost predicate Operations(s: System) {
    && (s.task.status != T.Failed ==> forall key {:trigger TrackedAt(s, key)} :: TrackedAt(s, key))
    && (forall a, b {:trigger UniqueAt(s, a, b)} :: UniqueAt(s, a, b))
    && (s.archive ==> s.dropped == [] && s.created <= s.ops.Keys)
    && (forall i :: 0 <= i < |s.dropped| ==> Forgettable(s.dropped[i]))
  }

  ghost predicate Inv(s: System) {
    Conserved(s.task) && StatusOk(s.task) && RunnerOk(s) && Operations(s)
  }

  predicate Fresh(s: System) {
    && s.task.status == T.Active && !s.task.cancelRequested && !s.task.completionRequested && s.task.pending.None?
    && s.task.macroOp.None? && s.task.actions == 0 && s.task.terminal == 0 && s.task.rejected == 0
    && s.runner == Idle && s.ops == map[] && s.dropped == [] && s.created == {}
  }

  lemma FreshHolds(s: System)
    requires Fresh(s)
    ensures Inv(s)
  {
    forall key ensures TrackedAt(s, key) { }
    forall a, b ensures UniqueAt(s, a, b) { }
  }

  // ---------------------------------------------------------------- steps of the record

  /** The record changed over the same operations, and lets go only of resolved ones. */
  lemma RecordChanges(s: System, s': System)
    requires Operations(s) && s' == s.(task := s'.task, runner := s'.runner)
    requires s.task.status == T.Failed ==> s'.task.status == T.Failed
    requires s'.task.status != T.Failed ==>
               forall key :: key in s.ops && !Resolved(s.ops[key]) && Tracked(s.task, key, s.ops[key])
                 ==> Tracked(s'.task, key, s.ops[key])
    ensures Operations(s')
  {
    forall key | s'.task.status != T.Failed ensures TrackedAt(s', key) { assert TrackedAt(s, key); }
    forall a, b ensures UniqueAt(s', a, b) { assert UniqueAt(s, a, b); }
  }

  lemma SelectKeeps(s: System, macro: bool)
    requires Inv(s)
    ensures Inv(Step(s, Select(macro)))
  {
    RecordChanges(s, Step(s, Select(macro)));
  }

  lemma BeginSubmitKeeps(s: System)
    requires Inv(s)
    ensures Inv(Step(s, BeginSubmit))
  {
    RecordChanges(s, Step(s, BeginSubmit));
  }

  /** An ended operation is resolved, and is the only one with its identifier. */
  lemma OperationEndsKeeps(s: System)
    requires Inv(s)
    ensures Inv(OperationEndsStep(s))
  {
    var s' := OperationEndsStep(s);
    if s' != s { RecordChanges(s, s'); }
  }

  lemma MacroStartsKeeps(s: System)
    requires Inv(s)
    ensures Inv(MacroStartsStep(s))
  {
    var s' := MacroStartsStep(s);
    if s' != s { RecordChanges(s, s'); }
  }

  lemma MacroEndsKeeps(s: System)
    requires Inv(s)
    ensures Inv(MacroEndsStep(s))
  {
    var s' := MacroEndsStep(s);
    if s' != s {
      var k :| k in s.ops && Some(s.ops[k].request.operationId) == s.task.macroOp && Resolved(s.ops[k]);
      forall key | key in s.ops && Tracked(s.task, key, s.ops[key]) ensures Resolved(s.ops[key]) {
        assert UniqueAt(s, k, key);
      }
      RecordChanges(s, s');
    }
  }

  lemma ReconcileCancelKeeps(s: System)
    requires Inv(s)
    ensures Inv(ReconcileCancelStep(s))
  {
    var s' := ReconcileCancelStep(s);
    if s' != s { RecordChanges(s, s'); }
  }

  lemma ReconcileKeeps(s: System)
    requires Inv(s)
    ensures Inv(ReconcileStep(s))
  {
    var s' := ReconcileStep(s);
    if s' != s { RecordChanges(s, s'); }
  }

  /** Steps that change only the status, or let go of nothing. */
  lemma PlainKeeps(s: System, e: Event)
    requires Inv(s)
    requires e.Wait? || e.ObserveWaiting? || e.MarkUnknown? || e.Pause? || e.Resume? || e.RequestCompletion? || e.WithdrawCompletion?
             || e.CompleteNow? || e.CompleteRequested? || e.Fail? || e.AskCancel? || e.Crash?
    ensures Inv(Step(s, e))
  {
    RecordChanges(s, Step(s, e));
  }

  // ---------------------------------------------------------------- steps of the gateway

  lemma StoredKeeps(s: System, key: nat, o: Operation)
    requires Operations(s) && key !in s.ops && FreshId(s, o)
    requires s.task.status != T.Failed ==> Resolved(o) || Tracked(s.task, key, o)
    ensures Operations(s.(ops := s.ops[key := o], created := s.created + {key}))
  {
    var s' := s.(ops := s.ops[key := o], created := s.created + {key});
    forall other | s'.task.status != T.Failed ensures TrackedAt(s', other) { assert TrackedAt(s, other); }
    forall a, b ensures UniqueAt(s', a, b) { assert UniqueAt(s, a, b); }
  }

  lemma EndSubmitKeeps(s: System, answer: Answer, saved: bool)
    requires Inv(s)
    ensures Inv(EndSubmitStep(s, answer, saved))
  {
    if s.runner.Idle? || s.task.pending.None? || !Plausible(s, s.runner.key, answer) { return; }
    var key := s.runner.key;
    var t := Stored(s, key, answer);
    StoredAnswer(s, answer);
    var s' := EndSubmitStep(s, answer, saved);
    AnsweredTracks(t, key, answer);
    RecordChanges(t, s');
  }

  lemma StoredAnswer(s: System, answer: Answer)
    requires Inv(s) && s.runner.Submitting? && Plausible(s, s.runner.key, answer)
    ensures Operations(Stored(s, s.runner.key, answer))
  {
    var key := s.runner.key;
    match answer
    case Returned(o) =>
      if key in s.ops {
        assert s.ops[key := o] == s.ops;
        var t := Stored(s, key, answer);
        forall other | t.task.status != T.Failed ensures TrackedAt(t, other) { assert TrackedAt(s, other); }
        forall a, b ensures UniqueAt(t, a, b) { assert UniqueAt(s, a, b); }
      } else {
        StoredKeeps(s, key, o);
      }
    case Unclear(stored) => if stored.Some? { StoredKeeps(s, key, stored.value); }
    case _ =>
  }

  /** Saving the answer lets go of the pending action only if the gateway has no operation for it. */
  lemma AnsweredTracks(t: System, key: nat, answer: Answer)
    requires t.task.pending.Some? && t.task.pending.value.key == key && t.task.pending.value.opId.None?
    requires answer.Returned? ==> key in t.ops && t.ops[key] == answer.operation
    requires answer.Outdated? || answer.Malformed? ==> key !in t.ops
    ensures Answered(t.task, answer).status != T.Failed ==>
              forall other :: other in t.ops && Tracked(t.task, other, t.ops[other])
                ==> Tracked(Answered(t.task, answer), other, t.ops[other])
  {
  }

  lemma GatewayKeeps(s: System, ops: map<nat, Operation>)
    requires Inv(s) && GatewayAdvances(s.ops, ops)
    ensures Inv(s.(ops := ops))
  {
    var s' := s.(ops := ops);
    forall key | s'.task.status != T.Failed ensures TrackedAt(s', key) {
      assert TrackedAt(s, key);
      if key in ops { ResolvedIsStableHere(s.ops[key], ops[key]); }
    }
    forall a, b ensures UniqueAt(s', a, b) { assert UniqueAt(s, a, b); }
  }

  lemma ResolvedIsStableHere(o: Operation, o': Operation)
    requires ControlInvariants.Advances(o, o')
    ensures Resolved(o) ==> Resolved(o')
    ensures o'.request.operationId == o.request.operationId
  {
    if Resolved(o) { ResolvedIsStable(o, o'); }
  }

  lemma ForgetKeeps(s: System, key: nat)
    requires Inv(s)
    ensures Inv(Step(s, Forget(key)))
  {
    var s' := Step(s, Forget(key));
    forall other | s'.task.status != T.Failed ensures TrackedAt(s', other) { assert TrackedAt(s, other); }
    forall a, b ensures UniqueAt(s', a, b) { assert UniqueAt(s, a, b); }
  }

  lemma SurfaceKeeps(s: System, key: nat, o: Operation)
    requires Inv(s)
    ensures Inv(Step(s, Surface(key, o)))
  {
    if key !in s.ops && NeverDelivered(o) && FreshId(s, o) { StoredKeeps(s, key, o); }
  }

  lemma StepKeeps(s: System, e: Event)
    requires Inv(s)
    ensures Inv(Step(s, e))
  {
    match e
    case Select(macro) => SelectKeeps(s, macro);
    case BeginSubmit => BeginSubmitKeeps(s);
    case EndSubmit(answer, saved) => EndSubmitKeeps(s, answer, saved);
    case OperationEnds => OperationEndsKeeps(s);
    case MacroStarts => MacroStartsKeeps(s);
    case MacroEnds => MacroEndsKeeps(s);
    case ReconcileCancel => ReconcileCancelKeeps(s);
    case Reconcile => ReconcileKeeps(s);
    case Gateway(ops) => if GatewayAdvances(s.ops, ops) { GatewayKeeps(s, ops); }
    case Forget(key) => ForgetKeeps(s, key);
    case Surface(key, o) => SurfaceKeeps(s, key, o);
    case _ => PlainKeeps(s, e);
  }

  lemma StepSameKind(s: System, e: Event)
    ensures Step(s, e).archive == s.archive && Step(s, e).task.maxActions == s.task.maxActions
  {
  }

  lemma {:induction false} RunKeeps(s: System, events: seq<Event>)
    requires Inv(s)
    ensures Inv(Run(s, events))
    ensures Run(s, events).archive == s.archive && Run(s, events).task.maxActions == s.task.maxActions
    decreases |events|
  {
    if events != [] {
      RunKeeps(s, events[..|events| - 1]);
      StepKeeps(Run(s, events[..|events| - 1]), events[|events| - 1]);
      StepSameKind(Run(s, events[..|events| - 1]), events[|events| - 1]);
    }
  }

  // ---------------------------------------------------------------- main results

  /**
    Selected actions are conserved in every run, exactly so for a task that was
    neither cancelled nor failed; a completed one has no action left unresolved.
   */
  lemma ActionsConserved(s: System, events: seq<Event>)
    requires Fresh(s)
    ensures var task := Run(s, events).task;
            var accounted := task.terminal + task.rejected + Count(task.pending.Some?) + Count(task.macroOp.Some?);
            && accounted <= task.actions <= s.task.maxActions
            && (!task.cancelRequested && task.status != T.Failed ==> accounted == task.actions)
            && (task.status == T.Completed ==> task.terminal + task.rejected == task.actions)
  {
    FreshHolds(s);
    RunKeeps(s, events);
  }

  /**
    Cancellation hides nothing: whatever raced with it, when a task is Cancelled
    or Completed every operation the gateway still has for it is terminal with a
    known result, and what it no longer has was settled; with an archive that is
    every operation it ever stored.
   */
  lemma FinishedHidesNothing(s: System, events: seq<Event>, key: nat)
    requires Fresh(s)
    requires Run(s, events).task.status == T.Cancelled || Run(s, events).task.status == T.Completed
    ensures var t := Run(s, events);
            && (key in t.ops ==> Complete(t.ops[key]) && !OutcomeIsUnknown(t.ops[key]))
            && (s.archive && key in t.created ==> key in t.ops)
            && (forall i :: 0 <= i < |t.dropped| ==> Settled(t.dropped[i]))
  {
    FreshHolds(s);
    RunKeeps(s, events);
    assert TrackedAt(Run(s, events), key);
  }

  /**
    Without an archive the gateway may forget a settled record whose result the
    task would call unknown: exactly one that was delivered and went stale
    before its Host accepted it.
   */
  lemma ForgettableYetUnknownIff(o: Operation)
    requires RecordOk(o)
    ensures Forgettable(o) && !Resolved(o) <==> o.status == Stale && !AcceptedByHost(o) && o.attempts > 0
  {
  }

  // ---------------------------------------------------------------- no submission after cancellation

  /** No submission can begin: the task is cancelled or its outcome unknown, and none is in flight. */
  predicate Quiescent(s: System) {
    s.runner == Idle && s.task.cancelRequested
  }

  lemma QuiescentStays(s: System, e: Event)
    requires Quiescent(s) && !e.Surface?
    ensures Quiescent(Step(s, e)) && Step(s, e).created == s.created
  {
  }

  /**
    Once cancellation is durable and no submission is in flight, nothing that
    follows, be it reconciliation, recovery, resumption or a restart of the
    runtime, makes the gateway store another operation for the task.
   */
  lemma {:induction false} CancelNeverSubmits(s: System, events: seq<Event>)
    requires Quiescent(s) && forall i :: 0 <= i < |events| ==> !events[i].Surface?
    ensures Quiescent(Run(s, events)) && Run(s, events).created == s.created
    decreases |events|
  {
    if events != [] {
      CancelNeverSubmits(s, events[..|events| - 1]);
      QuiescentStays(Run(s, events[..|events| - 1]), events[|events| - 1]);
    }
  }

  // ---------------------------------------------------------------- submissions that cannot be found

  /** A cancelled task whose started submission is nowhere to be found. */
  predicate LostAt(s: System, lost: Pending) {
    && s.runner == Idle && s.task.cancelRequested && s.task.pending == Some(lost) && lost.started && lost.opId.None?
    && lost.key !in s.ops && !TerminalTask(s.task.status)
  }

  predicate Surfaces(e: Event, key: nat) {
    e.Surface? && e.key == key
  }

  lemma LostStays(s: System, e: Event, lost: Pending)
    requires LostAt(s, lost) && !Surfaces(e, lost.key)
    ensures LostAt(Step(s, e), lost)
  {
  }

  /**
    A cancelled task whose started submission cannot be found is never taken for
    cancelled or completed: as long as no operation appears at its key, whatever
    else happens, the task keeps the pending action, every reconciliation finds
    its outcome unknown, and no recovery submits it again.
   */
  lemma {:induction false} LostSubmissionStaysOpen(s: System, events: seq<Event>, lost: Pending)
    requires LostAt(s, lost) && forall i :: 0 <= i < |events| ==> !Surfaces(events[i], lost.key)
    ensures LostAt(Run(s, events), lost)
    ensures Step(Run(s, events), ReconcileCancel).task.status == T.Unknown
    ensures (forall i :: 0 <= i < |events| ==> !events[i].Surface?) ==> Run(s, events).created == s.created
    decreases |events|
  {
    if events != [] {
      LostSubmissionStaysOpen(s, events[..|events| - 1], lost);
      LostStays(Run(s, events[..|events| - 1]), events[|events| - 1], lost);
    }
    if forall i :: 0 <= i < |events| ==> !events[i].Surface? { CancelNeverSubmits(s, events); }
  }

  /** The pending action is the one of the next step. */
  predicate Ordered(s: System) {
    s.task.pending.Some? ==> s.task.pending.value.key == NextKey(s.task)
  }

  lemma StepKeepsOrder(s: System, e: Event)
    requires Ordered(s)
    ensures Ordered(Step(s, e))
  {
    if e.EndSubmit? {
      assert Ordered(EndSubmitStep(s, e.answer, e.saved));
    } else if e.Reconcile? {
      assert Ordered(ReconcileStep(s));
    }
  }

  lemma {:induction false} RunKeepsOrder(s: System, events: seq<Event>)
    requires Ordered(s)
    ensures Ordered(Run(s, events))
    decreases |events|
  {
    if events != [] {
      RunKeepsOrder(s, events[..|events| - 1]);
      StepKeepsOrder(Run(s, events[..|events| - 1]), events[|events| - 1]);
    }
  }

  /** The action of this key waits to be found or has been, or the task is past its step. */
  predicate Decided(s: System, key: nat) {
    && (s.runner.Submitting? ==> s.runner.key > key)
    && if s.task.pending.Some? && s.task.pending.value.key == key then
         && s.task.pending.value.started
         && (s.task.pending.value.opId.Some? || s.task.status == T.Unknown || s.task.cancelRequested)
       else s.task.step >= key
  }

  lemma DecidedStays(s: System, e: Event, key: nat)
    requires Inv(s) && Ordered(s) && Decided(s, key)
    ensures Decided(Step(s, e), key)
    ensures !Surfaces(e, key) && key in Step(s, e).created ==> key in s.created
  {
  }

  /**
    Recovery submits nothing: once the outcome of an action is unknown, then
    through every recovery, resumption, cancellation and restart no thread ever
    submits that action again, and the gateway stores no operation at its key
    but one that it had before.
   */
  lemma {:induction false} UnknownIsNotResubmitted(s: System, first: seq<Event>, later: seq<Event>)
    requires Fresh(s) && Run(s, first).task.status == T.Unknown && Run(s, first).task.pending.Some?
    ensures var key, t := Run(s, first).task.pending.value.key, Run(Run(s, first), later);
            && Decided(t, key) && (t.runner.Submitting? ==> t.runner.key != key)
            && (key in t.created && key !in Run(s, first).created ==>
                  exists i :: 0 <= i < |later| && Surfaces(later[i], key))
    decreases |later|
  {
    var u, key := Run(s, first), Run(s, first).task.pending.value.key;
    FreshHolds(s);
    RunKeeps(s, first);
    RunKeepsOrder(s, first);
    if later != [] {
      var before, last := later[..|later| - 1], later[|later| - 1];
      UnknownIsNotResubmitted(s, first, before);
      RunKeeps(u, before);
      RunKeepsOrder(u, before);
      DecidedStays(Run(u, before), last, key);
      if exists i :: 0 <= i < |before| && Surfaces(before[i], key) {
        var i :| 0 <= i < |before| && Surfaces(before[i], key);
        assert Surfaces(later[i], key);
      }
    }
  }

  // ---------------------------------------------------------------- absorbing statuses

  lemma TerminalStays(s: System, e: Event)
    requires Inv(s) && TerminalTask(s.task.status)
    ensures Step(s, e).task.status == s.task.status
  {
  }

  /** Completed, Failed and Cancelled are absorbing. */
  lemma {:induction false} TerminalIsAbsorbing(s: System, events: seq<Event>)
    requires Inv(s) && TerminalTask(s.task.status)
    ensures Run(s, events).task.status == s.task.status
    decreases |events|
  {
    if events != [] {
      TerminalIsAbsorbing(s, events[..|events| - 1]);
      RunKeeps(s, events[..|events| - 1]);
      TerminalStays(Run(s, events[..|events| - 1]), events[|events| - 1]);
    }
  }

  // ---------------------------------------------------------------- idempotency keys

  predicate KeyAt(s: System, key: nat) {
    key in s.ops ==> key <= s.task.step || (s.task.pending.Some? && s.task.pending.value.started && key == s.task.pending.value.key)
  }

  /** Operations lie at keys of earlier steps, or at the key of the submission under way. */
  ghost predicate KeysOk(s: System) {
    s.task.status != T.Failed ==>
      && (s.task.pending.Some? ==> s.task.pending.value.key == NextKey(s.task))
      && forall key {:trigger KeyAt(s, key)} :: KeyAt(s, key)
  }

  lemma EndSubmitKeepsKeys(s: System, answer: Answer, saved: bool)
    requires RunnerOk(s) && KeysOk(s) && (s.task.status == T.Failed ==> s.runner == Idle)
    ensures KeysOk(EndSubmitStep(s, answer, saved))
  {
    var t := EndSubmitStep(s, answer, saved);
    forall key | t.task.status != T.Failed ensures KeyAt(t, key) { assert KeyAt(s, key); }
  }

  lemma StepKeepsKeys(s: System, e: Event)
    requires Inv(s) && KeysOk(s) && !e.Surface?
    ensures KeysOk(Step(s, e))
  {
    if e.EndSubmit? {
      EndSubmitKeepsKeys(s, e.answer, e.saved);
      return;
    }
    var t := Step(s, e);
    forall key | t.task.status != T.Failed ensures KeyAt(t, key) { assert KeyAt(s, key); }
  }

  lemma {:induction false} RunKeepsKeys(s: System, events: seq<Event>)
    requires Fresh(s) && forall i :: 0 <= i < |events| ==> !events[i].Surface?
    ensures KeysOk(Run(s, events))
    decreases |events|
  {
    if events == [] {
      forall key ensures KeyAt(s, key) { }
    } else {
      FreshHolds(s);
      RunKeeps(s, events[..|events| - 1]);
      RunKeepsKeys(s, events[..|events| - 1]);
      StepKeepsKeys(Run(s, events[..|events| - 1]), events[|events| - 1]);
    }
  }

  /**
    An action that was selected but not yet submitted has a key under which the
    gateway holds nothing, although a discarded action leaves its step, and so
    its key, to the next one: its submission is never answered with the
    operation of another action.
   */
  lemma SelectedKeyIsFree(s: System, events: seq<Event>)
    requires Fresh(s) && forall i :: 0 <= i < |events| ==> !events[i].Surface?
    ensures var t := Run(s, events);
            t.task.pending.Some? && !t.task.pending.value.started && t.task.status != T.Failed ==>
              t.task.pending.value.key !in t.ops
  {
    RunKeepsKeys(s, events);
    var t := Run(s, events);
    if t.task.pending.Some? && t.task.status != T.Failed { assert KeyAt(t, t.task.pending.value.key); }
  }
}
