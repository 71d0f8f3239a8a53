/**
  The actions of one task: its durable record, the thread that submits under the
  task lock, the cancellation that bypasses the lock, and the gateway whose
  operations outlive both.

  The record is changed by compare-and-swap, so every change acts on the stored
  record or not at all; a submission reaches the gateway either way. Planning is
  disabled.
 */
module TaskActions {
  import opened ControlTypes
  import opened OperationRecord
  import ControlInvariants
  import opened T = TaskTypes

  /** A selected action; `key` is its idempotency key, made from the step it was selected for. */
  datatype Pending = Pending(key: nat, macro: bool, started: bool, opId: Option<Id>)

  datatype Task = Task(
    status: TaskStatus, cancelRequested: bool, completionRequested: bool, pending: Option<Pending>, macroOp: Option<Id>,
    step: nat, actions: nat, maxActions: nat, terminal: nat, rejected: nat)

  /** A submission in flight; it is current until an edit commits behind its back. */
  datatype Runner = Idle | Submitting(key: nat, current: bool)

  /** `archive` says that the gateway forgets nothing; `dropped` holds what it forgot, `created` every key it stored. */
  datatype System = System(
    task: Task, runner: Runner, ops: map<nat, Operation>, dropped: seq<Operation>, created: set<nat>, archive: bool)

  // ---------------------------------------------------------------- what the task makes of an operation

  predicate OutcomeIsUnknown(o: Operation) {
    if ReconciliationPending(o) || o.status == OutcomeUnknown then true
    else if o.status == Succeeded then
      !ExecutionConfirmed(o) || o.outcome.None? || o.outcome.value.status != RunSucceeded
    else if o.outcome.Some? then false
    else match o.status
      case Rejected => false
      case Failed => true
      case StoppedEarly => true
      case _ => o.attempts != 0
  }

  /** Terminal with a known result. */
  predicate Resolved(o: Operation) {
    Settled(o) && !OutcomeIsUnknown(o)
  }

  /** Whatever the gateway does later, a known result stays known. */
  lemma ResolvedIsStable(o: Operation, o': Operation)
    requires Resolved(o) && ControlInvariants.Advances(o, o')
    ensures Resolved(o')
  {
  }

  // ---------------------------------------------------------------- events

  /** What a submission answers; an unclear answer may or may not have stored the operation. */
  datatype Answer =
    | Returned(operation: Operation)
    | Unclear(stored: Option<Operation>)
    | Outdated
    | Malformed
    | Refused

  datatype Event =
    | Select(macro: bool)
    | Wait
    | BeginSubmit
    | EndSubmit(answer: Answer, saved: bool)
    | ObserveWaiting(waiting: bool)
    | OperationEnds
    | MacroStarts
    | MacroEnds
    | MarkUnknown
    | Pause
    | Resume
    | RequestCompletion(human: bool)
    | WithdrawCompletion
    | CompleteNow
    | CompleteRequested
    | Fail
    | AskCancel
    | ReconcileCancel
    | Reconcile
    | Gateway(ops: map<nat, Operation>)
    | Forget(key: nat)
    | Surface(key: nat, operation: Operation)
    | Crash

  predicate Locked(s: System) {
    s.runner == Idle
  }

  predicate Runnable(task: Task) {
    (task.status == T.Active || task.status == T.Waiting) && !task.cancelRequested
  }

  function NextKey(task: Task): nat {
    task.step + 1
  }

  predicate FreshId(s: System, o: Operation) {
    && (forall key :: key in s.ops ==> s.ops[key].request.operationId != o.request.operationId)
    && s.task.macroOp != Some(o.request.operationId)
    && (s.task.pending.Some? ==> s.task.pending.value.opId != Some(o.request.operationId))
  }

  /** What the gateway can answer: it returns what it has, and refuses outright only what it never stored. */
  predicate Plausible(s: System, key: nat, answer: Answer) {
    match answer
    case Returned(o) => if key in s.ops then o == s.ops[key] else RecordOk(o) && FreshId(s, o)
    case Unclear(stored) => stored.Some? ==> key !in s.ops && RecordOk(stored.value) && FreshId(s, stored.value)
    case Outdated => key !in s.ops
    case Malformed => key !in s.ops
    case Refused => true
  }

  function Stored(s: System, key: nat, answer: Answer): System {
    match answer
    case Returned(o) => s.(ops := s.ops[key := o], created := s.created + {key})
    case Unclear(Some(o)) => s.(ops := s.ops[key := o], created := s.created + {key})
    case _ => s
  }

  /** How the answer changes the record. */
  function Answered(task: Task, answer: Answer): Task
    requires task.pending.Some?
  {
    match answer
    case Returned(o) =>
      task.(pending := Some(task.pending.value.(opId := Some(o.request.operationId))),
            status := if o.status == AwaitingConfirmation then T.Waiting else task.status)
    case Unclear(_) => task.(status := T.Paused)
    case Outdated => task.(pending := None, status := T.Paused, rejected := task.rejected + 1)
    case Malformed => task.(pending := None, step := task.step + 1, rejected := task.rejected + 1)
    case Refused => FailTask(task)
  }

  /** A task whose macro is running is paused instead. */
  function FailTask(task: Task): Task {
    if task.macroOp.Some? then task.(status := T.Paused)
    else task.(status := T.Failed, pending := None)
  }

  function EndSubmitStep(s: System, answer: Answer, saved: bool): System {
    if s.runner.Idle? || s.task.pending.None? || !Plausible(s, s.runner.key, answer) then s
    else
      var t := Stored(s, s.runner.key, answer).(runner := Idle);
      if saved && s.runner.current then t.(task := Answered(s.task, answer)) else t
  }

  /** The pending operation as the gateway shows it. */
  function PendingOperation(s: System): Option<Operation> {
    if s.task.pending.None? || s.task.pending.value.opId.None? || s.task.pending.value.key !in s.ops then None
    else
      var o := s.ops[s.task.pending.value.key];
      if Some(o.request.operationId) == s.task.pending.value.opId then Some(o) else None
  }

  function OperationEndsStep(s: System): System {
    var task := s.task;
    if !Locked(s) || PendingOperation(s).None? || !Resolved(PendingOperation(s).value)
       || task.status !in {T.Active, T.Waiting, T.Cancelling}
    then s
    else s.(task := task.(
      status := if task.status != T.Cancelling then T.Active else if task.macroOp.None? then T.Cancelled else T.Cancelling,
      pending := None, step := task.step + 1, terminal := task.terminal + 1))
  }

  function MacroStartsStep(s: System): System {
    var task := s.task;
    if !Locked(s) || PendingOperation(s).None? || !task.pending.value.macro || task.macroOp.Some?
       || task.status !in {T.Active, T.Waiting, T.Cancelling}
    then s
    else s.(task := task.(
      status := if task.status != T.Cancelling then T.Active else T.Cancelling,
      macroOp := task.pending.value.opId, pending := None, step := task.step + 1))
  }

  ghost predicate MacroResolved(s: System) {
    s.task.macroOp.Some? && exists key :: key in s.ops && Some(s.ops[key].request.operationId) == s.task.macroOp && Resolved(s.ops[key])
  }

  ghost function MacroEndsStep(s: System): System {
    var task := s.task;
    if !Locked(s) || !MacroResolved(s) || task.pending.Some? || task.status !in {T.Active, T.Waiting, T.Cancelling} then s
    else s.(task := task.(
      status := if task.status == T.Cancelling then T.Cancelled else T.Active, macroOp := None, terminal := task.terminal + 1))
  }

  /** The path that a cancelled task takes whenever it holds the lock: it looks submissions up, and never makes one. */
  function ReconcileCancelStep(s: System): System {
    var task :=
      if s.task.pending.Some? && s.task.pending.value.opId.None? && !s.task.pending.value.started
      then s.task.(pending := None) else s.task;
    if !Locked(s) || !task.cancelRequested then s
    else if task.pending.Some? && task.pending.value.opId.None? then
      if task.pending.value.key !in s.ops then s.(task := task.(status := T.Unknown))
      else s.(task := task.(pending := Some(task.pending.value.(opId := Some(s.ops[task.pending.value.key].request.operationId)))))
    else if task.pending.None? && task.macroOp.None? then s.(task := task.(status := T.Cancelled))
    else s.(task := task.(status := T.Cancelling))
  }

  /** Recovery of an unknown outcome: the task moves on only once the operation is found with a known result. */
  ghost function ReconcileStep(s: System): System {
    var task := s.task;
    var status := if task.cancelRequested then T.Cancelling else T.Active;
    if !Locked(s) || task.status != T.Unknown then s
    else if task.pending.Some? && task.pending.value.opId.None? then
      if task.pending.value.key in s.ops && Resolved(s.ops[task.pending.value.key])
      then s.(task := task.(status := status,
                            pending := Some(task.pending.value.(opId := Some(s.ops[task.pending.value.key].request.operationId)))))
      else s
    else if task.pending.Some? then
      if PendingOperation(s).Some? && Resolved(PendingOperation(s).value) then s.(task := task.(status := status)) else s
    else if MacroResolved(s) then s.(task := task.(status := status))
    else s
  }

  /** The durable mark of a cancellation; finished and already cancelled tasks keep theirs. */
  function MarkCancelled(task: Task): Task {
    if TerminalTask(task.status) || task.cancelRequested then task
    else task.(cancelRequested := true, completionRequested := false, status := T.Cancelling)
  }

  function CompleteNowStep(s: System): System {
    if Locked(s) && s.task.status == T.Active && !s.task.cancelRequested && s.task.pending.None? && s.task.macroOp.None?
    then s.(task := s.task.(status := T.Completed)) else s
  }

  /** Completion that was requested earlier, confirmed by a caller or by Host evidence. */
  function CompleteRequestedStep(s: System): System {
    if Locked(s) && s.task.completionRequested && s.task.status in {T.Active, T.Paused} && !s.task.cancelRequested
    then s.(task := s.task.(status := T.Completed)) else s
  }

  /** How the gateway changes on its own: records advance, and none appears or disappears. */
  ghost predicate GatewayAdvances(ops: map<nat, Operation>, ops': map<nat, Operation>) {
    ops'.Keys == ops.Keys && forall key :: key in ops ==> ControlInvariants.Advances(ops[key], ops'[key])
  }

  /** What the gateway may forget without an archive. */
  predicate Forgettable(o: Operation) {
    Settled(o) && o.status != OutcomeUnknown
  }

  /** A record that a write reported as failed but that a restart brings back: it ended before it was delivered. */
  predicate NeverDelivered(o: Operation) {
    Complete(o) && o.attempts == 0 && o.outcome.None? && o.status in {Stale, OperationRecord.Status.Cancelled, Rejected}
  }

  ghost function Step(s: System, e: Event): System {
    var task := s.task;
    match e
    case Select(macro) =>
      if Locked(s) && task.status == T.Active && !task.cancelRequested && task.pending.None? && !task.completionRequested
         && task.actions < task.maxActions && (task.macroOp.Some? ==> !macro)
      then s.(task := task.(pending := Some(Pending(NextKey(task), macro, false, None)), actions := task.actions + 1)) else s
    case Wait =>
      if Locked(s) && task.status == T.Active && !task.cancelRequested && task.pending.None?
      then s.(task := task.(step := task.step + 1)) else s
    case BeginSubmit =>
      if Locked(s) && Runnable(task) && task.pending.Some? && task.pending.value.opId.None?
      then s.(task := task.(pending := Some(task.pending.value.(started := true))),
              runner := Submitting(task.pending.value.key, true)) else s
    case EndSubmit(answer, saved) => EndSubmitStep(s, answer, saved)
    case ObserveWaiting(waiting) =>
      if Locked(s) && task.status in {T.Active, T.Waiting}
      then s.(task := task.(status := if waiting then T.Waiting else T.Active)) else s
    case OperationEnds => OperationEndsStep(s)
    case MacroStarts => MacroStartsStep(s)
    case MacroEnds => MacroEndsStep(s)
    case MarkUnknown =>
      if Locked(s) && task.status in {T.Active, T.Waiting, T.Cancelling}
         && (if task.pending.Some? then task.pending.value.opId.Some? else task.macroOp.Some?)
      then s.(task := task.(status := T.Unknown)) else s
    case Pause =>
      if Locked(s) && task.status in {T.Active, T.Waiting, T.Cancelling} then s.(task := task.(status := T.Paused)) else s
    case Resume =>
      if Locked(s) && task.status == T.Paused
      then s.(task := task.(status := T.Active, completionRequested := false)) else s
    case RequestCompletion(human) =>
      if Locked(s) && task.status == T.Active && !task.cancelRequested && task.pending.None? && task.macroOp.None?
      then s.(task := task.(completionRequested := true, status := if human then T.Paused else T.Active,
                            step := if human then task.step else task.step + 1)) else s
    case WithdrawCompletion =>
      if Locked(s) && task.status == T.Active then s.(task := task.(completionRequested := false)) else s
    case CompleteNow => CompleteNowStep(s)
    case CompleteRequested => CompleteRequestedStep(s)
    case Fail =>
      if Locked(s) && Runnable(task) && task.pending.None? then s.(task := FailTask(task)) else s
    case AskCancel =>
      if TerminalTask(task.status) || task.cancelRequested then s
      else s.(task := MarkCancelled(task),
              runner := if s.runner.Submitting? then s.runner.(current := false) else Idle)
    case ReconcileCancel => ReconcileCancelStep(s)
    case Reconcile => ReconcileStep(s)
    case Gateway(ops) => if GatewayAdvances(s.ops, ops) then s.(ops := ops) else s
    case Forget(key) =>
      if !s.archive && key in s.ops && Forgettable(s.ops[key])
      then s.(ops := s.ops - {key}, dropped := s.dropped + [s.ops[key]]) else s
    case Surface(key, o) =>
      if key !in s.ops && NeverDelivered(o) && FreshId(s, o)
      then s.(ops := s.ops[key := o], created := s.created + {key}) else s
    case Crash => s.(runner := Idle)
  }

  ghost function Run(s: System, events: seq<Event>): System
    decreases |events|
  {
    if events == [] then s else Step(Run(s, events[..|events| - 1]), events[|events| - 1])
  }

  // ---------------------------------------------------------------- the cancellation loop

  /** The stored record and its revision. */
  class TaskRecord {
    var task: Task
    var revision: nat

    constructor (task: Task)
      ensures this.task == task && revision == 1
    {
      this.task, revision := task, 1;
    }

    /** A compare-and-swap: it replaces the record if nothing else did since it was loaded. */
    method CompareAndSwap(expected: nat, next: Task) returns (ok: bool)
      modifies this
      ensures ok <==> expected == old(revision)
      ensures if ok then task == next && revision == expected + 1 else task == old(task) && revision == old(revision)
    {
      ok := revision == expected;
      if ok {
        task, revision := next, revision + 1;
      }
    }

    /**
      Marks the task cancelled without the task lock. Saves of other threads that
      commit between its load and its own save make it load again; it stops once
      the mark is durable or the task has finished, and writes nothing else.
     */
    method CancelTask(others: seq<Task>) returns (landed: nat)
      modifies this
      ensures landed <= |others|
      ensures task == MarkCancelled(if landed == 0 then old(task) else others[landed - 1])
      ensures TerminalTask(task.status) || task.cancelRequested
    {
      landed := 0;
      while true
        invariant landed <= |others|
        invariant task == if landed == 0 then old(task) else others[landed - 1]
        decreases |others| - landed
      {
        var loaded, loadedRevision := task, revision;
        if TerminalTask(loaded.status) || loaded.cancelRequested {
          return;
        }
        if landed < |others| {
          task, revision := others[landed], revision + 1;
          landed := landed + 1;
        }
        var ok := CompareAndSwap(loadedRevision, MarkCancelled(loaded));
        if ok {
          return;
        }
      }
    }
  }
}
