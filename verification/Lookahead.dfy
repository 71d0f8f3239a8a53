/**
  The speculative model call of one task: a durable token reservation, a
  process-local job, the task lock, and edits that bypass the lock.

  Every durable change is one compare-and-swap, so it acts on the stored task
  or not at all. `log` records what each committed change spent or reserved.
 */
module Lookahead {
  import opened ControlTypes
  import opened TaskTypes

  datatype Phase = Preparing | Running | Ready | Adopted | Discarded

  datatype Look = Look(op: Id, phase: Phase, reserved: nat, calls: nat, adopted: nat, discarded: nat)

  datatype Budget = Budget(calls: nat, tokens: nat)

  datatype Task = Task(
    status: TaskStatus, cancelRequested: bool, identity: Id, step: nat, pending: Option<Id>, budget: Budget,
    calls: nat, tokens: nat, look: Option<Look>)

  /** `attempted` is set once the job has tried to reserve. */
  datatype Job = Job(op: Id, identity: Id, step: nat, expires: int, attempted: bool, invalid: bool, finished: bool)

  datatype Holder = Free | Runner(recovered: bool)

  datatype Entry =
    | Usage(amount: nat)
    | Reserve(amount: nat)
    | Charge(reserved: nat, amount: nat, reported: Option<nat>)

  datatype Speculation = Speculation(task: Task, job: Option<Job>, holder: Holder, log: seq<Entry>)

  // ---------------------------------------------------------------- changes to the task

  /** Only a change of intent or authority makes a draft useless. */
  predicate Disturbed(task: Task, job: Job) {
    task.status != Active || task.cancelRequested || task.identity != job.identity
  }

  function DiscardLook(look: Look): Look {
    if look.phase == Adopted || look.phase == Discarded then look
    else look.(phase := Discarded, discarded := if look.phase == Preparing then look.discarded else look.discarded + 1)
  }

  function Discard(task: Task): Task {
    if task.look.None? then task else task.(look := Some(DiscardLook(task.look.value)))
  }

  predicate Guarded(task: Task, job: Option<Job>) {
    task.look.Some? && job.Some? && job.value.op == task.look.value.op && Disturbed(task, job.value)
  }

  /** What every save first does to the task it is about to write. */
  function GuardTask(task: Task, job: Option<Job>): Task {
    if Guarded(task, job) then Discard(task) else task
  }

  /** What every save first does to the job, whether or not the write succeeds. */
  function GuardJob(task: Task, job: Option<Job>): Option<Job> {
    if Guarded(task, job) then (if job.value.finished then None else Some(job.value.(invalid := true))) else job
  }

  predicate Writable(task: Task) {
    && task.tokens <= WIRE && task.calls <= task.budget.calls
    && (task.look.Some? ==>
          && task.look.value.reserved <= WIRE && task.look.value.calls <= task.calls
          && task.look.value.adopted + task.look.value.discarded <= task.look.value.calls
          && (task.look.value.reserved > 0 ==> task.look.value.phase in {Running, Discarded}))
  }

  predicate Commits(task: Task, save: Save) {
    !save.Lost? && Writable(task)
  }

  /** One guarded compare-and-swap that records `entries` if it commits. */
  function SaveTask(w: Speculation, task: Task, entries: seq<Entry>, save: Save): Speculation {
    var guarded := GuardTask(task, w.job);
    var job := GuardJob(task, w.job);
    if Commits(guarded, save) then w.(task := guarded, job := job, log := w.log + entries) else w.(job := job)
  }

  predicate Reports(task: Task, save: Save) {
    save.Saved? && Writable(task)
  }

  // ---------------------------------------------------------------- budget

  function Held(task: Task): nat {
    if task.look.None? then 0 else task.look.value.reserved
  }

  /** The budget test of an ordinary model call. */
  predicate CallAllowed(task: Task) {
    && task.calls < task.budget.calls
    && task.tokens < task.budget.tokens
    && Held(task) < task.budget.tokens - task.tokens
  }

  predicate MayReserve(task: Task, amount: nat) {
    && task.calls + 2 <= task.budget.calls
    && task.tokens < task.budget.tokens
    && amount * 2 <= task.budget.tokens - task.tokens
  }

  /** Reported usage if it is known and fits, else the whole reservation. */
  function ChargeFor(task: Task, reported: Option<nat>): nat {
    if reported.Some? && task.tokens + reported.value <= WIRE then reported.value else Held(task)
  }

  // ---------------------------------------------------------------- events

  datatype Edit = Edit(status: TaskStatus, cancelRequested: bool, identity: Id, step: nat, pending: Option<Id>)

  datatype Event =
    | Lock
    | Unlock
    | Recover(save: Save)
    | Change(edit: Edit, save: Save)
    | ModelCall(usage: Option<nat>, save: Save)
    | StartJob(op: Id, expires: int, now: int, save: Save)
    | DropDraft(now: int)
    | ReserveTokens(amount: nat, running: bool, save: Save)
    | Finish(reported: Option<nat>, succeeded: bool, live: bool, now: int, loaded: bool, save: Save)
    | Try(verified: bool, now: int, save: Save)
    | Invalidate
    | Crash

  function Edited(task: Task, edit: Edit): Task {
    task.(status := edit.status, cancelRequested := edit.cancelRequested, identity := edit.identity, step := edit.step,
          pending := edit.pending)
  }

  /** A restart lost the draft: the reservation is charged in full. */
  function RecoverStep(w: Speculation, save: Save): Speculation {
    if !w.holder.Runner? then w
    else if w.task.look.None? || w.job.Some?
            || (w.task.look.value.phase in {Adopted, Discarded} && w.task.look.value.reserved == 0)
    then w.(holder := Runner(true))
    else if w.task.look.value.reserved > WIRE - w.task.tokens then w.(holder := Runner(false))
    else
      SaveTask(w, Recovered(w.task), RecoverEntries(w.task), save).(holder := Runner(Reports(Recovered(w.task), save)))
  }

  function Recovered(task: Task): Task
    requires task.look.Some?
  {
    task.(tokens := task.tokens + Held(task), look := Some(DiscardLook(task.look.value.(reserved := 0))))
  }

  function RecoverEntries(task: Task): seq<Entry> {
    if Held(task) > 0 then [Charge(Held(task), Held(task), None)] else []
  }

  /**
    An ordinary model call, whose caller holds the lock. A call beyond the budget
    fails the task; `usage` is absent when the provider failed or its count
    cannot be represented.
   */
  function ModelCallStep(w: Speculation, usage: Option<nat>, save: Save): Speculation {
    if w.holder != Runner(true) then w
    else if !CallAllowed(w.task) then SaveTask(w, w.task.(status := Failed), [], save)
    else if usage.None? || w.task.tokens + usage.value > WIRE then
      SaveTask(w, w.task.(calls := w.task.calls + 1, status := Paused), [], save)
    else
      SaveTask(w, Called(w.task, usage.value), [Usage(usage.value)], save)
  }

  function Called(task: Task, usage: nat): Task {
    var called := task.(calls := task.calls + 1, tokens := task.tokens + usage);
    if called.tokens > called.budget.tokens then called.(status := Failed) else called
  }

  /** Starting a job, for this task or another one, forgets every finished job whose draft expired. */
  function DropExpired(w: Speculation, now: int): Speculation {
    if w.job.Some? && w.job.value.finished && now >= w.job.value.expires then w.(job := None) else w
  }

  /** Starts a job for the pending operation, unless one is known for it or a job already runs. */
  function StartStep(w: Speculation, op: Id, expires: int, now: int, save: Save): Speculation {
    var task, free := w.task, DropExpired(w, now);
    if w.holder != Runner(true) || task.status != Active || task.cancelRequested || task.pending != Some(op)
       || (task.look.Some? && task.look.value.op == op)
    then w
    else if free.job.Some? then free
    else
      var job := Job(op, task.identity, task.step, expires, false, false, false);
      var look := if task.look.Some? then task.look.value else Look(op, Preparing, 0, 0, 0, 0);
      var started := task.(look := Some(look.(op := op, phase := Preparing, reserved := 0)));
      var saved := SaveTask(free.(job := Some(job)), started, [], save);
      if Reports(started, save) then saved else saved.(job := None)
  }

  /** The job's own durable reservation, made under the task lock before the provider is called. */
  function ReserveStep(w: Speculation, amount: nat, running: bool, save: Save): Speculation {
    if w.holder != Free || w.job.None? || w.job.value.finished || w.job.value.attempted then w
    else
      var job := w.job.value;
      var tried := w.(job := Some(job.(attempted := true)));
      var task := w.task;
      if amount == 0 || amount > WIRE / 2 || job.invalid || !running
         || task.status != Active || task.cancelRequested || task.look.None? || task.look.value.op != job.op
         || task.look.value.phase != Preparing || task.pending != Some(job.op) || task.step != job.step
         || task.identity != job.identity || !MayReserve(task, amount)
      then tried
      else
        var look := task.look.value;
        SaveTask(tried, task.(calls := task.calls + 1,
                              look := Some(look.(phase := Running, reserved := amount, calls := look.calls + 1))),
                 [Reserve(amount)], save)
  }

  /** Whether a settled job leaves a usable draft. */
  predicate DraftReady(task: Task, job: Job, succeeded: bool, live: bool, now: int)
    requires task.look.Some?
  {
    && !job.invalid && live && succeeded && !Disturbed(task, job)
    && task.look.value.phase != Discarded && now < job.expires && task.tokens <= task.budget.tokens
  }

  /** The settled task: the charge, and a ready draft or a discarded one. */
  function Settled(task: Task, job: Job, reported: Option<nat>, succeeded: bool, live: bool, now: int): Task
    requires task.look.Some?
  {
    var called := Held(task) > 0;
    var charged :=
      if called then
        task.(tokens := task.tokens + ChargeFor(task, reported), look := Some(task.look.value.(reserved := 0)))
      else task;
    if called && DraftReady(charged, job, succeeded, live, now) then
      charged.(look := Some(charged.look.value.(phase := Ready)))
    else Discard(charged)
  }

  function SettleEntries(task: Task, reported: Option<nat>): seq<Entry> {
    if Held(task) > 0 then [Charge(Held(task), ChargeFor(task, reported), reported)] else []
  }

  /** A finished job settles its reservation in one committed write, whatever was edited meanwhile. */
  function FinishStep(
    w: Speculation, reported: Option<nat>, succeeded: bool, live: bool, now: int, loaded: bool, save: Save): Speculation
  {
    if w.holder != Free || w.job.None? || w.job.value.finished then w
    else
      var job := w.job.value;
      if !loaded || w.task.look.None? || w.task.look.value.op != job.op then w.(job := None)
      else
        var settled := Settled(w.task, job, reported, succeeded, live, now);
        var saved := SaveTask(w, settled, SettleEntries(w.task, reported), save);
        var ready := settled.look.value.phase == Ready && Reports(GuardTask(settled, w.job), save);
        saved.(job := if ready && saved.job.Some? && !saved.job.value.invalid
                      then Some(saved.job.value.(finished := true)) else None)
  }

  /** A decision boundary adopts a finished, verified draft or abandons the job. */
  function TryStep(w: Speculation, verified: bool, now: int, save: Save): Speculation {
    if w.holder != Runner(true) || w.job.None? then w
    else
      var job, task := w.job.value, w.task;
      var adopt :=
        && job.finished && verified && !job.invalid && task.look.Some? && task.look.value.op == job.op
        && task.look.value.phase == Ready && !Disturbed(task, job) && task.step == job.step + 1 && task.pending.None?
        && now < job.expires && task.tokens <= task.budget.tokens;
      var left := w.(job := if job.finished then None else Some(job.(invalid := true)));
      if task.look.None? || task.look.value.op != job.op then left
      else if adopt then
        var look := task.look.value;
        SaveTask(left, task.(look := Some(look.(phase := Adopted, adopted := look.adopted + 1))), [], save)
      else SaveTask(left, Discard(task), [], save)
  }

  function Step(w: Speculation, e: Event): Speculation {
    match e
    case Lock => if w.holder == Free then w.(holder := Runner(false)) else w
    case Unlock => if w.holder.Runner? then w.(holder := Free) else w
    case Recover(save) => RecoverStep(w, save)
    case Change(edit, save) => SaveTask(w, Edited(w.task, edit), [], save)
    case ModelCall(usage, save) => ModelCallStep(w, usage, save)
    case StartJob(op, expires, now, save) => StartStep(w, op, expires, now, save)
    case DropDraft(now) => DropExpired(w, now)
    case ReserveTokens(amount, running, save) => ReserveStep(w, amount, running, save)
    case Finish(reported, succeeded, live, now, loaded, save) =>
      FinishStep(w, reported, succeeded, live, now, loaded, save)
    case Try(verified, now, save) => TryStep(w, verified, now, save)
    case Invalidate => if w.job.Some? then w.(job := Some(w.job.value.(invalid := true))) else w
    case Crash => w.(job := None, holder := Free)
  }

  function Run(w: Speculation, events: seq<Event>): Speculation
    decreases |events|
  {
    if events == [] then w else Step(Run(w, events[..|events| - 1]), events[|events| - 1])
  }
}
