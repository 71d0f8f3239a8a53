/**
  What holds of every interleaving of a lookahead with its task: each
  reservation is held or charged exactly once, the counters stay consistent, and
  speculation never uses up an ordinary call's budget.
 */
module LookaheadProofs {
  import opened ControlTypes
  import opened TaskTypes
  import opened Lookahead

  // ---------------------------------------------------------------- the ledger

  /** The state of the account after a log: nothing open, one open reservation, or an irregular log. */
  datatype Ledger = Clear | Open(amount: nat) | Irregular

  function Post(ledger: Ledger, entry: Entry): Ledger {
    match (ledger, entry)
    case (Irregular, _) => Irregular
    case (_, Usage(_)) => ledger
    case (Clear, Reserve(amount)) => if amount > 0 then Open(amount) else Irregular
    case (Open(amount), Charge(reserved, _, _)) => if reserved == amount then Clear else Irregular
    case (_, _) => Irregular
  }

  function LedgerOf(log: seq<Entry>): Ledger
    decreases |log|
  {
    if log == [] then Clear else Post(LedgerOf(log[..|log| - 1]), log[|log| - 1])
  }

  function Cost(entry: Entry): nat {
    match entry
    case Usage(amount) => amount
    case Reserve(_) => 0
    case Charge(_, amount, _) => amount
  }

  function Spent(log: seq<Entry>): nat
    decreases |log|
  {
    if log == [] then 0 else Spent(log[..|log| - 1]) + Cost(log[|log| - 1])
  }

  lemma PostOne(log: seq<Entry>, entry: Entry)
    ensures LedgerOf(log + [entry]) == Post(LedgerOf(log), entry)
    ensures Spent(log + [entry]) == Spent(log) + Cost(entry)
  {
    assert (log + [entry])[..|log|] == log;
  }

  lemma {:induction false} RegularPrefix(log: seq<Entry>, n: nat)
    requires n <= |log| && LedgerOf(log) != Irregular
    ensures LedgerOf(log[..n]) != Irregular
    decreases |log|
  {
    if n < |log| {
      assert log[..|log| - 1][..n] == log[..n];
      RegularPrefix(log[..|log| - 1], n);
    } else {
      assert log[..n] == log;
    }
  }

  /** In a regular log an account that was open and is open again was cleared by a charge in between. */
  lemma {:induction false} ClearedBetween(log: seq<Entry>, i: nat, j: nat)
    requires i < j < |log| && LedgerOf(log) != Irregular && log[i].Reserve? && log[j].Reserve?
    ensures exists k :: i < k < j && log[k].Charge? && log[k].reserved == log[i].amount
  {
    RegularPrefix(log, i + 1);
    RegularPrefix(log, j + 1);
    assert log[..i + 1][..i] == log[..i] && log[..j + 1][..j] == log[..j];
    assert LedgerOf(log[..i + 1]) == Open(log[i].amount);
    assert LedgerOf(log[..j]) == Clear;
    var k := i + 1;
    while LedgerOf(log[..k + 1]) == Open(log[i].amount)
      invariant i < k < j
      invariant LedgerOf(log[..k]) == Open(log[i].amount)
      decreases j - k
    {
      k := k + 1;
      if k == j { assert false; }
    }
    assert log[..k + 1][..k] == log[..k];
    RegularPrefix(log, k + 1);
  }

  // ---------------------------------------------------------------- the invariant

  predicate Accounts(task: Task) {
    && task.calls <= task.budget.calls && task.tokens <= WIRE
    && (task.look.Some? ==>
          var look := task.look.value;
          && look.adopted + look.discarded + (if look.phase in {Running, Ready} then 1 else 0) <= look.calls
          && look.calls <= task.calls
          && (look.reserved > 0 ==> look.phase in {Running, Discarded}))
  }

  predicate JobOk(w: Speculation) {
    && (w.job.Some? && Held(w.task) > 0 ==> w.job.value.op == w.task.look.value.op && !w.job.value.finished)
    && (w.job.None? && w.holder == Runner(true) ==> Held(w.task) == 0)
    && (w.job.Some? && Guarded(w.task, w.job) ==> w.job.value.invalid)
  }

  predicate Inv(w: Speculation) {
    && Accounts(w.task) && JobOk(w)
    && LedgerOf(w.log) == AccountOf(w.task)
    && Spent(w.log) == w.task.tokens
  }

  /** A new task, before anything was spent or reserved. */
  predicate Fresh(w: Speculation) {
    w.task.look.None? && w.task.calls == 0 && w.task.tokens == 0 && w.job.None? && w.holder == Free && w.log == []
  }

  // ---------------------------------------------------------------- every event keeps it

  function AccountOf(task: Task): Ledger {
    if Held(task) > 0 then Open(Held(task)) else Clear
  }

  lemma GuardKeeps(task: Task, job: Option<Job>)
    requires Accounts(task)
    ensures Accounts(GuardTask(task, job)) && Held(GuardTask(task, job)) == Held(task)
    ensures GuardTask(task, job).tokens == task.tokens
  {
  }

  /** The job may stay beside this task: it owns any open reservation. */
  predicate Owns(job: Option<Job>, holder: Holder, task: Task) {
    && (job.Some? && Held(task) > 0 ==> job.value.op == task.look.value.op && !job.value.finished)
    && (job.None? && holder == Runner(true) ==> Held(task) == 0)
  }

  /** A guarded save keeps the invariant if its task is consistent with what it posts. */
  lemma SaveKeeps(w: Speculation, task: Task, entries: seq<Entry>, save: Save)
    requires Inv(w) && Accounts(task) && Owns(w.job, w.holder, task)
    requires LedgerOf(w.log + entries) == AccountOf(task) && Spent(w.log + entries) == task.tokens
    ensures Inv(SaveTask(w, task, entries, save))
  {
    GuardKeeps(task, w.job);
  }

  /** A save that cannot commit only touches the job. */
  lemma RefusedKeeps(w: Speculation, task: Task, entries: seq<Entry>, save: Save)
    requires Inv(w) && !Commits(GuardTask(task, w.job), save)
    ensures Inv(SaveTask(w, task, entries, save))
  {
  }

  lemma PostNone(w: Speculation)
    ensures w.log + [] == w.log
  {
  }

  lemma RecoverKeeps(w: Speculation, save: Save)
    requires Inv(w)
    ensures Inv(RecoverStep(w, save))
  {
    if !w.holder.Runner? || w.task.look.None? || w.job.Some?
       || (w.task.look.value.phase in {Adopted, Discarded} && w.task.look.value.reserved == 0)
       || w.task.look.value.reserved > WIRE - w.task.tokens
    {
      return;
    }
    var task := Recovered(w.task);
    PostNone(w);
    if Held(w.task) > 0 { PostOne(w.log, Charge(Held(w.task), Held(w.task), None)); }
    SaveKeeps(w, task, RecoverEntries(w.task), save);
    RecoveredHolder(SaveTask(w, task, RecoverEntries(w.task), save), Reports(task, save));
  }

  /** A hold counts as recovered only over a task without an open reservation. */
  lemma RecoveredHolder(w: Speculation, recovered: bool)
    requires Inv(w) && (recovered && w.job.None? ==> Held(w.task) == 0)
    ensures Inv(w.(holder := Runner(recovered)))
  {
  }

  lemma ModelCallKeeps(w: Speculation, usage: Option<nat>, save: Save)
    requires Inv(w)
    ensures Inv(ModelCallStep(w, usage, save))
  {
    if w.holder != Runner(true) { return; }
    PostNone(w);
    var after := ModelCallStep(w, usage, save);
    if !CallAllowed(w.task) {
      SaveKeeps(w, w.task.(status := Failed), [], save);
      assert after == SaveTask(w, w.task.(status := Failed), [], save);
    } else if usage.None? || w.task.tokens + usage.value > WIRE {
      SaveKeeps(w, w.task.(calls := w.task.calls + 1, status := Paused), [], save);
      assert after == SaveTask(w, w.task.(calls := w.task.calls + 1, status := Paused), [], save);
    } else {
      CalledKeeps(w, usage.value, save);
      assert after == SaveTask(w, Called(w.task, usage.value), [Usage(usage.value)], save);
    }
  }

  lemma CalledKeeps(w: Speculation, usage: nat, save: Save)
    requires Inv(w) && w.task.calls < w.task.budget.calls && w.task.tokens + usage <= WIRE
    ensures Inv(SaveTask(w, Called(w.task, usage), [Usage(usage)], save))
  {
    PostOne(w.log, Usage(usage));
    SaveKeeps(w, Called(w.task, usage), [Usage(usage)], save);
  }

  lemma StartKeeps(w: Speculation, op: Id, expires: int, now: int, save: Save)
    requires Inv(w)
    ensures Inv(StartStep(w, op, expires, now, save))
  {
    PostNone(w);
  }

  lemma ReserveKeeps(w: Speculation, amount: nat, running: bool, save: Save)
    requires Inv(w)
    ensures Inv(ReserveStep(w, amount, running, save))
  {
    PostOne(w.log, Reserve(amount));
  }

  lemma SettledAccounts(task: Task, job: Job, reported: Option<nat>, succeeded: bool, live: bool, now: int)
    requires Accounts(task) && task.look.Some?
    ensures var settled := Settled(task, job, reported, succeeded, live, now);
            && Held(settled) == 0 && settled.look.Some? && settled.look.value.op == task.look.value.op
            && settled.tokens == task.tokens + (if Held(task) > 0 then ChargeFor(task, reported) else 0)
            && (settled.tokens <= WIRE ==> Accounts(settled))
            && (settled.look.value.phase == Ready && Held(task) > 0 ==> !Disturbed(settled, job))
  {
  }

  lemma FinishKeeps(w: Speculation, reported: Option<nat>, succeeded: bool, live: bool, now: int, loaded: bool, save: Save)
    requires Inv(w)
    ensures Inv(FinishStep(w, reported, succeeded, live, now, loaded, save))
  {
    if w.holder != Free || w.job.None? || w.job.value.finished || !loaded || w.task.look.None?
       || w.task.look.value.op != w.job.value.op
    {
      return;
    }
    var settled := Settled(w.task, w.job.value, reported, succeeded, live, now);
    var entries := SettleEntries(w.task, reported);
    SettledAccounts(w.task, w.job.value, reported, succeeded, live, now);
    PostNone(w);
    if Held(w.task) > 0 { PostOne(w.log, Charge(Held(w.task), ChargeFor(w.task, reported), reported)); }
    if settled.tokens <= WIRE { SaveKeeps(w, settled, entries, save); } else { RefusedKeeps(w, settled, entries, save); }
    var saved := SaveTask(w, settled, entries, save);
    assert Inv(saved);
    FinishedJobKeeps(saved, FinishStep(w, reported, succeeded, live, now, loaded, save), settled, save);
  }

  /** Dropping the job, or marking it finished beside a ready draft, changes nothing else. */
  lemma FinishedJobKeeps(saved: Speculation, done: Speculation, settled: Task, save: Save)
    requires Inv(saved) && saved.holder == Free && done == saved.(job := done.job)
    requires done.job.None?
             || (Held(saved.task) == 0 && saved.job.Some? && !Guarded(saved.task, saved.job)
                 && done.job == Some(saved.job.value.(finished := true)))
    ensures Inv(done)
  {
  }

  lemma TryKeeps(w: Speculation, verified: bool, now: int, save: Save)
    requires Inv(w)
    ensures Inv(TryStep(w, verified, now, save))
  {
    PostNone(w);
  }

  lemma StepKeeps(w: Speculation, e: Event)
    requires Inv(w)
    ensures Inv(Step(w, e))
  {
    match e
    case Recover(save) => RecoverKeeps(w, save);
    case Change(edit, save) => PostNone(w); SaveKeeps(w, Edited(w.task, edit), [], save);
    case ModelCall(usage, save) => ModelCallKeeps(w, usage, save);
    case StartJob(op, expires, now, save) => StartKeeps(w, op, expires, now, save);
    case ReserveTokens(amount, running, save) => ReserveKeeps(w, amount, running, save);
    case Finish(reported, succeeded, live, now, loaded, save) =>
      FinishKeeps(w, reported, succeeded, live, now, loaded, save);
    case Try(verified, now, save) => TryKeeps(w, verified, now, save);
    case _ =>
  }

  lemma {:induction false} RunKeeps(w: Speculation, events: seq<Event>)
    requires Inv(w)
    ensures Inv(Run(w, events))
    decreases |events|
  {
    if events != [] {
      RunKeeps(w, events[..|events| - 1]);
      StepKeeps(Run(w, events[..|events| - 1]), events[|events| - 1]);
    }
  }

  // ---------------------------------------------------------------- main results

  lemma FreshHolds(w: Speculation)
    requires Fresh(w)
    ensures Inv(w)
  {
  }

  /**
    Tokens are conserved: in every reachable state the log is regular, its open
    reservation is exactly the one the task still holds, and the task's tokens
    are exactly what was used and charged.
   */
  lemma TokensConserved(w: Speculation, events: seq<Event>)
    requires Fresh(w)
    ensures var v := Run(w, events);
            && LedgerOf(v.log) == (if Held(v.task) > 0 then Open(Held(v.task)) else Clear)
            && v.task.tokens == Spent(v.log)
  {
    FreshHolds(w);
    RunKeeps(w, events);
  }

  /** No reservation is overwritten uncharged: between any two there is the charge of the first. */
  lemma EachReservationIsCharged(w: Speculation, events: seq<Event>, i: nat, j: nat)
    requires Fresh(w) && i < j < |Run(w, events).log|
    requires Run(w, events).log[i].Reserve? && Run(w, events).log[j].Reserve?
    ensures exists k :: i < k < j && Run(w, events).log[k].Charge? && Run(w, events).log[k].reserved == Run(w, events).log[i].amount
  {
    TokensConserved(w, events);
    ClearedBetween(Run(w, events).log, i, j);
  }

  /** Nor is one charged twice: between any two charges something was reserved. */
  lemma {:induction false} NoDoubleCharge(w: Speculation, events: seq<Event>, i: nat, j: nat)
    requires Fresh(w) && i < j < |Run(w, events).log|
    requires Run(w, events).log[i].Charge? && Run(w, events).log[j].Charge?
    ensures exists k :: i < k < j && Run(w, events).log[k].Reserve?
  {
    TokensConserved(w, events);
    ReservedBetween(Run(w, events).log, i, j);
  }

  lemma ReservedBetween(log: seq<Entry>, i: nat, j: nat)
    requires i < j < |log| && LedgerOf(log) != Irregular && log[i].Charge? && log[j].Charge?
    ensures exists k :: i < k < j && log[k].Reserve?
  {
    RegularPrefix(log, i + 1);
    RegularPrefix(log, j + 1);
    assert log[..i + 1][..i] == log[..i] && log[..j + 1][..j] == log[..j];
    assert LedgerOf(log[..i + 1]) == Clear;
    assert LedgerOf(log[..j]).Open?;
    var k := i + 1;
    while LedgerOf(log[..k + 1]) == Clear
      invariant i < k < j && LedgerOf(log[..k]) == Clear
      decreases j - k
    {
      k := k + 1;
      if k == j { assert false; }
    }
    assert log[..k + 1][..k] == log[..k];
    RegularPrefix(log, k + 1);
  }

  /** The counters of every reachable state are consistent and within the budget. */
  lemma CountersBounded(w: Speculation, events: seq<Event>)
    requires Fresh(w)
    ensures var task := Run(w, events).task;
            && task.calls <= task.budget.calls && task.tokens <= WIRE
            && (task.look.Some? ==>
                  var look := task.look.value;
                  look.adopted + look.discarded + (if look.phase in {Running, Ready} then 1 else 0) <= look.calls <= task.calls)
  {
    FreshHolds(w);
    RunKeeps(w, events);
  }

  /** A charge is what the provider reported, if that fits, and else the whole reservation. */
  lemma ChargeIsReportedOrReserved(w: Speculation, reported: Option<nat>, succeeded: bool, live: bool, now: int)
    requires Inv(w) && w.holder == Free && w.job.Some? && !w.job.value.finished && Held(w.task) > 0
    ensures var v := FinishStep(w, reported, succeeded, live, now, true, Saved);
            var charge := if reported.Some? && w.task.tokens + reported.value <= WIRE then reported.value else Held(w.task);
            if w.task.tokens + charge <= WIRE then
              v.task.tokens == w.task.tokens + charge && Held(v.task) == 0
              && v.log == w.log + [Charge(Held(w.task), charge, reported)]
            else v.task == w.task && v.log == w.log
  {
    SettledAccounts(w.task, w.job.value, reported, succeeded, live, now);
    GuardKeeps(w.task, w.job);
    var settled := Settled(w.task, w.job.value, reported, succeeded, live, now);
    assert settled.tokens <= WIRE ==> Accounts(GuardTask(settled, w.job));
  }

  /** After a crash the next hold charges a lost reservation in full, whenever the sum can be represented. */
  lemma CrashedReservationIsCharged(w: Speculation)
    requires Inv(w) && Held(w.task) > 0 && w.task.tokens + Held(w.task) <= WIRE
    ensures var v := Run(w, [Crash, Lock, Recover(Saved)]);
            && Held(v.task) == 0 && v.task.tokens == w.task.tokens + Held(w.task)
            && v.log == w.log + [Charge(Held(w.task), Held(w.task), None)]
  {
    var c := Step(w, Crash);
    var l := Step(c, Lock);
    assert [Crash, Lock, Recover(Saved)][..2] == [Crash, Lock] && [Crash, Lock][..1] == [Crash] && [Crash][..0] == [];
    assert Run(w, []) == w && Run(w, [Crash]) == c && Run(w, [Crash, Lock]) == l;
    assert Run(w, [Crash, Lock, Recover(Saved)]) == Step(l, Recover(Saved));
  }

  // ---------------------------------------------------------------- room for the ordinary call

  /** The event is no ordinary call, and if it settles a reservation the charge is at most the reservation. */
  predicate Modest(w: Speculation, e: Event) {
    && !e.ModelCall?
    && (e.Finish? ==> ChargeFor(w.task, e.reported) <= Held(w.task))
  }

  ghost predicate ModestRun(w: Speculation, events: seq<Event>) {
    forall i :: 0 <= i < |events| ==> Modest(Run(w, events[..i]), events[i])
  }

  lemma StepLeavesRoom(w: Speculation, e: Event)
    requires Inv(w) && Modest(w, e) && CallAllowed(w.task)
    ensures CallAllowed(Step(w, e).task)
  {
    if e.Finish? && w.job.Some? && w.task.look.Some? {
      SettledAccounts(w.task, w.job.value, e.reported, e.succeeded, e.live, e.now);
    }
  }

  /**
    Speculation never costs the task its next ordinary call: once a call is
    allowed it stays allowed through any reservations, settlements, edits,
    abandonments and crashes, as long as no charge exceeds its reservation.
   */
  lemma {:induction false} RoomKept(w: Speculation, events: seq<Event>)
    requires Inv(w) && CallAllowed(w.task) && ModestRun(w, events)
    ensures CallAllowed(Run(w, events).task)
    decreases |events|
  {
    if events != [] {
      var before := events[..|events| - 1];
      forall i | 0 <= i < |before| ensures Modest(Run(w, before[..i]), before[i]) { assert before[..i] == events[..i]; }
      RoomKept(w, before);
      RunKeeps(w, before);
      StepLeavesRoom(Run(w, before), events[|events| - 1]);
    }
  }

  /** A reservation is only made when it leaves that room, and doubling it cannot overflow 64 bits. */
  lemma ReservationLeavesRoom(w: Speculation, amount: nat, running: bool, save: Save)
    requires Inv(w) && |ReserveStep(w, amount, running, save).log| > |w.log|
    ensures CallAllowed(ReserveStep(w, amount, running, save).task)
    ensures 0 < amount && amount * 2 < 0x1_0000_0000_0000_0000
    ensures Held(ReserveStep(w, amount, running, save).task) == amount
  {
  }

  // ---------------------------------------------------------------- room, exactly

  /** Calls are left, and a reservation takes only tokens that are there. */
  predicate Roomy(task: Task) {
    task.calls < task.budget.calls && (task.tokens < task.budget.tokens ==> Held(task) < task.budget.tokens - task.tokens)
  }

  lemma StepKeepsRoomy(w: Speculation, e: Event)
    requires Inv(w) && !e.ModelCall? && Roomy(w.task)
    ensures Roomy(Step(w, e).task) && Step(w, e).task.budget == w.task.budget
  {
    if e.Finish? && w.job.Some? && w.task.look.Some? {
      SettledAccounts(w.task, w.job.value, e.reported, e.succeeded, e.live, e.now);
    }
  }

  /** The log only grows. */
  predicate Extends(before: seq<Entry>, after: seq<Entry>) {
    |before| <= |after| && after[..|before|] == before
  }

  lemma StepExtends(w: Speculation, e: Event)
    ensures Extends(w.log, Step(w, e).log)
  {
  }

  lemma {:induction false} RunIsRoomy(w: Speculation, events: seq<Event>)
    requires Inv(w) && Roomy(w.task) && forall i :: 0 <= i < |events| ==> !events[i].ModelCall?
    ensures Roomy(Run(w, events).task) && Run(w, events).task.budget == w.task.budget
    ensures Extends(w.log, Run(w, events).log)
    decreases |events|
  {
    if events != [] {
      var before := Run(w, events[..|events| - 1]);
      RunIsRoomy(w, events[..|events| - 1]);
      RunKeeps(w, events[..|events| - 1]);
      StepKeepsRoomy(before, events[|events| - 1]);
      StepExtends(before, events[|events| - 1]);
      assert Run(w, events).log[..|w.log|] == before.log[..|w.log|];
    }
  }

  lemma {:induction false} SpentSplits(log: seq<Entry>, n: nat)
    requires n <= |log|
    ensures Spent(log) == Spent(log[..n]) + Spent(log[n..])
    decreases |log|
  {
    if n == |log| {
      assert log[..n] == log;
    } else {
      var before := log[..|log| - 1];
      SpentSplits(before, n);
      assert before[..n] == log[..n] && log[n..][..|log| - 1 - n] == before[n..];
    }
  }

  /**
    Speculation costs the task its next ordinary call exactly by what it is
    charged: through any reservations, settlements, edits, abandonments and
    crashes, the call stays allowed if and only if the tokens used before and all
    that was charged since stay below the budget. Open reservations never count.
   */
  lemma RoomKeptIff(w: Speculation, events: seq<Event>)
    requires Inv(w) && CallAllowed(w.task) && forall i :: 0 <= i < |events| ==> !events[i].ModelCall?
    ensures Extends(w.log, Run(w, events).log)
    ensures CallAllowed(Run(w, events).task)
            <==> w.task.tokens + Spent(Run(w, events).log[|w.log|..]) < w.task.budget.tokens
  {
    RunIsRoomy(w, events);
    RunKeeps(w, events);
    SpentSplits(Run(w, events).log, |w.log|);
  }
}
