/**
  The event history of a task keeps only its last events; the execution evidence
  beside it is brought up to date with each event and so accounts for all of
  them.
 */
module TaskEvidence {
  import opened ControlTypes

  datatype Kind =
    | ActionSelected | ActionRejected | ActionInvalidated | MacroStarted | OperationTerminal | MacroTerminal
    | TaskCompleted | OtherKind

  /** `code` is the capability of a selected action and the status of an ended operation. */
  datatype Event = Event(sequence: nat, kind: Kind, code: Id, operationId: Id)

  datatype Evidence = Evidence(
    complete: bool, sequence: nat, selected: nat, terminal: nat, successful: nat, rejected: nat, macros: nat,
    endedMacros: nat, completed: nat, capabilities: seq<Id>, lastOperation: Option<Id>)

  const MAX_HISTORY: nat := 512
  /** The code of an ended operation that succeeded. */
  const SUCCEEDED: Id := 0

  // ---------------------------------------------------------------- recording one event

  predicate Increasing(ids: seq<Id>) {
    forall i, j :: 0 <= i < j < |ids| ==> ids[i] < ids[j]
  }

  /** The ordered sequence with one more element. */
  function Inserted(ids: seq<Id>, id: Id): seq<Id> {
    if ids == [] || id < ids[0] then [id] + ids
    else if id == ids[0] then ids
    else [ids[0]] + Inserted(ids[1..], id)
  }

  lemma {:induction false} InsertedIsIncreasing(ids: seq<Id>, id: Id)
    requires Increasing(ids)
    ensures Increasing(Inserted(ids, id))
    ensures forall x :: x in Inserted(ids, id) <==> x in ids || x == id
  {
    if ids != [] {
      assert ids == [ids[0]] + ids[1..];
      if id > ids[0] {
        InsertedIsIncreasing(ids[1..], id);
        var rest := Inserted(ids[1..], id);
        forall j | 0 <= j < |rest| ensures ids[0] < rest[j] { assert rest[j] in rest; }
      }
    }
  }

  lemma {:induction false} InsertedBehind(ids: seq<Id>, i: nat, id: Id)
    requires i <= |ids| && forall k :: 0 <= k < i ==> ids[k] < id
    ensures Inserted(ids, id) == ids[..i] + Inserted(ids[i..], id)
  {
    if i > 0 {
      InsertedBehind(ids[1..], i - 1, id);
      assert ids[1..][i - 1..] == ids[i..] && [ids[0]] + ids[1..][..i - 1] == ids[..i];
    } else {
      assert ids[0..] == ids;
    }
  }

  function Record(e: Evidence, event: Event): Evidence {
    var seen := e.(sequence := event.sequence);
    match event.kind
    case ActionSelected => seen.(selected := e.selected + 1, capabilities := Inserted(e.capabilities, event.code))
    case ActionRejected => seen.(rejected := e.rejected + 1)
    case ActionInvalidated => seen.(rejected := e.rejected + 1)
    case MacroStarted => seen.(macros := e.macros + 1)
    case OperationTerminal => Ended(seen, event)
    case MacroTerminal => Ended(seen, event).(endedMacros := e.endedMacros + 1)
    case TaskCompleted => seen.(completed := e.completed + 1)
    case OtherKind => seen
  }

  function Ended(e: Evidence, event: Event): Evidence {
    e.(terminal := e.terminal + 1, lastOperation := Some(event.operationId),
       successful := if event.code == SUCCEEDED then e.successful + 1 else e.successful)
  }

  function NoEvidence(complete: bool): Evidence {
    Evidence(complete, 0, 0, 0, 0, 0, 0, 0, 0, [], None)
  }

  /** Recording a whole log from nothing. */
  function Folded(log: seq<Event>, complete: bool): Evidence
    decreases |log|
  {
    if log == [] then NoEvidence(complete) else Record(Folded(log[..|log| - 1], complete), log[|log| - 1])
  }

  // ---------------------------------------------------------------- what the fold means

  function CountOf(log: seq<Event>, kinds: set<Kind>): nat
    decreases |log|
  {
    if log == [] then 0
    else CountOf(log[..|log| - 1], kinds) + if log[|log| - 1].kind in kinds then 1 else 0
  }

  function Successes(log: seq<Event>): nat
    decreases |log|
  {
    if log == [] then 0
    else Successes(log[..|log| - 1])
         + if log[|log| - 1].kind in {OperationTerminal, MacroTerminal} && log[|log| - 1].code == SUCCEEDED then 1 else 0
  }

  predicate Selects(log: seq<Event>, capability: Id) {
    exists i :: 0 <= i < |log| && log[i].kind == ActionSelected && log[i].code == capability
  }

  /** Each counter counts its events over the whole log, and the capabilities are those ever selected, in order. */
  lemma {:induction false} FoldCounts(log: seq<Event>, complete: bool)
    ensures var e := Folded(log, complete);
            && e.complete == complete
            && e.selected == CountOf(log, {ActionSelected})
            && e.terminal == CountOf(log, {OperationTerminal, MacroTerminal})
            && e.successful == Successes(log)
            && e.rejected == CountOf(log, {ActionRejected, ActionInvalidated})
    decreases |log|
  {
    if log != [] { FoldCounts(log[..|log| - 1], complete); }
  }

  lemma {:induction false} FoldCountsMacros(log: seq<Event>, complete: bool)
    ensures var e := Folded(log, complete);
            && e.macros == CountOf(log, {MacroStarted}) && e.endedMacros == CountOf(log, {MacroTerminal})
            && e.completed == CountOf(log, {TaskCompleted})
    decreases |log|
  {
    if log != [] { FoldCountsMacros(log[..|log| - 1], complete); }
  }

  lemma {:induction false} FoldCapabilities(log: seq<Event>, complete: bool)
    ensures var e := Folded(log, complete);
            Increasing(e.capabilities) && forall c :: c in e.capabilities <==> Selects(log, c)
    decreases |log|
  {
    if log != [] {
      var before, last := log[..|log| - 1], log[|log| - 1];
      FoldCapabilities(before, complete);
      var e := Folded(before, complete);
      InsertedIsIncreasing(e.capabilities, last.code);
      forall c ensures Selects(log, c) <==> Selects(before, c) || (last.kind == ActionSelected && last.code == c) {
        if Selects(before, c) {
          var i :| 0 <= i < |before| && before[i].kind == ActionSelected && before[i].code == c;
          assert log[i] == before[i];
        }
      }
    }
  }

  /** The counters of a log are consistent with each other. */
  lemma {:induction false} CountsAgree(log: seq<Event>)
    ensures Successes(log) <= CountOf(log, {OperationTerminal, MacroTerminal})
    ensures CountOf(log, {MacroTerminal}) <= CountOf(log, {OperationTerminal, MacroTerminal})
    decreases |log|
  {
    if log != [] { CountsAgree(log[..|log| - 1]); }
  }

  // ---------------------------------------------------------------- the bounded history

  function Tail(log: seq<Event>): seq<Event> {
    if |log| <= MAX_HISTORY then log else log[|log| - MAX_HISTORY..]
  }

  lemma TailAppends(log: seq<Event>, event: Event)
    ensures Tail(log + [event]) == (if |Tail(log)| == MAX_HISTORY then Tail(log)[1..] else Tail(log)) + [event]
  {
  }

  predicate Numbered(log: seq<Event>) {
    forall i :: 0 <= i < |log| ==> log[i].sequence == i + 1
  }

  /** Evidence rebuilt from the retained history, for a task that has none. */
  function FromHistory(history: seq<Event>, sequence: nat): Evidence {
    Folded(history, |history| == sequence && Numbered(history)).(sequence := sequence)
  }

  lemma {:induction false} FoldSequence(log: seq<Event>, complete: bool)
    requires Numbered(log)
    ensures Folded(log, complete).sequence == |log|
  {
  }

  /** Rebuilding from the history gives the kept evidence exactly while no event was dropped. */
  lemma RebuiltIff(log: seq<Event>)
    requires Numbered(log)
    ensures FromHistory(Tail(log), |log|) == Folded(log, true) <==> |log| <= MAX_HISTORY
  {
    FoldSequence(log, true);
    FoldCounts(log, true);
    FoldCounts(Tail(log), false);
    if |log| > MAX_HISTORY { assert Tail(log)[0].sequence != 1; }
  }

  class TaskLog {
    var eventSequence: nat
    var history: seq<Event>
    var evidence: Option<Evidence>
    /** Every event ever appended. */
    ghost var log: seq<Event>

    /** Evidence, sequence and history are all determined by the whole log. */
    ghost predicate Valid()
      reads this
    {
      && Numbered(log) && eventSequence == |log| && history == Tail(log)
      && evidence == (if log == [] then None else Some(Folded(log, true)))
    }

    constructor ()
      ensures Valid() && log == []
    {
      eventSequence, history, evidence, log := 0, [], None, [];
    }

    /** Adds one capability to the ordered list, unless it is there. */
    method AddCapability(ids: seq<Id>, id: Id) returns (r: seq<Id>)
      requires Increasing(ids)
      ensures r == Inserted(ids, id)
    {
      var i := 0;
      while i < |ids| && ids[i] < id
        invariant 0 <= i <= |ids| && forall k :: 0 <= k < i ==> ids[k] < id
      {
        i := i + 1;
      }
      InsertedBehind(ids, i, id);
      if i < |ids| && ids[i] == id {
        assert ids[..i] + ids[i..] == ids;
        return ids;
      }
      return ids[..i] + [id] + ids[i..];
    }

    method RecordEvent(e: Evidence, event: Event) returns (r: Evidence)
      requires Increasing(e.capabilities)
      ensures r == Record(e, event)
    {
      r := e.(sequence := event.sequence);
      match event.kind
      case ActionSelected =>
        var capabilities := AddCapability(e.capabilities, event.code);
        r := r.(selected := e.selected + 1, capabilities := capabilities);
      case ActionRejected => r := r.(rejected := e.rejected + 1);
      case ActionInvalidated => r := r.(rejected := e.rejected + 1);
      case MacroStarted => r := r.(macros := e.macros + 1);
      case OperationTerminal => r := Ended(r, event);
      case MacroTerminal => r := Ended(r, event).(endedMacros := e.endedMacros + 1);
      case TaskCompleted => r := r.(completed := e.completed + 1);
      case OtherKind =>
    }

    method EvidenceFromHistory() returns (r: Evidence)
      ensures r == FromHistory(history, eventSequence)
    {
      var complete := |history| == eventSequence;
      for i := 0 to |history|
        invariant complete <==> |history| == eventSequence && Numbered(history[..i])
      {
        assert history[..i + 1] == history[..i] + [history[i]];
        if history[i].sequence != i + 1 {
          complete := false;
        }
      }
      assert history[..|history|] == history;
      r := NoEvidence(complete);
      for i := 0 to |history|
        invariant r == Folded(history[..i], complete)
      {
        assert history[..i + 1][..i] == history[..i];
        FoldCapabilities(history[..i], complete);
        r := RecordEvent(r, history[i]);
      }
      r := r.(sequence := eventSequence);
    }

    /** The evidence before the next event; a task without any starts from its history. */
    method CurrentEvidence() returns (current: Evidence)
      requires Valid()
      ensures current == Folded(log, true)
    {
      if evidence.Some? {
        return evidence.value;
      }
      current := EvidenceFromHistory();
    }

    /** Appends one event, numbers it, records it and drops the oldest event of a full history. */
    method Append(kind: Kind, code: Id, operationId: Id)
      requires Valid()
      modifies this
      ensures Valid()
      ensures log == old(log) + [Event(|old(log)| + 1, kind, code, operationId)]
    {
      var current := CurrentEvidence();
      eventSequence := eventSequence + 1;
      var event := Event(eventSequence, kind, code, operationId);
      FoldCapabilities(log, true);
      var recorded := RecordEvent(current, event);
      evidence := Some(recorded);
      TailAppends(log, event);
      if |history| == MAX_HISTORY {
        history := history[1..];
      }
      history := history + [event];
      assert (log + [event])[..|log|] == log;
      log := log + [event];
    }
  }
}
