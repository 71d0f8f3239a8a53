/**
  Host evidence for completing a task: facts that hold in the current
  observation, and distinct operations that succeeded in the current epoch.
 */
module TaskCompletion {
  import opened ControlTypes

  datatype Kind = Fact | Outcome

  datatype Condition = Condition(id: Id, kind: Kind, capability: Option<Id>)

  datatype Requirement = Requirement(conditionId: Id, minimum: nat)

  datatype Policy = Policy(hostEvidence: bool, worldId: Id, conditions: seq<Condition>, requirements: seq<Requirement>)

  datatype Evidence = Evidence(conditionId: Id, kind: Kind, epoch: Epoch, sequence: nat, operationId: Option<Id>)

  /** `holding` names the conditions that some fact of the observation matches. */
  datatype Observation = Observation(epoch: Epoch, sequence: nat, holding: set<Id>)

  /** `arguments` names the conditions whose argument selector the request meets. */
  datatype Request = Request(taskId: Id, capability: Id, arguments: set<Id>)

  datatype Ending = Ending(succeeded: bool, epoch: Epoch, worldSeq: nat)

  /** An operation as its caller sees it; `targets` names the conditions whose targets its binding resolved. */
  datatype View = View(
    operationId: Id, executionConfirmed: bool, outcome: Option<Ending>, request: Option<Request>, targets: set<Id>)

  /** What recording an ended operation reads of the task. */
  datatype Owner = Owner(
    taskId: Id, leaseEpoch: Epoch, pendingOp: Option<Id>, macroOp: Option<Id>, pendingAction: Option<Request>)

  /** What a confirmed success of the task may be credited for. */
  datatype Claim = Claim(operationId: Id, epoch: Epoch, worldSeq: nat, capability: Id, matching: set<Id>)

  const MAX_CONDITIONS: nat := 16
  const MAX_SUCCESSES: nat := 64

  function RequiredIn(requirements: seq<Requirement>, id: Id): nat {
    if requirements == [] then 1
    else if requirements[0].conditionId == id then (if requirements[0].minimum > 1 then requirements[0].minimum else 1)
    else RequiredIn(requirements[1..], id)
  }

  function Required(policy: Policy, id: Id): nat {
    RequiredIn(policy.requirements, id)
  }

  predicate Names(conditions: seq<Condition>, id: Id, kind: Kind) {
    exists i :: 0 <= i < |conditions| && conditions[i].id == id && conditions[i].kind == kind
  }

  /** What is checked when a task is created: bounded, with distinct conditions and requirements on outcomes only. */
  predicate PolicyOk(policy: Policy) {
    && |policy.conditions| <= MAX_CONDITIONS
    && DistinctConditions(policy.conditions)
    && (forall i :: 0 <= i < |policy.requirements| ==>
          policy.requirements[i].minimum <= MAX_SUCCESSES && Names(policy.conditions, policy.requirements[i].conditionId, Outcome))
  }

  function CountFor(evidence: seq<Evidence>, id: Id): nat
    decreases |evidence|
  {
    if evidence == [] then 0
    else CountFor(evidence[..|evidence| - 1], id) + if evidence[|evidence| - 1].conditionId == id then 1 else 0
  }

  // ---------------------------------------------------------------- validity

  predicate WellFormed(policy: Policy, e: Evidence) {
    && Names(policy.conditions, e.conditionId, e.kind)
    && e.epoch.worldId == policy.worldId && 0 < e.sequence <= WIRE
    && (e.kind == Outcome <==> e.operationId.Some?)
  }

  predicate Distinct(evidence: seq<Evidence>) {
    forall i, j :: 0 <= i < j < |evidence| ==>
      (evidence[i].conditionId, evidence[i].operationId) != (evidence[j].conditionId, evidence[j].operationId)
  }

  /** The store's check of the evidence of a task. */
  ghost predicate Valid(policy: Policy, evidence: seq<Evidence>) {
    && |evidence| <= MAX_CONDITIONS * MAX_SUCCESSES
    && (forall i :: 0 <= i < |evidence| ==> WellFormed(policy, evidence[i]))
    && Distinct(evidence)
    && (forall id :: CountFor(evidence, id) <= Required(policy, id))
  }

  // ---------------------------------------------------------------- the two updates

  function Kept(evidence: seq<Evidence>, epoch: Epoch, facts: bool): seq<Evidence>
    decreases |evidence|
  {
    if evidence == [] then []
    else
      var last := evidence[|evidence| - 1];
      Kept(evidence[..|evidence| - 1], epoch, facts)
      + if last.epoch == epoch && (facts || last.kind == Outcome) then [last] else []
  }

  function FactEvidence(c: Condition, o: Observation): seq<Evidence> {
    if c.kind == Fact && c.id in o.holding then [Evidence(c.id, Fact, o.epoch, o.sequence, None)] else []
  }

  function FactsOf(conditions: seq<Condition>, o: Observation): seq<Evidence>
    decreases |conditions|
  {
    if conditions == [] then []
    else FactsOf(conditions[..|conditions| - 1], o) + FactEvidence(conditions[|conditions| - 1], o)
  }

  /** Facts are replaced by those that hold now; outcomes survive only within the observed epoch. */
  function Refreshed(policy: Policy, evidence: seq<Evidence>, o: Observation): seq<Evidence> {
    if !policy.hostEvidence then evidence
    else Kept(evidence, o.epoch, false) + FactsOf(policy.conditions, o)
  }

  predicate Counted(evidence: seq<Evidence>, id: Id, operationId: Id) {
    exists i :: 0 <= i < |evidence| && evidence[i].conditionId == id && evidence[i].operationId == Some(operationId)
  }

  predicate Serves(c: Condition, claim: Claim) {
    c.kind == Outcome && c.capability == Some(claim.capability) && c.id in claim.matching
  }

  function RecordedFor(policy: Policy, evidence: seq<Evidence>, c: Condition, claim: Claim): seq<Evidence> {
    if !Serves(c, claim) || Counted(evidence, c.id, claim.operationId) || CountFor(evidence, c.id) >= Required(policy, c.id)
    then evidence
    else evidence + [Evidence(c.id, Outcome, claim.epoch, claim.worldSeq, Some(claim.operationId))]
  }

  function RecordedOver(policy: Policy, evidence: seq<Evidence>, conditions: seq<Condition>, claim: Claim): seq<Evidence>
    decreases |conditions|
  {
    if conditions == [] then evidence
    else RecordedFor(policy, RecordedOver(policy, evidence, conditions[..|conditions| - 1], claim),
                     conditions[|conditions| - 1], claim)
  }

  /** The request that the view shows, or else the one the task remembers. */
  function RequestOf(owner: Owner, view: View): Option<Request> {
    if view.request.Some? then view.request else owner.pendingAction
  }

  /**
    An operation counts only if its execution is confirmed, it succeeded in the
    epoch of the task's lease, and it is the pending or macro operation of a
    request that names the task.
   */
  function ClaimOf(owner: Owner, view: View): Option<Claim> {
    if !view.executionConfirmed || view.outcome.None? || !view.outcome.value.succeeded
       || view.outcome.value.epoch != owner.leaseEpoch
       || (Some(view.operationId) != owner.pendingOp && Some(view.operationId) != owner.macroOp)
    then None
    else
      var request := RequestOf(owner, view);
      if request.None? || request.value.taskId != owner.taskId then None
      else Some(Claim(view.operationId, view.outcome.value.epoch, view.outcome.value.worldSeq, request.value.capability,
                      request.value.arguments * view.targets))
  }

  function Recorded(policy: Policy, evidence: seq<Evidence>, owner: Owner, view: View): seq<Evidence> {
    if !policy.hostEvidence || ClaimOf(owner, view).None? then evidence
    else
      var claim := ClaimOf(owner, view).value;
      RecordedOver(policy, Kept(evidence, claim.epoch, true), policy.conditions, claim)
  }

  // ---------------------------------------------------------------- counting

  lemma CountAppend(a: seq<Evidence>, e: Evidence, id: Id)
    ensures CountFor(a + [e], id) == CountFor(a, id) + if e.conditionId == id then 1 else 0
  {
    assert (a + [e])[..|a|] == a;
  }

  lemma {:induction false} CountConcat(a: seq<Evidence>, b: seq<Evidence>, id: Id)
    ensures CountFor(a + b, id) == CountFor(a, id) + CountFor(b, id)
    decreases |b|
  {
    if b == [] {
      assert a + b == a;
    } else {
      var rest := b[..|b| - 1];
      assert a + b == (a + rest) + [b[|b| - 1]];
      CountAppend(a + rest, b[|b| - 1], id);
      CountConcat(a, rest, id);
    }
  }

  function Sum(evidence: seq<Evidence>, conditions: seq<Condition>): nat
    decreases |conditions|
  {
    if conditions == [] then 0
    else Sum(evidence, conditions[..|conditions| - 1]) + CountFor(evidence, conditions[|conditions| - 1].id)
  }

  lemma {:induction false} SumGrows(evidence: seq<Evidence>, e: Evidence, conditions: seq<Condition>)
    ensures Sum(evidence + [e], conditions) >= Sum(evidence, conditions)
    ensures (exists i :: 0 <= i < |conditions| && conditions[i].id == e.conditionId)
            ==> Sum(evidence + [e], conditions) >= Sum(evidence, conditions) + 1
    decreases |conditions|
  {
    if conditions != [] {
      SumGrows(evidence, e, conditions[..|conditions| - 1]);
      CountAppend(evidence, e, conditions[|conditions| - 1].id);
      if i :| 0 <= i < |conditions| && conditions[i].id == e.conditionId && i < |conditions| - 1 {
        assert conditions[..|conditions| - 1][i].id == e.conditionId;
      }
    }
  }

  lemma {:induction false} SizeBySum(evidence: seq<Evidence>, conditions: seq<Condition>)
    requires forall i :: 0 <= i < |evidence| ==> Names(conditions, evidence[i].conditionId, evidence[i].kind)
    ensures |evidence| <= Sum(evidence, conditions)
    decreases |evidence|
  {
    if evidence != [] {
      var before, last := evidence[..|evidence| - 1], evidence[|evidence| - 1];
      SizeBySum(before, conditions);
      assert before + [last] == evidence;
      SumGrows(before, last, conditions);
      assert Names(conditions, evidence[|evidence| - 1].conditionId, evidence[|evidence| - 1].kind);
    }
  }

  lemma {:induction false} RequiredBounded(requirements: seq<Requirement>, id: Id)
    requires forall i :: 0 <= i < |requirements| ==> requirements[i].minimum <= MAX_SUCCESSES
    ensures 1 <= RequiredIn(requirements, id) <= MAX_SUCCESSES
  {
    if requirements != [] && requirements[0].conditionId != id {
      forall i | 0 <= i < |requirements[1..]| ensures requirements[1..][i].minimum <= MAX_SUCCESSES {
        assert requirements[1..][i] == requirements[i + 1];
      }
      RequiredBounded(requirements[1..], id);
    }
  }

  lemma {:induction false} SumBounded(policy: Policy, evidence: seq<Evidence>, conditions: seq<Condition>)
    requires PolicyOk(policy) && forall id :: CountFor(evidence, id) <= Required(policy, id)
    ensures Sum(evidence, conditions) <= |conditions| * MAX_SUCCESSES
    decreases |conditions|
  {
    if conditions != [] {
      SumBounded(policy, evidence, conditions[..|conditions| - 1]);
      RequiredBounded(policy.requirements, conditions[|conditions| - 1].id);
    }
  }

  /** The bound on the number of records follows from the other checks. */
  lemma SizeBounded(policy: Policy, evidence: seq<Evidence>)
    requires PolicyOk(policy) && forall id :: CountFor(evidence, id) <= Required(policy, id)
    requires forall i :: 0 <= i < |evidence| ==> WellFormed(policy, evidence[i])
    ensures |evidence| <= MAX_CONDITIONS * MAX_SUCCESSES
  {
    SizeBySum(evidence, policy.conditions);
    SumBounded(policy, evidence, policy.conditions);
    assert |policy.conditions| * MAX_SUCCESSES <= MAX_CONDITIONS * MAX_SUCCESSES;
  }

  // ---------------------------------------------------------------- validity is kept

  lemma {:induction false} KeptMembers(evidence: seq<Evidence>, epoch: Epoch, facts: bool)
    ensures forall e :: e in Kept(evidence, epoch, facts) <==> e in evidence && e.epoch == epoch && (facts || e.kind == Outcome)
    decreases |evidence|
  {
    if evidence != [] {
      KeptMembers(evidence[..|evidence| - 1], epoch, facts);
      assert evidence == evidence[..|evidence| - 1] + [evidence[|evidence| - 1]];
    }
  }

  lemma {:induction false} KeptCounts(evidence: seq<Evidence>, epoch: Epoch, facts: bool, id: Id)
    ensures CountFor(Kept(evidence, epoch, facts), id) <= CountFor(evidence, id)
    decreases |evidence|
  {
    if evidence != [] {
      var kept := Kept(evidence[..|evidence| - 1], epoch, facts);
      KeptCounts(evidence[..|evidence| - 1], epoch, facts, id);
      CountAppend(kept, evidence[|evidence| - 1], id);
      assert kept + [] == kept;
    }
  }

  lemma {:induction false} KeptDistinct(evidence: seq<Evidence>, epoch: Epoch, facts: bool)
    requires Distinct(evidence)
    ensures Distinct(Kept(evidence, epoch, facts))
    decreases |evidence|
  {
    if evidence != [] {
      var before, last := evidence[..|evidence| - 1], evidence[|evidence| - 1];
      KeptDistinct(before, epoch, facts);
      KeptMembers(before, epoch, facts);
      var kept := Kept(before, epoch, facts);
      forall i | 0 <= i < |kept|
        ensures (kept[i].conditionId, kept[i].operationId) != (last.conditionId, last.operationId)
      {
        assert kept[i] in before;
        var j :| 0 <= j < |before| && before[j] == kept[i];
        assert evidence[j] == kept[i];
      }
    }
  }

  lemma KeptIsValid(evidence: seq<Evidence>, epoch: Epoch, facts: bool)
    requires Distinct(evidence)
    ensures var kept := Kept(evidence, epoch, facts);
            && (forall e :: e in kept <==> e in evidence && e.epoch == epoch && (facts || e.kind == Outcome))
            && Distinct(kept)
            && (forall id :: CountFor(kept, id) <= CountFor(evidence, id))
  {
    KeptMembers(evidence, epoch, facts);
    KeptDistinct(evidence, epoch, facts);
    forall id ensures CountFor(Kept(evidence, epoch, facts), id) <= CountFor(evidence, id) { KeptCounts(evidence, epoch, facts, id); }
  }

  /** The record says that a fact condition holds in the observation. */
  predicate IsFactOf(e: Evidence, conditions: seq<Condition>, o: Observation) {
    e.kind == Fact && e.epoch == o.epoch && e.conditionId in o.holding && Names(conditions, e.conditionId, Fact)
  }

  lemma NamesMore(conditions: seq<Condition>, n: nat, id: Id, kind: Kind)
    requires n <= |conditions| && Names(conditions[..n], id, kind)
    ensures Names(conditions, id, kind)
  {
    var i :| 0 <= i < n && conditions[..n][i].id == id && conditions[..n][i].kind == kind;
    assert conditions[i] == conditions[..n][i];
  }

  lemma {:induction false} FactsMembers(conditions: seq<Condition>, o: Observation)
    ensures forall i :: 0 <= i < |FactsOf(conditions, o)| ==> IsFactOf(FactsOf(conditions, o)[i], conditions, o)
    ensures forall i :: 0 <= i < |FactsOf(conditions, o)| ==>
              FactsOf(conditions, o)[i].operationId.None? && FactsOf(conditions, o)[i].sequence == o.sequence
    decreases |conditions|
  {
    if conditions != [] {
      var n := |conditions| - 1;
      FactsMembers(conditions[..n], o);
      forall i | 0 <= i < |FactsOf(conditions[..n], o)| ensures Names(conditions, FactsOf(conditions[..n], o)[i].conditionId, Fact) {
        NamesMore(conditions, n, FactsOf(conditions[..n], o)[i].conditionId, Fact);
      }
      assert conditions[n].kind == Fact ==> Names(conditions, conditions[n].id, Fact);
    }
  }

  predicate DistinctConditions(conditions: seq<Condition>) {
    forall i, j :: 0 <= i < j < |conditions| ==> conditions[i].id != conditions[j].id
  }

  /** Distinct conditions yield distinct facts, one each. */
  lemma {:induction false} FactsDistinct(conditions: seq<Condition>, o: Observation)
    requires DistinctConditions(conditions)
    ensures forall i, j :: 0 <= i < j < |FactsOf(conditions, o)| ==>
              FactsOf(conditions, o)[i].conditionId != FactsOf(conditions, o)[j].conditionId
    ensures forall id :: CountFor(FactsOf(conditions, o), id) <= 1
    decreases |conditions|
  {
    if conditions != [] {
      var n := |conditions| - 1;
      var facts, c := FactsOf(conditions[..n], o), conditions[n];
      FactsDistinct(conditions[..n], o);
      FactsMembers(conditions[..n], o);
      forall i | 0 <= i < |facts| ensures facts[i].conditionId != c.id {
        var k :| 0 <= k < n && conditions[..n][k].id == facts[i].conditionId;
        assert conditions[k].id == facts[i].conditionId;
      }
      NoneCounted(facts, c.id);
      forall id ensures CountFor(FactsOf(conditions, o), id) <= 1 {
        CountAppend(facts, Evidence(c.id, Fact, o.epoch, o.sequence, None), id);
        assert facts + [] == facts;
      }
    }
  }

  lemma FactsAreValid(policy: Policy, o: Observation)
    requires PolicyOk(policy) && o.epoch.worldId == policy.worldId && 0 < o.sequence <= WIRE
    ensures var facts := FactsOf(policy.conditions, o);
            && (forall i :: 0 <= i < |facts| ==> WellFormed(policy, facts[i]) && IsFactOf(facts[i], policy.conditions, o))
            && Distinct(facts) && (forall id :: CountFor(facts, id) <= 1)
  {
    FactsMembers(policy.conditions, o);
    FactsDistinct(policy.conditions, o);
  }

  lemma {:induction false} NoneCounted(evidence: seq<Evidence>, id: Id)
    requires forall i :: 0 <= i < |evidence| ==> evidence[i].conditionId != id
    ensures CountFor(evidence, id) == 0
    decreases |evidence|
  {
    if evidence != [] { NoneCounted(evidence[..|evidence| - 1], id); }
  }

  /** A condition has one kind, so facts and outcomes never share one. */
  lemma OneKind(policy: Policy, id: Id)
    requires PolicyOk(policy) && Names(policy.conditions, id, Fact)
    ensures !Names(policy.conditions, id, Outcome)
  {
  }

  lemma RefreshKeepsValid(policy: Policy, evidence: seq<Evidence>, o: Observation)
    requires PolicyOk(policy) && Valid(policy, evidence)
    requires o.epoch.worldId == policy.worldId && 0 < o.sequence <= WIRE
    ensures Valid(policy, Refreshed(policy, evidence, o))
  {
    if policy.hostEvidence {
      var kept, facts := Kept(evidence, o.epoch, false), FactsOf(policy.conditions, o);
      KeptIsValid(evidence, o.epoch, false);
      assert policy.conditions[..|policy.conditions|] == policy.conditions;
      FactsAreValid(policy, o);
      forall i | 0 <= i < |kept| ensures WellFormed(policy, kept[i]) && kept[i].kind == Outcome { assert kept[i] in kept; }
      forall id ensures CountFor(kept + facts, id) <= Required(policy, id) {
        CountConcat(kept, facts, id);
        RequiredBounded(policy.requirements, id);
        KindsApart(policy, kept, facts, id);
      }
      SizeBounded(policy, kept + facts);
    }
  }

  /** An identifier is counted among the outcomes or among the facts, never both. */
  lemma KindsApart(policy: Policy, kept: seq<Evidence>, facts: seq<Evidence>, id: Id)
    requires PolicyOk(policy)
    requires forall i :: 0 <= i < |kept| ==> WellFormed(policy, kept[i]) && kept[i].kind == Outcome
    requires forall i :: 0 <= i < |facts| ==> WellFormed(policy, facts[i]) && facts[i].kind == Fact
    ensures CountFor(kept, id) == 0 || CountFor(facts, id) == 0
  {
    if Names(policy.conditions, id, Fact) {
      OneKind(policy, id);
      NoneCounted(kept, id);
    } else {
      NoneCounted(facts, id);
    }
  }

  /** The record stands for the ended operation under a condition that the operation serves. */
  predicate Earned(conditions: seq<Condition>, e: Evidence, claim: Claim) {
    && e.kind == Outcome && e.epoch == claim.epoch && e.operationId == Some(claim.operationId)
    && exists k :: 0 <= k < |conditions| && conditions[k].id == e.conditionId && Serves(conditions[k], claim)
  }

  ghost predicate Sound(policy: Policy, evidence: seq<Evidence>) {
    && (forall i :: 0 <= i < |evidence| ==> WellFormed(policy, evidence[i]))
    && Distinct(evidence)
    && (forall id :: CountFor(evidence, id) <= Required(policy, id))
  }

  lemma AppendKeeps(policy: Policy, evidence: seq<Evidence>, e: Evidence)
    requires Sound(policy, evidence) && WellFormed(policy, e) && e.operationId.Some?
    requires !Counted(evidence, e.conditionId, e.operationId.value) && CountFor(evidence, e.conditionId) < Required(policy, e.conditionId)
    ensures Sound(policy, evidence + [e])
  {
    forall id ensures CountFor(evidence + [e], id) <= Required(policy, id) { CountAppend(evidence, e, id); }
    forall i | 0 <= i < |evidence|
      ensures (evidence[i].conditionId, evidence[i].operationId) != (e.conditionId, e.operationId)
    {
      if evidence[i].operationId.Some? { assert Counted(evidence, evidence[i].conditionId, evidence[i].operationId.value); }
    }
    assert Distinct(evidence + [e]);
  }

  lemma RecordForKeeps(policy: Policy, evidence: seq<Evidence>, c: Condition, claim: Claim)
    requires Sound(policy, evidence) && (c.kind == Outcome ==> Names(policy.conditions, c.id, Outcome))
    requires claim.epoch.worldId == policy.worldId && 0 < claim.worldSeq <= WIRE
    ensures Sound(policy, RecordedFor(policy, evidence, c, claim))
  {
    if RecordedFor(policy, evidence, c, claim) != evidence {
      AppendKeeps(policy, evidence, Evidence(c.id, Outcome, claim.epoch, claim.worldSeq, Some(claim.operationId)));
    }
  }

  lemma {:induction false} RecordKeepsParts(policy: Policy, evidence: seq<Evidence>, n: nat, claim: Claim)
    requires PolicyOk(policy) && n <= |policy.conditions| && Sound(policy, evidence)
    requires claim.epoch.worldId == policy.worldId && 0 < claim.worldSeq <= WIRE
    ensures var recorded := RecordedOver(policy, evidence, policy.conditions[..n], claim);
            Sound(policy, recorded) && forall e :: e in recorded ==> e in evidence || Earned(policy.conditions, e, claim)
    decreases n
  {
    if n > 0 {
      RecordKeepsParts(policy, evidence, n - 1, claim);
      assert policy.conditions[..n][..n - 1] == policy.conditions[..n - 1];
      RecordForKeeps(policy, RecordedOver(policy, evidence, policy.conditions[..n - 1], claim), policy.conditions[n - 1], claim);
    }
  }

  lemma RecordKeepsValid(policy: Policy, evidence: seq<Evidence>, owner: Owner, view: View)
    requires PolicyOk(policy) && Valid(policy, evidence)
    requires view.outcome.Some? ==> view.outcome.value.epoch.worldId == policy.worldId && 0 < view.outcome.value.worldSeq <= WIRE
    ensures Valid(policy, Recorded(policy, evidence, owner, view))
  {
    if policy.hostEvidence && ClaimOf(owner, view).Some? {
      var claim := ClaimOf(owner, view).value;
      var kept := Kept(evidence, claim.epoch, true);
      KeptIsValid(evidence, claim.epoch, true);
      forall i | 0 <= i < |kept| ensures WellFormed(policy, kept[i]) { assert kept[i] in kept; }
      assert policy.conditions[..|policy.conditions|] == policy.conditions;
      RecordKeepsParts(policy, kept, |policy.conditions|, claim);
      SizeBounded(policy, Recorded(policy, evidence, owner, view));
    }
  }

  // ---------------------------------------------------------------- nothing is missed

  /** A fact condition that holds in the observation is recorded. */
  lemma {:induction false} FactsAreComplete(conditions: seq<Condition>, o: Observation, i: nat)
    requires i < |conditions| && conditions[i].kind == Fact && conditions[i].id in o.holding
    ensures Evidence(conditions[i].id, Fact, o.epoch, o.sequence, None) in FactsOf(conditions, o)
    decreases |conditions|
  {
    if i < |conditions| - 1 { FactsAreComplete(conditions[..|conditions| - 1], o, i); }
  }

  /** The operation is recorded under the condition, or the condition has all it needs. */
  predicate Credited(policy: Policy, evidence: seq<Evidence>, id: Id, operationId: Id) {
    Counted(evidence, id, operationId) || CountFor(evidence, id) >= Required(policy, id)
  }

  lemma RecordedForGrows(policy: Policy, evidence: seq<Evidence>, c: Condition, claim: Claim, id: Id)
    requires Credited(policy, evidence, id, claim.operationId)
    ensures Credited(policy, RecordedFor(policy, evidence, c, claim), id, claim.operationId)
  {
    var e := Evidence(c.id, Outcome, claim.epoch, claim.worldSeq, Some(claim.operationId));
    CountAppend(evidence, e, id);
    CountedOneMore(evidence, e, id, claim.operationId);
  }

  lemma RecordedForCredits(policy: Policy, evidence: seq<Evidence>, c: Condition, claim: Claim)
    requires Serves(c, claim)
    ensures Credited(policy, RecordedFor(policy, evidence, c, claim), c.id, claim.operationId)
  {
    CountedOneMore(evidence, Evidence(c.id, Outcome, claim.epoch, claim.worldSeq, Some(claim.operationId)), c.id, claim.operationId);
  }

  /** A confirmed operation is credited to every condition it serves. */
  lemma {:induction false} RecordIsComplete(policy: Policy, evidence: seq<Evidence>, conditions: seq<Condition>, claim: Claim, i: nat)
    requires i < |conditions| && Serves(conditions[i], claim)
    ensures Credited(policy, RecordedOver(policy, evidence, conditions, claim), conditions[i].id, claim.operationId)
    decreases |conditions|
  {
    var before := RecordedOver(policy, evidence, conditions[..|conditions| - 1], claim);
    if i < |conditions| - 1 {
      RecordIsComplete(policy, evidence, conditions[..|conditions| - 1], claim, i);
      RecordedForGrows(policy, before, conditions[|conditions| - 1], claim, conditions[i].id);
    } else {
      RecordedForCredits(policy, before, conditions[i], claim);
    }
  }

  // ---------------------------------------------------------------- soundness over a whole history

  datatype Input = Observed(observation: Observation) | Ended(owner: Owner, view: View)

  function Run(policy: Policy, inputs: seq<Input>): seq<Evidence>
    decreases |inputs|
  {
    if inputs == [] then []
    else
      var evidence := Run(policy, inputs[..|inputs| - 1]);
      match inputs[|inputs| - 1]
      case Observed(o) => Refreshed(policy, evidence, o)
      case Ended(owner, view) => Recorded(policy, evidence, owner, view)
  }

  /** Every observation and result names the task's world and a representable sequence. */
  predicate InputsOk(policy: Policy, inputs: seq<Input>) {
    forall i :: 0 <= i < |inputs| ==>
      match inputs[i]
      case Observed(o) => o.epoch.worldId == policy.worldId && 0 < o.sequence <= WIRE
      case Ended(_, view) =>
        view.outcome.Some? ==> view.outcome.value.epoch.worldId == policy.worldId && 0 < view.outcome.value.worldSeq <= WIRE
  }

  /** Some confirmed success of the operation, in that epoch, served the condition. */
  predicate SucceededFor(policy: Policy, inputs: seq<Input>, id: Id, operationId: Id, epoch: Epoch) {
    exists i :: 0 <= i < |inputs| && inputs[i].Ended? && Proves(policy, inputs[i].owner, inputs[i].view, id, operationId, epoch)
  }

  /** A success of the operation, confirmed and owned as the source demands, that meets the condition. */
  predicate Proves(policy: Policy, owner: Owner, view: View, id: Id, operationId: Id, epoch: Epoch) {
    && view.operationId == operationId && view.executionConfirmed
    && view.outcome.Some? && view.outcome.value.succeeded && view.outcome.value.epoch == epoch && owner.leaseEpoch == epoch
    && (owner.pendingOp == Some(operationId) || owner.macroOp == Some(operationId))
    && RequestOf(owner, view).Some? && RequestOf(owner, view).value.taskId == owner.taskId
    && exists k :: 0 <= k < |policy.conditions| && policy.conditions[k].id == id
         && Meets(policy.conditions[k], RequestOf(owner, view).value, view)
  }

  predicate Meets(c: Condition, request: Request, view: View) {
    c.kind == Outcome && c.capability == Some(request.capability) && c.id in request.arguments && c.id in view.targets
  }

  function Latest(inputs: seq<Input>): Option<Observation>
    decreases |inputs|
  {
    if inputs == [] then None
    else match inputs[|inputs| - 1]
      case Observed(o) => Some(o)
      case Ended(_, _) => Latest(inputs[..|inputs| - 1])
  }

  predicate HoldsNow(inputs: seq<Input>, id: Id, epoch: Epoch) {
    Latest(inputs).Some? && Latest(inputs).value.epoch == epoch && id in Latest(inputs).value.holding
  }

  /** What each record stands for. */
  predicate Grounded(policy: Policy, inputs: seq<Input>, e: Evidence) {
    if e.kind == Fact then HoldsNow(inputs, e.conditionId, e.epoch)
    else e.operationId.Some? && SucceededFor(policy, inputs, e.conditionId, e.operationId.value, e.epoch)
  }

  ghost predicate AllGrounded(policy: Policy, inputs: seq<Input>) {
    forall e :: e in Run(policy, inputs) ==> Grounded(policy, inputs, e)
  }

  lemma StillSucceeded(policy: Policy, inputs: seq<Input>, n: nat, id: Id, operationId: Id, epoch: Epoch)
    requires n <= |inputs| && SucceededFor(policy, inputs[..n], id, operationId, epoch)
    ensures SucceededFor(policy, inputs, id, operationId, epoch)
  {
    var i :| 0 <= i < n && inputs[..n][i].Ended? && Proves(policy, inputs[..n][i].owner, inputs[..n][i].view, id, operationId, epoch);
    assert inputs[i] == inputs[..n][i];
  }

  lemma {:induction false} RunIsValid(policy: Policy, inputs: seq<Input>)
    requires PolicyOk(policy) && InputsOk(policy, inputs)
    ensures Valid(policy, Run(policy, inputs))
    decreases |inputs|
  {
    if inputs != [] {
      RunIsValid(policy, inputs[..|inputs| - 1]);
      match inputs[|inputs| - 1]
      case Observed(o) => RefreshKeepsValid(policy, Run(policy, inputs[..|inputs| - 1]), o);
      case Ended(owner, view) => RecordKeepsValid(policy, Run(policy, inputs[..|inputs| - 1]), owner, view);
    }
  }

  lemma {:induction false} RunIsGrounded(policy: Policy, inputs: seq<Input>)
    requires PolicyOk(policy) && policy.hostEvidence && InputsOk(policy, inputs)
    ensures AllGrounded(policy, inputs)
    decreases |inputs|
  {
    if inputs != [] {
      var before := inputs[..|inputs| - 1];
      RunIsGrounded(policy, before);
      RunIsValid(policy, before);
      match inputs[|inputs| - 1]
      case Observed(o) => RefreshGrounds(policy, inputs, o);
      case Ended(owner, view) => RecordGrounds(policy, inputs, owner, view);
    }
  }

  lemma RefreshGrounds(policy: Policy, inputs: seq<Input>, o: Observation)
    requires PolicyOk(policy) && policy.hostEvidence && InputsOk(policy, inputs)
    requires inputs != [] && inputs[|inputs| - 1] == Observed(o)
    requires Valid(policy, Run(policy, inputs[..|inputs| - 1]))
    requires AllGrounded(policy, inputs[..|inputs| - 1])
    ensures AllGrounded(policy, inputs)
  {
    var evidence := Run(policy, inputs[..|inputs| - 1]);
    KeptIsValid(evidence, o.epoch, false);
    assert policy.conditions[..|policy.conditions|] == policy.conditions;
    FactsAreValid(policy, o);
    forall e | e in Run(policy, inputs) ensures Grounded(policy, inputs, e) {
      if e in Kept(evidence, o.epoch, false) {
        StillSucceeded(policy, inputs, |inputs| - 1, e.conditionId, e.operationId.value, e.epoch);
      } else {
        var i :| 0 <= i < |FactsOf(policy.conditions, o)| && FactsOf(policy.conditions, o)[i] == e;
      }
    }
  }

  lemma RecordGrounds(policy: Policy, inputs: seq<Input>, owner: Owner, view: View)
    requires PolicyOk(policy) && policy.hostEvidence && InputsOk(policy, inputs)
    requires inputs != [] && inputs[|inputs| - 1] == Ended(owner, view)
    requires Valid(policy, Run(policy, inputs[..|inputs| - 1]))
    requires AllGrounded(policy, inputs[..|inputs| - 1])
    ensures AllGrounded(policy, inputs)
  {
    var evidence := Run(policy, inputs[..|inputs| - 1]);
    if ClaimOf(owner, view).Some? { ClaimGrounds(policy, inputs, owner, view, ClaimOf(owner, view).value); }
    forall e | ClaimOf(owner, view).None? && e in Run(policy, inputs) ensures Grounded(policy, inputs, e) {
      assert e in evidence && Grounded(policy, inputs[..|inputs| - 1], e);
      if e.kind == Outcome { StillSucceeded(policy, inputs, |inputs| - 1, e.conditionId, e.operationId.value, e.epoch); }
    }
  }

  /** What is recorded for the claim was proved by the view it came from. */
  lemma EarnedProves(policy: Policy, owner: Owner, view: View, claim: Claim, e: Evidence)
    requires ClaimOf(owner, view) == Some(claim) && Earned(policy.conditions, e, claim)
    ensures Proves(policy, owner, view, e.conditionId, claim.operationId, claim.epoch)
  {
    var k :| 0 <= k < |policy.conditions| && policy.conditions[k].id == e.conditionId && Serves(policy.conditions[k], claim);
    assert Meets(policy.conditions[k], RequestOf(owner, view).value, view);
  }

  lemma ClaimGrounds(policy: Policy, inputs: seq<Input>, owner: Owner, view: View, claim: Claim)
    requires PolicyOk(policy) && policy.hostEvidence && InputsOk(policy, inputs)
    requires inputs != [] && inputs[|inputs| - 1] == Ended(owner, view) && ClaimOf(owner, view) == Some(claim)
    requires Valid(policy, Run(policy, inputs[..|inputs| - 1]))
    requires AllGrounded(policy, inputs[..|inputs| - 1])
    ensures AllGrounded(policy, inputs)
  {
    var evidence := Run(policy, inputs[..|inputs| - 1]);
    KeptIsValid(evidence, claim.epoch, true);
    var kept := Kept(evidence, claim.epoch, true);
    forall i | 0 <= i < |kept| ensures WellFormed(policy, kept[i]) { assert kept[i] in kept; }
    assert policy.conditions[..|policy.conditions|] == policy.conditions;
    RecordKeepsParts(policy, kept, |policy.conditions|, claim);
    forall e | e in Run(policy, inputs) ensures Grounded(policy, inputs, e) {
      if e in evidence {
        if e.kind == Outcome { StillSucceeded(policy, inputs, |inputs| - 1, e.conditionId, e.operationId.value, e.epoch); }
      } else {
        EarnedProves(policy, owner, view, claim, e);
        assert Proves(policy, owner, view, e.conditionId, claim.operationId, claim.epoch);
      }
    }
  }

  // ---------------------------------------------------------------- satisfaction

  predicate CountsFor(e: Evidence, c: Condition, epoch: Epoch) {
    e.conditionId == c.id && e.kind == c.kind && e.epoch == epoch
  }

  function CountNow(evidence: seq<Evidence>, c: Condition, epoch: Epoch): nat
    decreases |evidence|
  {
    if evidence == [] then 0
    else
      var last := evidence[|evidence| - 1];
      CountNow(evidence[..|evidence| - 1], c, epoch)
      + if CountsFor(last, c, epoch) then 1 else 0
  }

  predicate Satisfied(policy: Policy, evidence: seq<Evidence>, epoch: Epoch) {
    && policy.hostEvidence && policy.conditions != []
    && forall i :: 0 <= i < |policy.conditions| ==>
         CountNow(evidence, policy.conditions[i], epoch) >= Required(policy, policy.conditions[i].id)
  }

  /** The distinct operations that the counted records of an outcome condition name. */
  function OperationsOf(evidence: seq<Evidence>, c: Condition, epoch: Epoch): set<Id> {
    set i | 0 <= i < |evidence| && CountsFor(evidence[i], c, epoch) && evidence[i].operationId.Some? :: evidence[i].operationId.value
  }

  lemma OperationsOfOneMore(evidence: seq<Evidence>, e: Evidence, c: Condition, epoch: Epoch)
    ensures OperationsOf(evidence + [e], c, epoch)
            == OperationsOf(evidence, c, epoch)
               + if CountsFor(e, c, epoch) && e.operationId.Some? then {e.operationId.value} else {}
  {
    var longer := evidence + [e];
    forall op ensures op in OperationsOf(longer, c, epoch) <==>
      op in OperationsOf(evidence, c, epoch) || (CountsFor(e, c, epoch) && e.operationId == Some(op))
    {
      if op in OperationsOf(evidence, c, epoch) {
        var i :| 0 <= i < |evidence| && CountsFor(evidence[i], c, epoch) && evidence[i].operationId == Some(op);
        assert longer[i] == evidence[i];
      }
      if CountsFor(e, c, epoch) && e.operationId == Some(op) { assert longer[|evidence|] == e; }
    }
  }

  lemma {:induction false} DistinctlyCounted(policy: Policy, evidence: seq<Evidence>, c: Condition, epoch: Epoch)
    requires Distinct(evidence) && c.kind == Outcome
    requires forall i :: 0 <= i < |evidence| ==> WellFormed(policy, evidence[i])
    ensures |OperationsOf(evidence, c, epoch)| == CountNow(evidence, c, epoch)
    decreases |evidence|
  {
    if evidence != [] {
      var before, last := evidence[..|evidence| - 1], evidence[|evidence| - 1];
      DistinctlyCounted(policy, before, c, epoch);
      assert evidence == before + [last];
      OperationsOfOneMore(before, last, c, epoch);
      if CountsFor(last, c, epoch) { assert last.operationId.value !in OperationsOf(before, c, epoch); }
    }
  }

  lemma {:induction false} CountedExists(evidence: seq<Evidence>, c: Condition, epoch: Epoch)
    requires CountNow(evidence, c, epoch) > 0
    ensures exists i :: 0 <= i < |evidence| && CountsFor(evidence[i], c, epoch)
    decreases |evidence|
  {
    var last := evidence[|evidence| - 1];
    if !CountsFor(last, c, epoch) {
      CountedExists(evidence[..|evidence| - 1], c, epoch);
      var i :| 0 <= i < |evidence| - 1 && CountsFor(evidence[..|evidence| - 1][i], c, epoch);
      assert evidence[i] == evidence[..|evidence| - 1][i];
    }
  }

  /**
    A satisfied policy is sound: after any history, each outcome condition has
    its required number of distinct operations that succeeded in that epoch, and
    each fact condition holds in the latest observation, made in that epoch.
   */
  lemma SatisfactionIsSound(policy: Policy, inputs: seq<Input>, epoch: Epoch, i: nat)
    requires PolicyOk(policy) && InputsOk(policy, inputs) && Satisfied(policy, Run(policy, inputs), epoch)
    requires i < |policy.conditions|
    ensures policy.conditions[i].kind == Outcome ==>
              exists operations: set<Id> :: |operations| >= Required(policy, policy.conditions[i].id)
                && forall op :: op in operations ==> SucceededFor(policy, inputs, policy.conditions[i].id, op, epoch)
    ensures policy.conditions[i].kind == Fact ==> HoldsNow(inputs, policy.conditions[i].id, epoch)
  {
    var c, evidence := policy.conditions[i], Run(policy, inputs);
    RunIsValid(policy, inputs);
    RunIsGrounded(policy, inputs);
    if c.kind == Outcome {
      DistinctlyCounted(policy, evidence, c, epoch);
      forall op | op in OperationsOf(evidence, c, epoch) ensures SucceededFor(policy, inputs, c.id, op, epoch) {
        var j :| 0 <= j < |evidence| && CountsFor(evidence[j], c, epoch) && evidence[j].operationId == Some(op);
        assert evidence[j] in evidence;
      }
    } else {
      RequiredBounded(policy.requirements, c.id);
      CountedExists(evidence, c, epoch);
      var j :| 0 <= j < |evidence| && CountsFor(evidence[j], c, epoch);
      assert evidence[j] in evidence;
    }
  }

  // ---------------------------------------------------------------- the updates as they run

  class CompletionLog {
    const policy: Policy
    var evidence: seq<Evidence>

    constructor (policy: Policy)
      ensures this.policy == policy && evidence == []
    {
      this.policy := policy;
      evidence := [];
    }

    method DeleteOthers(epoch: Epoch, facts: bool)
      modifies this
      ensures evidence == Kept(old(evidence), epoch, facts)
    {
      var kept: seq<Evidence> := [];
      for i := 0 to |evidence|
        invariant evidence == old(evidence)
        invariant kept == Kept(evidence[..i], epoch, facts)
      {
        assert evidence[..i + 1][..i] == evidence[..i];
        if evidence[i].epoch == epoch && (facts || evidence[i].kind == Outcome) {
          kept := kept + [evidence[i]];
        }
      }
      assert evidence[..|evidence|] == evidence;
      evidence := kept;
    }

    /** A new observation replaces the facts and drops the outcomes of other epochs. */
    method RefreshFacts(o: Observation)
      modifies this
      ensures evidence == Refreshed(policy, old(evidence), o)
    {
      if !policy.hostEvidence {
        return;
      }
      DeleteOthers(o.epoch, false);
      ghost var kept := evidence;
      ghost var facts: seq<Evidence> := [];
      for i := 0 to |policy.conditions|
        invariant evidence == kept + facts && facts == FactsOf(policy.conditions[..i], o)
      {
        var c := policy.conditions[i];
        FactsOneMore(policy.conditions, i, o);
        facts := facts + FactEvidence(c, o);
        if c.kind == Fact && c.id in o.holding {
          evidence := evidence + [Evidence(c.id, Fact, o.epoch, o.sequence, None)];
        }
      }
      assert policy.conditions[..|policy.conditions|] == policy.conditions;
    }

    /** An ended operation counts once for each condition it serves, up to the required number. */
    method RecordOutcome(owner: Owner, view: View)
      modifies this
      ensures evidence == Recorded(policy, old(evidence), owner, view)
    {
      if !policy.hostEvidence || !view.executionConfirmed || view.outcome.None? || !view.outcome.value.succeeded
         || view.outcome.value.epoch != owner.leaseEpoch
         || (Some(view.operationId) != owner.pendingOp && Some(view.operationId) != owner.macroOp)
      {
        return;
      }
      var request := if view.request.Some? then view.request else owner.pendingAction;
      if request.None? || request.value.taskId != owner.taskId {
        return;
      }
      var claim := Claim(view.operationId, view.outcome.value.epoch, view.outcome.value.worldSeq, request.value.capability,
                         request.value.arguments * view.targets);
      DeleteOthers(claim.epoch, true);
      ghost var kept := evidence;
      for i := 0 to |policy.conditions|
        invariant evidence == RecordedOver(policy, kept, policy.conditions[..i], claim)
      {
        assert policy.conditions[..i + 1][..i] == policy.conditions[..i];
        RecordFor(policy.conditions[i], claim);
      }
      assert policy.conditions[..|policy.conditions|] == policy.conditions;
    }

    method RecordFor(c: Condition, claim: Claim)
      modifies this
      ensures evidence == RecordedFor(policy, old(evidence), c, claim)
    {
      if !Serves(c, claim) {
        return;
      }
      var count, duplicate := 0, false;
      for i := 0 to |evidence|
        invariant evidence == old(evidence)
        invariant count == CountFor(evidence[..i], c.id)
        invariant duplicate <==> Counted(evidence[..i], c.id, claim.operationId)
      {
        var e := evidence[i];
        assert evidence[..i + 1][..i] == evidence[..i] && evidence[..i + 1][i] == e;
        CountedOneMore(evidence[..i], e, c.id, claim.operationId);
        assert evidence[..i + 1] == evidence[..i] + [e];
        if e.conditionId == c.id {
          count := count + 1;
          duplicate := duplicate || e.operationId == Some(claim.operationId);
        }
      }
      assert evidence[..|evidence|] == evidence;
      if !duplicate && count < Required(policy, c.id) {
        evidence := evidence + [Evidence(c.id, Outcome, claim.epoch, claim.worldSeq, Some(claim.operationId))];
      }
    }
  }

  lemma FactsOneMore(conditions: seq<Condition>, n: nat, o: Observation)
    requires n < |conditions|
    ensures FactsOf(conditions[..n + 1], o) == FactsOf(conditions[..n], o) + FactEvidence(conditions[n], o)
  {
    assert conditions[..n + 1][..n] == conditions[..n];
  }

  lemma CountedOneMore(evidence: seq<Evidence>, e: Evidence, id: Id, operationId: Id)
    ensures Counted(evidence + [e], id, operationId)
            <==> Counted(evidence, id, operationId) || (e.conditionId == id && e.operationId == Some(operationId))
  {
    if Counted(evidence, id, operationId) {
      var i :| 0 <= i < |evidence| && evidence[i].conditionId == id && evidence[i].operationId == Some(operationId);
      assert (evidence + [e])[i] == evidence[i];
    }
    if e.conditionId == id && e.operationId == Some(operationId) { assert (evidence + [e])[|evidence|] == e; }
  }
}
