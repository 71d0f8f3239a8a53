/**
  The cycle check of a restore: a walk up the parents of every record that
  remembers the records it has already cleared.
 */
module ParentGraph {
  import opened ControlTypes
  import OperationRecord
  import ControlPlane

  /** Each record of the path is the child of the next, and the last one the child of `next`. */
  ghost predicate Climbs(ops: map<Id, OperationRecord.Operation>, path: seq<Id>, next: Option<Id>) {
    forall i {:trigger ClimbsAt(ops, path, next, i)} :: ClimbsAt(ops, path, next, i)
  }

  ghost predicate ClimbsAt(ops: map<Id, OperationRecord.Operation>, path: seq<Id>, next: Option<Id>, i: int) {
    0 <= i < |path| ==>
      path[i] in ops && ops[path[i]].request.parent == (if i + 1 < |path| then Some(path[i + 1]) else next)
  }

  /** No parent cycle touches the records. */
  ghost predicate Clear(ops: map<Id, OperationRecord.Operation>, ids: set<Id>) {
    forall cycle: set<Id> {:trigger ControlPlane.ParentClosed(ops, cycle)} :: ControlPlane.ParentClosed(ops, cycle) ==> cycle !! ids
  }

  /** A cycle that contains a record of a climb contains everything above it. */
  lemma {:induction false} CycleFollowsPath(
    ops: map<Id, OperationRecord.Operation>, path: seq<Id>, next: Option<Id>, cycle: set<Id>, i: nat)
    requires Climbs(ops, path, next) && ControlPlane.ParentClosed(ops, cycle) && i < |path| && path[i] in cycle
    ensures next.Some? && next.value in cycle
    decreases |path| - i
  {
    assert ControlPlane.ParentWithin(ops, cycle, path[i]) && ClimbsAt(ops, path, next, i);
    if i + 1 < |path| { CycleFollowsPath(ops, path, next, cycle, i + 1); }
  }

  /** Climbing back onto the path closes a cycle. */
  lemma RevisitIsCycle(ops: map<Id, OperationRecord.Operation>, path: seq<Id>, k: nat)
    requires k < |path| && Climbs(ops, path, Some(path[k]))
    ensures ControlPlane.HasCycle(ops)
  {
    var ids := set i | k <= i < |path| :: path[i];
    assert path[k] in ids;
    forall id ensures ControlPlane.ParentWithin(ops, ids, id) {
      if id in ids {
        var i :| k <= i < |path| && path[i] == id;
        assert ClimbsAt(ops, path, Some(path[k]), i);
        assert i + 1 < |path| ==> path[i + 1] in ids;
      }
    }
    assert ControlPlane.ParentClosed(ops, ids);
  }

  /** A climb that leaves the pool, or meets cleared records, clears everything it passed. */
  lemma ClimbClears(ops: map<Id, OperationRecord.Operation>, path: seq<Id>, next: Option<Id>, cleared: set<Id>)
    requires Climbs(ops, path, next) && Clear(ops, cleared)
    requires next.None? || next.value in cleared || next.value !in ops
    ensures Clear(ops, cleared + (set id | id in path) + if next.Some? then {next.value} else {})
  {
    forall cycle: set<Id> | ControlPlane.ParentClosed(ops, cycle)
      ensures cycle !! cleared + (set id | id in path) + if next.Some? then {next.value} else {}
    {
      if next.Some? { assert ControlPlane.ParentWithin(ops, cycle, next.value); }
      forall i | 0 <= i < |path| ensures path[i] !in cycle {
        if path[i] in cycle { CycleFollowsPath(ops, path, next, cycle, i); }
      }
    }
  }

  lemma ClimbHigher(ops: map<Id, OperationRecord.Operation>, path: seq<Id>, id: Id)
    requires Climbs(ops, path, Some(id)) && id in ops
    ensures Climbs(ops, path + [id], ops[id].request.parent)
  {
    forall i ensures ClimbsAt(ops, path + [id], ops[id].request.parent, i) { assert ClimbsAt(ops, path, Some(id), i); }
  }

  lemma AllClearMeansAcyclic(ops: map<Id, OperationRecord.Operation>, complete: set<Id>)
    requires Clear(ops, complete) && ops.Keys <= complete
    ensures !ControlPlane.HasCycle(ops)
  {
    forall cycle: set<Id> ensures !ControlPlane.ParentClosed(ops, cycle) {
      if id :| id in cycle { assert ControlPlane.ParentClosed(ops, cycle) ==> ControlPlane.ParentWithin(ops, cycle, id); }
    }
  }

  /** The check errs exactly when some set of records runs in a parent cycle. */
  method ValidateParentGraph(ops: map<Id, OperationRecord.Operation>) returns (ok: bool)
    ensures ok <==> !ControlPlane.HasCycle(ops)
  {
    var complete: set<Id> := {};
    var remaining := ops.Keys;
    while remaining != {}
      invariant ops.Keys <= complete + remaining
      invariant Clear(ops, complete)
    {
      var id :| id in remaining;
      var chain: set<Id> := {};
      ghost var path: seq<Id> := [];
      var current := Some(id);
      var left := false;
      while !left && current.Some? && current.value !in complete
        invariant left ==> current.Some? && current.value !in ops
        invariant forall x :: x in chain <==> x in path || (left && x == current.value)
        invariant Climbs(ops, path, current)
        invariant id in chain || current == Some(id)
        decreases !left, |ops.Keys - chain|
      {
        if current.value in chain {
          ghost var k :| 0 <= k < |path| && path[k] == current.value;
          RevisitIsCycle(ops, path, k);
          return false;
        }
        ghost var before := chain;
        chain := chain + {current.value};
        if current.value !in ops {
          left := true;
        } else {
          assert ops.Keys - before == (ops.Keys - chain) + {current.value};
          ClimbHigher(ops, path, current.value);
          path := path + [current.value];
          current := ops[current.value].request.parent;
        }
      }
      ClimbClears(ops, path, current, complete);
      complete := complete + chain;
      remaining := remaining - {id};
    }
    AllClearMeansAcyclic(ops, complete);
    return true;
  }
}
