/**
  The local task store: the stored tasks, the indexes derived from them, and the
  retirement of settled history when the store is full.
 */
module TaskStore {
  import opened ControlTypes
  import TaskTypes

  datatype Task = Task(
    taskId: Id, revision: nat, actor: ActorKey, status: TaskTypes.TaskStatus, scheduleOp: Option<Id>, pendingOp: Option<Id>,
    macroOp: Option<Id>, pendingAction: bool, learning: bool, updatedAt: int, body: Id)

  datatype IndexKey = HostKey(hostId: Id) | WorldKey(host: Id, worldId: Id) | ActorIndexKey(actor: ActorKey) | OperationKey(opId: Id)

  datatype Change = Change(op: Option<Id>, hostId: Option<Id>, worldId: Option<Id>, actorId: Option<Id>)

  datatype Filter = Filter(all: bool, taskIds: seq<Id>, changes: seq<Change>)

  /** The task still occupies its actor. */
  predicate Occupies(task: Task) {
    !TaskTypes.TerminalTask(task.status)
  }

  /** Settled history that the store may give up. */
  predicate Retirable(task: Task) {
    !Occupies(task) && !task.pendingAction && task.macroOp.None? && !task.learning
  }

  predicate Older(a: Task, b: Task) {
    a.updatedAt < b.updatedAt || (a.updatedAt == b.updatedAt && a.taskId < b.taskId)
  }

  function OperationKeys(ids: seq<Option<Id>>): seq<IndexKey> {
    if ids == [] then []
    else (if ids[0].Some? then [OperationKey(ids[0].value)] else []) + OperationKeys(ids[1..])
  }

  function SchedulingKeys(task: Task): seq<IndexKey> {
    if !Occupies(task) then []
    else [HostKey(task.actor.hostId), WorldKey(task.actor.hostId, task.actor.worldId), ActorIndexKey(task.actor)]
         + OperationKeys([task.scheduleOp, task.pendingOp, task.macroOp])
  }

  lemma {:induction false} KeysOfOperations(ids: seq<Option<Id>>, key: IndexKey)
    ensures key in OperationKeys(ids) <==> key.OperationKey? && Some(key.opId) in ids
  {
    if ids != [] {
      KeysOfOperations(ids[1..], key);
      assert ids == [ids[0]] + ids[1..];
    }
  }

  // ---------------------------------------------------------------- what a selection means

  /** The change concerns the task: by an operation it names, or by the Host, world or actor it runs on. */
  predicate Concerns(change: Change, task: Task) {
    || (change.op.Some? && change.op in [task.scheduleOp, task.pendingOp, task.macroOp])
    || (change.hostId == Some(task.actor.hostId)
        && (change.worldId.None?
            || (change.worldId == Some(task.actor.worldId)
                && (change.actorId.None? || change.actorId == Some(task.actor.actorId)))))
  }

  predicate Matches(filter: Filter, task: Task) {
    || filter.all
    || task.taskId in filter.taskIds
    || exists i :: 0 <= i < |filter.changes| && Concerns(filter.changes[i], task)
  }

  /** The scan that every selection must equal: unfinished tasks that match. */
  function Scan(tasks: map<Id, Task>, filter: Filter): set<Id> {
    set id | id in tasks && Occupies(tasks[id]) && Matches(filter, tasks[id])
  }

  /** The index keys a change looks up. */
  function ChangeKeys(change: Change): seq<IndexKey> {
    (if change.op.Some? then [OperationKey(change.op.value)] else [])
    + (if change.hostId.None? then []
       else if change.worldId.None? then [HostKey(change.hostId.value)]
       else if change.actorId.None? then [WorldKey(change.hostId.value, change.worldId.value)]
       else [ActorIndexKey(ActorKey(change.hostId.value, change.worldId.value, change.actorId.value))])
  }

  lemma ChangeKeysFind(change: Change, task: Task)
    requires Occupies(task)
    ensures Concerns(change, task) <==> exists key :: key in ChangeKeys(change) && key in SchedulingKeys(task)
  {
    forall key ensures key in SchedulingKeys(task) <==>
      || key in [HostKey(task.actor.hostId), WorldKey(task.actor.hostId, task.actor.worldId), ActorIndexKey(task.actor)]
      || (key.OperationKey? && Some(key.opId) in [task.scheduleOp, task.pendingOp, task.macroOp])
    {
      KeysOfOperations([task.scheduleOp, task.pendingOp, task.macroOp], key);
    }
    if Concerns(change, task) {
      if change.op.Some? && change.op in [task.scheduleOp, task.pendingOp, task.macroOp] {
        assert OperationKey(change.op.value) in ChangeKeys(change);
      } else if change.worldId.None? {
        assert HostKey(task.actor.hostId) in ChangeKeys(change);
      } else if change.actorId.None? {
        assert WorldKey(task.actor.hostId, task.actor.worldId) in ChangeKeys(change);
      } else {
        assert ActorIndexKey(task.actor) in ChangeKeys(change);
      }
    }
  }

  // ---------------------------------------------------------------- indexes as maps of non-empty sets

  predicate Listed<K(!new)>(index: map<K, set<Id>>, key: K, id: Id) {
    key in index && id in index[key]
  }

  ghost predicate NoEmptyEntry<K(!new)>(index: map<K, set<Id>>) {
    forall key :: key in index ==> index[key] != {}
  }

  function Added<K>(index: map<K, set<Id>>, key: K, id: Id): map<K, set<Id>> {
    index[key := (if key in index then index[key] else {}) + {id}]
  }

  function Removed<K>(index: map<K, set<Id>>, key: K, id: Id): map<K, set<Id>> {
    if key !in index then index
    else if index[key] - {id} == {} then index - {key}
    else index[key := index[key] - {id}]
  }

  /** The index lists exactly the scheduling keys of the stored tasks. */
  ghost predicate ScheduleAt(index: map<IndexKey, set<Id>>, tasks: map<Id, Task>, key: IndexKey, id: Id) {
    Listed(index, key, id) <==> id in tasks && key in SchedulingKeys(tasks[id])
  }

  ghost predicate ScheduleIs(index: map<IndexKey, set<Id>>, tasks: map<Id, Task>) {
    NoEmptyEntry(index) && forall key, id {:trigger ScheduleAt(index, tasks, key, id)} :: ScheduleAt(index, tasks, key, id)
  }

  ghost predicate ActorAt(index: map<ActorKey, set<Id>>, tasks: map<Id, Task>, key: ActorKey, id: Id) {
    Listed(index, key, id) <==> id in tasks && tasks[id].actor == key
  }

  ghost predicate ActorsAre(index: map<ActorKey, set<Id>>, tasks: map<Id, Task>) {
    NoEmptyEntry(index) && forall key, id {:trigger ActorAt(index, tasks, key, id)} :: ActorAt(index, tasks, key, id)
  }

  function ActiveOf(tasks: map<Id, Task>): set<Id> {
    set id | id in tasks && Occupies(tasks[id])
  }

  ghost predicate Sealed(tasks: map<Id, Task>) {
    forall id :: id in tasks ==> tasks[id].taskId == id && tasks[id].revision > 0
  }

  datatype Outcome = Stored(task: Task) | Conflicting | Missing | Full | Malformed

  class LocalTaskStore {
    const maxTasks: nat
    var revision: nat
    var tasks: map<Id, Task>
    var active: set<Id>
    var actors: map<ActorKey, set<Id>>
    var scheduleIndex: map<IndexKey, set<Id>>
    var retired: Option<Id>

    /** Every derived index equals what a scan of the tasks would give, and the store is within its capacity. */
    ghost predicate Valid()
      reads this
    {
      && Sealed(tasks) && |tasks| <= maxTasks
      && active == ActiveOf(tasks) && ActorsAre(actors, tasks) && ScheduleIs(scheduleIndex, tasks)
    }

    constructor (maxTasks: nat)
      ensures Valid() && tasks == map[] && revision == 1 && this.maxTasks == maxTasks && retired == None
    {
      this.maxTasks := maxTasks;
      revision, tasks, active, actors, scheduleIndex, retired := 1, map[], {}, map[], map[], None;
      new;
      forall key, id ensures ActorAt(actors, tasks, key, id) { }
      forall key, id ensures ScheduleAt(scheduleIndex, tasks, key, id) { }
    }

    // ---------------------------------------------------------------- index maintenance

    method AddSchedulingIndex(task: Task)
      modifies this`scheduleIndex
      ensures forall key, id {:trigger Listed(scheduleIndex, key, id)} ::
        Listed(scheduleIndex, key, id) <==>
        Listed(old(scheduleIndex), key, id) || (id == task.taskId && key in SchedulingKeys(task))
      ensures NoEmptyEntry(old(scheduleIndex)) ==> NoEmptyEntry(scheduleIndex)
    {
      var keys := SchedulingKeys(task);
      for i := 0 to |keys|
        invariant forall key, id {:trigger Listed(scheduleIndex, key, id)} ::
          Listed(scheduleIndex, key, id) <==>
          Listed(old(scheduleIndex), key, id) || (id == task.taskId && key in keys[..i])
        invariant NoEmptyEntry(old(scheduleIndex)) ==> NoEmptyEntry(scheduleIndex)
      {
        assert keys[..i + 1] == keys[..i] + [keys[i]];
        AddedLists(scheduleIndex, keys[i], task.taskId);
        scheduleIndex := Added(scheduleIndex, keys[i], task.taskId);
      }
      assert keys[..|keys|] == keys;
    }

    method RemoveSchedulingIndex(task: Task)
      modifies this`scheduleIndex
      ensures forall key, id {:trigger Listed(scheduleIndex, key, id)} ::
        Listed(scheduleIndex, key, id) <==>
        Listed(old(scheduleIndex), key, id) && !(id == task.taskId && key in SchedulingKeys(task))
      ensures NoEmptyEntry(old(scheduleIndex)) ==> NoEmptyEntry(scheduleIndex)
    {
      var keys := SchedulingKeys(task);
      for i := 0 to |keys|
        invariant forall key, id {:trigger Listed(scheduleIndex, key, id)} ::
          Listed(scheduleIndex, key, id) <==>
          Listed(old(scheduleIndex), key, id) && !(id == task.taskId && key in keys[..i])
        invariant NoEmptyEntry(old(scheduleIndex)) ==> NoEmptyEntry(scheduleIndex)
      {
        assert keys[..i + 1] == keys[..i] + [keys[i]];
        RemovedLists(scheduleIndex, keys[i], task.taskId);
        scheduleIndex := Removed(scheduleIndex, keys[i], task.taskId);
      }
      assert keys[..|keys|] == keys;
    }

    /** Lists a stored task under its keys, its actor and, while unfinished, as active. */
    method IndexTask(task: Task)
      modifies this`scheduleIndex, this`active, this`actors
      ensures forall key, id {:trigger Listed(scheduleIndex, key, id)} ::
        Listed(scheduleIndex, key, id) <==>
        Listed(old(scheduleIndex), key, id) || (id == task.taskId && key in SchedulingKeys(task))
      ensures forall key, id {:trigger Listed(actors, key, id)} ::
        Listed(actors, key, id) <==> Listed(old(actors), key, id) || (id == task.taskId && key == task.actor)
      ensures NoEmptyEntry(old(scheduleIndex)) ==> NoEmptyEntry(scheduleIndex)
      ensures NoEmptyEntry(old(actors)) ==> NoEmptyEntry(actors)
      ensures active == if Occupies(task) then old(active) + {task.taskId} else old(active) - {task.taskId}
    {
      AddSchedulingIndex(task);
      active := if Occupies(task) then active + {task.taskId} else active - {task.taskId};
      AddedLists(actors, task.actor, task.taskId);
      actors := Added(actors, task.actor, task.taskId);
    }

    // ---------------------------------------------------------------- retirement

    method OldestRetirable(exclude: Option<Id>) returns (oldest: Option<Id>)
      requires Sealed(tasks)
      ensures oldest.None? ==> forall id :: id in tasks && Some(id) != exclude ==> !Retirable(tasks[id])
      ensures oldest.Some? ==>
        && oldest != exclude && oldest.value in tasks && Retirable(tasks[oldest.value])
        && forall id :: id in tasks && Some(id) != exclude && Retirable(tasks[id]) ==> !Older(tasks[id], tasks[oldest.value])
    {
      oldest := None;
      var remaining := tasks.Keys;
      while remaining != {}
        invariant remaining <= tasks.Keys
        invariant oldest.None? ==>
          forall id :: id in tasks && id !in remaining && Some(id) != exclude ==> !Retirable(tasks[id])
        invariant oldest.Some? ==>
          && oldest != exclude && oldest.value in tasks && Retirable(tasks[oldest.value])
          && forall id :: id in tasks && id !in remaining && Some(id) != exclude && Retirable(tasks[id])
               ==> !Older(tasks[id], tasks[oldest.value])
      {
        var id :| id in remaining;
        if Some(id) != exclude && Retirable(tasks[id])
           && (oldest.None? || Older(tasks[id], tasks[oldest.value]))
        {
          oldest := Some(id);
        }
        remaining := remaining - {id};
      }
    }

    /** Gives up the oldest settled task, if there is one; an unfinished task never leaves. */
    method RetireTask(exclude: Option<Id>) returns (ok: bool)
      requires Valid()
      modifies this`tasks, this`active, this`actors, this`scheduleIndex, this`retired
      ensures Valid()
      ensures ok <==> exists id :: id in old(tasks) && Some(id) != exclude && Retirable(old(tasks)[id])
      ensures !ok ==> tasks == old(tasks) && retired == old(retired)
      ensures ok ==>
        && retired.Some? && retired != exclude && retired.value in old(tasks) && Retirable(old(tasks)[retired.value])
        && tasks == old(tasks) - {retired.value}
        && forall id :: id in old(tasks) && Some(id) != exclude && Retirable(old(tasks)[id])
             ==> !Older(old(tasks)[id], old(tasks)[retired.value])
    {
      var oldest := OldestRetirable(exclude);
      if oldest.None? {
        return false;
      }
      var id, task := oldest.value, tasks[oldest.value];
      ghost var tasks0, actors0, index0 := tasks, actors, scheduleIndex;
      RemoveSchedulingIndex(task);
      tasks, retired, active := tasks - {id}, Some(id), active - {id};
      RemovedLists(actors, task.actor, id);
      actors := Removed(actors, task.actor, id);
      assert |tasks.Keys| <= |tasks0.Keys|;
      forall key, other ensures ActorAt(actors, tasks, key, other) { assert ActorAt(actors0, tasks0, key, other); }
      forall key, other ensures ScheduleAt(scheduleIndex, tasks, key, other) {
        assert ScheduleAt(index0, tasks0, key, other);
        assert Listed(scheduleIndex, key, other) <==>
               Listed(index0, key, other) && !(other == task.taskId && key in SchedulingKeys(task));
      }
      return true;
    }

    // ---------------------------------------------------------------- changes

    /** Stores a task under an identifier that the indexes do not list yet, and lists it. */
    method Place(task: Task)
      requires Sealed(tasks) && task.taskId !in tasks && task.revision > 0 && |tasks| < maxTasks
      requires active == ActiveOf(tasks) && ActorsAre(actors, tasks) && ScheduleIs(scheduleIndex, tasks)
      modifies this`tasks, this`active, this`actors, this`scheduleIndex
      ensures Valid() && tasks == old(tasks)[task.taskId := task]
    {
      ghost var tasks0, actors0, index0 := tasks, actors, scheduleIndex;
      tasks := tasks[task.taskId := task];
      IndexTask(task);
      PlacedSize(tasks0, task);
      PlacedActive(tasks0, task);
      forall key, id ensures ActorAt(actors, tasks, key, id) {
        assert ActorAt(actors0, tasks0, key, id);
        assert Listed(actors, key, id) <==> Listed(actors0, key, id) || (id == task.taskId && key == task.actor);
      }
      forall key, id ensures ScheduleAt(scheduleIndex, tasks, key, id) {
        assert ScheduleAt(index0, tasks0, key, id);
        assert Listed(scheduleIndex, key, id) <==>
               Listed(index0, key, id) || (id == task.taskId && key in SchedulingKeys(task));
      }
    }

    /** Admits a new task; a full store first gives up its oldest settled task, or refuses. */
    method Create(task: Task) returns (outcome: Outcome)
      requires Valid()
      modifies this
      ensures Valid()
      ensures task.revision != 0 ==> outcome == Malformed
      ensures task.revision == 0 && task.taskId in old(tasks) ==> outcome == Conflicting
      ensures task.revision == 0 && task.taskId !in old(tasks) ==>
        (outcome == Full <==>
           |old(tasks)| >= maxTasks && forall id :: id in old(tasks) ==> !Retirable(old(tasks)[id]))
      ensures outcome.Stored? <==> !outcome.Conflicting? && !outcome.Full? && !outcome.Malformed?
      ensures !outcome.Stored? ==> tasks == old(tasks) && revision == old(revision)
      ensures outcome.Stored? ==>
        && outcome.task == task.(revision := 1) && revision == old(revision) + 1
        && (|old(tasks)| < maxTasks ==> retired == None && tasks == old(tasks)[task.taskId := outcome.task])
        && (|old(tasks)| >= maxTasks ==>
              && retired.Some? && retired.value in old(tasks) && Retirable(old(tasks)[retired.value])
              && (forall id :: id in old(tasks) && Retirable(old(tasks)[id])
                    ==> !Older(old(tasks)[id], old(tasks)[retired.value]))
              && tasks == (old(tasks) - {retired.value})[task.taskId := outcome.task])
      ensures forall id :: id in old(tasks) && Occupies(old(tasks)[id]) ==> id in tasks && tasks[id] == old(tasks)[id]
    {
      if task.revision != 0 {
        return Malformed;
      }
      retired := None;
      if task.taskId in tasks {
        return Conflicting;
      }
      if |tasks| >= maxTasks {
        ghost var full := tasks;
        var ok := RetireTask(None);
        if !ok {
          return Full;
        }
        assert full.Keys == tasks.Keys + {retired.value};
        assert |full.Keys| == |tasks.Keys| + 1;
      }
      var stored := task.(revision := 1);
      Place(stored);
      revision := revision + 1;
      return Stored(stored);
    }

    /** Replaces a task if its stored revision is the expected one. */
    method CompareAndSwap(expected: nat, task: Task) returns (outcome: Outcome)
      requires Valid()
      modifies this
      ensures Valid() && retired == old(retired)
      ensures outcome ==
        if expected == 0 || task.revision != expected then Malformed
        else if task.taskId !in old(tasks) then Missing
        else if old(tasks)[task.taskId].revision != expected then Conflicting
        else Stored(task.(revision := expected + 1))
      ensures outcome.Stored? ==> tasks == old(tasks)[task.taskId := outcome.task] && revision == old(revision) + 1
      ensures !outcome.Stored? ==> tasks == old(tasks) && revision == old(revision)
    {
      if expected == 0 || task.revision != expected {
        return Malformed;
      }
      if task.taskId !in tasks {
        return Missing;
      }
      var current := tasks[task.taskId];
      if current.revision != expected {
        return Conflicting;
      }
      var stored := task.(revision := expected + 1);
      Replace(current, stored);
      revision := revision + 1;
      return Stored(stored);
    }

    /** Moves the index entries of a stored task to its replacement. */
    method Replace(current: Task, stored: Task)
      requires Valid() && stored.taskId in tasks && tasks[stored.taskId] == current && stored.revision > 0
      modifies this`tasks, this`active, this`actors, this`scheduleIndex
      ensures Valid() && tasks == old(tasks)[stored.taskId := stored]
    {
      ghost var tasks0, actors0, index0 := tasks, actors, scheduleIndex;
      RemoveSchedulingIndex(current);
      ghost var index1 := scheduleIndex;
      if current.actor != stored.actor {
        RemovedLists(actors, current.actor, stored.taskId);
        actors := Removed(actors, current.actor, stored.taskId);
      }
      ghost var actors1 := actors;
      tasks := tasks[stored.taskId := stored];
      IndexTask(stored);
      assert tasks.Keys == tasks0.Keys;
      assert |tasks.Keys| == |tasks0.Keys|;
      forall key, id ensures ActorAt(actors, tasks, key, id) {
        assert ActorAt(actors0, tasks0, key, id);
        assert Listed(actors1, key, id) <==>
               Listed(actors0, key, id) && !(current.actor != stored.actor && key == current.actor && id == stored.taskId);
        assert Listed(actors, key, id) <==> Listed(actors1, key, id) || (id == stored.taskId && key == stored.actor);
      }
      forall key, id ensures ScheduleAt(scheduleIndex, tasks, key, id) {
        assert ScheduleAt(index0, tasks0, key, id);
        assert Listed(index1, key, id) <==>
               Listed(index0, key, id) && !(id == current.taskId && key in SchedulingKeys(current));
        assert Listed(scheduleIndex, key, id) <==>
               Listed(index1, key, id) || (id == stored.taskId && key in SchedulingKeys(stored));
      }
    }

    /** Rebuilds the store from a snapshot, whose tasks must be distinct, revised and within capacity. */
    method Restore(snapshot: seq<Task>, snapshotRevision: nat) returns (outcome: Option<Outcome>)
      requires Valid() && tasks == map[]
      modifies this
      ensures Valid()
      ensures outcome.None? <==>
        snapshotRevision > 0 && |snapshot| <= maxTasks && DistinctIds(snapshot)
        && forall i :: 0 <= i < |snapshot| ==> snapshot[i].revision > 0
      ensures outcome.None? ==> revision == snapshotRevision && Holds(tasks, snapshot)
    {
      if snapshotRevision == 0 {
        return Some(Malformed);
      }
      if |snapshot| > maxTasks {
        return Some(Full);
      }
      assert |snapshot[..0]| == 0 && Holds(tasks, snapshot[..0]);
      for i := 0 to |snapshot|
        invariant Valid() && |tasks| <= i
        invariant DistinctIds(snapshot[..i]) && Holds(tasks, snapshot[..i])
        invariant forall j :: 0 <= j < i ==> snapshot[j].revision > 0
      {
        assert snapshot[..i + 1] == snapshot[..i] + [snapshot[i]];
        OneMoreHeld(tasks, snapshot[..i], snapshot[i]);
        if snapshot[i].revision == 0 {
          return Some(Malformed);
        }
        if snapshot[i].taskId in tasks {
          assert !DistinctIds(snapshot[..i + 1]);
          RepeatedPrefix(snapshot, i + 1);
          return Some(Conflicting);
        }
        PlacedSize(tasks, snapshot[i]);
        Place(snapshot[i]);
      }
      assert snapshot[..|snapshot|] == snapshot;
      revision := snapshotRevision;
      return None;
    }

    // ---------------------------------------------------------------- selections

    /** The tasks a scheduler must look at; what the indexes yield is what a scan of every task would. */
    method SchedulingSelection(filter: Filter) returns (ids: set<Id>)
      requires Valid()
      ensures ids == Scan(tasks, filter)
    {
      if filter.all {
        return active;
      }
      ids := {};
      for i := 0 to |filter.taskIds|
        invariant ids == set id | id in active && id in filter.taskIds[..i]
      {
        if filter.taskIds[i] in active {
          ids := ids + {filter.taskIds[i]};
        }
      }
      assert filter.taskIds[..|filter.taskIds|] == filter.taskIds;
      ghost var named := ids;
      for i := 0 to |filter.changes|
        invariant forall id :: id in ids <==>
          id in named || (id in active && exists j :: 0 <= j < i && Concerns(filter.changes[j], tasks[id]))
      {
        var found := Affected(filter.changes[i]);
        ids := ids + found;
      }
    }

    /** The unfinished tasks that one change concerns. */
    method Affected(change: Change) returns (ids: set<Id>)
      requires Valid()
      ensures ids == set id | id in active && Concerns(change, tasks[id])
    {
      ids := {};
      var keys := ChangeKeys(change);
      for i := 0 to |keys|
        invariant forall id :: id in ids <==> exists k :: 0 <= k < i && Listed(scheduleIndex, keys[k], id)
      {
        if keys[i] in scheduleIndex {
          ids := ids + scheduleIndex[keys[i]];
        }
      }
      forall id ensures id in ids <==> id in active && Concerns(change, tasks[id]) {
        if id in ids {
          var k :| 0 <= k < |keys| && Listed(scheduleIndex, keys[k], id);
          assert ScheduleAt(scheduleIndex, tasks, keys[k], id);
          assert keys[k] in SchedulingKeys(tasks[id]);
        }
        if id in active {
          ChangeKeysFind(change, tasks[id]);
          if Concerns(change, tasks[id]) {
            var key :| key in keys && key in SchedulingKeys(tasks[id]);
            assert ScheduleAt(scheduleIndex, tasks, key, id);
          }
        }
      }
    }

    /** The stored tasks of one actor. */
    method ActorTasks(key: ActorKey) returns (ids: set<Id>)
      requires Valid()
      ensures ids == set id | id in tasks && tasks[id].actor == key
    {
      ids := if key in actors then actors[key] else {};
      forall id ensures id in ids <==> id in tasks && tasks[id].actor == key { assert ActorAt(actors, tasks, key, id); }
    }
  }

  predicate DistinctIds(snapshot: seq<Task>) {
    forall i, j :: 0 <= i < j < |snapshot| ==> snapshot[i].taskId != snapshot[j].taskId
  }

  lemma RepeatedPrefix(snapshot: seq<Task>, n: nat)
    requires n <= |snapshot| && !DistinctIds(snapshot[..n])
    ensures !DistinctIds(snapshot)
  {
    var i, j :| 0 <= i < j < n && snapshot[..n][i].taskId == snapshot[..n][j].taskId;
    assert snapshot[i].taskId == snapshot[j].taskId;
  }

  function IdsOf(snapshot: seq<Task>): set<Id> {
    set task | task in snapshot :: task.taskId
  }

  /** The store holds exactly the tasks of the snapshot. */
  predicate Holds(tasks: map<Id, Task>, snapshot: seq<Task>) {
    tasks.Keys == IdsOf(snapshot) && forall task :: task in snapshot ==> task.taskId in tasks && tasks[task.taskId] == task
  }

  lemma OneMoreHeld(tasks: map<Id, Task>, snapshot: seq<Task>, task: Task)
    requires Holds(tasks, snapshot) && DistinctIds(snapshot)
    ensures DistinctIds(snapshot + [task]) <==> task.taskId !in tasks
    ensures task.taskId !in tasks ==> Holds(tasks[task.taskId := task], snapshot + [task])
  {
    assert IdsOf(snapshot + [task]) == IdsOf(snapshot) + {task.taskId};
    if task.taskId in tasks {
      var same :| same in snapshot && same.taskId == task.taskId;
      var i :| 0 <= i < |snapshot| && snapshot[i] == same;
      assert (snapshot + [task])[i] == same && (snapshot + [task])[|snapshot|] == task;
    } else {
      forall i | 0 <= i < |snapshot| ensures snapshot[i].taskId != task.taskId { assert snapshot[i] in snapshot; }
    }
  }

  lemma PlacedSize(tasks: map<Id, Task>, task: Task)
    ensures |tasks[task.taskId := task]| <= |tasks| + 1
  {
    var grown := tasks[task.taskId := task];
    assert grown.Keys == tasks.Keys + {task.taskId};
    GrownSize(tasks, grown, task.taskId);
  }

  lemma PlacedActive(tasks: map<Id, Task>, task: Task)
    ensures ActiveOf(tasks[task.taskId := task])
            == if Occupies(task) then ActiveOf(tasks) + {task.taskId} else ActiveOf(tasks) - {task.taskId}
  {
  }

  lemma AddedLists<K(!new)>(index: map<K, set<Id>>, key: K, id: Id)
    ensures forall k, i {:trigger Listed(Added(index, key, id), k, i)} ::
              Listed(Added(index, key, id), k, i) <==> Listed(index, k, i) || (k == key && i == id)
    ensures NoEmptyEntry(index) ==> NoEmptyEntry(Added(index, key, id))
  {
  }

  lemma RemovedLists<K(!new)>(index: map<K, set<Id>>, key: K, id: Id)
    ensures forall k, i {:trigger Listed(Removed(index, key, id), k, i)} ::
              Listed(Removed(index, key, id), k, i) <==> Listed(index, k, i) && !(k == key && i == id)
    ensures NoEmptyEntry(index) ==> NoEmptyEntry(Removed(index, key, id))
  {
    forall k, i
      ensures Listed(Removed(index, key, id), k, i) <==> Listed(index, k, i) && !(k == key && i == id)
    {
      assert k == key && Listed(index, k, i) && i != id ==> i in index[key] - {id};
    }
  }
}
