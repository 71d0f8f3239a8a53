/**
  The task runtime: its table of locks, its store of tasks, and the life of each
  stored task. Starting a task is serialised by the lock of its actor and refused
  while an unfinished task occupies the actor, so an actor never has two.

  Each method is one atomic step of some thread; an interleaving of threads is a
  sequence of calls.
 */
module ActorOccupancy {
  import opened ControlTypes
  import opened TaskTypes
  import opened TaskLocks
  import S = TaskStore
  import A = TaskActions
  import P = TaskActionProofs
  import L = Lookahead

  /** What a thread that starts a task remembers while it holds a handle on the lock of the actor. */
  datatype Starter = Starter(taskId: Id, actor: ActorKey, checked: bool)

  predicate FreeOf(tasks: map<Id, S.Task>, actor: ActorKey, id: Id) {
    id in tasks && tasks[id].actor == actor ==> !S.Occupies(tasks[id])
  }

  /** No unfinished task occupies the actor. */
  ghost predicate Free(tasks: map<Id, S.Task>, actor: ActorKey) {
    forall id {:trigger FreeOf(tasks, actor, id)} :: FreeOf(tasks, actor, id)
  }

  predicate AloneAt(tasks: map<Id, S.Task>, a: Id, b: Id) {
    a in tasks && b in tasks && tasks[a].actor == tasks[b].actor && S.Occupies(tasks[a]) && S.Occupies(tasks[b]) ==> a == b
  }

  ghost predicate Alone(tasks: map<Id, S.Task>) {
    forall a, b {:trigger AloneAt(tasks, a, b)} :: AloneAt(tasks, a, b)
  }

  /** A stored task shows the status that its life has reached. */
  ghost predicate LivesAt(lives: map<Id, A.System>, tasks: map<Id, S.Task>, id: Id) {
    id in lives && id in tasks ==> P.Inv(lives[id]) && tasks[id].status == lives[id].task.status
  }

  ghost predicate Lives(lives: map<Id, A.System>, tasks: map<Id, S.Task>) {
    lives.Keys == tasks.Keys && forall id {:trigger LivesAt(lives, tasks, id)} :: LivesAt(lives, tasks, id)
  }

  /** Tasks may finish or leave once finished; none comes back, moves or appears. */
  predicate SettlesAt(tasks: map<Id, S.Task>, tasks': map<Id, S.Task>, id: Id) {
    id in tasks' && S.Occupies(tasks'[id]) ==> id in tasks && tasks[id].actor == tasks'[id].actor && S.Occupies(tasks[id])
  }

  ghost predicate Settles(tasks: map<Id, S.Task>, tasks': map<Id, S.Task>) {
    forall id {:trigger SettlesAt(tasks, tasks', id)} :: SettlesAt(tasks, tasks', id)
  }

  lemma SettlesKeeps(tasks: map<Id, S.Task>, tasks': map<Id, S.Task>)
    requires Settles(tasks, tasks')
    ensures Alone(tasks) ==> Alone(tasks')
    ensures forall actor :: Free(tasks, actor) ==> Free(tasks', actor)
  {
    forall a, b | Alone(tasks) ensures AloneAt(tasks', a, b) {
      assert AloneAt(tasks, a, b) && SettlesAt(tasks, tasks', a) && SettlesAt(tasks, tasks', b);
    }
    forall actor, id | Free(tasks, actor) ensures FreeOf(tasks', actor, id) {
      assert FreeOf(tasks, actor, id) && SettlesAt(tasks, tasks', id);
    }
  }

  /** A task that joins a free actor is alone there, and leaves other actors as free as they were. */
  lemma JoinsFree(tasks: map<Id, S.Task>, tasks': map<Id, S.Task>, task: S.Task)
    requires Alone(tasks) && Free(tasks, task.actor) && task.taskId !in tasks
    requires task.taskId in tasks' && tasks'[task.taskId] == task && Settles(tasks, tasks' - {task.taskId})
    ensures Alone(tasks')
    ensures forall actor :: actor != task.actor && Free(tasks, actor) ==> Free(tasks', actor)
  {
    var others := tasks' - {task.taskId};
    SettlesKeeps(tasks, others);
    forall a, b ensures AloneAt(tasks', a, b) {
      assert AloneAt(others, a, b) && FreeOf(others, task.actor, a) && FreeOf(others, task.actor, b);
    }
    forall actor, id | actor != task.actor && Free(tasks, actor) ensures FreeOf(tasks', actor, id) {
      assert FreeOf(others, actor, id);
    }
  }

  /** A save of the lookahead path changes no status unless it is a model call or an edit of the task itself. */
  lemma LookaheadKeepsStatus(w: L.Speculation, e: L.Event)
    requires !e.Change? && !e.ModelCall?
    ensures L.Step(w, e).task.status == w.task.status
  {
  }

  /** A life with nothing behind it. */
  function Born(maxActions: nat, archive: bool): A.System {
    A.System(A.Task(Active, false, false, None, None, 0, 0, maxActions, 0, 0), A.Idle, map[], [], {}, archive)
  }

  lemma BornLives(maxActions: nat, archive: bool)
    ensures P.Inv(Born(maxActions, archive))
  {
    P.FreshHolds(Born(maxActions, archive));
  }

  lemma CrashedLives(s: A.System)
    requires P.Inv(s)
    ensures P.Inv(A.Step(s, A.Crash)) && A.Step(s, A.Crash).task.status == s.task.status
  {
    P.StepKeeps(s, A.Crash);
  }

  class Runtime {
    var table: LockTable
    const store: S.LocalTaskStore
    ghost var lives: map<Id, A.System>
    ghost var starters: map<Handle, Starter>

    ghost predicate StarterAt(h: Handle)
      reads this, table, table.live, store
    {
      h in starters ==>
        && h in table.live && h.key == ActorLock(starters[h].actor)
        && (starters[h].checked ==> h.phase == Holding && Free(store.tasks, starters[h].actor))
    }

    ghost predicate Starting()
      reads this, table, table.live, store
    {
      forall h {:trigger StarterAt(h)} :: h in starters ==> StarterAt(h)
    }

    ghost predicate Valid()
      reads this, table, table.live, table.locks.Values, store
    {
      table.Valid() && store.Valid() && Lives(lives, store.tasks) && Alone(store.tasks) && Starting()
    }

    constructor (maxTasks: nat)
      ensures Valid() && store.tasks == map[] && fresh(table) && fresh(store)
    {
      table := new LockTable();
      store := new S.LocalTaskStore(maxTasks);
      lives, starters := map[], map[];
      new;
      forall id ensures LivesAt(lives, store.tasks, id) { }
      forall a, b ensures AloneAt(store.tasks, a, b) { }
    }

    // ---------------------------------------------------------------- locks

    /** Opens a handle on the lock of a task or of an actor. */
    method Open(key: LockKey) returns (h: Handle)
      requires Valid()
      modifies table, table.locks.Values
      ensures Valid() && fresh(h) && h in table.live && h.key == key && h.phase == TaskLocks.Waiting
    {
      h := table.TaskLock(key);
      forall g | g in starters ensures StarterAt(g) { assert old(StarterAt(g)); }
    }

    /** The mutex is granted; the thread waited until it was free. */
    method Take(h: Handle)
      requires Valid() && h in table.live && h.phase == TaskLocks.Waiting && !h.entry.held
      modifies h, h.entry
      ensures Valid() && h.phase == Holding
    {
      table.Lock(h);
      forall g | g in starters ensures StarterAt(g) { assert old(StarterAt(g)); }
    }

    /** Frees the mutex, whatever the thread was doing. */
    method Leave(h: Handle)
      requires Valid() && h in table.live && h.phase == Holding
      modifies this`starters, table, h, h.entry
      ensures Valid() && h !in table.live
    {
      starters := starters - {h};
      table.Unlock(h);
      forall g | g in starters ensures StarterAt(g) { assert old(StarterAt(g)); }
    }

    // ---------------------------------------------------------------- starting a task

    /** A thread that opened the lock of an actor means to start a task there. */
    ghost method Intend(h: Handle, taskId: Id, actor: ActorKey)
      requires Valid() && h in table.live && h.key == ActorLock(actor) && h !in starters
      modifies this`starters
      ensures Valid() && starters == old(starters)[h := Starter(taskId, actor, false)]
    {
      starters := starters[h := Starter(taskId, actor, false)];
      forall g | g in starters ensures StarterAt(g) { if g != h { assert old(StarterAt(g)); } }
    }

    /** Under the lock of the actor: is the identifier unused and the actor free? If not, the thread leaves. */
    method Check(h: Handle, taskId: Id, actor: ActorKey) returns (free: bool)
      requires Valid() && h in starters && starters[h] == Starter(taskId, actor, false) && h.phase == Holding
      modifies this`starters, table, h, h.entry
      ensures Valid()
      ensures free <==> taskId !in store.tasks && Free(store.tasks, actor)
      ensures free ==> h in starters && starters[h] == Starter(taskId, actor, true)
      ensures !free ==> h !in table.live
    {
      assert StarterAt(h);
      free := taskId !in store.tasks;
      if free {
        var existing := store.ActorTasks(actor);
        free := forall id :: id in existing ==> !S.Occupies(store.tasks[id]);
        if free {
          forall id ensures FreeOf(store.tasks, actor, id) { }
        } else {
          var id :| id in existing && S.Occupies(store.tasks[id]);
          assert !FreeOf(store.tasks, actor, id);
        }
      }
      if free {
        starters := starters[h := Starter(taskId, actor, true)];
        forall g | g in starters ensures StarterAt(g) { if g != h { assert old(StarterAt(g)); } }
      } else {
        Leave(h);
      }
    }

    /** Stores the new task, which may make the store give up settled history, and leaves. */
    method Create(h: Handle, task: S.Task, ghost maxActions: nat, ghost archive: bool) returns (outcome: S.Outcome)
      requires Valid() && h in starters && starters[h] == Starter(task.taskId, task.actor, true)
      requires task.status == Active
      modifies this`lives, this`starters, table, store, h, h.entry
      ensures Valid() && h !in table.live
      ensures outcome.Stored? ==> task.taskId in store.tasks && store.tasks[task.taskId] == task.(revision := 1)
      ensures !outcome.Stored? ==> store.tasks == old(store.tasks)
      ensures forall id :: id in old(store.tasks) && S.Occupies(old(store.tasks)[id]) ==>
        id in store.tasks && store.tasks[id] == old(store.tasks)[id]
    {
      assert StarterAt(h);
      starters := starters - {h};
      forall g | g in starters ensures StarterAt(g) && !(starters[g].checked && starters[g].actor == task.actor) {
        assert old(StarterAt(g)) && table.OneHolder(g, h);
      }
      outcome := StoreNew(task, maxActions, archive);
      Leave(h);
    }

    /** No other thread has found the actor free, because none but the caller holds its lock. */
    method StoreNew(task: S.Task, ghost maxActions: nat, ghost archive: bool) returns (outcome: S.Outcome)
      requires Valid() && Free(store.tasks, task.actor) && task.status == Active
      requires forall g :: g in starters ==> !(starters[g].checked && starters[g].actor == task.actor)
      modifies this`lives, store
      ensures Valid()
      ensures outcome.Stored? ==> task.taskId in store.tasks && store.tasks[task.taskId] == task.(revision := 1)
      ensures !outcome.Stored? ==> store.tasks == old(store.tasks)
      ensures forall id :: id in old(store.tasks) && S.Occupies(old(store.tasks)[id]) ==>
        id in store.tasks && store.tasks[id] == old(store.tasks)[id]
    {
      ghost var tasks0 := store.tasks;
      outcome := Admit(task);
      if outcome.Stored? {
        CreatedLives(tasks0, lives, store.tasks, task.(revision := 1), maxActions, archive);
        lives := WithBorn(lives, store.tasks, task.taskId, maxActions, archive);
      }
      forall g | g in starters ensures StarterAt(g) { assert old(StarterAt(g)); }
    }

    method Admit(task: S.Task) returns (outcome: S.Outcome)
      requires store.Valid()
      modifies store
      ensures store.Valid()
      ensures outcome.Stored? ==>
        && task.taskId !in old(store.tasks) && Kept(old(store.tasks), store.tasks, task.taskId)
        && task.taskId in store.tasks && store.tasks[task.taskId] == task.(revision := 1)
      ensures !outcome.Stored? ==> store.tasks == old(store.tasks)
      ensures forall id :: id in old(store.tasks) && S.Occupies(old(store.tasks)[id]) ==>
        id in store.tasks && store.tasks[id] == old(store.tasks)[id]
    {
      outcome := store.Create(task);
    }

    // ---------------------------------------------------------------- saving a task

    /** The record that the thread loaded is still the stored one. */
    predicate Current(expected: nat, next: S.Task)
      reads this, store
    {
      next.taskId in store.tasks && store.tasks[next.taskId].revision == expected
    }

    /**
      A thread saves what one step of the task's life made of the record it had
      loaded; if another save came between, nothing changes.
     */
    method Save(expected: nat, next: S.Task, ghost e: A.Event) returns (outcome: S.Outcome)
      requires Valid()
      requires Current(expected, next) ==>
                 && next.actor == store.tasks[next.taskId].actor
                 && next.status == A.Step(lives[next.taskId], e).task.status
      modifies this`lives, store
      ensures Valid()
      ensures outcome.Stored? ==> store.tasks == old(store.tasks)[next.taskId := outcome.task]
      ensures outcome.Stored? ==>
        next.taskId in old(lives) && lives == old(lives)[next.taskId := A.Step(old(lives)[next.taskId], e)]
      ensures !outcome.Stored? ==> store.tasks == old(store.tasks) && lives == old(lives)
    {
      ghost var tasks0 := store.tasks;
      outcome := store.CompareAndSwap(expected, next);
      if outcome.Stored? {
        SavedLives(tasks0, lives, outcome.task, e);
        SettlesKeeps(tasks0, store.tasks);
        lives := lives[next.taskId := A.Step(lives[next.taskId], e)];
      }
      forall g | g in starters ensures StarterAt(g) { assert old(StarterAt(g)); }
    }

    /**
      The speculative job and its recovery save without changing the status of the
      task; a model call or an edit of the task is a step of its life.
     */
    method SaveLookahead(expected: nat, next: S.Task, ghost w: L.Speculation, ghost e: L.Event) returns (outcome: S.Outcome)
      requires Valid() && !e.Change? && !e.ModelCall?
      requires Current(expected, next) ==>
                 && next.actor == store.tasks[next.taskId].actor && w.task.status == store.tasks[next.taskId].status
                 && next.status == L.Step(w, e).task.status
      modifies store
      ensures Valid()
      ensures outcome.Stored? ==> store.tasks == old(store.tasks)[next.taskId := outcome.task]
      ensures !outcome.Stored? ==> store.tasks == old(store.tasks)
    {
      ghost var tasks0 := store.tasks;
      assert LivesAt(lives, tasks0, next.taskId);
      outcome := store.CompareAndSwap(expected, next);
      if outcome.Stored? {
        LookaheadKeepsStatus(w, e);
        forall id ensures LivesAt(lives, store.tasks, id) { assert LivesAt(lives, tasks0, id); }
        forall id ensures SettlesAt(tasks0, store.tasks, id) { }
        SettlesKeeps(tasks0, store.tasks);
      }
      forall g | g in starters ensures StarterAt(g) { assert old(StarterAt(g)); }
    }

    /** The gateway or a thread goes on without a save, or with one that was lost. */
    ghost method Elapse(id: Id, e: A.Event)
      requires Valid() && id in lives && A.Step(lives[id], e).task == lives[id].task
      modifies this`lives
      ensures Valid() && lives == old(lives)[id := A.Step(old(lives)[id], e)]
    {
      assert LivesAt(lives, store.tasks, id);
      P.StepKeeps(lives[id], e);
      lives := lives[id := A.Step(lives[id], e)];
      forall other ensures LivesAt(lives, store.tasks, other) { assert LivesAt(old(lives), store.tasks, other); }
      forall g | g in starters ensures StarterAt(g) { assert old(StarterAt(g)); }
    }

    /** The process dies: its locks and its threads are gone, the stored tasks are not. */
    method Crash()
      requires Valid()
      modifies this
      ensures Valid() && starters == map[] && table.locks == map[] && store.tasks == old(store.tasks)
    {
      table := new LockTable();
      starters := map[];
      forall id | id in lives ensures P.Inv(A.Step(lives[id], A.Crash)) {
        assert LivesAt(lives, store.tasks, id);
        CrashedLives(lives[id]);
      }
      lives := map id | id in lives :: A.Step(lives[id], A.Crash);
      forall id ensures LivesAt(lives, store.tasks, id) {
        assert LivesAt(old(lives), store.tasks, id);
        if id in store.tasks { CrashedLives(old(lives)[id]); }
      }
    }
  }

  /** Nothing but the named task is new or different. */
  predicate Kept(tasks: map<Id, S.Task>, tasks': map<Id, S.Task>, taskId: Id) {
    forall id :: id in tasks' && id != taskId ==> id in tasks && tasks'[id] == tasks[id]
  }

  function WithBorn(
    lives: map<Id, A.System>, tasks: map<Id, S.Task>, taskId: Id, maxActions: nat, archive: bool): map<Id, A.System>
  {
    (map id | id in lives && id in tasks :: lives[id])[taskId := Born(maxActions, archive)]
  }

  /** One step of a task's life finishes it or leaves it as unfinished as it was. */
  lemma SavedLives(tasks: map<Id, S.Task>, lives: map<Id, A.System>, task: S.Task, e: A.Event)
    requires Lives(lives, tasks) && task.taskId in tasks && task.actor == tasks[task.taskId].actor
    requires task.status == A.Step(lives[task.taskId], e).task.status
    ensures Lives(lives[task.taskId := A.Step(lives[task.taskId], e)], tasks[task.taskId := task])
    ensures Settles(tasks, tasks[task.taskId := task])
  {
    var life := lives[task.taskId];
    assert LivesAt(lives, tasks, task.taskId);
    P.StepKeeps(life, e);
    if TerminalTask(life.task.status) { P.TerminalStays(life, e); }
    var lives', tasks' := lives[task.taskId := A.Step(life, e)], tasks[task.taskId := task];
    forall id ensures LivesAt(lives', tasks', id) { assert LivesAt(lives, tasks, id); }
    forall id ensures SettlesAt(tasks, tasks', id) { }
  }

  lemma CreatedLives(
    tasks: map<Id, S.Task>, lives: map<Id, A.System>, tasks': map<Id, S.Task>, task: S.Task, maxActions: nat, archive: bool)
    requires Lives(lives, tasks) && Alone(tasks) && Free(tasks, task.actor) && task.taskId !in tasks && task.status == Active
    requires task.taskId in tasks' && tasks'[task.taskId] == task
    requires Kept(tasks, tasks', task.taskId)
    ensures Lives(WithBorn(lives, tasks', task.taskId, maxActions, archive), tasks') && Alone(tasks')
    ensures forall actor :: actor != task.actor && Free(tasks, actor) ==> Free(tasks', actor)
  {
    var lives' := WithBorn(lives, tasks', task.taskId, maxActions, archive);
    BornLives(maxActions, archive);
    forall id ensures LivesAt(lives', tasks', id) { assert LivesAt(lives, tasks, id); }
    forall id ensures SettlesAt(tasks, tasks' - {task.taskId}, id) { }
    JoinsFree(tasks, tasks', task);
  }

  /** Whatever the threads, the store and the crashes did, an actor has at most one unfinished task. */
  lemma OneTaskPerActor(runtime: Runtime, a: Id, b: Id)
    requires runtime.Valid()
    requires a in runtime.store.tasks && b in runtime.store.tasks && runtime.store.tasks[a].actor == runtime.store.tasks[b].actor
    requires S.Occupies(runtime.store.tasks[a]) && S.Occupies(runtime.store.tasks[b])
    ensures a == b
  {
    assert AloneAt(runtime.store.tasks, a, b);
  }

  /** Two threads that found the same actor free are the same thread. */
  lemma OneStarterPerActor(runtime: Runtime, g: Handle, h: Handle)
    requires runtime.Valid() && g in runtime.starters && h in runtime.starters
    requires runtime.starters[g].checked && runtime.starters[h].checked && runtime.starters[g].actor == runtime.starters[h].actor
    ensures g == h
  {
    assert runtime.StarterAt(g) && runtime.StarterAt(h);
    OneHolderPerKey(runtime.table, g, h);
  }
}
