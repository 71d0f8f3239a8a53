/**
  The lookahead of one task as the runtime executes it: a stored task with a
  revision, a job that is changed in place, and a settlement that retries its
  compare-and-swap while edits that bypass the task lock keep landing.
 */
module LookaheadRuntime {
  import opened ControlTypes
  import TaskTypes
  import opened Lookahead
  import LookaheadProofs

  /** Edits that commit one after the other. */
  function Landed(w: Speculation, edits: seq<Edit>): Speculation
    decreases |edits|
  {
    if edits == [] then w
    else Step(Landed(w, edits[..|edits| - 1]), Change(edits[|edits| - 1], TaskTypes.Saved))
  }

  lemma {:induction false} LandedKeeps(w: Speculation, edits: seq<Edit>)
    requires LookaheadProofs.Inv(w) && w.holder == Free && w.job.Some? && !w.job.value.finished
    ensures LookaheadProofs.Inv(Landed(w, edits)) && Landed(w, edits).holder == Free
    ensures Landed(w, edits).job.Some? && !Landed(w, edits).job.value.finished
    ensures Landed(w, edits).log == w.log && Landed(w, edits).job.value == w.job.value.(invalid := Landed(w, edits).job.value.invalid)
    decreases |edits|
  {
    if edits != [] {
      LandedKeeps(w, edits[..|edits| - 1]);
      LookaheadProofs.StepKeeps(Landed(w, edits[..|edits| - 1]), Change(edits[|edits| - 1], TaskTypes.Saved));
    }
  }

  /** Guarding a settlement that will not commit finds the job already marked by the edit that disturbed it. */
  lemma GuardedAlready(w: Speculation, reported: Option<nat>, succeeded: bool, live: bool, now: int)
    requires LookaheadProofs.Inv(w) && w.job.Some? && !w.job.value.finished && w.task.look.Some?
    ensures GuardJob(Settled(w.task, w.job.value, reported, succeeded, live, now), w.job) == w.job
  {
    LookaheadProofs.SettledAccounts(w.task, w.job.value, reported, succeeded, live, now);
  }

  class LookaheadJob {
    var task: Task
    var revision: nat
    var job: Option<Job>
    var locked: bool
    ghost var log: seq<Entry>

    ghost function View(): Speculation
      reads this
    {
      Speculation(task, job, if locked then Runner(true) else Free, log)
    }

    /** One edit that bypasses the task lock. */
    method Land(edit: Edit)
      modifies this`task, this`revision, this`job
      ensures View() == Step(old(View()), Change(edit, TaskTypes.Saved))
      ensures revision == old(revision) + (if Writable(GuardTask(Edited(old(task), edit), old(job))) then 1 else 0)
    {
      var edited := GuardTask(Edited(task, edit), job);
      GuardLookaheadSave(Edited(task, edit));
      if Writable(edited) {
        task, revision := edited, revision + 1;
      }
      assert log + [] == log;
    }

    /** What a save does to the job before it is attempted. */
    method GuardLookaheadSave(candidate: Task)
      modifies this`job
      ensures job == GuardJob(candidate, old(job))
    {
      if candidate.look.None? || job.None? || job.value.op != candidate.look.value.op {
        return;
      }
      if Disturbed(candidate, job.value) {
        if job.value.finished {
          job := None;
        } else {
          job := Some(job.value.(invalid := true));
        }
      }
    }

    /**
      Settles a finished job. While edits land between the load and the
      compare-and-swap the settlement is computed anew; what finally commits is
      one settlement of the task that they left behind.
     */
    method FinishLookahead(
      reported: Option<nat>, succeeded: bool, live: bool, now: int, edits: seq<Edit>, save: TaskTypes.Save)
      returns (landed: nat)
      requires LookaheadProofs.Inv(View()) && !locked && job.Some? && !job.value.finished
      modifies this
      ensures landed <= |edits|
      ensures View() == FinishStep(Landed(old(View()), edits[..landed]), reported, succeeded, live, now, true, save)
      ensures landed < |edits| ==>
                var met := Landed(old(View()), edits[..landed]);
                met.task.look.None? || met.task.look.value.op != old(job).value.op
    {
      landed := 0;
      ghost var before := View();
      while true
        invariant 0 <= landed <= |edits| && !locked
        invariant View() == Landed(before, edits[..landed])
        decreases |edits| - landed
      {
        LandedKeeps(before, edits[..landed]);
        var loaded, loadedRevision := task, revision;
        if loaded.look.None? || loaded.look.value.op != job.value.op {
          job := None;
          return;
        }
        var settled := Settled(loaded, job.value, reported, succeeded, live, now);
        if landed < |edits| {
          GuardedAlready(View(), reported, succeeded, live, now);
          GuardLookaheadSave(settled);
          assert edits[..landed + 1][..landed] == edits[..landed];
          Land(edits[landed]);
          landed := landed + 1;
        } else {
          Commit(loaded, loadedRevision, settled, SettleEntries(loaded, reported), save);
          return;
        }
      }
    }

    /** The last attempt: one guarded compare-and-swap, then the job is kept with its draft or dropped. */
    method Commit(loaded: Task, loadedRevision: nat, settled: Task, ghost entries: seq<Entry>, save: TaskTypes.Save)
      requires settled.look.Some? && loaded == task && loadedRevision == revision && job.Some?
      modifies this
      ensures var saved := SaveTask(old(View()), settled, entries, save);
              var ready := settled.look.value.phase == Ready && Reports(GuardTask(settled, old(job)), save);
              View() == saved.(job := if ready && saved.job.Some? && !saved.job.value.invalid
                                      then Some(saved.job.value.(finished := true)) else None)
    {
      var guarded := GuardTask(settled, job);
      GuardLookaheadSave(settled);
      if Commits(guarded, save) && revision == loadedRevision {
        log := log + entries;
        task, revision := guarded, revision + 1;
      }
      var ready := settled.look.value.phase == Ready && Reports(guarded, save);
      job := if ready && job.Some? && !job.value.invalid then Some(job.value.(finished := true)) else None;
    }
  }
}
