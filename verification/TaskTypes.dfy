/**
  Values shared by the parts of the agent task runtime.
 */
module TaskTypes {
  datatype TaskStatus = Active | Waiting | Paused | Cancelling | Unknown | Completed | Failed | Cancelled

  predicate TerminalTask(status: TaskStatus) {
    status in {Completed, Failed, Cancelled}
  }

  /** What became of one compare-and-swap; `Ambiguous` committed but reported an error. */
  datatype Save = Saved | Lost | Ambiguous
}
