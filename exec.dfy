/**
 * What `child_process.exec` hands its callback: the process error (reduced
 * to its `message`) if the command failed, and the captured output streams.
 * Running the command is outside the model; its outcome is an input.
 */
module Exec {
  import opened Wrappers

  datatype ExecOutcome = ExecOutcome(error: Option<string>, stdout: string, stderr: string)

  /** The guard `error && !stdout` shared by the search and lint executors. */
  predicate FailedWithoutOutput(run: ExecOutcome) {
    run.error.Some? && run.stdout == ""
  }
}
