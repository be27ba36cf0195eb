// The process vocabulary shared by the process-manager crates: the
// four-state lifecycle, the output stream selector and the list filter.

module ProcessTypes {
  import opened Common

  datatype ProcessState =
    | NotStarted
    | Running(pid: U32, started_at: Timestamp)
    | Stopped(exit_code: Option<I32>, stopped_at: Timestamp)
    | Failed(error: string, failed_at: Timestamp)

  datatype OutputStream = Stdout | Stderr | Both

  datatype ProcessStateFilter = RunningOnly | StoppedOnly | FailedOnly | All

  datatype ProcessFilter = ProcessFilter(state: Option<ProcessStateFilter>, name_pattern: Option<string>)

  /// The record the `crates/ichimi` process code keeps per process.
  datatype ProcessInfo = ProcessInfo(
    id: string,
    command: string,
    args: seq<string>,
    env: map<string, string>,
    cwd: Option<string>,
    state: ProcessState,
    auto_start_on_restore: bool)
}
