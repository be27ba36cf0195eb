// The default lifecycle queries of the `Process` interface
// (crates/ichimi/src/process/protocol.rs): each looks only at the state.

module ProcessProtocol {
  import opened ProcessTypes

  predicate IsRunning(info: ProcessInfo) { info.state.Running? }
  predicate IsStopped(info: ProcessInfo) { info.state.Stopped? }
  predicate IsFailed(info: ProcessInfo) { info.state.Failed? }
  predicate IsNotStarted(info: ProcessInfo) { info.state == NotStarted }

  function Flag(b: bool): nat { if b then 1 else 0 }

  /// Every process is in exactly one of the four lifecycle phases.
  lemma ExactlyOnePhase(info: ProcessInfo)
    ensures Flag(IsRunning(info)) + Flag(IsStopped(info)) + Flag(IsFailed(info)) + Flag(IsNotStarted(info)) == 1
  {
    match info.state
    case NotStarted =>
    case Running(_, _) =>
    case Stopped(_, _) =>
    case Failed(_, _) =>
  }

  /// The queries see the state and nothing else: two records with the same
  /// state answer alike, whatever their other fields.
  lemma PhaseDependsOnlyOnState(a: ProcessInfo, b: ProcessInfo)
    requires a.state == b.state
    ensures IsRunning(a) == IsRunning(b) && IsStopped(a) == IsStopped(b)
    ensures IsFailed(a) == IsFailed(b) && IsNotStarted(a) == IsNotStarted(b)
  {
  }

  /// is_running ignores the pid and start time it carries.
  lemma RunningWhateverPayload(info: ProcessInfo, pid: Common.U32, at: Common.Timestamp)
    ensures IsRunning(info.(state := Running(pid, at)))
    ensures !IsStopped(info.(state := Running(pid, at)))
  {
  }
}
