// The YAML snapshot format of the ichimi-persistence crate
// (crates/ichimi-persistence/src/yaml/mod.rs): snapshot construction, the
// auto-start-only variant, the version check, and the conversions between
// stored records and snapshot entries. YAML text itself is produced by
// serde, which is outside this model.

module YamlSnapshot {
  import opened Common
  import P = PersistTypes

  const SNAPSHOT_VERSION: string := "1.0"

  datatype StateSnapshot =
    | NotStarted
    | Running(pid: U32, started_at: Timestamp)
    | Stopped(exit_code: Option<I32>, stopped_at: Timestamp)
    | Failed(error: string, failed_at: Timestamp)

  datatype ProcessSnapshot = ProcessSnapshot(
    id: string,
    name: string,
    command: string,
    args: seq<string>,
    env: map<string, string>,
    cwd: Option<string>,
    auto_start_on_restore: bool,
    state: StateSnapshot,
    tags: seq<string>)

  datatype SnapshotMetadata = SnapshotMetadata(
    ichimi_version: string,
    total_processes: nat,
    auto_start_processes: nat,
    hostname: Option<string>,
    description: Option<string>)

  datatype Snapshot = Snapshot(
    version: string,
    timestamp: Timestamp,
    metadata: SnapshotMetadata,
    processes: seq<ProcessSnapshot>)

  function AutoStart(): ProcessSnapshot -> bool
  {
    (p: ProcessSnapshot) => p.auto_start_on_restore
  }

  /// `Snapshot::new`; the clock, the host name and the crate version are
  /// parameters. The counters describe the list it is given.
  function NewSnapshot(processes: seq<ProcessSnapshot>, now: Timestamp, hostname: Option<string>,
                       crateVersion: string): (s: Snapshot)
    ensures s.version == SNAPSHOT_VERSION && s.processes == processes && s.timestamp == now
    ensures s.metadata.total_processes == |processes|
    ensures s.metadata.auto_start_processes == |Kept(processes, AutoStart())|
    ensures s.metadata.hostname == hostname && s.metadata.description.None?
    ensures s.metadata.ichimi_version == crateVersion
  {
    Snapshot(SNAPSHOT_VERSION, now, SnapshotMetadata(crateVersion, |processes|, |Kept(processes, AutoStart())|,
                                                      hostname, None), processes)
  }

  /// `Snapshot::new_auto_start_only`: exactly the flagged processes, in
  /// their original order, so every entry counts as auto-start.
  function NewAutoStartOnly(processes: seq<ProcessSnapshot>, now: Timestamp, hostname: Option<string>,
                            crateVersion: string): (s: Snapshot)
    ensures s.processes == Kept(processes, AutoStart())
    ensures SubsequenceOf(s.processes, processes)
    ensures forall p :: p in s.processes <==> p in processes && p.auto_start_on_restore
    ensures s.metadata.auto_start_processes == s.metadata.total_processes == |s.processes|
    ensures |s.processes| <= |processes|
  {
    var kept := Kept(processes, AutoStart());
    KeptMembers(processes, AutoStart());
    KeptMembers(kept, AutoStart());
    KeptSubsequence(processes, AutoStart());
    NewSnapshot(kept, now, hostname, crateVersion)
  }

  /// `Snapshot::is_compatible`.
  predicate IsCompatible(s: Snapshot)
  {
    s.version == SNAPSHOT_VERSION
  }

  lemma NewSnapshotCompatible(processes: seq<ProcessSnapshot>, now: Timestamp, hostname: Option<string>,
                              crateVersion: string)
    ensures IsCompatible(NewSnapshot(processes, now, hostname, crateVersion))
    ensures forall s: Snapshot :: IsCompatible(s) <==> s.version == "1.0"
  {
  }

  /// `From<&ProcessStatus> for ProcessStateSnapshot`: a state whose
  /// required fields are missing falls back to NotStarted.
  function FromStatus(status: P.ProcessStatus): (r: StateSnapshot)
    ensures r.Running? <==> status.state == P.Running && status.pid.Some? && status.started_at.Some?
    ensures r.Stopped? <==> status.state == P.Stopped && status.stopped_at.Some?
    ensures r.Failed? <==> status.state == P.Failed && status.error.Some? && status.stopped_at.Some?
    ensures r.Running? ==> r.pid == status.pid.value && r.started_at == status.started_at.value
    ensures r.Stopped? ==> r.exit_code == status.exit_code && r.stopped_at == status.stopped_at.value
    ensures r.Failed? ==> r.error == status.error.value && r.failed_at == status.stopped_at.value
  {
    match status.state
    case NotStarted => NotStarted
    case Running =>
      if status.pid.Some? && status.started_at.Some? then Running(status.pid.value, status.started_at.value)
      else NotStarted
    case Stopped =>
      if status.stopped_at.Some? then Stopped(status.exit_code, status.stopped_at.value) else NotStarted
    case Failed =>
      if status.error.Some? && status.stopped_at.Some? then Failed(status.error.value, status.stopped_at.value)
      else NotStarted
  }

  /// `ProcessStateSnapshot::to_process_status`: only a running state
  /// carries a pid and a start time, only a failed one an error, and the
  /// snapshot state comes back unchanged from the status.
  function ToStatus(s: StateSnapshot): (r: P.ProcessStatus)
    ensures FromStatus(r) == s
    ensures s.NotStarted? ==> r == P.DefaultStatus()
    ensures r.pid.Some? <==> s.Running?
    ensures r.started_at.Some? <==> s.Running?
    ensures r.exit_code.Some? ==> s.Stopped?
    ensures r.error.Some? <==> s.Failed?
  {
    match s
    case NotStarted => P.ProcessStatus(P.NotStarted, None, None, None, None, None)
    case Running(pid, at) => P.ProcessStatus(P.Running, Some(pid), None, Some(at), None, None)
    case Stopped(code, at) => P.ProcessStatus(P.Stopped, None, code, None, Some(at), None)
    case Failed(e, at) => P.ProcessStatus(P.Failed, None, None, None, Some(at), Some(e))
  }

  /// A status that does not take the NotStarted fallback keeps its state
  /// kind through a snapshot, and a running one keeps its pid and start
  /// time; a stopped one loses its start time and a failed one its exit code.
  lemma StatusRoundTrip(status: P.ProcessStatus)
    ensures FromStatus(status).NotStarted? ==> ToStatus(FromStatus(status)) == P.DefaultStatus()
    ensures !FromStatus(status).NotStarted? ==> ToStatus(FromStatus(status)).state == status.state
    ensures FromStatus(status).Running? ==>
      ToStatus(FromStatus(status)) == status.(exit_code := None, stopped_at := None, error := None)
    ensures FromStatus(status).Stopped? ==>
      ToStatus(FromStatus(status)) == status.(pid := None, started_at := None, error := None)
    ensures FromStatus(status).Failed? ==>
      ToStatus(FromStatus(status)) == status.(pid := None, exit_code := None, started_at := None)
  {
  }

  /// `From<&ProcessInfo> for ProcessSnapshot`.
  function FromInfo(info: P.ProcessInfo): (r: ProcessSnapshot)
    ensures r.id == info.process_id && r.name == info.name && r.command == info.command
    ensures r.args == info.args && r.env == info.env && r.cwd == info.cwd && r.tags == info.tags
    ensures r.auto_start_on_restore == info.auto_start_on_restore
    ensures r.state == FromStatus(info.status)
  {
    ProcessSnapshot(info.process_id, info.name, info.command, info.args, info.env, info.cwd,
                    info.auto_start_on_restore, FromStatus(info.status), info.tags)
  }

  /// `ProcessSnapshot::to_process_info`; the record id is left for the
  /// database to assign and both timestamps are the current time.
  function ToInfo(s: ProcessSnapshot, now: Timestamp): (r: P.ProcessInfo)
    ensures r.id.None? && r.process_id == s.id && r.name == s.name && r.command == s.command
    ensures r.args == s.args && r.env == s.env && r.cwd == s.cwd && r.tags == s.tags
    ensures r.auto_start_on_restore == s.auto_start_on_restore
    ensures r.status == ToStatus(s.state) && r.created_at == r.updated_at == now
  {
    P.ProcessInfo(None, s.id, s.name, s.command, s.args, s.env, s.cwd, ToStatus(s.state), now, now,
                  s.tags, s.auto_start_on_restore)
  }

  /// Exporting a record and importing it back keeps everything that
  /// identifies and configures the process; only the record id, the
  /// timestamps and the status payload the snapshot drops can differ.
  lemma InfoRoundTrip(info: P.ProcessInfo, now: Timestamp)
    ensures ToInfo(FromInfo(info), now) == info.(id := None, created_at := now, updated_at := now,
                                                status := ToStatus(FromStatus(info.status)))
  {
  }

  /// Importing an entry and exporting it again gives the same entry.
  lemma SnapshotRoundTrip(s: ProcessSnapshot, now: Timestamp)
    ensures FromInfo(ToInfo(s, now)) == s
  {
  }
}
