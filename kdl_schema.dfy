// The root crate's KDL configuration schema (src/persistence/kdl_schema.rs):
// the file's root, its meta block, one process entry per process, and the
// conversions between a process entry and the process record of
// src/process/types.rs. The entry keeps the working directory as text, with
// the empty text standing for "none", and carries no environment.

module KdlSchema {
  import opened Common
  import PT = ProcessTypes

  /// The process record of src/process/types.rs, with its single
  /// `auto_start` flag.
  datatype ProcessInfo = ProcessInfo(
    id: string,
    command: string,
    args: seq<string>,
    env: map<string, string>,
    cwd: Option<string>,
    state: PT.ProcessState,
    auto_start: bool)

  datatype ConfigMeta = ConfigMeta(version: string)

  datatype ProcessConfig = ProcessConfig(
    id: string,
    command: string,
    args: seq<string>,
    cwd: string,
    auto_start: bool)

  datatype IchimiConfig = IchimiConfig(meta: ConfigMeta, process: seq<ProcessConfig>)

  /// `IchimiConfig::default`: format version 1.0.0 and no processes.
  function DefaultConfig(): (c: IchimiConfig)
    ensures c.meta.version == "1.0.0" && c.process == []
  {
    IchimiConfig(ConfigMeta("1.0.0"), [])
  }

  /// `ProcessConfig::to_process_info`: no environment, PT.NotStarted, and an
  /// empty working directory read as none.
  function ToProcessInfo(c: ProcessConfig): (p: ProcessInfo)
    ensures p.env == map[] && p.state == PT.NotStarted
    ensures p.cwd.None? <==> c.cwd == ""
  {
    ProcessInfo(c.id, c.command, c.args, map[], if c.cwd == "" then None else Some(c.cwd), PT.NotStarted, c.auto_start)
  }

  /// `ProcessConfig::from_process_info`: no working directory is written
  /// as the empty text; converting back keeps id, command, arguments and
  /// the flag, and a non-empty working directory.
  function FromProcessInfo(p: ProcessInfo): (c: ProcessConfig)
    ensures ToProcessInfo(c).id == p.id && ToProcessInfo(c).command == p.command
    ensures ToProcessInfo(c).args == p.args && ToProcessInfo(c).auto_start == p.auto_start
    ensures p.cwd.None? ==> c.cwd == ""
    ensures p.cwd != Some("") ==> ToProcessInfo(c).cwd == p.cwd
  {
    ProcessConfig(p.id, p.command, p.args, if p.cwd.Some? then p.cwd.value else "", p.auto_start)
  }

  /// A process record survives the trip through a configuration entry
  /// exactly when it is PT.NotStarted, has no environment, and its working
  /// directory is not the empty text.
  lemma ProcessInfoRoundTrip(p: ProcessInfo)
    ensures ToProcessInfo(FromProcessInfo(p)) == p <==> p.state == PT.NotStarted && p.env == map[] && p.cwd != Some("")
  {
  }

  /// An entry survives the trip through a process record unchanged.
  lemma ConfigRoundTrip(c: ProcessConfig)
    ensures FromProcessInfo(ToProcessInfo(c)) == c
  {
  }

  /// An explicitly empty working directory comes back as none.
  lemma EmptyCwdLost(p: ProcessInfo)
    requires p.cwd == Some("")
    ensures ToProcessInfo(FromProcessInfo(p)).cwd == None
  {
  }
}
