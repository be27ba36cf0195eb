// The process registry of the root crate (src/process/manager.rs). It
// differs from the ichimi one in carrying two auto-start flags, starting a
// process right after creating it when asked to, and having no exit-monitor
// task. Operating-system and persistence outcomes are passed in.

module RootManager {
  import opened Common
  import opened ProcessTypes
  import opened OutputBuffer
  import opened ManagerRules
  import Security
  import Shell

  /// The process record as the root crate's registry and persistence use it.
  datatype RootProcessInfo = RootProcessInfo(
    id: string,
    command: string,
    args: seq<string>,
    env: map<string, string>,
    cwd: Option<string>,
    state: ProcessState,
    auto_start_on_create: bool,
    auto_start_on_restore: bool)

  datatype ManagedProcess = ManagedProcess(
    info: RootProcessInfo,
    stdout: seq<string>,
    stderr: seq<string>,
    hasChild: bool,
    hasHandles: bool)

  /// `ManagedProcess::new`.
  function NewManaged(id: string, command: string, args: seq<string>, env: map<string, string>,
                      cwd: Option<string>): (m: ManagedProcess)
    ensures m.info.id == id && m.info.command == command && m.info.args == args
    ensures m.info.env == env && m.info.cwd == cwd && m.info.state == NotStarted
    ensures !m.info.auto_start_on_create && !m.info.auto_start_on_restore
    ensures m.stdout == [] && m.stderr == [] && !m.hasChild && !m.hasHandles
  {
    ManagedProcess(RootProcessInfo(id, command, args, env, cwd, NotStarted, false, false), [], [], false, false)
  }

  /// The entry create_process inserts, before any auto-start.
  function CreatedProcess(id: string, command: string, args: seq<string>, env: map<string, string>,
                          cwd: Option<string>, onCreate: bool, onRestore: bool): ManagedProcess
  {
    var m := NewManaged(id, command, args, env, cwd);
    m.(info := m.info.(auto_start_on_create := onCreate, auto_start_on_restore := onRestore))
  }

  datatype ProcessStatus = ProcessStatus(
    info: RootProcessInfo,
    cpu_usage: Option<real>,
    memory_usage: Option<U64>,
    uptime_seconds: Option<U64>)

  function Uptime(now: Timestamp, started: Timestamp): U64
  {
    (now - started) % (U64_MAX + 1)
  }

  function NotFound(id: string): string
  {
    "Process '" + id + "' not found"
  }

  function StartError(o: Shell.SpawnOutcome): Option<string>
  {
    match o
    case Spawned(_) => None
    case SpawnFailed(e) => Some("Failed to start process: " + e)
    case NoPid => Some("Failed to get process ID")
    case NoStdout => Some("Failed to capture stdout")
    case NoStderr => Some("Failed to capture stderr")
  }

  /// The entry after a successful spawn.
  function Started(p: ManagedProcess, pid: U32, now: Timestamp): ManagedProcess
  {
    p.(info := p.info.(state := Running(pid, now)), hasChild := true, hasHandles := true)
  }

  function InfosAt(processes: map<string, ManagedProcess>, order: seq<string>): (r: seq<RootProcessInfo>)
    requires forall k :: k in order ==> k in processes
    ensures |r| == |order|
    ensures forall i :: 0 <= i < |order| ==> r[i] == processes[order[i]].info
  {
    if order == [] then [] else [processes[order[0]].info] + InfosAt(processes, order[1..])
  }

  function Matcher(filter: Option<ProcessFilter>): RootProcessInfo -> bool
  {
    (x: RootProcessInfo) => MatchesFilter(x.state, x.id, x.command, filter)
  }

  function Filtered(infos: seq<RootProcessInfo>, filter: Option<ProcessFilter>): seq<RootProcessInfo>
  {
    Kept(infos, Matcher(filter))
  }

  /// The infos in key order are exactly the registered processes' infos.
  lemma InfosAtMembers(processes: map<string, ManagedProcess>, order: seq<string>)
    requires IsKeyOrder(processes, order)
    ensures forall x :: x in InfosAt(processes, order) <==> exists id :: id in processes && processes[id].info == x
  {
    var all := InfosAt(processes, order);
    forall x | exists id :: id in processes && processes[id].info == x
      ensures x in all
    {
      var id :| id in processes && processes[id].info == x;
      var k :| 0 <= k < |order| && order[k] == id;
      assert all[k] == x;
    }
  }

  lemma ListedMembers(processes: map<string, ManagedProcess>, order: seq<string>, filter: Option<ProcessFilter>)
    requires IsKeyOrder(processes, order)
    ensures forall x :: x in Filtered(InfosAt(processes, order), filter) <==>
      (exists id :: id in processes && processes[id].info == x)
      && MatchesFilter(x.state, x.id, x.command, filter)
    ensures filter.None? ==> |Filtered(InfosAt(processes, order), filter)| == |processes|
  {
    ListedExactlyMatching(processes, order, filter);
    if filter.None? {
      UnfilteredListsAll(processes, order);
    }
  }

  lemma ListedExactlyMatching(processes: map<string, ManagedProcess>, order: seq<string>, filter: Option<ProcessFilter>)
    requires IsKeyOrder(processes, order)
    ensures forall x :: x in Filtered(InfosAt(processes, order), filter) <==>
      (exists id :: id in processes && processes[id].info == x)
      && MatchesFilter(x.state, x.id, x.command, filter)
  {
    var all := InfosAt(processes, order);
    var keep := Matcher(filter);
    assert Filtered(all, filter) == Kept(all, keep);
    KeptMembers(all, keep);
    InfosAtMembers(processes, order);
    forall x
      ensures x in Kept(all, keep) <==>
        (exists id :: id in processes && processes[id].info == x) && MatchesFilter(x.state, x.id, x.command, filter)
    {
      assert keep(x) == MatchesFilter(x.state, x.id, x.command, filter);
    }
  }

  lemma UnfilteredListsAll(processes: map<string, ManagedProcess>, order: seq<string>)
    requires IsKeyOrder(processes, order)
    ensures |Filtered(InfosAt(processes, order), None)| == |processes|
  {
    var all := InfosAt(processes, order);
    var keep := Matcher(None);
    assert Filtered(all, None) == Kept(all, keep);
    KeptMembers(all, keep);
    assert forall i :: 0 <= i < |all| ==> keep(all[i]);
    KeyOrderLength(processes, order);
  }

  /// Listing one more process of the order appends it when it matches.
  lemma FilteredStep(processes: map<string, ManagedProcess>, order: seq<string>, i: nat, filter: Option<ProcessFilter>)
    requires IsKeyOrder(processes, order) && i < |order|
    ensures Filtered(InfosAt(processes, order[..i + 1]), filter) ==
      Filtered(InfosAt(processes, order[..i]), filter) +
      (if Matcher(filter)(processes[order[i]].info) then [processes[order[i]].info] else [])
  {
    var info := processes[order[i]].info;
    assert order[..i + 1] == order[..i] + [order[i]];
    assert InfosAt(processes, order[..i + 1]) == InfosAt(processes, order[..i]) + [info];
    KeptSnoc(InfosAt(processes, order[..i]), info, Matcher(filter));
  }

  /// Every entry sits under its own id and holds no more lines than its
  /// buffers' capacity.
  ghost predicate Registry(m: map<string, ManagedProcess>)
  {
    forall k :: k in m ==>
      (m[k].info.id == k && |m[k].stdout| <= BUFFER_CAPACITY && |m[k].stderr| <= BUFFER_CAPACITY)
  }

  /// Replacing an entry with one of the same id that fits the buffers
  /// keeps the registry well formed.
  lemma ReplacedEntryKeepsBounds(m: map<string, ManagedProcess>, id: string, p: ManagedProcess)
    requires Registry(m)
    requires p.info.id == id && |p.stdout| <= BUFFER_CAPACITY && |p.stderr| <= BUFFER_CAPACITY
    ensures Registry(m[id := p])
  {
  }

  class ProcessManager {
    var processes: map<string, ManagedProcess>

    ghost predicate Valid()
      reads this
    {
      forall id :: id in processes ==>
        processes[id].info.id == id
        && |processes[id].stdout| <= BUFFER_CAPACITY && |processes[id].stderr| <= BUFFER_CAPACITY
    }

    constructor ()
      ensures Valid() && processes == map[]
    {
      processes := map[];
    }

    /// `create_process`: validation, the duplicate check, the insertion
    /// with both flags, and, when auto_start_on_create is set, an attempt to
    /// start whose failure is only logged.
    method Create(id: string, command: string, args: seq<string>, env: map<string, string>,
                  envOrder: seq<string>, cwd: Option<string>, cwdCheck: Result<Unit>,
                  onCreate: bool, onRestore: bool, spawn: Shell.SpawnOutcome, now: Timestamp)
      returns (r: Result<Unit>)
      requires Valid() && IsKeyOrder(env, envOrder)
      modifies this
      ensures Valid()
      ensures Security.ProcessInputsCheck(command, args, env, envOrder, cwdCheck).Err? ==>
        r == Security.ProcessInputsCheck(command, args, env, envOrder, cwdCheck) && processes == old(processes)
      ensures Security.ProcessInputsCheck(command, args, env, envOrder, cwdCheck).Ok? && id in old(processes) ==>
        r == Err("Process with id '" + id + "' already exists") && processes == old(processes)
      ensures Security.ProcessInputsCheck(command, args, env, envOrder, cwdCheck).Ok? && id !in old(processes) ==>
        && r == Ok(Unit)
        && var created := CreatedProcess(id, command, args, env, cwd, onCreate, onRestore);
           processes == old(processes)[id := if onCreate && spawn.Spawned? then Started(created, spawn.pid, now)
                                             else created]
    {
      r := Security.ValidateProcessInputs(command, args, env, envOrder, cwdCheck);
      if r.Err? {
        return;
      }
      r := Insert(id, CreatedProcess(id, command, args, env, cwd, onCreate, onRestore), onCreate, spawn, now);
    }

    /// The part of `create_process` after validation: the duplicate check,
    /// the insertion, and the optional start whose failure is only logged.
    method Insert(id: string, created: ManagedProcess, onCreate: bool, spawn: Shell.SpawnOutcome, now: Timestamp)
      returns (r: Result<Unit>)
      requires Valid()
      requires created.info.id == id && !created.info.state.Running?
      requires |created.stdout| <= BUFFER_CAPACITY && |created.stderr| <= BUFFER_CAPACITY
      modifies this
      ensures Valid()
      ensures id in old(processes) ==> r == Err("Process with id '" + id + "' already exists") && processes == old(processes)
      ensures id !in old(processes) ==>
        r == Ok(Unit) &&
        processes == old(processes)[id := if onCreate && spawn.Spawned? then Started(created, spawn.pid, now) else created]
    {
      if id in processes {
        return Err("Process with id '" + id + "' already exists");
      }
      processes := processes[id := created];
      if onCreate {
        var _ := Start(id, spawn, now);
      }
      r := Ok(Unit);
    }

    /// `start_process`.
    method Start(id: string, outcome: Shell.SpawnOutcome, now: Timestamp) returns (r: Result<U32>)
      requires Valid()
      modifies this
      ensures Valid()
      ensures id !in old(processes) ==> r == Err(NotFound(id)) && processes == old(processes)
      ensures id in old(processes) && old(processes[id].info.state.Running?) ==>
        r == Err("Process '" + id + "' is already running") && processes == old(processes)
      ensures id in old(processes) && !old(processes[id].info.state.Running?) && StartError(outcome).Some? ==>
        r == Err(StartError(outcome).value) && processes == old(processes)
      ensures id in old(processes) && !old(processes[id].info.state.Running?) && outcome.Spawned? ==>
        r == Ok(outcome.pid) && processes == old(processes)[id := Started(old(processes[id]), outcome.pid, now)]
    {
      if id !in processes {
        return Err(NotFound(id));
      }
      var p := processes[id];
      if p.info.state.Running? {
        return Err("Process '" + id + "' is already running");
      }
      if !outcome.Spawned? {
        return Err(StartError(outcome).value);
      }
      processes := processes[id := Started(p, outcome.pid, now)];
      r := Ok(outcome.pid);
    }

    /// `stop_process`.
    method Stop(id: string, kill: Shell.KillOutcome, now: Timestamp) returns (r: Result<Unit>)
      requires Valid()
      modifies this
      ensures Valid()
      ensures id !in old(processes) ==> r == Err(NotFound(id)) && processes == old(processes)
      ensures id in old(processes) && !old(processes[id].info.state.Running?) ==>
        r == Err("Process '" + id + "' is not running") && processes == old(processes)
      ensures id in old(processes) && old(processes[id].info.state.Running?) && !old(processes[id].hasChild) ==>
        r == Ok(Unit) && processes == old(processes)
      ensures id in old(processes) && old(processes[id].info.state.Running?) && old(processes[id].hasChild)
              && kill.KillFailed? ==>
        r == Err("Failed to kill process: " + kill.reason)
        && processes == old(processes)[id := old(processes[id]).(hasChild := false)]
      ensures id in old(processes) && old(processes[id].info.state.Running?) && old(processes[id].hasChild)
              && kill.Killed? ==>
        r == Ok(Unit)
        && processes == old(processes)[id := old(processes[id]).(
             info := old(processes[id].info).(state := Stopped(None, now)),
             hasChild := false, hasHandles := false)]
    {
      if id !in processes {
        return Err(NotFound(id));
      }
      var p := processes[id];
      if !p.info.state.Running? {
        return Err("Process '" + id + "' is not running");
      }
      if p.hasChild {
        p := p.(hasChild := false);
        processes := processes[id := p];
        if kill.KillFailed? {
          return Err("Failed to kill process: " + kill.reason);
        }
        processes := processes[id := p.(info := p.info.(state := Stopped(None, now)), hasHandles := false)];
      }
      r := Ok(Unit);
    }

    /// `get_process_status`.
    method GetProcessStatus(id: string, now: Timestamp) returns (r: Result<ProcessStatus>)
      ensures id !in processes ==> r == Err(NotFound(id))
      ensures id in processes ==>
        && r.Ok? && r.value.info == processes[id].info
        && r.value.cpu_usage.None? && r.value.memory_usage.None?
        && (r.value.uptime_seconds.Some? <==> processes[id].info.state.Running?)
        && (processes[id].info.state.Running? ==>
              r.value.uptime_seconds == Some(Uptime(now, processes[id].info.state.started_at)))
    {
      if id !in processes {
        return Err(NotFound(id));
      }
      var info := processes[id].info;
      var uptime := if info.state.Running? then Some(Uptime(now, info.state.started_at)) else None;
      r := Ok(ProcessStatus(info, None, None, uptime));
    }

    /// `get_process_output`.
    method GetProcessOutput(id: string, stream: OutputStream, lines: Option<U32>) returns (r: Result<seq<string>>)
      ensures id !in processes ==> r == Err(NotFound(id))
      ensures id in processes ==>
        r == Ok(ManagerOutput(processes[id].stdout, processes[id].stderr, stream, lines))
      ensures r.Ok? ==> |r.value| <= lines.UnwrapOr(DEFAULT_OUTPUT_LINES)
    {
      if id !in processes {
        return Err(NotFound(id));
      }
      var p := processes[id];
      var n := lines.UnwrapOr(DEFAULT_OUTPUT_LINES);
      match stream {
        case Stdout => r := Ok(LastN(p.stdout, n));
        case Stderr => r := Ok(LastN(p.stderr, n));
        case Both => r := Ok(LastN(p.stdout, n / 2) + LastN(p.stderr, n / 2));
      }
      ManagerOutputBounds(p.stdout, p.stderr, stream, lines);
    }

    /// `list_processes`.
    method ListProcesses(filter: Option<ProcessFilter>, order: seq<string>) returns (r: seq<RootProcessInfo>)
      requires IsKeyOrder(processes, order)
      ensures r == Filtered(InfosAt(processes, order), filter)
      ensures forall x :: x in r <==>
        (exists id :: id in processes && processes[id].info == x)
        && MatchesFilter(x.state, x.id, x.command, filter)
      ensures filter.None? ==> |r| == |processes|
    {
      r := [];
      var i := 0;
      while i < |order|
        invariant 0 <= i <= |order|
        invariant r == Filtered(InfosAt(processes, order[..i]), filter)
      {
        var info := processes[order[i]].info;
        FilteredStep(processes, order, i, filter);
        if MatchesFilter(info.state, info.id, info.command, filter) {
          r := r + [info];
        }
        i := i + 1;
      }
      assert order[..i] == order;
      ListedMembers(processes, order, filter);
    }

    /// `remove_process`.
    method Remove(id: string, kill: Shell.KillOutcome, now: Timestamp) returns (r: Result<Unit>)
      requires Valid()
      modifies this
      ensures Valid()
      ensures id !in old(processes) ==> r == Err(NotFound(id)) && processes == old(processes)
      ensures id in old(processes) ==> r == Ok(Unit) && processes == old(processes) - {id}
    {
      var _ := Stop(id, kill, now);
      if id !in processes {
        return Err(NotFound(id));
      }
      processes := processes - {id};
      r := Ok(Unit);
    }

    /// `update_process_config`: each flag is set only when given,
    /// independently of the other; the change stays in memory even when
    /// persisting it fails.
    method UpdateProcessConfig(id: string, onCreate: Option<bool>, onRestore: Option<bool>,
                               persistError: Option<string>) returns (r: Result<Unit>)
      requires Valid()
      modifies this
      ensures Valid()
      ensures id !in old(processes) ==> r == Err(NotFound(id)) && processes == old(processes)
      ensures id in old(processes) ==>
        && processes == old(processes)[id := old(processes[id]).(info := old(processes[id].info).(
             auto_start_on_create := onCreate.UnwrapOr(old(processes[id].info.auto_start_on_create)),
             auto_start_on_restore := onRestore.UnwrapOr(old(processes[id].info.auto_start_on_restore))))]
        && r == (if persistError.Some? then Err("Failed to persist process config update: " + persistError.value)
                 else Ok(Unit))
    {
      if id !in processes {
        return Err(NotFound(id));
      }
      var p := processes[id];
      ghost var updated := p.(info := p.info.(
        auto_start_on_create := onCreate.UnwrapOr(p.info.auto_start_on_create),
        auto_start_on_restore := onRestore.UnwrapOr(p.info.auto_start_on_restore)));
      var onCreateFlag := p.info.auto_start_on_create;
      if onCreate.Some? {
        onCreateFlag := onCreate.value;
      }
      var onRestoreFlag := p.info.auto_start_on_restore;
      if onRestore.Some? {
        onRestoreFlag := onRestore.value;
      }
      p := p.(info := p.info.(auto_start_on_create := onCreateFlag, auto_start_on_restore := onRestoreFlag));
      assert p == updated;
      ReplacedEntryKeepsBounds(processes, id, p);
      processes := processes[id := p];
      if persistError.Some? {
        return Err("Failed to persist process config update: " + persistError.value);
      }
      r := Ok(Unit);
    }

    /// A reader task appends a line from the child's pipe, unfiltered.
    method RecordOutput(id: string, toStderr: bool, line: string)
      requires Valid()
      modifies this
      ensures Valid()
      ensures id !in old(processes) ==> processes == old(processes)
      ensures id in old(processes) ==>
        processes == old(processes)[id := if toStderr
          then old(processes[id]).(stderr := Pushed(old(processes[id].stderr), BUFFER_CAPACITY, line))
          else old(processes[id]).(stdout := Pushed(old(processes[id].stdout), BUFFER_CAPACITY, line))]
    {
      if id in processes {
        var p := processes[id];
        if toStderr {
          p := p.(stderr := Pushed(p.stderr, BUFFER_CAPACITY, line));
        } else {
          p := p.(stdout := Pushed(p.stdout, BUFFER_CAPACITY, line));
        }
        processes := processes[id := p];
      }
    }
  }
}
