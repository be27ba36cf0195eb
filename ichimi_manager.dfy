// The process registry of the ichimi crate (crates/ichimi/src/process/manager.rs):
// a map from process id to the managed process, with create, start, stop,
// status, output, list, remove and update operations. The operating system
// (spawn, kill, wait) and the persistence layer are outside the registry;
// what they answer is passed in. Each entry's two output buffers are held as
// their contents, bounded by the buffer capacity.

module IchimiManager {
  import opened Common
  import opened ProcessTypes
  import opened OutputBuffer
  import opened ManagerRules
  import Security
  import Shell

  datatype ManagedProcess = ManagedProcess(
    info: ProcessInfo,
    stdout: seq<string>,
    stderr: seq<string>,
    hasChild: bool,
    hasHandles: bool)

  /// `ManagedProcess::new`.
  function NewManaged(id: string, command: string, args: seq<string>, env: map<string, string>,
                      cwd: Option<string>): (m: ManagedProcess)
    ensures m.info.id == id && m.info.command == command && m.info.args == args
    ensures m.info.env == env && m.info.cwd == cwd
    ensures m.info.state == NotStarted && !m.info.auto_start_on_restore
    ensures m.stdout == [] && m.stderr == [] && !m.hasChild && !m.hasHandles
  {
    ManagedProcess(ProcessInfo(id, command, args, env, cwd, NotStarted, false), [], [], false, false)
  }

  /// `ProcessStatus`; cpu and memory usage are always reported as absent.
  datatype ProcessStatus = ProcessStatus(
    info: ProcessInfo,
    cpu_usage: Option<real>,
    memory_usage: Option<U64>,
    uptime_seconds: Option<U64>)

  /// `(now - started_at).num_seconds() as u64`: the signed difference is
  /// reinterpreted as unsigned, so a start time in the future wraps.
  function Uptime(now: Timestamp, started: Timestamp): U64
  {
    (now - started) % (U64_MAX + 1)
  }

  lemma UptimeCases(now: Timestamp, started: Timestamp)
    ensures 0 <= now - started <= U64_MAX ==> Uptime(now, started) == now - started
    ensures 0 < started - now <= U64_MAX ==> Uptime(now, started) == U64_MAX + 1 - (started - now)
  {
  }

  function NotFound(id: string): string
  {
    "Process '" + id + "' not found"
  }

  /// The error start_process reports for a failed spawn set-up (its own
  /// wording, which differs from the shell-process one).
  function StartError(o: Shell.SpawnOutcome): Option<string>
  {
    match o
    case Spawned(_) => None
    case SpawnFailed(e) => Some("Failed to start process: " + e)
    case NoPid => Some("Failed to get process ID")
    case NoStdout => Some("Failed to capture stdout")
    case NoStderr => Some("Failed to capture stderr")
  }

  /// What the exit-monitor task observes when waiting for the child.
  datatype MonitorOutcome = ExitedWith(code: Option<I32>) | WaitFailed(reason: string)

  /// The entry create_process inserts.
  function CreatedProcess(id: string, command: string, args: seq<string>, env: map<string, string>,
                          cwd: Option<string>, autoStartOnRestore: bool): ManagedProcess
  {
    var m := NewManaged(id, command, args, env, cwd);
    m.(info := m.info.(auto_start_on_restore := autoStartOnRestore))
  }

  /// The infos of the listed ids, in that order.
  function InfosAt(processes: map<string, ManagedProcess>, order: seq<string>): (r: seq<ProcessInfo>)
    requires forall k :: k in order ==> k in processes
    ensures |r| == |order|
    ensures forall i :: 0 <= i < |order| ==> r[i] == processes[order[i]].info
  {
    if order == [] then [] else [processes[order[0]].info] + InfosAt(processes, order[1..])
  }

  function Matcher(filter: Option<ProcessFilter>): ProcessInfo -> bool
  {
    (x: ProcessInfo) => MatchesFilter(x.state, x.id, x.command, filter)
  }

  /// The infos list_processes keeps, in their original order.
  function Filtered(infos: seq<ProcessInfo>, filter: Option<ProcessFilter>): seq<ProcessInfo>
  {
    Kept(infos, Matcher(filter))
  }

  /// The infos in key order are exactly the registered processes' infos.
  lemma InfosAtMembers(processes: map<string, ManagedProcess>, order: seq<string>)
    requires IsKeyOrder(processes, order)
    ensures forall x :: x in InfosAt(processes, order) <==> exists id :: id in processes && processes[id].info == x
  {
    var all := InfosAt(processes, order);
    forall x | exists id :: id in processes && processes[id].info == x
      ensures x in all
    {
      var id :| id in processes && processes[id].info == x;
      var k :| 0 <= k < |order| && order[k] == id;
      assert all[k] == x;
    }
  }

  /// Listing keeps exactly the registered processes that match the filter,
  /// and all of them when there is no filter.
  lemma ListedMembers(processes: map<string, ManagedProcess>, order: seq<string>, filter: Option<ProcessFilter>)
    requires IsKeyOrder(processes, order)
    ensures forall x :: x in Filtered(InfosAt(processes, order), filter) <==>
      (exists id :: id in processes && processes[id].info == x)
      && MatchesFilter(x.state, x.id, x.command, filter)
    ensures filter.None? ==> |Filtered(InfosAt(processes, order), filter)| == |processes|
  {
    ListedExactlyMatching(processes, order, filter);
    if filter.None? {
      UnfilteredListsAll(processes, order);
    }
  }

  lemma ListedExactlyMatching(processes: map<string, ManagedProcess>, order: seq<string>, filter: Option<ProcessFilter>)
    requires IsKeyOrder(processes, order)
    ensures forall x :: x in Filtered(InfosAt(processes, order), filter) <==>
      (exists id :: id in processes && processes[id].info == x)
      && MatchesFilter(x.state, x.id, x.command, filter)
  {
    var all := InfosAt(processes, order);
    var keep := Matcher(filter);
    assert Filtered(all, filter) == Kept(all, keep);
    KeptMembers(all, keep);
    InfosAtMembers(processes, order);
    forall x
      ensures x in Kept(all, keep) <==>
        (exists id :: id in processes && processes[id].info == x) && MatchesFilter(x.state, x.id, x.command, filter)
    {
      assert keep(x) == MatchesFilter(x.state, x.id, x.command, filter);
    }
  }

  lemma UnfilteredListsAll(processes: map<string, ManagedProcess>, order: seq<string>)
    requires IsKeyOrder(processes, order)
    ensures |Filtered(InfosAt(processes, order), None)| == |processes|
  {
    var all := InfosAt(processes, order);
    var keep := Matcher(None);
    assert Filtered(all, None) == Kept(all, keep);
    KeptMembers(all, keep);
    assert forall i :: 0 <= i < |all| ==> keep(all[i]);
    KeyOrderLength(processes, order);
  }

  /// Listing one more process of the order appends it when it matches.
  lemma FilteredStep(processes: map<string, ManagedProcess>, order: seq<string>, i: nat, filter: Option<ProcessFilter>)
    requires IsKeyOrder(processes, order) && i < |order|
    ensures Filtered(InfosAt(processes, order[..i + 1]), filter) ==
      Filtered(InfosAt(processes, order[..i]), filter) +
      (if Matcher(filter)(processes[order[i]].info) then [processes[order[i]].info] else [])
  {
    var info := processes[order[i]].info;
    assert order[..i + 1] == order[..i] + [order[i]];
    assert InfosAt(processes, order[..i + 1]) == InfosAt(processes, order[..i]) + [info];
    KeptSnoc(InfosAt(processes, order[..i]), info, Matcher(filter));
  }

  class ProcessManager {
    var processes: map<string, ManagedProcess>

    /// Every entry is keyed by its own id and its buffers respect their
    /// capacity.
    ghost predicate Valid()
      reads this
    {
      forall id :: id in processes ==>
        processes[id].info.id == id
        && |processes[id].stdout| <= BUFFER_CAPACITY && |processes[id].stderr| <= BUFFER_CAPACITY
    }

    /// `ProcessManager::with_database`, before any persisted process is loaded.
    constructor ()
      ensures Valid() && processes == map[]
    {
      processes := map[];
    }

    /// `create_process`: inputs are validated first, an existing id is
    /// refused, and otherwise the new entry is inserted. A failure to
    /// persist it is only logged.
    method Create(id: string, command: string, args: seq<string>, env: map<string, string>,
                  envOrder: seq<string>, cwd: Option<string>, cwdCheck: Result<Unit>,
                  autoStartOnRestore: bool) returns (r: Result<Unit>)
      requires Valid() && IsKeyOrder(env, envOrder)
      modifies this
      ensures Valid()
      ensures Security.ProcessInputsCheck(command, args, env, envOrder, cwdCheck).Err? ==>
        r == Security.ProcessInputsCheck(command, args, env, envOrder, cwdCheck) && processes == old(processes)
      ensures Security.ProcessInputsCheck(command, args, env, envOrder, cwdCheck).Ok? && id in old(processes) ==>
        r == Err("Process with id '" + id + "' already exists") && processes == old(processes)
      ensures Security.ProcessInputsCheck(command, args, env, envOrder, cwdCheck).Ok? && id !in old(processes) ==>
        r == Ok(Unit)
        && processes == old(processes)[id := CreatedProcess(id, command, args, env, cwd, autoStartOnRestore)]
    {
      r := Security.ValidateProcessInputs(command, args, env, envOrder, cwdCheck);
      if r.Err? {
        return;
      }
      if id in processes {
        return Err("Process with id '" + id + "' already exists");
      }
      processes := processes[id := CreatedProcess(id, command, args, env, cwd, autoStartOnRestore)];
      r := Ok(Unit);
    }

    /// `start_process`: refused for an unknown id or a running process; a
    /// successful spawn makes the entry Running and holds its child and
    /// output readers.
    method Start(id: string, outcome: Shell.SpawnOutcome, now: Timestamp) returns (r: Result<U32>)
      requires Valid()
      modifies this
      ensures Valid()
      ensures id !in old(processes) ==> r == Err(NotFound(id)) && processes == old(processes)
      ensures id in old(processes) && old(processes[id].info.state.Running?) ==>
        r == Err("Process '" + id + "' is already running") && processes == old(processes)
      ensures id in old(processes) && !old(processes[id].info.state.Running?) && StartError(outcome).Some? ==>
        r == Err(StartError(outcome).value) && processes == old(processes)
      ensures id in old(processes) && !old(processes[id].info.state.Running?) && outcome.Spawned? ==>
        r == Ok(outcome.pid)
        && processes == old(processes)[id := old(processes[id]).(
             info := old(processes[id].info).(state := Running(outcome.pid, now)),
             hasChild := true, hasHandles := true)]
    {
      if id !in processes {
        return Err(NotFound(id));
      }
      var p := processes[id];
      if p.info.state.Running? {
        return Err("Process '" + id + "' is already running");
      }
      if !outcome.Spawned? {
        return Err(StartError(outcome).value);
      }
      processes := processes[id := p.(info := p.info.(state := Running(outcome.pid, now)),
                                      hasChild := true, hasHandles := true)];
      r := Ok(outcome.pid);
    }

    /// The exit-monitor task spawned by a successful start first takes the
    /// child handle out of the entry.
    method MonitorTakeChild(id: string) returns (took: bool)
      requires Valid()
      modifies this
      ensures Valid()
      ensures took <==> id in old(processes) && old(processes[id].hasChild)
      ensures id in old(processes) ==> processes == old(processes)[id := old(processes[id]).(hasChild := false)]
      ensures id !in old(processes) ==> processes == old(processes)
    {
      if id in processes {
        took := processes[id].hasChild;
        processes := processes[id := processes[id].(hasChild := false)];
      } else {
        took := false;
      }
    }

    /// The exit-monitor task, once the child ends or waiting fails, records
    /// Stopped with the exit code or Failed with the wait error.
    method MonitorRecordExit(id: string, outcome: MonitorOutcome, now: Timestamp)
      requires Valid()
      modifies this
      ensures Valid()
      ensures id !in old(processes) ==> processes == old(processes)
      ensures id in old(processes) ==>
        processes == old(processes)[id := old(processes[id]).(info := old(processes[id].info).(state :=
          match outcome
          case ExitedWith(code) => Stopped(code, now)
          case WaitFailed(e) => Failed("Process wait failed: " + e, now)))]
    {
      if id in processes {
        var p := processes[id];
        var s := match outcome
          case ExitedWith(code) => Stopped(code, now)
          case WaitFailed(e) => Failed("Process wait failed: " + e, now);
        processes := processes[id := p.(info := p.info.(state := s))];
      }
    }

    /// `stop_process`: only a running process can be stopped. If the entry
    /// still holds its child, the child is killed and the entry becomes
    /// Stopped without an exit code; if the exit monitor already took the
    /// child, the call succeeds and changes nothing.
    method Stop(id: string, kill: Shell.KillOutcome, now: Timestamp) returns (r: Result<Unit>)
      requires Valid()
      modifies this
      ensures Valid()
      ensures id !in old(processes) ==> r == Err(NotFound(id)) && processes == old(processes)
      ensures id in old(processes) && !old(processes[id].info.state.Running?) ==>
        r == Err("Process '" + id + "' is not running") && processes == old(processes)
      ensures id in old(processes) && old(processes[id].info.state.Running?) && !old(processes[id].hasChild) ==>
        r == Ok(Unit) && processes == old(processes)
      ensures id in old(processes) && old(processes[id].info.state.Running?) && old(processes[id].hasChild)
              && kill.KillFailed? ==>
        r == Err("Failed to kill process: " + kill.reason)
        && processes == old(processes)[id := old(processes[id]).(hasChild := false)]
      ensures id in old(processes) && old(processes[id].info.state.Running?) && old(processes[id].hasChild)
              && kill.Killed? ==>
        r == Ok(Unit)
        && processes == old(processes)[id := old(processes[id]).(
             info := old(processes[id].info).(state := Stopped(None, now)),
             hasChild := false, hasHandles := false)]
    {
      if id !in processes {
        return Err(NotFound(id));
      }
      var p := processes[id];
      if !p.info.state.Running? {
        return Err("Process '" + id + "' is not running");
      }
      if p.hasChild {
        p := p.(hasChild := false);
        processes := processes[id := p];
        if kill.KillFailed? {
          return Err("Failed to kill process: " + kill.reason);
        }
        processes := processes[id := p.(info := p.info.(state := Stopped(None, now)), hasHandles := false)];
      }
      r := Ok(Unit);
    }

    /// `get_process_status`.
    method GetProcessStatus(id: string, now: Timestamp) returns (r: Result<ProcessStatus>)
      ensures id !in processes ==> r == Err(NotFound(id))
      ensures id in processes ==>
        && r.Ok? && r.value.info == processes[id].info
        && r.value.cpu_usage.None? && r.value.memory_usage.None?
        && (r.value.uptime_seconds.Some? <==> processes[id].info.state.Running?)
        && (processes[id].info.state.Running? ==>
              r.value.uptime_seconds == Some(Uptime(now, processes[id].info.state.started_at)))
    {
      if id !in processes {
        return Err(NotFound(id));
      }
      var info := processes[id].info;
      var uptime := if info.state.Running? then Some(Uptime(now, info.state.started_at)) else None;
      r := Ok(ProcessStatus(info, None, None, uptime));
    }

    /// `get_process_output`.
    method GetProcessOutput(id: string, stream: OutputStream, lines: Option<U32>) returns (r: Result<seq<string>>)
      ensures id !in processes ==> r == Err(NotFound(id))
      ensures id in processes ==>
        r == Ok(ManagerOutput(processes[id].stdout, processes[id].stderr, stream, lines))
      ensures r.Ok? ==> |r.value| <= lines.UnwrapOr(DEFAULT_OUTPUT_LINES)
    {
      if id !in processes {
        return Err(NotFound(id));
      }
      var p := processes[id];
      var n := lines.UnwrapOr(DEFAULT_OUTPUT_LINES);
      match stream {
        case Stdout => r := Ok(LastN(p.stdout, n));
        case Stderr => r := Ok(LastN(p.stderr, n));
        case Both => r := Ok(LastN(p.stdout, n / 2) + LastN(p.stderr, n / 2));
      }
      ManagerOutputBounds(p.stdout, p.stderr, stream, lines);
    }

    /// `list_processes`: `order` is the order the map yields its entries.
    method ListProcesses(filter: Option<ProcessFilter>, order: seq<string>) returns (r: seq<ProcessInfo>)
      requires IsKeyOrder(processes, order)
      ensures r == Filtered(InfosAt(processes, order), filter)
      ensures forall x :: x in r <==>
        (exists id :: id in processes && processes[id].info == x)
        && MatchesFilter(x.state, x.id, x.command, filter)
      ensures filter.None? ==> |r| == |processes|
    {
      r := [];
      var i := 0;
      while i < |order|
        invariant 0 <= i <= |order|
        invariant r == Filtered(InfosAt(processes, order[..i]), filter)
      {
        var info := processes[order[i]].info;
        FilteredStep(processes, order, i, filter);
        if MatchesFilter(info.state, info.id, info.command, filter) {
          r := r + [info];
        }
        i := i + 1;
      }
      assert order[..i] == order;
      ListedMembers(processes, order, filter);
    }

    /// `remove_process`: a best-effort stop whose outcome is ignored, then
    /// the entry is removed; a failure to delete it from persistence is only
    /// logged.
    method Remove(id: string, kill: Shell.KillOutcome, now: Timestamp) returns (r: Result<Unit>)
      requires Valid()
      modifies this
      ensures Valid()
      ensures id !in old(processes) ==> r == Err(NotFound(id)) && processes == old(processes)
      ensures id in old(processes) ==> r == Ok(Unit) && processes == old(processes) - {id}
    {
      var _ := Stop(id, kill, now);
      if id !in processes {
        return Err(NotFound(id));
      }
      processes := processes - {id};
      r := Ok(Unit);
    }

    /// `update_process_config`: the flag is set only when given; the change
    /// stays in memory even when persisting it fails.
    method UpdateProcessConfig(id: string, autoStartOnRestore: Option<bool>, persistError: Option<string>)
      returns (r: Result<Unit>)
      requires Valid()
      modifies this
      ensures Valid()
      ensures id !in old(processes) ==> r == Err(NotFound(id)) && processes == old(processes)
      ensures id in old(processes) ==>
        processes == old(processes)[id := old(processes[id]).(info := old(processes[id].info).(
          auto_start_on_restore := autoStartOnRestore.UnwrapOr(old(processes[id].info.auto_start_on_restore))))]
        && r == (if persistError.Some? then Err("Failed to persist process config update: " + persistError.value)
                 else Ok(Unit))
    {
      if id !in processes {
        return Err(NotFound(id));
      }
      var p := processes[id];
      if autoStartOnRestore.Some? {
        p := p.(info := p.info.(auto_start_on_restore := autoStartOnRestore.value));
      }
      processes := processes[id := p];
      if persistError.Some? {
        return Err("Failed to persist process config update: " + persistError.value);
      }
      r := Ok(Unit);
    }

    /// `update_process`: each attribute given replaces the stored one, the
    /// others stay; the change stays in memory even when persisting fails.
    method UpdateProcess(id: string, command: Option<string>, args: Option<seq<string>>,
                         env: Option<map<string, string>>, cwd: Option<string>,
                         autoStartOnRestore: Option<bool>, persistError: Option<string>)
      returns (r: Result<Unit>)
      requires Valid()
      modifies this
      ensures Valid()
      ensures id !in old(processes) ==> r == Err(NotFound(id)) && processes == old(processes)
      ensures id in old(processes) ==>
        processes == old(processes)[id := old(processes[id]).(info := UpdatedInfo(old(processes[id].info),
          command, args, env, cwd, autoStartOnRestore))]
        && r == (if persistError.Some? then Err("Failed to persist process update: " + persistError.value)
                 else Ok(Unit))
    {
      if id !in processes {
        return Err(NotFound(id));
      }
      var p := processes[id];
      processes := processes[id := p.(info := UpdatedInfo(p.info, command, args, env, cwd, autoStartOnRestore))];
      if persistError.Some? {
        return Err("Failed to persist process update: " + persistError.value);
      }
      r := Ok(Unit);
    }

    /// One of the reader tasks appends a line read from the child's pipe to
    /// the entry's buffer, unfiltered.
    method RecordOutput(id: string, toStderr: bool, line: string)
      requires Valid()
      modifies this
      ensures Valid()
      ensures id !in old(processes) ==> processes == old(processes)
      ensures id in old(processes) ==>
        processes == old(processes)[id := if toStderr
          then old(processes[id]).(stderr := Pushed(old(processes[id].stderr), BUFFER_CAPACITY, line))
          else old(processes[id]).(stdout := Pushed(old(processes[id].stdout), BUFFER_CAPACITY, line))]
    {
      if id in processes {
        var p := processes[id];
        if toStderr {
          p := p.(stderr := Pushed(p.stderr, BUFFER_CAPACITY, line));
        } else {
          p := p.(stdout := Pushed(p.stdout, BUFFER_CAPACITY, line));
        }
        processes := processes[id := p];
      }
    }
  }

  /// The attributes update_process writes: exactly the given ones.
  function UpdatedInfo(info: ProcessInfo, command: Option<string>, args: Option<seq<string>>,
                       env: Option<map<string, string>>, cwd: Option<string>,
                       autoStartOnRestore: Option<bool>): (r: ProcessInfo)
    ensures r.id == info.id && r.state == info.state
    ensures r.command == command.UnwrapOr(info.command)
    ensures r.args == args.UnwrapOr(info.args)
    ensures r.env == env.UnwrapOr(info.env)
    ensures r.cwd == (if cwd.Some? then Some(cwd.value) else info.cwd)
    ensures r.auto_start_on_restore == autoStartOnRestore.UnwrapOr(info.auto_start_on_restore)
  {
    ProcessInfo(info.id, command.UnwrapOr(info.command), args.UnwrapOr(info.args), env.UnwrapOr(info.env),
                if cwd.Some? then Some(cwd.value) else info.cwd, info.state,
                autoStartOnRestore.UnwrapOr(info.auto_start_on_restore))
  }

  /// An update with nothing given changes nothing.
  lemma UpdatedInfoNothing(info: ProcessInfo)
    ensures UpdatedInfo(info, None, None, None, None, None) == info
  {
  }
}
