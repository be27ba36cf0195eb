// A single shell-launched process (crates/ichimi/src/process/shell.rs):
// its record, its two output logs, and whether it still holds the OS child
// handle and the two output-reader tasks. What the operating system does
// when asked to spawn, wait or kill is passed in as an outcome value.

module Shell {
  import opened Common
  import opened ProcessTypes
  import opened OutputBuffer
  import ProcessProtocol

  /// What `Command::spawn` and the pipe set-up produced.
  datatype SpawnOutcome =
    | Spawned(pid: U32)
    | SpawnFailed(reason: string)
    | NoPid
    | NoStdout
    | NoStderr

  /// The result of waiting (at most five seconds) for the child after SIGTERM.
  datatype WaitOutcome = Exited(code: Option<I32>) | WaitTimedOutOrFailed

  /// The result of `Child::kill`.
  datatype KillOutcome = Killed | KillFailed(reason: string)

  const OUTPUT_CAPACITY: nat := 1000

  /// The error a failed spawn set-up reports; None when the spawn succeeded.
  function SpawnError(o: SpawnOutcome): Option<string>
  {
    match o
    case Spawned(_) => None
    case SpawnFailed(e) => Some("Failed to spawn process: " + e)
    case NoPid => Some("Failed to get process PID")
    case NoStdout => Some("Failed to capture stdout")
    case NoStderr => Some("Failed to capture stderr")
  }

  // ---------------------------------------------------------------------
  // Output capture

  /// A line read from a pipe is stored with trailing whitespace (including
  /// the line terminator) removed, and only if something is left.
  function CapturedLine(raw: string): Option<string>
  {
    var t := TrimEnd(raw);
    if t == [] then None else Some(t)
  }

  function CapturedLines(raw: seq<string>): seq<string>
  {
    if raw == [] then []
    else match CapturedLine(raw[0])
      case Some(l) => [l] + CapturedLines(raw[1..])
      case None => CapturedLines(raw[1..])
  }

  /// The buffer contents after pushing each of `ls` in order.
  function PushedAll(lines: seq<string>, capacity: nat, ls: seq<string>): seq<string>
    decreases |ls|
  {
    if ls == [] then lines else PushedAll(Pushed(lines, capacity, ls[0]), capacity, ls[1..])
  }

  lemma {:induction false} PushedAllSnoc(lines: seq<string>, capacity: nat, ls: seq<string>, l: string)
    ensures PushedAll(lines, capacity, ls + [l]) == Pushed(PushedAll(lines, capacity, ls), capacity, l)
    decreases |ls|
  {
    if ls != [] {
      assert (ls + [l])[1..] == ls[1..] + [l];
      PushedAllSnoc(Pushed(lines, capacity, ls[0]), capacity, ls[1..], l);
    }
  }

  lemma {:induction false} CapturedLinesSnoc(raw: seq<string>, x: string)
    ensures CapturedLines(raw + [x]) ==
      CapturedLines(raw) + (if TrimEnd(x) == [] then [] else [TrimEnd(x)])
    decreases |raw|
  {
    if raw != [] {
      assert (raw + [x])[1..] == raw[1..] + [x];
      CapturedLinesSnoc(raw[1..], x);
    }
  }

  /// Every stored line is non-empty and has no trailing whitespace.
  lemma {:induction false} CapturedLinesClean(raw: seq<string>)
    ensures forall i :: 0 <= i < |CapturedLines(raw)| ==>
      CapturedLines(raw)[i] != [] && !IsWhitespace(CapturedLines(raw)[i][|CapturedLines(raw)[i]| - 1])
    ensures |CapturedLines(raw)| <= |raw|
    decreases |raw|
  {
    if raw != [] {
      CapturedLinesClean(raw[1..]);
    }
  }

  /// The reader task: each line read from the pipe, in order, goes through
  /// the filter and into the buffer.
  method CaptureOutput(buffer: CircularBuffer, raw: seq<string>)
    requires buffer.Valid()
    modifies buffer
    ensures buffer.Valid()
    ensures buffer.lines == PushedAll(old(buffer.lines), buffer.capacity, CapturedLines(raw))
  {
    var i := 0;
    while i < |raw|
      invariant 0 <= i <= |raw|
      invariant buffer.Valid()
      invariant buffer.lines == PushedAll(old(buffer.lines), buffer.capacity, CapturedLines(raw[..i]))
    {
      var trimmed := TrimEnd(raw[i]);
      assert raw[..i + 1] == raw[..i] + [raw[i]];
      CapturedLinesSnoc(raw[..i], raw[i]);
      if trimmed != [] {
        assert CapturedLines(raw[..i + 1]) == CapturedLines(raw[..i]) + [trimmed];
        PushedAllSnoc(old(buffer.lines), buffer.capacity, CapturedLines(raw[..i]), trimmed);
        buffer.Push(trimmed);
      } else {
        assert CapturedLines(raw[..i + 1]) == CapturedLines(raw[..i]);
      }
      i := i + 1;
    }
    assert raw[..i] == raw;
  }

  // ---------------------------------------------------------------------
  // Output retrieval

  /// What get_output returns for the given buffer contents.
  function OutputOf(out: seq<string>, err: seq<string>, stream: OutputStream, lines: Option<nat>): seq<string>
  {
    match stream
    case Stdout => if lines.Some? then LastN(out, lines.value) else out
    case Stderr => if lines.Some? then LastN(err, lines.value) else err
    case Both => if lines.Some? then LastN(out + err, lines.value) else out + err
  }

  /// Both with a limit returns the tail of stdout followed by stderr, never
  /// more than n lines; without a limit, everything, stdout first.
  lemma OutputOfBoth(out: seq<string>, err: seq<string>, n: nat)
    ensures |OutputOf(out, err, Both, Some(n))| == Min(n, |out| + |err|)
    ensures n >= |out| + |err| ==> OutputOf(out, err, Both, Some(n)) == out + err
    ensures n <= |err| ==> OutputOf(out, err, Both, Some(n)) == LastN(err, n)
    ensures OutputOf(out, err, Both, None) == out + err
  {
    var c := out + err;
    if n <= |err| {
      assert c[|c| - n..] == err[|err| - n..];
    }
  }

  /// A single stream never mixes in the other one.
  lemma OutputOfSingle(out: seq<string>, err: seq<string>, lines: Option<nat>)
    ensures OutputOf(out, err, Stdout, lines) == OutputOf(out, [], Stdout, lines)
    ensures OutputOf(out, err, Stderr, lines) == OutputOf([], err, Stderr, lines)
    ensures OutputOf(out, err, Stdout, None) == out
  {
  }

  // ---------------------------------------------------------------------
  // The process object

  class ShellProcess {
    var info: ProcessInfo
    const stdoutBuffer: CircularBuffer
    const stderrBuffer: CircularBuffer
    /// Whether `child` is Some.
    var hasChild: bool
    /// Whether `output_handles` is Some.
    var hasHandles: bool

    ghost predicate Valid()
      reads this, stdoutBuffer, stderrBuffer
    {
      stdoutBuffer != stderrBuffer && stdoutBuffer.Valid() && stderrBuffer.Valid()
    }

    /// `ShellProcess::new`.
    constructor (id: string, command: string, args: seq<string>, env: map<string, string>, cwd: Option<string>)
      ensures Valid() && fresh(stdoutBuffer) && fresh(stderrBuffer)
      ensures info == ProcessInfo(id, command, args, env, cwd, NotStarted, false)
      ensures !hasChild && !hasHandles
      ensures stdoutBuffer.capacity == OUTPUT_CAPACITY && stdoutBuffer.lines == []
      ensures stderrBuffer.capacity == OUTPUT_CAPACITY && stderrBuffer.lines == []
    {
      info := ProcessInfo(id, command, args, env, cwd, NotStarted, false);
      stdoutBuffer := new CircularBuffer(OUTPUT_CAPACITY);
      stderrBuffer := new CircularBuffer(OUTPUT_CAPACITY);
      hasChild := false;
      hasHandles := false;
    }

    /// `start_impl`: refused while running; otherwise the spawn outcome
    /// decides between Running with the child and readers held, and an
    /// error that leaves everything as it was.
    method Start(outcome: SpawnOutcome, now: Timestamp) returns (r: Result<Unit>)
      requires Valid()
      modifies this
      ensures Valid()
      ensures old(ProcessProtocol.IsRunning(info)) ==>
        r == Err("Process is already running") && info == old(info)
        && hasChild == old(hasChild) && hasHandles == old(hasHandles)
      ensures !old(ProcessProtocol.IsRunning(info)) && SpawnError(outcome).Some? ==>
        r == Err(SpawnError(outcome).value) && info == old(info)
        && hasChild == old(hasChild) && hasHandles == old(hasHandles)
      ensures !old(ProcessProtocol.IsRunning(info)) && outcome.Spawned? ==>
        r == Ok(Unit) && info == old(info).(state := Running(outcome.pid, now))
        && hasChild && hasHandles
    {
      if info.state.Running? {
        return Err("Process is already running");
      }
      match outcome {
        case Spawned(pid) =>
          info := info.(state := Running(pid, now));
          hasChild := true;
          hasHandles := true;
          r := Ok(Unit);
        case _ =>
          r := Err(SpawnError(outcome).value);
      }
    }

    /// `stop_impl`: only a running process can be stopped; a held child is
    /// taken, its exit code kept if it exited within the grace period, and
    /// the readers are dropped.
    method Stop(wait: WaitOutcome, now: Timestamp) returns (r: Result<Unit>)
      requires Valid()
      modifies this
      ensures Valid()
      ensures !old(info.state).Running? ==>
        r == Err("Process is not running") && info == old(info)
        && hasChild == old(hasChild) && hasHandles == old(hasHandles)
      ensures old(info.state).Running? && !old(hasChild) ==>
        r == Err("No child process found") && info == old(info) && hasHandles == old(hasHandles) && !hasChild
      ensures old(info.state).Running? && old(hasChild) ==>
        r == Ok(Unit) && !hasChild && !hasHandles
        && info == old(info).(state := Stopped(if wait.Exited? then wait.code else None, now))
    {
      if !info.state.Running? {
        return Err("Process is not running");
      }
      if hasChild {
        hasChild := false;
        var code := if wait.Exited? then wait.code else None;
        info := info.(state := Stopped(code, now));
        hasHandles := false;
        r := Ok(Unit);
      } else {
        r := Err("No child process found");
      }
    }

    /// `kill_impl`: like Stop, but a failed kill is reported after the child
    /// handle has already been taken, leaving the state Running.
    method Kill(kill: KillOutcome, now: Timestamp) returns (r: Result<Unit>)
      requires Valid()
      modifies this
      ensures Valid()
      ensures !old(info.state).Running? ==>
        r == Err("Process is not running") && info == old(info)
        && hasChild == old(hasChild) && hasHandles == old(hasHandles)
      ensures old(info.state).Running? && !old(hasChild) ==>
        r == Err("No child process found") && info == old(info) && hasHandles == old(hasHandles) && !hasChild
      ensures old(info.state).Running? && old(hasChild) && kill.KillFailed? ==>
        r == Err("Failed to kill process: " + kill.reason) && info == old(info)
        && !hasChild && hasHandles == old(hasHandles)
      ensures old(info.state).Running? && old(hasChild) && kill.Killed? ==>
        r == Ok(Unit) && !hasChild && !hasHandles && info == old(info).(state := Stopped(None, now))
    {
      if !info.state.Running? {
        return Err("Process is not running");
      }
      if hasChild {
        hasChild := false;
        if kill.KillFailed? {
          return Err("Failed to kill process: " + kill.reason);
        }
        info := info.(state := Stopped(None, now));
        hasHandles := false;
        r := Ok(Unit);
      } else {
        r := Err("No child process found");
      }
    }

    /// `get_output_impl`.
    method GetOutput(stream: OutputStream, lines: Option<nat>) returns (r: seq<string>)
      ensures r == OutputOf(stdoutBuffer.lines, stderrBuffer.lines, stream, lines)
    {
      match stream {
        case Stdout =>
          if lines.Some? { r := stdoutBuffer.GetLastN(lines.value); } else { r := stdoutBuffer.GetAll(); }
        case Stderr =>
          if lines.Some? { r := stderrBuffer.GetLastN(lines.value); } else { r := stderrBuffer.GetAll(); }
        case Both =>
          var out := stdoutBuffer.GetAll();
          var err := stderrBuffer.GetAll();
          var combined := out + err;
          if lines.Some? {
            var take := Min(lines.value, |combined|);
            r := combined[|combined| - take..];
          } else {
            r := combined;
          }
      }
    }

    /// `clear_output_impl`: empties exactly the selected buffers.
    method ClearOutput(stream: OutputStream)
      requires Valid()
      modifies stdoutBuffer, stderrBuffer
      ensures Valid()
      ensures stdoutBuffer.lines == (if stream == Stderr then old(stdoutBuffer.lines) else [])
      ensures stderrBuffer.lines == (if stream == Stdout then old(stderrBuffer.lines) else [])
    {
      match stream {
        case Stdout => stdoutBuffer.Clear();
        case Stderr => stderrBuffer.Clear();
        case Both =>
          stdoutBuffer.Clear();
          stderrBuffer.Clear();
      }
    }
  }

  // ---------------------------------------------------------------------
  // Builder

  datatype ShellProcessBuilder = ShellProcessBuilder(
    id: Option<string>,
    command: Option<string>,
    args: seq<string>,
    env: map<string, string>,
    cwd: Option<string>,
    auto_start_on_restore: bool)

  /// `ShellProcessBuilder::default`.
  function DefaultBuilder(): ShellProcessBuilder
  {
    ShellProcessBuilder(None, None, [], map[], None, false)
  }

  /// The error `build` reports, if any: the id is checked before the command.
  function BuildError(b: ShellProcessBuilder): (r: Option<string>)
    ensures r == None <==> b.id.Some? && b.command.Some?
    ensures b.id.None? ==> r == Some("Process ID is required")
    ensures b.id.Some? && b.command.None? ==> r == Some("Command is required")
  {
    if b.id.None? then Some("Process ID is required")
    else if b.command.None? then Some("Command is required")
    else None
  }

  /// `ShellProcessBuilder::build`: a fresh process as `new` makes it, with
  /// the builder's auto-start flag.
  method Build(b: ShellProcessBuilder) returns (r: Result<ShellProcess>)
    ensures BuildError(b).Some? ==> r == Err(BuildError(b).value)
    ensures BuildError(b).None? ==>
      && r.Ok? && fresh(r.value) && r.value.Valid()
      && r.value.info == ProcessInfo(b.id.value, b.command.value, b.args, b.env, b.cwd, NotStarted, b.auto_start_on_restore)
      && !r.value.hasChild && !r.value.hasHandles
      && r.value.stdoutBuffer.lines == [] && r.value.stderrBuffer.lines == []
  {
    if b.id.None? {
      return Err("Process ID is required");
    }
    if b.command.None? {
      return Err("Command is required");
    }
    var p := new ShellProcess(b.id.value, b.command.value, b.args, b.env, b.cwd);
    p.info := p.info.(auto_start_on_restore := b.auto_start_on_restore);
    r := Ok(p);
  }
}
