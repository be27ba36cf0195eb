// Rules the two process registries (crates/ichimi/src/process/manager.rs
// and src/process/manager.rs) share word for word: how many output lines a
// query returns and which processes a list filter keeps.

module ManagerRules {
  import opened Common
  import opened ProcessTypes
  import opened OutputBuffer

  /// Lines returned when the caller gives no count.
  const DEFAULT_OUTPUT_LINES: nat := 100

  /// Capacity of each per-process output buffer.
  const BUFFER_CAPACITY: nat := 1000

  /// What get_process_output returns for the two buffers: a single stream
  /// gives its last n lines, Both gives the last n/2 of each, stdout first.
  function ManagerOutput(out: seq<string>, err: seq<string>, stream: OutputStream, lines: Option<U32>): seq<string>
  {
    var n := lines.UnwrapOr(DEFAULT_OUTPUT_LINES);
    match stream
    case Stdout => LastN(out, n)
    case Stderr => LastN(err, n)
    case Both => LastN(out, n / 2) + LastN(err, n / 2)
  }

  /// Never more than n lines come back, and Both is the tail of stdout
  /// followed by the tail of stderr, each at most n/2 long.
  lemma ManagerOutputBounds(out: seq<string>, err: seq<string>, stream: OutputStream, lines: Option<U32>)
    ensures |ManagerOutput(out, err, stream, lines)| <= lines.UnwrapOr(DEFAULT_OUTPUT_LINES)
    ensures lines.None? && stream == Stdout ==> ManagerOutput(out, err, stream, lines) == LastN(out, 100)
    ensures stream == Both ==>
      var h := lines.UnwrapOr(DEFAULT_OUTPUT_LINES) / 2;
      var r := ManagerOutput(out, err, stream, lines);
      && |r| == Min(h, |out|) + Min(h, |err|)
      && r[..Min(h, |out|)] == out[|out| - Min(h, |out|)..]
      && r[Min(h, |out|)..] == err[|err| - Min(h, |err|)..]
  {
  }

  /// With an odd count, Both returns one line fewer than asked for even
  /// when both buffers hold plenty: the division rounds down.
  lemma ManagerOutputOddCount(out: seq<string>, err: seq<string>, n: U32)
    requires n % 2 == 1 && |out| >= n && |err| >= n
    ensures |ManagerOutput(out, err, Both, Some(n))| == n - 1
  {
  }

  predicate StateMatches(state: ProcessState, f: ProcessStateFilter)
  {
    match f
    case RunningOnly => state.Running?
    case StoppedOnly => state.Stopped?
    case FailedOnly => state.Failed?
    case All => true
  }

  /// Whether list_processes keeps a process with this state, id and command.
  predicate MatchesFilter(state: ProcessState, id: string, command: string, filter: Option<ProcessFilter>)
  {
    filter.None? ||
    ((filter.value.state.None? || StateMatches(state, filter.value.state.value))
     && (filter.value.name_pattern.None?
         || Contains(id, filter.value.name_pattern.value)
         || Contains(command, filter.value.name_pattern.value)))
  }

  /// No filter, or a filter with neither criterion, or an All filter with
  /// no pattern, keeps every process; NotStarted processes only pass a
  /// filter without a specific state.
  lemma MatchesFilterCases(state: ProcessState, id: string, command: string, filter: Option<ProcessFilter>)
    ensures filter.None? ==> MatchesFilter(state, id, command, filter)
    ensures filter.Some? && filter.value.state.None? && filter.value.name_pattern.None? ==>
      MatchesFilter(state, id, command, filter)
    ensures filter.Some? && filter.value.state == Some(All) && filter.value.name_pattern.None? ==>
      MatchesFilter(state, id, command, filter)
    ensures state.NotStarted? && filter.Some? && filter.value.state.Some? && filter.value.state.value != All ==>
      !MatchesFilter(state, id, command, filter)
    ensures filter.Some? && filter.value.name_pattern == Some(id) ==>
      (MatchesFilter(state, id, command, filter) <==> filter.value.state.None? || StateMatches(state, filter.value.state.value))
  {
    if filter.Some? && filter.value.name_pattern == Some(id) {
      assert StartsWith(id, id);
    }
  }
}
