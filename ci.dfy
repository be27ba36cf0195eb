// The GitHub Actions monitor of the root crate (src/ci/mod.rs): runs are
// read from the JSON the `gh` command line tool prints, kept in a cache
// keyed by run id, and polled until one completes.  Running `gh`, decoding
// its output as UTF-8 and parsing it as JSON are not modelled: what the
// command reported and what the JSON parser produced are parameters, and
// so is the time elapsed at each poll.

module Ci {
  import opened Common
  import opened JsonValues
  import opened SurrealTables

  datatype Status = Queued | InProgress | Completed

  datatype Conclusion = Success | Failure | Cancelled | Skipped | TimedOut | ActionRequired | Neutral | Unknown

  datatype CiRun = CiRun(
    id: U64, name: string, workflowName: string, branch: string, event: string,
    status: Status, conclusion: Option<Conclusion>, createdAt: string, updatedAt: string,
    duration: Option<string>, url: string)

  const DefaultPollInterval: U64 := 30
  const DefaultTimeout: U64 := 600
  const UnknownText := "Unknown"

  // ---------------------------------------------------------------------
  // Reading one run

  /// The status a run's `status` text names; anything else, or none, is
  /// `Queued`.
  function StatusOf(s: Option<string>): (st: Status)
    ensures st == InProgress <==> s == Some("in_progress")
    ensures st == Completed <==> s == Some("completed")
  {
    if s == Some("queued") then Queued
    else if s == Some("in_progress") then InProgress
    else if s == Some("completed") then Completed
    else Queued
  }

  /// The conclusion a run's `conclusion` text names: none when there is no
  /// text, and `Unknown` for a text not listed.
  function ConclusionOf(c: Option<string>): (r: Option<Conclusion>)
    ensures r.None? <==> c.None?
  {
    if c.None? then None
    else
      var t := c.value;
      Some(if t == "success" then Success
           else if t == "failure" then Failure
           else if t == "cancelled" then Cancelled
           else if t == "skipped" then Skipped
           else if t == "timed_out" then TimedOut
           else if t == "action_required" then ActionRequired
           else if t == "neutral" then Neutral
           else Unknown)
  }

  /// The text GitHub reports for each status and listed conclusion.
  function StatusText(s: Status): string
  {
    match s
    case Queued => "queued"
    case InProgress => "in_progress"
    case Completed => "completed"
  }

  function ConclusionText(c: Conclusion): string
  {
    match c
    case Success => "success"
    case Failure => "failure"
    case Cancelled => "cancelled"
    case Skipped => "skipped"
    case TimedOut => "timed_out"
    case ActionRequired => "action_required"
    case Neutral => "neutral"
    case Unknown => "unknown"
  }

  /// `run[key].as_str()`: the text of a string field, nothing otherwise.
  function TextField(run: Json, key: string): (r: Option<string>)
    ensures r.Some? <==> run.JObject? && key in run.fields && run.fields[key].JString?
  {
    var v := Get(run, key);
    if v.Some? then AsStr(v.value) else None
  }

  /// `run[key].as_str().unwrap_or(default)`.
  function TextOr(run: Json, key: string, default: string): (r: string)
    ensures TextField(run, key).Some? ==> r == TextField(run, key).value
    ensures TextField(run, key).None? ==> r == default
  {
    var t := TextField(run, key);
    if t.Some? then t.value else default
  }

  /// Whether a run's `databaseId` is a number that fits in 64 unsigned bits.
  predicate HasU64Id(run: Json)
  {
    var v := Get(run, "databaseId");
    v.Some? && v.value.JNumber? && 0 <= v.value.n <= U64_MAX
  }

  /// `run["databaseId"].as_u64().unwrap_or(0)`.
  function IdOf(run: Json): (id: U64)
    ensures HasU64Id(run) ==> id == run.fields["databaseId"].n
    ensures !HasU64Id(run) ==> id == 0
  {
    if HasU64Id(run) then run.fields["databaseId"].n else 0
  }

  /// One run of the `gh run list` output: the display title is its name,
  /// missing texts are "Unknown" or empty, and no duration is computed.
  function RunFrom(run: Json): (r: CiRun)
    ensures r.id == IdOf(run)
    ensures r.name == TextOr(run, "displayTitle", UnknownText)
    ensures r.workflowName == TextOr(run, "workflowName", UnknownText)
    ensures r.branch == TextOr(run, "headBranch", UnknownText)
    ensures r.event == TextOr(run, "event", UnknownText)
    ensures r.status == StatusOf(TextField(run, "status"))
    ensures r.conclusion == ConclusionOf(TextField(run, "conclusion"))
    ensures r.createdAt == TextOr(run, "createdAt", "") && r.updatedAt == TextOr(run, "updatedAt", "")
    ensures r.url == TextOr(run, "url", "") && r.duration.None?
  {
    CiRun(IdOf(run),
          TextOr(run, "displayTitle", UnknownText),
          TextOr(run, "workflowName", UnknownText),
          TextOr(run, "headBranch", UnknownText),
          TextOr(run, "event", UnknownText),
          StatusOf(TextField(run, "status")),
          ConclusionOf(TextField(run, "conclusion")),
          TextOr(run, "createdAt", ""),
          TextOr(run, "updatedAt", ""),
          None,
          TextOr(run, "url", ""))
  }

  /// A value that is not an object, or an object without any of the
  /// fields, reads as a queued run 0 with every text at its default.
  lemma RunFromNothing(run: Json)
    requires !run.JObject? || run.fields == map[]
    ensures RunFrom(run) == CiRun(0, UnknownText, UnknownText, UnknownText, UnknownText, Queued, None, "", "", None, "")
  {
  }

  /// The object `gh run list --json` prints for a run.
  function ToJson(r: CiRun): Json
  {
    JObject(map[
      "databaseId" := JNumber(r.id),
      "displayTitle" := JString(r.name),
      "workflowName" := JString(r.workflowName),
      "headBranch" := JString(r.branch),
      "event" := JString(r.event),
      "status" := JString(StatusText(r.status)),
      "conclusion" := if r.conclusion.Some? then JString(ConclusionText(r.conclusion.value)) else JNull,
      "createdAt" := JString(r.createdAt),
      "updatedAt" := JString(r.updatedAt),
      "url" := JString(r.url)])
  }

  lemma StatusTextReadsBack(s: Status)
    ensures StatusOf(Some(StatusText(s))) == s
  {
  }

  lemma ConclusionTextReadsBack(c: Conclusion)
    ensures ConclusionOf(Some(ConclusionText(c))) == Some(c)
  {
  }

  lemma NamesReadBack(r: CiRun)
    ensures IdOf(ToJson(r)) == r.id
    ensures TextOr(ToJson(r), "displayTitle", UnknownText) == r.name
    ensures TextOr(ToJson(r), "workflowName", UnknownText) == r.workflowName
    ensures TextOr(ToJson(r), "headBranch", UnknownText) == r.branch
    ensures TextOr(ToJson(r), "event", UnknownText) == r.event
  {
  }

  lemma OutcomeReadsBack(r: CiRun)
    ensures StatusOf(TextField(ToJson(r), "status")) == r.status
    ensures ConclusionOf(TextField(ToJson(r), "conclusion")) == r.conclusion
  {
    StatusTextReadsBack(r.status);
    if r.conclusion.Some? {
      ConclusionTextReadsBack(r.conclusion.value);
    }
  }

  lemma TimesReadBack(r: CiRun)
    ensures TextOr(ToJson(r), "createdAt", "") == r.createdAt
    ensures TextOr(ToJson(r), "updatedAt", "") == r.updatedAt
    ensures TextOr(ToJson(r), "url", "") == r.url
  {
  }

  /// A run printed by `gh` is read back as it was, except that the
  /// duration is never filled in.
  lemma RunReadsBack(r: CiRun)
    ensures RunFrom(ToJson(r)) == r.(duration := None)
  {
    NamesReadBack(r);
    OutcomeReadsBack(r);
    TimesReadBack(r);
  }

  // ---------------------------------------------------------------------
  // The `gh` command

  /// What running `gh` gave: it could not be started, or it finished with
  /// an exit status and its output.
  datatype CommandOutput = SpawnFailed(error: string) | Finished(success: bool, stdout: string, stderr: string)

  const SpawnFailurePrefix := "Failed to execute gh command: "
  const CommandFailurePrefix := "gh command failed: "
  const InProgressNote := "CI run is still in progress. Logs will be available when it completes."

  /// The runs `get_latest_runs` reports, from the command's outcome and the
  /// JSON parser's reading of its output.
  function LatestRuns(output: CommandOutput, parsed: Result<seq<Json>>): (r: Result<seq<CiRun>>)
    ensures output.SpawnFailed? ==> r == Err(SpawnFailurePrefix + output.error)
    ensures output.Finished? && !output.success ==> r == Err(CommandFailurePrefix + output.stderr)
    ensures r.Ok? <==> output.Finished? && output.success && parsed.Ok?
    ensures r.Ok? ==> |r.value| == |parsed.value| &&
                      forall i :: 0 <= i < |r.value| ==> r.value[i] == RunFrom(parsed.value[i])
  {
    match output
    case SpawnFailed(e) => Err(SpawnFailurePrefix + e)
    case Finished(ok, _, err) =>
      if !ok then Err(CommandFailurePrefix + err)
      else if parsed.Err? then Err("Failed to parse gh output: " + parsed.error)
      else Ok(Mapped(parsed.value, RunFrom))
  }

  /// `get_run_details`: the command's output, or why there is none.
  function RunDetails(output: CommandOutput): (r: Result<string>)
    ensures r.Ok? <==> output.Finished? && output.success
    ensures r.Ok? ==> r.value == output.stdout
    ensures output.Finished? && !output.success ==> r == Err(CommandFailurePrefix + output.stderr)
  {
    match output
    case SpawnFailed(e) => Err(SpawnFailurePrefix + e)
    case Finished(ok, out, err) => if ok then Ok(out) else Err(CommandFailurePrefix + err)
  }

  /// `get_failed_logs`: like the details, except that a run still in
  /// progress is reported as a note rather than an error.
  function FailedLogs(output: CommandOutput): (r: Result<string>)
    ensures output.Finished? && output.success ==> r == Ok(output.stdout)
    ensures output.Finished? && !output.success && Contains(output.stderr, "still in progress") ==>
              r == Ok(InProgressNote)
    ensures r.Err? <==> output.SpawnFailed? ||
                        (!output.success && !Contains(output.stderr, "still in progress"))
    ensures r.Err? ==> r == RunDetails(output)
  {
    match output
    case SpawnFailed(e) => Err(SpawnFailurePrefix + e)
    case Finished(ok, out, err) =>
      if ok then Ok(out)
      else if Contains(err, "still in progress") then Ok(InProgressNote)
      else Err(CommandFailurePrefix + err)
  }

  /// The failed logs differ from the details only for a run still in
  /// progress.
  lemma FailedLogsDifferOnlyInProgress(output: CommandOutput)
    ensures FailedLogs(output) != RunDetails(output) <==>
              output.Finished? && !output.success && Contains(output.stderr, "still in progress")
  {
    if output.Finished? && !output.success && Contains(output.stderr, "still in progress") {
      assert RunDetails(output).Err?;
    }
  }

  // ---------------------------------------------------------------------
  // The run cache

  /// The cache after inserting the runs in order: each run under its id,
  /// a later run replacing an earlier one with the same id.
  function Inserted(cache: map<U64, CiRun>, runs: seq<CiRun>): map<U64, CiRun>
    decreases |runs|
  {
    if runs == [] then cache
    else Inserted(cache, runs[..|runs| - 1])[runs[|runs| - 1].id := runs[|runs| - 1]]
  }

  /// Every cached run is filed under its own id.
  predicate FiledById(cache: map<U64, CiRun>)
  {
    forall k :: k in cache ==> cache[k].id == k
  }

  /// The last run with an id is the one cached under it; an id no run has
  /// keeps what the cache held.
  lemma {:induction false} InsertedLastWins(cache: map<U64, CiRun>, runs: seq<CiRun>, i: nat)
    requires i < |runs|
    requires forall j :: i < j < |runs| ==> runs[j].id != runs[i].id
    ensures runs[i].id in Inserted(cache, runs) && Inserted(cache, runs)[runs[i].id] == runs[i]
    decreases |runs|
  {
    if i < |runs| - 1 {
      InsertedLastWins(cache, runs[..|runs| - 1], i);
    }
  }

  lemma {:induction false} InsertedElsewhere(cache: map<U64, CiRun>, runs: seq<CiRun>, id: U64)
    requires forall j :: 0 <= j < |runs| ==> runs[j].id != id
    ensures id in Inserted(cache, runs) <==> id in cache
    ensures id in cache ==> Inserted(cache, runs)[id] == cache[id]
    decreases |runs|
  {
    if runs != [] {
      InsertedElsewhere(cache, runs[..|runs| - 1], id);
    }
  }

  lemma {:induction false} InsertedFiled(cache: map<U64, CiRun>, runs: seq<CiRun>)
    requires FiledById(cache)
    ensures FiledById(Inserted(cache, runs))
    decreases |runs|
  {
    if runs != [] {
      InsertedFiled(cache, runs[..|runs| - 1]);
    }
  }

  /// `runs.iter().find(|r| r.id == run_id)`: the first run with the id.
  function FindRun(runs: seq<CiRun>, id: U64): (r: Option<CiRun>)
    ensures r.Some? ==> r.value in runs && r.value.id == id
    ensures r.None? <==> forall j :: 0 <= j < |runs| ==> runs[j].id != id
    decreases |runs|
  {
    if runs == [] then None
    else if runs[0].id == id then Some(runs[0])
    else FindRun(runs[1..], id)
  }

  // ---------------------------------------------------------------------
  // Waiting for a run

  /// The first run with the id, when it has completed.
  function CompletedRun(runs: seq<CiRun>, id: U64): (r: Option<CiRun>)
    ensures r.Some? <==> FindRun(runs, id).Some? && FindRun(runs, id).value.status == Completed
    ensures r.Some? ==> r == FindRun(runs, id)
  {
    var found := FindRun(runs, id);
    if found.Some? && found.value.status == Completed then found else None
  }

  /// What one poll of `wait_for_completion` sees: the time elapsed since
  /// the wait began, in milliseconds, and the `gh run list` answer.
  datatype Poll = Poll(elapsedMillis: nat, output: CommandOutput, parsed: Result<seq<Json>>)

  /// Whether the poll comes after a deadline of the given seconds.
  predicate Expired(p: Poll, timeoutSecs: nat)
  {
    p.elapsedMillis > timeoutSecs * 1000
  }

  datatype WaitOutcome = Done(run: CiRun) | Failed(error: string) | StillWaiting

  /// What one poll does: it ends the wait, or the wait goes on; either way
  /// with the cache it leaves.
  datatype Step = Stop(outcome: WaitOutcome, cache: map<U64, CiRun>) | Continue(cache: map<U64, CiRun>)

  function TimeoutMessage(id: U64): string
  {
    "Timeout waiting for CI run " + NatToString(id) + " to complete"
  }

  /// The timeout in seconds: as given, or ten minutes.
  function TimeoutOf(t: Option<U64>): (s: U64)
    ensures t.None? ==> s == 600
    ensures t.Some? ==> s == t.value
  {
    if t.Some? then t.value else DefaultTimeout
  }

  /// One poll: past the deadline the wait fails, a failed listing fails
  /// it, and a completed run with the id ends it; a successful listing is
  /// cached.
  function PollStep(cache: map<U64, CiRun>, p: Poll, id: U64, timeoutSecs: U64): (s: Step)
    ensures s.cache != cache ==> !Expired(p, timeoutSecs) && LatestRuns(p.output, p.parsed).Ok?
    ensures s.Stop? && s.outcome.Done? ==>
              s.outcome.run.id == id && s.outcome.run.status == Completed && !Expired(p, timeoutSecs)
    ensures s.Stop? <==> Expired(p, timeoutSecs) || LatestRuns(p.output, p.parsed).Err? ||
                         CompletedRun(LatestRuns(p.output, p.parsed).value, id).Some?
  {
    if Expired(p, timeoutSecs) then Stop(Failed(TimeoutMessage(id)), cache)
    else
      var listed := LatestRuns(p.output, p.parsed);
      if listed.Err? then Stop(Failed(listed.error), cache)
      else
        var found := FindRun(listed.value, id);
        var cache' := Inserted(cache, listed.value);
        if found.Some? && found.value.status == Completed then Stop(Done(found.value), cache')
        else Continue(cache')
  }

  /// The wait over the polls from index i on, and the cache it leaves;
  /// when the polls run out the wait is still going.
  function Waited(cache: map<U64, CiRun>, polls: seq<Poll>, id: U64, timeoutSecs: U64, i: nat): (WaitOutcome, map<U64, CiRun>)
    requires i <= |polls|
    decreases |polls| - i
  {
    if i == |polls| then (StillWaiting, cache)
    else
      var s := PollStep(cache, polls[i], id, timeoutSecs);
      if s.Stop? then (s.outcome, s.cache) else Waited(s.cache, polls, id, timeoutSecs, i + 1)
  }

  /// A wait that ends well ends with a completed run of the id asked for,
  /// seen before the deadline.
  lemma {:induction false} WaitDoneIsCompleted(cache: map<U64, CiRun>, polls: seq<Poll>, id: U64, timeoutSecs: U64, i: nat)
    requires i <= |polls|
    requires Waited(cache, polls, id, timeoutSecs, i).0.Done?
    ensures Waited(cache, polls, id, timeoutSecs, i).0.run.id == id
    ensures Waited(cache, polls, id, timeoutSecs, i).0.run.status == Completed
    ensures exists k :: i <= k < |polls| && !Expired(polls[k], timeoutSecs)
    decreases |polls| - i
  {
    var s := PollStep(cache, polls[i], id, timeoutSecs);
    if s.Continue? {
      WaitDoneIsCompleted(s.cache, polls, id, timeoutSecs, i + 1);
    }
  }

  /// Once the deadline has passed the wait fails, whatever `gh` would say,
  /// and nothing more is cached.
  lemma TimeoutWins(cache: map<U64, CiRun>, polls: seq<Poll>, id: U64, timeoutSecs: U64, i: nat)
    requires i < |polls|
    requires Expired(polls[i], timeoutSecs)
    ensures Waited(cache, polls, id, timeoutSecs, i) == (Failed(TimeoutMessage(id)), cache)
  {
  }

  /// The monitor: the run cache, the repository `gh` is asked about, and
  /// the polling interval in seconds.
  class CiMonitor {
    var runs: map<U64, CiRun>
    var repoPath: Option<string>
    var pollInterval: U64

    ghost predicate Valid()
      reads this
    {
      FiledById(runs)
    }

    /// `CiMonitor::new`: an empty cache, polling every 30 seconds unless
    /// told otherwise.
    constructor (repoPath: Option<string>, pollInterval: Option<U64>)
      ensures Valid() && this.runs == map[] && this.repoPath == repoPath
      ensures this.pollInterval == if pollInterval.Some? then pollInterval.value else DefaultPollInterval
    {
      this.runs := map[];
      this.repoPath := repoPath;
      this.pollInterval := if pollInterval.Some? then pollInterval.value else DefaultPollInterval;
    }

    /// Caching a listing: each run is inserted under its id, in order.
    method Record(listed: seq<CiRun>)
      requires Valid()
      modifies this
      ensures Valid()
      ensures runs == Inserted(old(runs), listed)
      ensures repoPath == old(repoPath) && pollInterval == old(pollInterval)
    {
      for i := 0 to |listed|
        invariant runs == Inserted(old(runs), listed[..i])
        invariant repoPath == old(repoPath) && pollInterval == old(pollInterval)
      {
        assert listed[..i + 1][..i] == listed[..i];
        runs := runs[listed[i].id := listed[i]];
      }
      assert listed[..|listed|] == listed;
      InsertedFiled(old(runs), listed);
    }

    /// `get_latest_runs`: the listing, which is also cached.
    method GetLatestRuns(output: CommandOutput, parsed: Result<seq<Json>>) returns (r: Result<seq<CiRun>>)
      requires Valid()
      modifies this
      ensures Valid()
      ensures r == LatestRuns(output, parsed)
      ensures runs == if r.Ok? then Inserted(old(runs), r.value) else old(runs)
      ensures repoPath == old(repoPath) && pollInterval == old(pollInterval)
    {
      r := LatestRuns(output, parsed);
      if r.Ok? {
        Record(r.value);
      }
    }

    /// One poll of `wait_for_completion`.
    method PollOnce(p: Poll, id: U64, timeoutSecs: U64) returns (s: Step)
      requires Valid()
      modifies this
      ensures Valid()
      ensures s == PollStep(old(runs), p, id, timeoutSecs) && runs == s.cache
    {
      if Expired(p, timeoutSecs) {
        return Stop(Failed(TimeoutMessage(id)), runs);
      }
      var listed := GetLatestRuns(p.output, p.parsed);
      if listed.Err? {
        return Stop(Failed(listed.error), runs);
      }
      var found := FindRun(listed.value, id);
      if found.Some? && found.value.status == Completed {
        return Stop(Done(found.value), runs);
      }
      s := Continue(runs);
    }

    /// `wait_for_completion` over the polls it makes.
    method WaitForCompletion(id: U64, timeout: Option<U64>, polls: seq<Poll>) returns (o: WaitOutcome)
      requires Valid()
      modifies this
      ensures Valid()
      ensures (o, runs) == Waited(old(runs), polls, id, TimeoutOf(timeout), 0)
    {
      var limit := TimeoutOf(timeout);
      var i := 0;
      while i < |polls|
        invariant 0 <= i <= |polls| && Valid()
        invariant Waited(old(runs), polls, id, limit, 0) == Waited(runs, polls, id, limit, i)
        decreases |polls| - i
      {
        ghost var before := runs;
        var s := PollOnce(polls[i], id, limit);
        assert Waited(before, polls, id, limit, i) ==
          if s.Stop? then (s.outcome, s.cache) else Waited(s.cache, polls, id, limit, i + 1);
        if s.Stop? {
          return s.outcome;
        }
        i := i + 1;
      }
      o := StillWaiting;
    }
  }
}
