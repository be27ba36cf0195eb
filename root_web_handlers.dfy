// The request handlers of the root crate's web server (src/web/handlers.rs).
// Their query-string mappings are the same rules as the `crates/ichimi`
// handlers and are not defined twice here; what this file adds is the
// server status, the HTTP status each handler answers with, given what
// the process manager returned, and what the shared mappings mean here.

module RootWebHandlers {
  import opened Common
  import opened ProcessTypes
  import W = WebHandlers
  import R = ManagerRules

  datatype ServerStatus = ServerStatus(status: string, version: string, uptime_seconds: nat, process_count: nat)

  /// `get_status`: always running, no uptime kept, and the number of
  /// processes the manager lists; the version is the crate version.
  function GetStatus<T>(processes: seq<T>, crateVersion: string): (s: ServerStatus)
    ensures s.status == "running" && s.uptime_seconds == 0
    ensures s.process_count == |processes| && s.version == crateVersion
  {
    ServerStatus("running", crateVersion, 0, |processes|)
  }

  /// An HTTP answer: a status code and a message body (empty when the
  /// handler answers with the code alone or with the manager's data).
  datatype Response = Response(status: nat, body: string)

  /// `create_process`: 201 with a confirmation naming the process, or 400
  /// with the manager's error.
  function CreateResponse(id: string, created: Result<Unit>): (r: Response)
    ensures created.Ok? ==> r == Response(201, "Process '" + id + "' created successfully")
    ensures created.Err? ==> r == Response(400, created.error)
  {
    if created.Ok? then Response(201, "Process '" + id + "' created successfully")
    else Response(400, created.error)
  }

  /// `get_process` and `get_process_logs`: the manager's data, or 404
  /// whatever the error was.
  function LookupResponse<T>(found: Result<T>): (r: Response)
    ensures found.Ok? ==> r.status == 200
    ensures found.Err? ==> r == Response(404, "")
  {
    if found.Ok? then Response(200, "") else Response(404, "")
  }

  /// `remove_process` and `stop_process`: 204 without a body, or 400 with
  /// the manager's error.
  function NoContentResponse(done: Result<Unit>): (r: Response)
    ensures done.Ok? ==> r == Response(204, "")
    ensures done.Err? ==> r == Response(400, done.error)
  {
    if done.Ok? then Response(204, "") else Response(400, done.error)
  }

  /// `start_process`: a message naming the process and its PID, or 400
  /// with the manager's error.
  function StartResponse(id: string, started: Result<U32>, pidText: U32 -> string): (r: Response)
    ensures started.Ok? ==> r == Response(200, "Process '" + id + "' started with PID " + pidText(started.value))
    ensures started.Err? ==> r == Response(400, started.error)
  {
    if started.Ok? then Response(200, "Process '" + id + "' started with PID " + pidText(started.value))
    else Response(400, started.error)
  }

  /// `stop_process`: the grace period only when a body with one was sent.
  function GracePeriod(req: Option<Option<nat>>): (g: Option<nat>)
    ensures g.Some? <==> req.Some? && req.value.Some?
    ensures g.Some? ==> g == req.value
  {
    if req.Some? then req.value else None
  }

  /// Every handler answers a success with a 2xx code and a failure with a
  /// 4xx code, and a failure's body is the manager's error except for the
  /// lookups, which hide it.
  lemma StatusClasses(id: string, u: Result<Unit>, pid: Result<U32>, pidText: U32 -> string, found: Result<string>)
    ensures 200 <= CreateResponse(id, u).status < 300 <==> u.Ok?
    ensures 200 <= NoContentResponse(u).status < 300 <==> u.Ok?
    ensures 200 <= StartResponse(id, pid, pidText).status < 300 <==> pid.Ok?
    ensures 200 <= LookupResponse(found).status < 300 <==> found.Ok?
    ensures u.Err? ==> CreateResponse(id, u).status == NoContentResponse(u).status == 400
    ensures found.Err? ==> LookupResponse(found).body == ""
  {
  }

  /// `list_processes` reads its query with the same mapping as the
  /// `crates/ichimi` handler.  Given to the registry's filter, the query
  /// without parameters, or with an unknown state and no pattern, lists
  /// every process; "running" alone lists exactly the running ones.
  lemma ListQueryKeeps(state: Option<string>, pattern: Option<string>, ps: ProcessState, id: string, command: string)
    ensures state.None? && pattern.None? ==> W.ListFilter(state, pattern).None?
    ensures state.Some? && state.value != "running" && state.value != "stopped" && state.value != "failed" && pattern.None? ==>
      R.MatchesFilter(ps, id, command, W.ListFilter(state, pattern))
    ensures state.None? && pattern.None? ==> R.MatchesFilter(ps, id, command, W.ListFilter(state, pattern))
    ensures state == Some("running") && pattern.None? ==>
      (R.MatchesFilter(ps, id, command, W.ListFilter(state, pattern)) <==> ps.Running?)
    ensures state.None? && pattern == Some(id) ==> R.MatchesFilter(ps, id, command, W.ListFilter(state, pattern))
  {
    if state.None? && pattern == Some(id) {
      R.MatchesFilterCases(ps, id, command, W.ListFilter(state, pattern));
    }
  }

  /// `get_process_logs` reads its `stream` parameter with the same mapping
  /// as the `crates/ichimi` handler: only the two exact names pick one
  /// stream, and any other text, or none, asks for both.
  lemma LogStreamQuery(s: string)
    ensures W.StreamOf(None) == Both
    ensures W.StreamOf(Some("stdout")) == Stdout && W.StreamOf(Some("stderr")) == Stderr
    ensures s != "stdout" && s != "stderr" ==> W.StreamOf(Some(s)) == Both
  {
  }
}
