// The request handlers of the `crates/ichimi` web server
// (crates/ichimi/src/web/handlers.rs) that compute something themselves:
// the dashboard counters, the query-string mappings for process lists, log
// streams and template tags, the settings conversions between the web form
// and the stored settings, the partial template update, and the clipboard
// search. The process manager and the stores behind them are parameters:
// each handler receives what the manager returned.

module WebHandlers {
  import opened Common
  import opened ProcessTypes
  import P = PersistTypes
  import IP = IchimiPersistence

  // ---------------------------------------------------------------------
  // Dashboard counters

  datatype ProcessStats = ProcessStats(total: nat, running: nat, stopped: nat, failed: nat, auto_start_enabled: nat)

  predicate IsRunning(p: ProcessInfo) { p.state.Running? }

  /// Stopped and never-started processes are both counted as stopped.
  predicate IsStopped(p: ProcessInfo) { p.state.Stopped? || p.state.NotStarted? }

  predicate IsFailed(p: ProcessInfo) { p.state.Failed? }

  /// How many processes of the list satisfy the predicate.
  function CountWhere(ps: seq<ProcessInfo>, pred: ProcessInfo -> bool): (n: nat)
    ensures n <= |ps|
    decreases |ps|
  {
    if ps == [] then 0
    else CountWhere(ps[..|ps| - 1], pred) + (if pred(ps[|ps| - 1]) then 1 else 0)
  }

  /// Every process is in exactly one of the three counters.
  lemma {:induction false} CountersAddUp(ps: seq<ProcessInfo>)
    ensures CountWhere(ps, IsRunning) + CountWhere(ps, IsStopped) + CountWhere(ps, IsFailed) == |ps|
    decreases |ps|
  {
    if ps != [] {
      CountersAddUp(ps[..|ps| - 1]);
    }
  }

  /// The counting loop of `get_dashboard`.
  method DashboardStats(ps: seq<ProcessInfo>) returns (stats: ProcessStats)
    ensures stats.total == |ps|
    ensures stats.running == CountWhere(ps, IsRunning)
    ensures stats.stopped == CountWhere(ps, IsStopped)
    ensures stats.failed == CountWhere(ps, IsFailed)
    ensures stats.auto_start_enabled == 0
    ensures stats.running + stats.stopped + stats.failed == stats.total
  {
    stats := ProcessStats(|ps|, 0, 0, 0, 0);
    for i := 0 to |ps|
      invariant stats.total == |ps| && stats.auto_start_enabled == 0
      invariant stats.running == CountWhere(ps[..i], IsRunning)
      invariant stats.stopped == CountWhere(ps[..i], IsStopped)
      invariant stats.failed == CountWhere(ps[..i], IsFailed)
    {
      assert ps[..i + 1][..i] == ps[..i];
      match ps[i].state
      case Running(_, _) => stats := stats.(running := stats.running + 1);
      case Stopped(_, _) => stats := stats.(stopped := stats.stopped + 1);
      case Failed(_, _) => stats := stats.(failed := stats.failed + 1);
      case NotStarted => stats := stats.(stopped := stats.stopped + 1);
    }
    assert ps[..|ps|] == ps;
    CountersAddUp(ps);
  }

  // ---------------------------------------------------------------------
  // Query-string mappings

  /// The `state` query parameter of `list_processes`.
  function StateFilterOf(s: string): (f: ProcessStateFilter)
    ensures f == RunningOnly <==> s == "running"
    ensures f == StoppedOnly <==> s == "stopped"
    ensures f == FailedOnly <==> s == "failed"
    ensures f == All <==> s != "running" && s != "stopped" && s != "failed"
  {
    match s
    case "running" => RunningOnly
    case "stopped" => StoppedOnly
    case "failed" => FailedOnly
    case _ => All
  }

  /// `list_processes`: a filter only when some parameter is given; the
  /// name pattern is passed through.
  function ListFilter(state: Option<string>, name_pattern: Option<string>): (r: Option<ProcessFilter>)
    ensures r.None? <==> state.None? && name_pattern.None?
    ensures r.Some? ==> r.value.name_pattern == name_pattern
    ensures r.Some? ==> (r.value.state.Some? <==> state.Some?)
    ensures r.Some? && state.Some? ==> r.value.state.value == StateFilterOf(state.value)
  {
    if state.Some? || name_pattern.Some? then
      Some(ProcessFilter(if state.Some? then Some(StateFilterOf(state.value)) else None, name_pattern))
    else None
  }

  /// `get_process_logs`: the `stream` query parameter.
  function StreamOf(stream: Option<string>): (r: OutputStream)
    ensures r == Stdout <==> stream == Some("stdout")
    ensures r == Stderr <==> stream == Some("stderr")
    ensures r == Both <==> stream != Some("stdout") && stream != Some("stderr")
  {
    match stream
    case Some("stdout") => Stdout
    case Some("stderr") => Stderr
    case _ => Both
  }

  /// `list_templates`: the comma-separated tags, each trimmed; no
  /// parameter means no tags.
  function TagsOf(tags: Option<string>): (r: seq<string>)
    ensures tags.None? ==> r == []
    ensures tags.Some? ==> |r| == |Split(tags.value, ',')| >= 1
    ensures forall i :: 0 <= i < |r| ==> ',' !in r[i]
    ensures forall i :: 0 <= i < |r| ==> r[i] == [] || (!IsWhitespace(r[i][0]) && !IsWhitespace(r[i][|r[i]| - 1]))
  {
    if tags.None? then []
    else
      var pieces := Split(tags.value, ',');
      var r := seq(|pieces|, i requires 0 <= i < |pieces| => Trim(pieces[i]));
      assert forall i :: 0 <= i < |r| ==> ',' !in r[i] by {
        forall i | 0 <= i < |r| ensures ',' !in r[i] {
          TrimWithin(pieces[i], ',');
        }
      }
      assert forall i :: 0 <= i < |r| ==> r[i] == [] || !IsWhitespace(r[i][0]) by {
        forall i | 0 <= i < |r| ensures r[i] == [] || !IsWhitespace(r[i][0]) {
          var t := TrimStart(pieces[i]);
          if t != [] {
            TrimEndKeepsNonBlank(t);
          }
        }
      }
      r
  }

  /// Trimming removes characters and adds none.
  lemma TrimWithin(s: string, c: char)
    requires c !in s
    ensures c !in Trim(s)
  {
    var t := TrimStart(s);
    assert forall x :: x in t ==> x in s;
    assert forall x :: x in TrimEnd(t) ==> x in t;
  }

  // ---------------------------------------------------------------------
  // Settings

  /// `get_settings`: the stored theme, auto-restart flag and save interval
  /// (5000 when none is stored, cut to 32 bits) as the web form's fields.
  function ToFormSettings(db: P.Settings): (s: IP.Settings)
    ensures s.color_mode == db.theme && s.auto_refresh == db.enable_auto_restart
    ensures db.auto_save_interval.None? ==> s.refresh_interval == 5000
    ensures db.auto_save_interval.Some? ==> s.refresh_interval == db.auto_save_interval.value % 0x1_0000_0000
  {
    IP.Settings(db.theme, db.enable_auto_restart,
      if db.auto_save_interval.Some? then db.auto_save_interval.value % 0x1_0000_0000 else 5000)
  }

  /// `update_settings`: the web form as stored settings; the fields the
  /// form does not have are reset.
  function FromFormSettings(s: IP.Settings, now: Timestamp): (db: P.Settings)
    ensures db.theme == s.color_mode && db.enable_auto_restart == s.auto_refresh
    ensures db.auto_save_interval == Some(s.refresh_interval as U64)
    ensures db.max_log_lines.None? && db.default_shell.None? && db.env_variables == map[]
    ensures db.updated_at == now
  {
    P.Settings(s.color_mode, Some(s.refresh_interval as U64), None, s.auto_refresh, None, map[], now)
  }

  /// What the form saves it reads back unchanged.
  lemma FormSettingsRoundTrip(s: IP.Settings, now: Timestamp)
    ensures ToFormSettings(FromFormSettings(s, now)) == s
  {
  }

  /// `get_settings`: a failed read falls back to the stored settings'
  /// default, so the form then shows the stored default interval.
  function GetSettingsResponse(read: Result<P.Settings>, now: Timestamp): (s: IP.Settings)
    ensures read.Ok? ==> s == ToFormSettings(read.value)
    ensures read.Err? ==> s == IP.Settings("dark", false, 300)
  {
    ToFormSettings(if read.Ok? then read.value else P.DefaultSettings(now))
  }

  // ---------------------------------------------------------------------
  // Partial template update

  datatype UpdateTemplateRequest = UpdateTemplateRequest(
    name: Option<string>,
    description: Option<string>,
    category: Option<string>,
    command: Option<string>,
    args: Option<seq<string>>,
    env: Option<map<string, string>>,
    default_cwd: Option<string>,
    default_auto_start: Option<bool>,
    variables: Option<seq<P.TemplateVariable>>,
    tags: Option<seq<string>>)

  function Or<T>(given: Option<T>, current: T): T
  {
    if given.Some? then given.value else current
  }

  /// The field overwrites of `update_template`: each field the request
  /// gives replaces the stored one, the others stay, and the update time is
  /// set.
  method MergeTemplate(t: P.ProcessTemplate, req: UpdateTemplateRequest, now: Timestamp) returns (u: P.ProcessTemplate)
    ensures u.name == Or(req.name, t.name) && u.command == Or(req.command, t.command)
    ensures u.description == (if req.description.Some? then req.description else t.description)
    ensures u.category == (if req.category.Some? then req.category else t.category)
    ensures u.default_cwd == (if req.default_cwd.Some? then req.default_cwd else t.default_cwd)
    ensures u.args == Or(req.args, t.args) && u.env == Or(req.env, t.env)
    ensures u.default_auto_start == Or(req.default_auto_start, t.default_auto_start)
    ensures u.variables == Or(req.variables, t.variables) && u.tags == Or(req.tags, t.tags)
    ensures u.id == t.id && u.template_id == t.template_id && u.created_at == t.created_at
    ensures u.updated_at == now
    ensures req == UpdateTemplateRequest(None, None, None, None, None, None, None, None, None, None) ==> u == t.(updated_at := now)
  {
    u := MergeNaming(t, req);
    u := MergeLaunch(u, req);
    u := MergeDefaults(u, req);
    u := u.(updated_at := now);
  }

  /// The name, description and category overwrites.
  method MergeNaming(t: P.ProcessTemplate, req: UpdateTemplateRequest) returns (u: P.ProcessTemplate)
    ensures u == t.(name := Or(req.name, t.name),
                    description := if req.description.Some? then req.description else t.description,
                    category := if req.category.Some? then req.category else t.category)
  {
    u := t;
    if req.name.Some? { u := u.(name := req.name.value); }
    if req.description.Some? { u := u.(description := Some(req.description.value)); }
    if req.category.Some? { u := u.(category := Some(req.category.value)); }
  }

  /// The command, arguments, environment and working directory overwrites.
  method MergeLaunch(t: P.ProcessTemplate, req: UpdateTemplateRequest) returns (u: P.ProcessTemplate)
    ensures u == t.(command := Or(req.command, t.command), args := Or(req.args, t.args), env := Or(req.env, t.env),
                    default_cwd := if req.default_cwd.Some? then req.default_cwd else t.default_cwd)
  {
    u := t;
    if req.command.Some? { u := u.(command := req.command.value); }
    if req.args.Some? { u := u.(args := req.args.value); }
    if req.env.Some? { u := u.(env := req.env.value); }
    if req.default_cwd.Some? { u := u.(default_cwd := Some(req.default_cwd.value)); }
  }

  /// The auto-start, variables and tags overwrites.
  method MergeDefaults(t: P.ProcessTemplate, req: UpdateTemplateRequest) returns (u: P.ProcessTemplate)
    ensures u == t.(default_auto_start := Or(req.default_auto_start, t.default_auto_start),
                    variables := Or(req.variables, t.variables), tags := Or(req.tags, t.tags))
  {
    u := t;
    if req.default_auto_start.Some? { u := u.(default_auto_start := req.default_auto_start.value); }
    if req.variables.Some? { u := u.(variables := req.variables.value); }
    if req.tags.Some? { u := u.(tags := req.tags.value); }
  }

  // ---------------------------------------------------------------------
  // Clipboard search

  datatype ClipboardResponse = ClipboardResponse(
    id: string,
    content: string,
    filename: Option<string>,
    created_at: string,
    updated_at: string,
    content_type: string,
    tags: seq<string>)

  datatype ClipboardHistoryResponse = ClipboardHistoryResponse(total_count: nat, items: seq<ClipboardResponse>)

  /// How many items the search reads from the history.
  function HistoryLimit(limit: Option<nat>): (n: nat)
    ensures limit.Some? ==> n == limit.value
    ensures limit.None? ==> n == 50
  {
    if limit.Some? then limit.value else 50
  }

  /// An item matches when its content, its file name or one of its tags
  /// contains the query.
  predicate ClipboardMatch(query: string, item: P.ClipboardItem)
  {
    Contains(item.content, query)
    || (item.filename.Some? && Contains(item.filename.value, query))
    || exists i :: 0 <= i < |item.tags| && Contains(item.tags[i], query)
  }

  function Matching(query: string): P.ClipboardItem -> bool
  {
    (item: P.ClipboardItem) => ClipboardMatch(query, item)
  }

  /// The response entry for an item; items without a content type are
  /// text.
  function ResponseOf(item: P.ClipboardItem, rfc3339: Timestamp -> string): (r: ClipboardResponse)
    ensures r.id == item.clipboard_id && r.content == item.content && r.filename == item.filename
    ensures r.content_type == (if item.content_type.Some? then item.content_type.value else "text")
  {
    ClipboardResponse(item.clipboard_id, item.content, item.filename, rfc3339(item.created_at),
      rfc3339(item.updated_at), if item.content_type.Some? then item.content_type.value else "text", item.tags)
  }

  /// `search_clipboard`: the matching items of the history, in order, and
  /// their number.
  function SearchClipboard(history: seq<P.ClipboardItem>, query: string, rfc3339: Timestamp -> string): (r: ClipboardHistoryResponse)
    ensures r.total_count == |r.items| <= |history|
    ensures var kept := Kept(history, Matching(query));
      && SubsequenceOf(kept, history)
      && |r.items| == |kept|
      && forall i :: 0 <= i < |kept| ==> r.items[i] == ResponseOf(kept[i], rfc3339)
  {
    var kept := Kept(history, Matching(query));
    KeptMembers(history, Matching(query));
    KeptSubsequence(history, Matching(query));
    var items := seq(|kept|, i requires 0 <= i < |kept| => ResponseOf(kept[i], rfc3339));
    ClipboardHistoryResponse(|items|, items)
  }

  /// The search answers exactly the matching items: every matching item
  /// of the history is in the answer, every answer comes from a matching
  /// item, and with no match nothing is returned.
  lemma SearchClipboardExact(history: seq<P.ClipboardItem>, query: string, rfc3339: Timestamp -> string)
    ensures forall item :: item in history && ClipboardMatch(query, item) ==>
      ResponseOf(item, rfc3339) in SearchClipboard(history, query, rfc3339).items
    ensures forall x :: x in SearchClipboard(history, query, rfc3339).items ==>
      exists item :: item in history && ClipboardMatch(query, item) && x == ResponseOf(item, rfc3339)
    ensures (forall item :: item in history ==> !ClipboardMatch(query, item)) ==>
      SearchClipboard(history, query, rfc3339).total_count == 0
  {
    var kept := Kept(history, Matching(query));
    KeptMembers(history, Matching(query));
    var items := SearchClipboard(history, query, rfc3339).items;
    forall item | item in history && ClipboardMatch(query, item)
      ensures ResponseOf(item, rfc3339) in items
    {
      var i :| 0 <= i < |kept| && kept[i] == item;
      assert items[i] == ResponseOf(item, rfc3339);
    }
    forall x | x in items
      ensures exists item :: item in history && ClipboardMatch(query, item) && x == ResponseOf(item, rfc3339)
    {
      var i :| 0 <= i < |items| && items[i] == x;
      assert kept[i] in kept;
    }
    if forall item :: item in history ==> !ClipboardMatch(query, item) {
      if |kept| > 0 {
        assert kept[0] in kept;
      }
    }
  }
}
