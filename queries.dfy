// The SQLite queries of the ichimi-persistence crate
// (crates/ichimi-persistence/src/database/queries.rs), over an abstract
// database: each table is a field of `Database`, keyed by the column its
// upsert conflicts on, and each query is a method or function stating the
// rows it reads or the new contents of the table it writes. The clock is a
// parameter; the SQL engine, connection pooling and database failures are
// not modelled. JSON columns hold text produced by a `JsonCodec`.

module Queries {
  import opened Common
  import P = PersistTypes

  // ---------------------------------------------------------------------
  // Rows

  datatype ClipboardRecord = ClipboardRecord(
    id: int,
    key: string,
    content: string,
    content_type: string,
    metadata: Option<string>,
    created_at: Timestamp,
    updated_at: Timestamp,
    accessed_at: Option<Timestamp>,
    expires_at: Option<Timestamp>)

  datatype ProcessHistoryRecord = ProcessHistoryRecord(
    id: int,
    process_id: string,
    name: string,
    command: string,
    args: Option<string>,
    env: Option<string>,
    cwd: Option<string>,
    started_at: Timestamp,
    stopped_at: Option<Timestamp>,
    exit_code: Option<I32>,
    error: Option<string>,
    created_at: Timestamp)

  datatype ProcessRecord = ProcessRecord(
    id: int,
    process_id: string,
    name: string,
    command: string,
    args: Option<string>,
    env: Option<string>,
    cwd: Option<string>,
    state: string,
    pid: Option<I32>,
    exit_code: Option<I32>,
    started_at: Option<Timestamp>,
    stopped_at: Option<Timestamp>,
    error: Option<string>,
    tags: Option<string>,
    auto_start_on_restore: bool,
    created_at: Timestamp,
    updated_at: Timestamp)

  datatype ProcessTemplateRecord = ProcessTemplateRecord(
    id: int,
    template_id: string,
    name: string,
    description: Option<string>,
    category: Option<string>,
    command: string,
    args: Option<string>,
    env: Option<string>,
    default_cwd: Option<string>,
    default_auto_start: bool,
    variables: Option<string>,
    tags: Option<string>,
    created_at: Timestamp,
    updated_at: Timestamp)

  datatype SettingsRecord = SettingsRecord(key: string, value: string, created_at: Timestamp, updated_at: Timestamp)

  datatype SystemEventRecord = SystemEventRecord(
    id: int,
    event_type: string,
    description: string,
    details: Option<string>,
    severity: string,
    timestamp: Timestamp)

  /// serde_json's text for the JSON columns, and its parser.
  datatype JsonCodec = JsonCodec(
    list: seq<string> -> string,
    parseList: string -> Result<seq<string>>,
    dict: map<string, string> -> string,
    parseDict: string -> Result<map<string, string>>,
    variables: seq<P.TemplateVariable> -> string,
    parseVariables: string -> Result<seq<P.TemplateVariable>>)

  /// Parsing gives back whatever was written.
  ghost predicate Faithful(j: JsonCodec)
  {
    && (forall xs :: j.parseList(j.list(xs)) == Ok(xs))
    && (forall m :: j.parseDict(j.dict(m)) == Ok(m))
    && (forall vs :: j.parseVariables(j.variables(vs)) == Ok(vs))
  }

  // ---------------------------------------------------------------------
  // Encodings

  /// The `state` column written by the process upsert.
  function StateText(s: P.ProcessState): (r: string)
    ensures r in {"not_started", "running", "stopped", "failed"}
  {
    match s
    case NotStarted => "not_started"
    case Running => "running"
    case Stopped => "stopped"
    case Failed => "failed"
  }

  /// `pid as i32`: a u32 above `i32::MAX` wraps to a negative value.
  function PidColumn(pid: U32): (r: I32)
    ensures r >= 0 ==> r == pid
    ensures r < 0 ==> r == pid - 0x1_0000_0000
  {
    if pid <= 0x7FFF_FFFF then pid else pid - 0x1_0000_0000
  }

  /// `p as u32` when the column is read back.
  function PidValue(p: I32): (r: U32)
    ensures PidColumn(r) == p
  {
    if p >= 0 then p else p + 0x1_0000_0000
  }

  /// The round trip through the i32 column gives back every u32 pid.
  lemma PidRoundTrip(pid: U32)
    ensures PidValue(PidColumn(pid)) == pid
  {
  }

  /// An entry is visible while it has no expiry or its expiry is still
  /// ahead (`expires_at IS NULL OR expires_at > now`).
  predicate Visible(r: ClipboardRecord, now: Timestamp)
  {
    r.expires_at.None? || r.expires_at.value > now
  }

  /// Removed by a cleanup (`expires_at IS NOT NULL AND expires_at < now`).
  predicate Expired(r: ClipboardRecord, now: Timestamp)
  {
    r.expires_at.Some? && r.expires_at.value < now
  }

  /// An entry expiring exactly now is neither listed nor removed.
  lemma ExpiringNowInLimbo(r: ClipboardRecord, now: Timestamp)
    requires r.expires_at == Some(now)
    ensures !Visible(r, now) && !Expired(r, now)
  {
  }

  /// `order` lists the keys of `m` with the key selected by `at` not
  /// increasing (`ORDER BY … DESC`).
  ghost predicate Descending<V>(m: map<string, V>, order: seq<string>, at: V -> Timestamp)
  {
    IsKeyOrder(m, order) && forall i, j :: 0 <= i < j < |order| ==> at(m[order[i]]) >= at(m[order[j]])
  }

  /// SQLite's text comparison under its default collation: code point by
  /// code point, a proper prefix first.
  predicate TextLe(a: string, b: string)
    decreases |a|
  {
    if a == [] then true
    else if b == [] then false
    else if a[0] != b[0] then a[0] < b[0]
    else TextLe(a[1..], b[1..])
  }

  /// Any two texts are ordered one way or the other.
  lemma {:induction false} TextLeTotal(a: string, b: string)
    ensures TextLe(a, b) || TextLe(b, a)
    decreases |a|
  {
    if a != [] && b != [] && a[0] == b[0] {
      TextLeTotal(a[1..], b[1..]);
    }
  }

  /// Texts ordered both ways are equal.
  lemma {:induction false} TextLeAntisymmetric(a: string, b: string)
    requires TextLe(a, b) && TextLe(b, a)
    ensures a == b
    decreases |a|
  {
    if a != [] && b != [] {
      TextLeAntisymmetric(a[1..], b[1..]);
      assert a == [a[0]] + a[1..] && b == [b[0]] + b[1..];
    }
  }

  /// `ORDER BY category, name`: a missing category sorts first (SQLite
  /// puts NULL before every text), then by category, then by name.
  predicate CategoryNameLe(x: ProcessTemplateRecord, y: ProcessTemplateRecord)
  {
    if x.category != y.category then x.category.None? || (y.category.Some? && TextLe(x.category.value, y.category.value))
    else TextLe(x.name, y.name)
  }

  /// Any two template rows are ordered one way or the other.
  lemma CategoryNameTotal(x: ProcessTemplateRecord, y: ProcessTemplateRecord)
    ensures CategoryNameLe(x, y) || CategoryNameLe(y, x)
  {
    if x.category != y.category && x.category.Some? && y.category.Some? {
      TextLeTotal(x.category.value, y.category.value);
    } else {
      TextLeTotal(x.name, y.name);
    }
  }

  /// `order` lists the template keys, each once, by category and then name.
  ghost predicate TemplateOrder(m: map<string, ProcessTemplateRecord>, order: seq<string>)
  {
    IsKeyOrder(m, order) && forall i, j :: 0 <= i < j < |order| ==> CategoryNameLe(m[order[i]], m[order[j]])
  }

  // ---------------------------------------------------------------------
  // Query text

  /// The number of `?` placeholders in a query text.
  function Placeholders(q: string): nat
  {
    if q == [] then 0 else Placeholders(q[..|q| - 1]) + (if q[|q| - 1] == '?' then 1 else 0)
  }

  lemma {:induction false} NoPlaceholder(s: string)
    requires '?' !in s
    ensures Placeholders(s) == 0
    decreases |s|
  {
    if s != [] {
      assert forall c :: c in s[..|s| - 1] ==> c in s;
      NoPlaceholder(s[..|s| - 1]);
    }
  }

  lemma {:induction false} PlaceholdersAppend(a: string, b: string)
    ensures Placeholders(a + b) == Placeholders(a) + Placeholders(b)
    decreases |b|
  {
    if b == [] {
      assert a + b == a;
    } else {
      assert (a + b)[..|a + b| - 1] == a + b[..|b| - 1];
      PlaceholdersAppend(a, b[..|b| - 1]);
    }
  }

  /// The filter clause `c`, present only when the filter is.
  function Clause(c: string, present: bool): string
  {
    if present then c else ""
  }

  function LimitClause(limit: Option<int>): string
  {
    if limit.Some? then " LIMIT " + IntToString(limit.value) else ""
  }

  /// Appends fixed text holding no placeholder.
  lemma AppendPlain(q: string, t: string)
    requires '?' !in t
    ensures Placeholders(q + t) == Placeholders(q)
  {
    NoPlaceholder(t);
    PlaceholdersAppend(q, t);
  }

  /// Appends fixed text, then one placeholder, then a placeholder number.
  lemma AppendMarked(q: string, t: string, number: string)
    requires '?' !in t && '?' !in number
    ensures Placeholders(q + (t + "?" + number)) == Placeholders(q) + 1
  {
    NoPlaceholder(t);
    NoPlaceholder(number);
    PlaceholdersAppend(t, "?");
    PlaceholdersAppend(t + "?", number);
    PlaceholdersAppend(q, t + "?" + number);
  }

  lemma AppendLimit(q: string, limit: Option<int>)
    ensures Placeholders(q + LimitClause(limit)) == Placeholders(q)
  {
    if limit.Some? {
      var l := " LIMIT ";
      var digits := IntToString(limit.value);
      assert '?' !in l;
      assert '?' !in digits;
      AppendPlain(l, digits);
      NoPlaceholder(l);
      AppendPlain(q, l + digits);
    } else {
      assert q + LimitClause(limit) == q;
    }
  }

  function HistoryText(filtered: bool, limit: Option<int>): string
  {
    "SELECT * FROM process_history" + Clause(" WHERE process_id = ?1", filtered)
    + " ORDER BY started_at DESC" + LimitClause(limit)
  }

  /// The history query has a placeholder exactly when it is filtered.
  lemma HistoryPlaceholders(filtered: bool, limit: Option<int>)
    ensures Placeholders(HistoryText(filtered, limit)) == if filtered then 1 else 0
  {
    var q := "SELECT * FROM process_history" + Clause(" WHERE process_id = ?1", filtered);
    HistoryFilterPlaceholders(filtered);
    var order := " ORDER BY started_at DESC";
    assert '?' !in order;
    AppendPlain(q, order);
    AppendLimit(q + order, limit);
  }

  lemma HistoryFilterPlaceholders(filtered: bool)
    ensures Placeholders("SELECT * FROM process_history" + Clause(" WHERE process_id = ?1", filtered))
            == if filtered then 1 else 0
  {
    var select := "SELECT * FROM process_history";
    assert '?' !in select;
    NoPlaceholder(select);
    var filter := " WHERE process_id = ";
    assert '?' !in filter;
    if filtered {
      AppendMarked(select, filter, "1");
      assert select + (filter + "?" + "1") == select + Clause(" WHERE process_id = ?1", filtered);
    } else {
      assert select == select + Clause(" WHERE process_id = ?1", filtered);
    }
  }

  /// `ProcessHistoryQueries::get_history`'s query and its bound values:
  /// the process filter is added exactly when a process id is given, the
  /// rows come newest first, the limit is added exactly when given, and
  /// with `HistoryPlaceholders`, the query has one placeholder per bound
  /// value.
  method HistoryQuery(processId: Option<string>, limit: Option<int>) returns (query: string, binds: seq<string>)
    ensures query == HistoryText(processId.Some?, limit)
    ensures binds == if processId.Some? then [processId.value] else []
  {
    query := "SELECT * FROM process_history";
    query := query + Clause(" WHERE process_id = ?1", processId.Some?);
    query := query + " ORDER BY started_at DESC";
    query := query + LimitClause(limit);
    binds := if processId.Some? then [processId.value] else [];
  }

  function EventsText(byType: bool, bySeverity: bool, limit: Option<int>): string
  {
    "SELECT * FROM system_events WHERE 1=1" + Clause(" AND event_type = ?", byType)
    + Clause(" AND severity = ?", bySeverity) + " ORDER BY timestamp DESC" + LimitClause(limit)
  }

  /// Appending an optional `AND … = ?` clause adds its one placeholder
  /// exactly when the clause is present.
  lemma AppendFilter(q: string, column: string, present: bool)
    requires '?' !in column
    ensures Placeholders(q + Clause(column + "?", present)) == Placeholders(q) + (if present then 1 else 0)
  {
    if present {
      AppendMarked(q, column, "");
      assert column + "?" + "" == column + "?";
    } else {
      assert q + Clause(column + "?", present) == q;
    }
  }

  /// The events query has one placeholder per filter it carries.
  lemma EventsPlaceholders(byType: bool, bySeverity: bool, limit: Option<int>)
    ensures Placeholders(EventsText(byType, bySeverity, limit)) == (if byType then 1 else 0) + (if bySeverity then 1 else 0)
  {
    var q := "SELECT * FROM system_events WHERE 1=1" + Clause(" AND event_type = ?", byType)
             + Clause(" AND severity = ?", bySeverity);
    EventFiltersPlaceholders(byType, bySeverity);
    var order := " ORDER BY timestamp DESC";
    assert '?' !in order;
    AppendPlain(q, order);
    AppendLimit(q + order, limit);
  }

  lemma EventFiltersPlaceholders(byType: bool, bySeverity: bool)
    ensures Placeholders("SELECT * FROM system_events WHERE 1=1" + Clause(" AND event_type = ?", byType)
                         + Clause(" AND severity = ?", bySeverity)) == (if byType then 1 else 0) + (if bySeverity then 1 else 0)
  {
    var select := "SELECT * FROM system_events WHERE 1=1";
    assert '?' !in select;
    NoPlaceholder(select);
    var typeColumn := " AND event_type = ";
    assert '?' !in typeColumn;
    assert typeColumn + "?" == " AND event_type = ?";
    AppendFilter(select, typeColumn, byType);
    var q1 := select + Clause(" AND event_type = ?", byType);
    var severityColumn := " AND severity = ";
    assert '?' !in severityColumn;
    assert severityColumn + "?" == " AND severity = ?";
    AppendFilter(q1, severityColumn, bySeverity);
  }

  /// `SystemEventQueries::get_events`' query and its bound values: one
  /// `AND … = ?` clause per given filter, type before severity, bound in
  /// the same order; with `EventsPlaceholders`, the query has one
  /// placeholder per bound value.
  method EventsQuery(eventType: Option<string>, severity: Option<string>, limit: Option<int>)
    returns (query: string, binds: seq<string>)
    ensures query == EventsText(eventType.Some?, severity.Some?, limit)
    ensures binds == (if eventType.Some? then [eventType.value] else []) + (if severity.Some? then [severity.value] else [])
  {
    query := "SELECT * FROM system_events WHERE 1=1";
    binds := [];
    query := query + Clause(" AND event_type = ?", eventType.Some?);
    if eventType.Some? {
      binds := binds + [eventType.value];
    }
    query := query + Clause(" AND severity = ?", severity.Some?);
    if severity.Some? {
      binds := binds + [severity.value];
    }
    query := query + " ORDER BY timestamp DESC";
    query := query + LimitClause(limit);
  }

  // ---------------------------------------------------------------------
  // The database

  class Database {
    var clipboard: map<string, ClipboardRecord>
    var history: seq<ProcessHistoryRecord>
    var processes: map<string, ProcessRecord>
    var templates: map<string, ProcessTemplateRecord>
    var settings: map<string, SettingsRecord>
    var events: seq<SystemEventRecord>
    /// The next row id handed out by an insert.
    var nextId: int

    /// Each keyed row carries its own key, and every row id is below the
    /// next one to be handed out.
    ghost predicate Valid()
      reads this
    {
      && (forall k :: k in clipboard ==> clipboard[k].key == k && clipboard[k].id < nextId)
      && (forall k :: k in processes ==> processes[k].process_id == k && processes[k].id < nextId)
      && (forall k :: k in templates ==> templates[k].template_id == k && templates[k].id < nextId)
      && (forall k :: k in settings ==> settings[k].key == k)
      && (forall i :: 0 <= i < |history| ==> history[i].id < nextId)
      && (forall i :: 0 <= i < |events| ==> events[i].id < nextId)
    }

    /// A freshly created database: every table empty.
    constructor ()
      ensures Valid()
      ensures clipboard == map[] && history == [] && processes == map[] && templates == map[]
      ensures settings == map[] && events == []
    {
      clipboard := map[];
      history := [];
      processes := map[];
      templates := map[];
      settings := map[];
      events := [];
      nextId := 1;
    }

    // -------------------------------------------------------------------
    // Clipboard

    /// `ClipboardQueries::store`: an upsert on `key`. A new key gets a new
    /// row id; an existing one keeps its id, creation time and last access
    /// and has its content, type, metadata and expiry replaced.
    method StoreClipboard(key: string, content: string, contentType: string, metadata: Option<string>,
                          expiresAt: Option<Timestamp>, now: Timestamp) returns (id: int)
      requires Valid()
      modifies this
      ensures Valid()
      ensures key in old(clipboard) ==> id == old(clipboard[key].id) && nextId == old(nextId)
      ensures key !in old(clipboard) ==> id == old(nextId) && nextId == old(nextId) + 1
      ensures clipboard == old(clipboard)[key := ClipboardRecord(
        id, key, content, contentType, metadata,
        if key in old(clipboard) then old(clipboard[key].created_at) else now,
        now,
        if key in old(clipboard) then old(clipboard[key].accessed_at) else None,
        expiresAt)]
      ensures history == old(history) && processes == old(processes) && templates == old(templates)
      ensures settings == old(settings) && events == old(events)
    {
      if key in clipboard {
        var r := clipboard[key];
        id := r.id;
        clipboard := clipboard[key := r.(content := content, content_type := contentType,
                                            metadata := metadata, updated_at := now, expires_at := expiresAt)];
      } else {
        id := nextId;
        nextId := nextId + 1;
        clipboard := clipboard[key := ClipboardRecord(id, key, content, contentType, metadata, now, now, None, expiresAt)];
      }
    }

    /// `ClipboardQueries::get`: the access time of the key's row is
    /// stamped whether or not it has expired; the row is returned only
    /// while it is visible.
    method GetClipboard(key: string, now: Timestamp) returns (r: Option<ClipboardRecord>)
      requires Valid()
      modifies this
      ensures Valid()
      ensures key in old(clipboard) ==> clipboard == old(clipboard)[key := old(clipboard[key]).(accessed_at := Some(now))]
      ensures key !in old(clipboard) ==> clipboard == old(clipboard)
      ensures r.Some? <==> key in clipboard && Visible(clipboard[key], now)
      ensures r.Some? ==> r.value == clipboard[key]
      ensures nextId == old(nextId) && history == old(history) && processes == old(processes)
      ensures templates == old(templates) && settings == old(settings) && events == old(events)
    {
      if key in clipboard {
        clipboard := clipboard[key := clipboard[key].(accessed_at := Some(now))];
      }
      if key in clipboard && Visible(clipboard[key], now) {
        r := Some(clipboard[key]);
      } else {
        r := None;
      }
    }

    /// The rows of the clipboard table, in the given key order.
    function ClipboardRows(order: seq<string>): (rows: seq<ClipboardRecord>)
      reads this
      requires IsKeyOrder(clipboard, order)
      ensures |rows| == |order| && forall i :: 0 <= i < |order| ==> rows[i] == clipboard[order[i]]
      ensures forall c :: c in clipboard.Values ==> c in rows
    {
      var m := clipboard;
      var rows := seq(|order|, i requires 0 <= i < |order| => m[order[i]]);
      assert forall c :: c in m.Values ==> c in rows by {
        forall c | c in m.Values ensures c in rows {
          var k :| k in m && m[k] == c;
          var i :| 0 <= i < |order| && order[i] == k;
          assert rows[i] == c;
        }
      }
      rows
    }

    /// `ClipboardQueries::list`: the visible entries, most recently
    /// updated first (`ORDER BY updated_at DESC`); `order` is that
    /// ordering of the table's keys.
    function ListClipboard(now: Timestamp, order: seq<string>): (r: seq<ClipboardRecord>)
      reads this
      requires Descending(clipboard, order, (c: ClipboardRecord) => c.updated_at)
      ensures r == Kept(ClipboardRows(order), (c: ClipboardRecord) => Visible(c, now))
      ensures forall c :: c in r <==> c in clipboard.Values && Visible(c, now)
      ensures DescendingBy(r, (c: ClipboardRecord) => c.updated_at)
    {
      var rows := ClipboardRows(order);
      KeptMembers(rows, (c: ClipboardRecord) => Visible(c, now));
      assert DescendingBy(rows, (c: ClipboardRecord) => c.updated_at);
      KeptDescending(rows, (c: ClipboardRecord) => Visible(c, now), (c: ClipboardRecord) => c.updated_at);
      Kept(rows, (c: ClipboardRecord) => Visible(c, now))
    }

    /// `ClipboardQueries::delete`: true exactly when a row was removed.
    method DeleteClipboard(key: string) returns (removed: bool)
      requires Valid()
      modifies this
      ensures Valid()
      ensures removed <==> key in old(clipboard)
      ensures clipboard == old(clipboard) - {key}
      ensures nextId == old(nextId) && history == old(history) && processes == old(processes)
      ensures templates == old(templates) && settings == old(settings) && events == old(events)
    {
      removed := key in clipboard;
      clipboard := clipboard - {key};
    }

    /// `ClipboardQueries::cleanup_expired`: removes the entries whose
    /// expiry has passed and reports how many.
    method CleanupExpired(now: Timestamp) returns (count: nat)
      requires Valid()
      modifies this
      ensures Valid()
      ensures clipboard == map k | k in old(clipboard) && !Expired(old(clipboard[k]), now) :: old(clipboard[k])
      ensures count == |old(clipboard).Keys - clipboard.Keys|
      ensures nextId == old(nextId) && history == old(history) && processes == old(processes)
      ensures templates == old(templates) && settings == old(settings) && events == old(events)
    {
      var before := clipboard;
      clipboard := map k | k in before && !Expired(before[k], now) :: before[k];
      count := |before.Keys - clipboard.Keys|;
    }

    // -------------------------------------------------------------------
    // Process history

    /// `ProcessHistoryQueries::record_start`: appends an open run.
    method RecordStart(processId: string, name: string, command: string, args: Option<string>,
                       env: Option<string>, cwd: Option<string>, now: Timestamp) returns (id: int)
      requires Valid()
      modifies this
      ensures Valid()
      ensures id == old(nextId) && nextId == old(nextId) + 1
      ensures history == old(history) + [ProcessHistoryRecord(id, processId, name, command, args, env, cwd,
                                                              now, None, None, None, now)]
      ensures clipboard == old(clipboard) && processes == old(processes)
      ensures templates == old(templates) && settings == old(settings) && events == old(events)
    {
      id := nextId;
      nextId := nextId + 1;
      history := history + [ProcessHistoryRecord(id, processId, name, command, args, env, cwd, now, None, None, None, now)];
    }

    /// `ProcessHistoryQueries::record_stop`: closes every open run of the
    /// process and touches nothing else.
    method RecordStop(processId: string, exitCode: Option<I32>, error: Option<string>, now: Timestamp)
      requires Valid()
      modifies this
      ensures Valid()
      ensures |history| == |old(history)|
      ensures forall i :: 0 <= i < |history| ==>
        history[i] == if old(history[i]).process_id == processId && old(history[i]).stopped_at.None?
                      then old(history[i]).(stopped_at := Some(now), exit_code := exitCode, error := error)
                      else old(history[i])
      ensures nextId == old(nextId) && clipboard == old(clipboard) && processes == old(processes)
      ensures templates == old(templates) && settings == old(settings) && events == old(events)
    {
      var before := history;
      history := seq(|before|, i requires 0 <= i < |before| =>
        if before[i].process_id == processId && before[i].stopped_at.None?
        then before[i].(stopped_at := Some(now), exit_code := exitCode, error := error)
        else before[i]);
    }

    // -------------------------------------------------------------------
    // Processes

    /// `ProcessQueries::upsert`: an upsert on `process_id`. The stored row
    /// keeps its row id and creation time; every other column is replaced
    /// and `updated_at` is now. A new process id gets a new row id and the
    /// record's own creation time.
    method UpsertProcess(p: P.ProcessInfo, json: JsonCodec, now: Timestamp) returns (id: int)
      requires Valid()
      modifies this
      ensures Valid()
      ensures p.process_id in old(processes) ==> id == old(processes[p.process_id].id) && nextId == old(nextId)
      ensures p.process_id !in old(processes) ==> id == old(nextId) && nextId == old(nextId) + 1
      ensures processes == old(processes)[p.process_id := ProcessRow(
        p, json, id, if p.process_id in old(processes) then old(processes[p.process_id].created_at) else p.created_at, now)]
      ensures clipboard == old(clipboard) && history == old(history)
      ensures templates == old(templates) && settings == old(settings) && events == old(events)
    {
      if p.process_id in processes {
        var existing := processes[p.process_id];
        id := existing.id;
        processes := processes[p.process_id := ProcessRow(p, json, id, existing.created_at, now)];
      } else {
        id := nextId;
        nextId := nextId + 1;
        processes := processes[p.process_id := ProcessRow(p, json, id, p.created_at, now)];
      }
    }

    /// `ProcessQueries::get`.
    function GetProcess(processId: string): (r: Option<ProcessRecord>)
      reads this
      ensures r.Some? <==> processId in processes
      ensures r.Some? ==> r.value == processes[processId]
    {
      if processId in processes then Some(processes[processId]) else None
    }

    /// `ProcessQueries::list`: every row, most recently updated first.
    function ListProcesses(order: seq<string>): (r: seq<ProcessRecord>)
      reads this
      requires Descending(processes, order, (p: ProcessRecord) => p.updated_at)
      ensures |r| == |processes| == |order|
      ensures forall i :: 0 <= i < |r| ==> r[i] == processes[order[i]]
      ensures forall i, j :: 0 <= i < j < |r| ==> r[i].updated_at >= r[j].updated_at
    {
      KeyOrderLength(processes, order);
      var m := processes;
      seq(|order|, i requires 0 <= i < |order| => m[order[i]])
    }

    /// `ProcessQueries::delete`: true exactly when a row was removed.
    method DeleteProcess(processId: string) returns (removed: bool)
      requires Valid()
      modifies this
      ensures Valid()
      ensures removed <==> processId in old(processes)
      ensures processes == old(processes) - {processId}
      ensures nextId == old(nextId) && clipboard == old(clipboard) && history == old(history)
      ensures templates == old(templates) && settings == old(settings) && events == old(events)
    {
      removed := processId in processes;
      processes := processes - {processId};
    }

    // -------------------------------------------------------------------
    // Templates

    /// `ProcessTemplateQueries::upsert`: an upsert on `template_id` that
    /// keeps the stored row id and creation time.
    method UpsertTemplate(t: P.ProcessTemplate, json: JsonCodec, now: Timestamp) returns (id: int)
      requires Valid()
      modifies this
      ensures Valid()
      ensures t.template_id in old(templates) ==> id == old(templates[t.template_id].id) && nextId == old(nextId)
      ensures t.template_id !in old(templates) ==> id == old(nextId) && nextId == old(nextId) + 1
      ensures templates == old(templates)[t.template_id := TemplateRow(
        t, json, id, if t.template_id in old(templates) then old(templates[t.template_id].created_at) else t.created_at, now)]
      ensures clipboard == old(clipboard) && history == old(history)
      ensures processes == old(processes) && settings == old(settings) && events == old(events)
    {
      if t.template_id in templates {
        var existing := templates[t.template_id];
        id := existing.id;
        templates := templates[t.template_id := TemplateRow(t, json, id, existing.created_at, now)];
      } else {
        id := nextId;
        nextId := nextId + 1;
        templates := templates[t.template_id := TemplateRow(t, json, id, t.created_at, now)];
      }
    }

    /// `ProcessTemplateQueries::get`.
    function GetTemplate(templateId: string): (r: Option<ProcessTemplateRecord>)
      reads this
      ensures r.Some? <==> templateId in templates
      ensures r.Some? ==> r.value == templates[templateId]
    {
      if templateId in templates then Some(templates[templateId]) else None
    }

    /// `ProcessTemplateQueries::list`; `order` is the table's keys ordered
    /// by category and then name.
    function ListTemplates(order: seq<string>): (r: seq<ProcessTemplateRecord>)
      reads this
      requires TemplateOrder(templates, order)
      ensures |r| == |templates|
      ensures forall t :: t in r <==> t in templates.Values
      ensures forall i, j :: 0 <= i < j < |r| ==> CategoryNameLe(r[i], r[j])
    {
      KeyOrderLength(templates, order);
      var m := templates;
      var rows := seq(|order|, i requires 0 <= i < |order| => m[order[i]]);
      assert forall t :: t in m.Values ==> t in rows by {
        forall t | t in m.Values ensures t in rows {
          var k :| k in m && m[k] == t;
          var i :| 0 <= i < |order| && order[i] == k;
          assert rows[i] == t;
        }
      }
      rows
    }

    /// `ProcessTemplateQueries::delete`: true exactly when a row was removed.
    method DeleteTemplate(templateId: string) returns (removed: bool)
      requires Valid()
      modifies this
      ensures Valid()
      ensures removed <==> templateId in old(templates)
      ensures templates == old(templates) - {templateId}
      ensures nextId == old(nextId) && clipboard == old(clipboard) && history == old(history)
      ensures processes == old(processes) && settings == old(settings) && events == old(events)
    {
      removed := templateId in templates;
      templates := templates - {templateId};
    }

    // -------------------------------------------------------------------
    // Settings

    /// `SettingsQueries::set`: an upsert on `key` that keeps the creation
    /// time of an existing setting.
    method SetSetting(key: string, value: string, now: Timestamp)
      requires Valid()
      modifies this
      ensures Valid()
      ensures settings == old(settings)[key := SettingsRecord(
        key, value, if key in old(settings) then old(settings[key].created_at) else now, now)]
      ensures nextId == old(nextId) && clipboard == old(clipboard) && history == old(history)
      ensures processes == old(processes) && templates == old(templates) && events == old(events)
    {
      var created := if key in settings then settings[key].created_at else now;
      settings := settings[key := SettingsRecord(key, value, created, now)];
    }

    /// `SettingsQueries::get`.
    function GetSetting(key: string): (r: Option<string>)
      reads this
      ensures r.Some? <==> key in settings
      ensures r.Some? ==> r.value == settings[key].value
    {
      if key in settings then Some(settings[key].value) else None
    }

    /// `SettingsQueries::list`; `order` is the table's keys in order.
    function ListSettings(order: seq<string>): (r: seq<SettingsRecord>)
      reads this
      requires IsKeyOrder(settings, order)
      ensures |r| == |order| && forall i :: 0 <= i < |r| ==> r[i] == settings[order[i]]
    {
      var m := settings;
      seq(|order|, i requires 0 <= i < |order| => m[order[i]])
    }

    /// `SettingsQueries::delete`: true exactly when a row was removed.
    method DeleteSetting(key: string) returns (removed: bool)
      requires Valid()
      modifies this
      ensures Valid()
      ensures removed <==> key in old(settings)
      ensures settings == old(settings) - {key}
      ensures nextId == old(nextId) && clipboard == old(clipboard) && history == old(history)
      ensures processes == old(processes) && templates == old(templates) && events == old(events)
    {
      removed := key in settings;
      settings := settings - {key};
    }

    // -------------------------------------------------------------------
    // System events

    /// `SystemEventQueries::record`: appends an event stamped now.
    method RecordEvent(eventType: string, description: string, details: Option<string>, severity: string,
                       now: Timestamp) returns (id: int)
      requires Valid()
      modifies this
      ensures Valid()
      ensures id == old(nextId) && nextId == old(nextId) + 1
      ensures events == old(events) + [SystemEventRecord(id, eventType, description, details, severity, now)]
      ensures clipboard == old(clipboard) && history == old(history) && processes == old(processes)
      ensures templates == old(templates) && settings == old(settings)
    {
      id := nextId;
      nextId := nextId + 1;
      events := events + [SystemEventRecord(id, eventType, description, details, severity, now)];
    }
  }

  /// The row the process upsert writes, given the row id and creation
  /// time it keeps.
  function ProcessRow(p: P.ProcessInfo, json: JsonCodec, id: int, createdAt: Timestamp, now: Timestamp): (r: ProcessRecord)
    ensures r.process_id == p.process_id && r.state == StateText(p.status.state)
    ensures r.args == Some(json.list(p.args)) && r.env == Some(json.dict(p.env)) && r.tags == Some(json.list(p.tags))
    ensures r.pid == (if p.status.pid.Some? then Some(PidColumn(p.status.pid.value)) else None)
    ensures r.id == id && r.created_at == createdAt && r.updated_at == now
  {
    ProcessRecord(id, p.process_id, p.name, p.command, Some(json.list(p.args)), Some(json.dict(p.env)), p.cwd,
                  StateText(p.status.state),
                  if p.status.pid.Some? then Some(PidColumn(p.status.pid.value)) else None,
                  p.status.exit_code, p.status.started_at, p.status.stopped_at, p.status.error,
                  Some(json.list(p.tags)), p.auto_start_on_restore, createdAt, now)
  }

  /// The row the template upsert writes.
  function TemplateRow(t: P.ProcessTemplate, json: JsonCodec, id: int, createdAt: Timestamp, now: Timestamp)
    : (r: ProcessTemplateRecord)
    ensures r.template_id == t.template_id && r.variables == Some(json.variables(t.variables))
    ensures r.args == Some(json.list(t.args)) && r.env == Some(json.dict(t.env)) && r.tags == Some(json.list(t.tags))
    ensures r.id == id && r.created_at == createdAt && r.updated_at == now
  {
    ProcessTemplateRecord(id, t.template_id, t.name, t.description, t.category, t.command, Some(json.list(t.args)),
                          Some(json.dict(t.env)), t.default_cwd, t.default_auto_start, Some(json.variables(t.variables)),
                          Some(json.list(t.tags)), createdAt, now)
  }
}
