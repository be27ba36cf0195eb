// The persistence manager of the ichimi-persistence crate
// (crates/ichimi-persistence/src/persistence/manager.rs): processes,
// templates, clipboard entries and settings kept in the SQLite tables of
// `Queries.Database`, converted to and from the crate's records, and the
// KDL configuration file read into and written from the process table.
// File access is a parameter: the configuration file's content when it
// exists, and the text that would be written.

module PersistManager {
  import opened Common
  import P = PersistTypes
  import Q = Queries
  import K = KdlSerde
  import J = JsonValues
  import opened PersistRows
  import opened PersistSettings
  import opened PersistClipboard
  import opened PersistHistory
  import opened PersistConfig

  // ---------------------------------------------------------------------
  // The manager

  /// Every template row converted, or the first conversion error.
  function TemplatesOf(rows: seq<Q.ProcessTemplateRecord>, json: Q.JsonCodec): Result<seq<P.ProcessTemplate>>
  {
    CollectAll(rows, (row: Q.ProcessTemplateRecord) => RecordToTemplate(row, json))
  }

  /// Converting a listing of the whole table gives one template per row,
  /// each the conversion of a stored row; it cannot fail while every row is
  /// readable.
  lemma TemplatesFromTable(table: map<string, Q.ProcessTemplateRecord>, rows: seq<Q.ProcessTemplateRecord>,
                           json: Q.JsonCodec)
    requires forall t :: t in rows <==> t in table.Values
    ensures (forall k :: k in table ==> RecordToTemplate(table[k], json).Ok?) ==> TemplatesOf(rows, json).Ok?
    ensures TemplatesOf(rows, json).Ok? ==> |TemplatesOf(rows, json).value| == |rows|
    ensures TemplatesOf(rows, json).Ok? ==> forall t :: t in TemplatesOf(rows, json).value ==>
              exists k :: k in table && Ok(t) == RecordToTemplate(table[k], json)
  {
    var r := TemplatesOf(rows, json);
    if forall k :: k in table ==> RecordToTemplate(table[k], json).Ok? {
      forall i | 0 <= i < |rows| ensures RecordToTemplate(rows[i], json).Ok? {
        assert rows[i] in table.Values;
      }
    }
    if r.Ok? {
      forall t | t in r.value ensures exists k :: k in table && Ok(t) == RecordToTemplate(table[k], json) {
        var i :| 0 <= i < |r.value| && r.value[i] == t;
        assert rows[i] in table.Values;
      }
    }
  }

  class PersistenceManager {
    const db: Q.Database

    ghost predicate Valid()
      reads db
    {
      db.Valid()
    }

    /// Every stored process row converts back into a record.
    ghost predicate ProcessesReadable(json: Q.JsonCodec)
      reads db
    {
      forall k :: k in db.processes ==> RecordToProcessInfo(db.processes[k], json).Ok?
    }

    /// Every stored template row converts back into a template.
    ghost predicate TemplatesReadable(json: Q.JsonCodec)
      reads db
    {
      forall k :: k in db.templates ==> RecordToTemplate(db.templates[k], json).Ok?
    }

    /// `PersistenceManager::new` over an opened database; loading the
    /// configuration file is `LoadConfig`.
    constructor (database: Q.Database)
      requires database.Valid()
      ensures db == database && Valid()
    {
      db := database;
    }

    // -------------------------------------------------------------------
    // Processes

    /// `save_process` (and `update_process`, which is the same call): the
    /// process is upserted under its process id, and reading it back gives
    /// the record saved under the row's id and timestamps.
    method SaveProcess(p: P.ProcessInfo, json: Q.JsonCodec, now: Timestamp)
      requires Valid()
      modifies db
      ensures Valid()
      ensures p.process_id in db.processes
      ensures var row := db.processes[p.process_id];
        && db.processes == old(db.processes)[p.process_id := Q.ProcessRow(p, json, row.id, row.created_at, now)]
        && (p.process_id in old(db.processes) ==>
              row.id == old(db.processes[p.process_id].id) && row.created_at == old(db.processes[p.process_id].created_at))
        && (p.process_id !in old(db.processes) ==> row.created_at == p.created_at)
        && (Q.Faithful(json) ==> GetProcess(p.process_id, json) == Ok(Some(Stored(p, row.id, row.created_at, now))))
      ensures Q.Faithful(json) && old(ProcessesReadable(json)) ==> ProcessesReadable(json)
      ensures db.clipboard == old(db.clipboard) && db.history == old(db.history) && db.templates == old(db.templates)
      ensures db.settings == old(db.settings) && db.events == old(db.events)
    {
      var id := db.UpsertProcess(p, json, now);
      var row := db.processes[p.process_id];
      if Q.Faithful(json) {
        ProcessRowRoundTrip(p, json, row.id, row.created_at, now);
      }
    }

    /// `get_process`: nothing when no row has the id, the converted row
    /// otherwise, or the conversion's error.
    function GetProcess(processId: string, json: Q.JsonCodec): (r: Result<Option<P.ProcessInfo>>)
      reads db
      ensures processId !in db.processes ==> r == Ok(None)
      ensures processId in db.processes ==>
        (r.Ok? <==> RecordToProcessInfo(db.processes[processId], json).Ok?)
      ensures r.Ok? && r.value.Some? ==> processId in db.processes && r.value.value.process_id == db.processes[processId].process_id
    {
      match db.GetProcess(processId)
      case None => Ok(None)
      case Some(row) =>
        match RecordToProcessInfo(row, json)
        case Ok(info) => Ok(Some(info))
        case Err(e) => Err(e)
    }

    /// `delete_process`: afterwards no record has the id.
    method DeleteProcess(processId: string, json: Q.JsonCodec)
      requires Valid()
      modifies db
      ensures Valid()
      ensures db.processes == old(db.processes) - {processId}
      ensures GetProcess(processId, json) == Ok(None)
      ensures old(ProcessesReadable(json)) ==> ProcessesReadable(json)
      ensures db.clipboard == old(db.clipboard) && db.history == old(db.history) && db.templates == old(db.templates)
      ensures db.settings == old(db.settings) && db.events == old(db.events)
    {
      var _ := db.DeleteProcess(processId);
    }

    /// `load_all_processes`: every row converted, most recently updated
    /// first, or the first conversion error; it cannot fail while every
    /// row is readable.
    function LoadAllProcesses(json: Q.JsonCodec, order: seq<string>): (r: Result<seq<P.ProcessInfo>>)
      reads db
      requires Q.Descending(db.processes, order, (p: Q.ProcessRecord) => p.updated_at)
      ensures |order| == |db.processes|
      ensures r.Ok? <==> forall i :: 0 <= i < |order| ==> RecordToProcessInfo(db.processes[order[i]], json).Ok?
      ensures r.Ok? ==> |r.value| == |order|
      ensures r.Ok? ==> forall i :: 0 <= i < |order| ==>
        Ok(r.value[i]) == RecordToProcessInfo(db.processes[order[i]], json)
      ensures r.Ok? ==> forall i, j :: 0 <= i < j < |r.value| ==> r.value[i].updated_at >= r.value[j].updated_at
    {
      LoadAll(db.processes, order, json)
    }

    /// While every stored row is readable, loading all processes
    /// succeeds.
    lemma ReadableLoads(json: Q.JsonCodec, order: seq<string>)
      requires Q.Descending(db.processes, order, (p: Q.ProcessRecord) => p.updated_at)
      requires ProcessesReadable(json)
      ensures LoadAllProcesses(json, order).Ok?
    {
      forall i | 0 <= i < |order| ensures RecordToProcessInfo(db.processes[order[i]], json).Ok? {
        assert order[i] in db.processes;
      }
    }

    // -------------------------------------------------------------------
    // Templates

    /// `save_template`: the template is upserted under its template id and
    /// reads back as saved.
    method SaveTemplate(t: P.ProcessTemplate, json: Q.JsonCodec, now: Timestamp)
      requires Valid()
      modifies db
      ensures Valid()
      ensures t.template_id in db.templates
      ensures var row := db.templates[t.template_id];
        && db.templates == old(db.templates)[t.template_id := Q.TemplateRow(t, json, row.id, row.created_at, now)]
        && (Q.Faithful(json) ==>
              GetTemplate(t.template_id, json)
                == Ok(Some(t.(id := Some(IntToString(row.id)), created_at := row.created_at, updated_at := now))))
      ensures Q.Faithful(json) && old(TemplatesReadable(json)) ==> TemplatesReadable(json)
      ensures db.clipboard == old(db.clipboard) && db.history == old(db.history) && db.processes == old(db.processes)
      ensures db.settings == old(db.settings) && db.events == old(db.events)
    {
      var id := db.UpsertTemplate(t, json, now);
      var row := db.templates[t.template_id];
      if Q.Faithful(json) {
        TemplateRowRoundTrip(t, json, row.id, row.created_at, now);
      }
    }

    /// `get_template`.
    function GetTemplate(templateId: string, json: Q.JsonCodec): (r: Result<Option<P.ProcessTemplate>>)
      reads db
      ensures templateId !in db.templates ==> r == Ok(None)
      ensures templateId in db.templates ==> (r.Ok? <==> RecordToTemplate(db.templates[templateId], json).Ok?)
      ensures r.Ok? && r.value.Some? ==>
        templateId in db.templates && r.value.value.template_id == db.templates[templateId].template_id
    {
      match db.GetTemplate(templateId)
      case None => Ok(None)
      case Some(row) =>
        match RecordToTemplate(row, json)
        case Ok(t) => Ok(Some(t))
        case Err(e) => Err(e)
    }

    /// `list_templates`: one template per row, by category and then name,
    /// or the first conversion error; it cannot fail while every row is
    /// readable.
    function ListTemplates(json: Q.JsonCodec, order: seq<string>): (r: Result<seq<P.ProcessTemplate>>)
      reads db
      requires Q.TemplateOrder(db.templates, order)
      ensures TemplatesReadable(json) ==> r.Ok?
      ensures r.Ok? ==> |r.value| == |db.templates|
      ensures r.Ok? ==> var rows := db.ListTemplates(order);
        && (forall i :: 0 <= i < |r.value| ==> Ok(r.value[i]) == RecordToTemplate(rows[i], json))
        && forall i, j :: 0 <= i < j < |rows| ==> Q.CategoryNameLe(rows[i], rows[j])
      ensures r.Ok? ==> forall t :: t in r.value ==> exists k :: k in db.templates && Ok(t) == RecordToTemplate(db.templates[k], json)
    {
      var rows := db.ListTemplates(order);
      TemplatesFromTable(db.templates, rows, json);
      TemplatesOf(rows, json)
    }

    /// `delete_template`.
    method DeleteTemplate(templateId: string, json: Q.JsonCodec)
      requires Valid()
      modifies db
      ensures Valid()
      ensures db.templates == old(db.templates) - {templateId}
      ensures GetTemplate(templateId, json) == Ok(None)
      ensures db.clipboard == old(db.clipboard) && db.history == old(db.history) && db.processes == old(db.processes)
      ensures db.settings == old(db.settings) && db.events == old(db.events)
    {
      var _ := db.DeleteTemplate(templateId);
    }

    // -------------------------------------------------------------------
    // Clipboard

    /// `add_to_clipboard`: the content is stored as "text" under a key
    /// made from the current time, with the metadata value as its JSON
    /// text; the item returned carries the metadata's file name but not
    /// the key it was stored under.
    method AddToClipboard(content: string, metadata: Option<J.Json>, jt: J.JsonText, nanos: Option<int>,
                          generatedId: string, now: Timestamp) returns (item: P.ClipboardItem)
      requires Valid()
      modifies db
      ensures Valid()
      ensures item == P.NewClipboardItem(content, FilenameOf(metadata), Some("text"), generatedId, now)
      ensures GeneratedKey(nanos) in db.clipboard
      ensures var row := db.clipboard[GeneratedKey(nanos)];
        && db.clipboard == old(db.clipboard)[GeneratedKey(nanos) := row]
        && row.content == content && row.content_type == "text" && row.expires_at.None?
        && (metadata.None? <==> row.metadata.None?)
        && (J.Faithful(jt) ==> FilenameFromText(row.metadata, jt) == item.filename)
      ensures db.history == old(db.history) && db.processes == old(db.processes) && db.templates == old(db.templates)
      ensures db.settings == old(db.settings) && db.events == old(db.events)
    {
      var key := GeneratedKey(nanos);
      var text := if metadata.Some? then Some(jt.render(metadata.value)) else None;
      var _ := db.StoreClipboard(key, content, "text", text, None, now);
      item := P.NewClipboardItem(content, FilenameOf(metadata), Some("text"), generatedId, now);
      if J.Faithful(jt) && metadata.Some? {
        assert jt.parse(jt.render(metadata.value)) == Some(metadata.value);
      }
    }

    /// `set_clipboard_text`: `add_to_clipboard` without metadata.
    method SetClipboardText(text: string, jt: J.JsonText, nanos: Option<int>, generatedId: string, now: Timestamp)
      returns (item: P.ClipboardItem)
      requires Valid()
      modifies db
      ensures Valid()
      ensures item.content == text && item.filename.None? && item.content_type == Some("text")
      ensures GeneratedKey(nanos) in db.clipboard
      ensures var row := db.clipboard[GeneratedKey(nanos)];
        && db.clipboard == old(db.clipboard)[GeneratedKey(nanos) := row]
        && row.content == text && row.content_type == "text" && row.metadata.None? && row.expires_at.None?
      ensures db.history == old(db.history) && db.processes == old(db.processes) && db.templates == old(db.templates)
      ensures db.settings == old(db.settings) && db.events == old(db.events)
    {
      item := AddToClipboard(text, None, jt, nanos, generatedId, now);
    }

    /// `save_clipboard_item`: stored under the item's own id when it has
    /// one, the file name kept as JSON metadata and a missing content type
    /// stored as "text"; reading the row back gives the item's content and
    /// file name.
    method SaveClipboardItem(item: P.ClipboardItem, jt: J.JsonText, nanos: Option<int>, now: Timestamp)
      requires Valid()
      modifies db
      ensures Valid()
      ensures var key := if item.id.Some? then item.id.value else GeneratedKey(nanos);
        && key in db.clipboard
        && db.clipboard == old(db.clipboard)[key := db.clipboard[key]]
        && db.clipboard[key].content == item.content
        && db.clipboard[key].content_type == (if item.content_type.Some? then item.content_type.value else "text")
        && (item.filename.None? <==> db.clipboard[key].metadata.None?)
        && (J.Faithful(jt) ==> FilenameFromText(db.clipboard[key].metadata, jt) == item.filename)
      ensures db.history == old(db.history) && db.processes == old(db.processes) && db.templates == old(db.templates)
      ensures db.settings == old(db.settings) && db.events == old(db.events)
    {
      var key := if item.id.Some? then item.id.value else GeneratedKey(nanos);
      var metadata := if item.filename.Some? then Some(FilenameMetadata(item.filename.value, jt)) else None;
      var contentType := if item.content_type.Some? then item.content_type.value else "text";
      var _ := db.StoreClipboard(key, item.content, contentType, metadata, None, now);
      if J.Faithful(jt) && item.filename.Some? {
        FilenameRoundTrip(item.filename.value, jt);
      }
    }

    /// `get_clipboard_history`: the first `limit` visible entries, most
    /// recently updated first, each as a new item; `ids` are the ids
    /// generated for them in turn.
    function ClipboardHistory(limit: nat, jt: J.JsonText, ids: nat -> string, now: Timestamp, order: seq<string>)
      : (r: seq<P.ClipboardItem>)
      reads db
      requires Q.Descending(db.clipboard, order, (c: Q.ClipboardRecord) => c.updated_at)
      ensures var rows := db.ListClipboard(now, order);
        && |r| == (if limit < |rows| then limit else |rows|)
        && forall i :: 0 <= i < |r| ==> r[i] == ItemOf(rows[i], jt, ids(i), now)
    {
      var rows := db.ListClipboard(now, order);
      var n := if limit < |rows| then limit else |rows|;
      seq(n, i requires 0 <= i < n => ItemOf(rows[i], jt, ids(i), now))
    }

    /// `get_latest_clipboard_item`: the first entry of the listing, which
    /// is the most recently updated visible entry, if any.
    function LatestClipboardItem(jt: J.JsonText, generatedId: string, now: Timestamp, order: seq<string>)
      : (r: Option<P.ClipboardItem>)
      reads db
      requires Q.Descending(db.clipboard, order, (c: Q.ClipboardRecord) => c.updated_at)
      ensures r.None? <==> forall c :: c in db.clipboard.Values ==> !Q.Visible(c, now)
      ensures r.Some? ==> var rows := db.ListClipboard(now, order);
        && rows != [] && r.value == ItemOf(rows[0], jt, generatedId, now)
        && rows[0] in db.clipboard.Values && Q.Visible(rows[0], now)
        && forall c :: c in db.clipboard.Values && Q.Visible(c, now) ==> rows[0].updated_at >= c.updated_at
    {
      var rows := db.ListClipboard(now, order);
      if rows == [] then None
      else
        NewestFirst(rows, now);
        Some(ItemOf(rows[0], jt, generatedId, now))
    }

    /// The head of the listing is a visible entry updated no earlier than
    /// any other visible entry.
    lemma NewestFirst(rows: seq<Q.ClipboardRecord>, now: Timestamp)
      requires forall c :: c in rows <==> c in db.clipboard.Values && Q.Visible(c, now)
      requires DescendingBy(rows, (c: Q.ClipboardRecord) => c.updated_at)
      requires rows != []
      ensures rows[0] in db.clipboard.Values && Q.Visible(rows[0], now)
      ensures forall c :: c in db.clipboard.Values && Q.Visible(c, now) ==> rows[0].updated_at >= c.updated_at
    {
      assert rows[0] in rows;
      forall c | c in db.clipboard.Values && Q.Visible(c, now) ensures rows[0].updated_at >= c.updated_at {
        var j :| 0 <= j < |rows| && rows[j] == c;
      }
    }

    /// `get_clipboard_text`: the content of the latest item.
    function ClipboardText(now: Timestamp, order: seq<string>): (r: Option<string>)
      reads db
      requires Q.Descending(db.clipboard, order, (c: Q.ClipboardRecord) => c.updated_at)
      ensures r.None? <==> forall c :: c in db.clipboard.Values ==> !Q.Visible(c, now)
      ensures r.Some? ==> var rows := db.ListClipboard(now, order);
        && rows != [] && r.value == rows[0].content
        && rows[0] in db.clipboard.Values && Q.Visible(rows[0], now)
        && forall c :: c in db.clipboard.Values && Q.Visible(c, now) ==> rows[0].updated_at >= c.updated_at
    {
      var latest := LatestClipboardItem(J.JsonText((v: J.Json) => "", (t: string) => None), "", now, order);
      if latest.None? then None else Some(latest.value.content)
    }

    /// `clear_clipboard`: deletes each listed entry. The listing shows only
    /// visible entries, so an entry whose expiry has passed but that has
    /// not been cleaned up survives the clear.
    method ClearClipboard(now: Timestamp, order: seq<string>)
      requires Valid()
      requires Q.Descending(db.clipboard, order, (c: Q.ClipboardRecord) => c.updated_at)
      modifies db
      ensures Valid()
      ensures db.clipboard == map k | k in old(db.clipboard) && !Q.Visible(old(db.clipboard)[k], now) :: old(db.clipboard)[k]
      ensures db.history == old(db.history) && db.processes == old(db.processes) && db.templates == old(db.templates)
      ensures db.settings == old(db.settings) && db.events == old(db.events)
    {
      var rows := db.ListClipboard(now, order);
      ghost var before := db.clipboard;
      DeleteKeys(rows);
      ClearedTable(before, rows, db.clipboard, now);
    }

    /// The loop of `clear_clipboard`: one delete per listed row.
    method DeleteKeys(rows: seq<Q.ClipboardRecord>)
      requires Valid()
      modifies db
      ensures Valid()
      ensures db.clipboard == old(db.clipboard) - KeysOf(rows)
      ensures db.history == old(db.history) && db.processes == old(db.processes) && db.templates == old(db.templates)
      ensures db.settings == old(db.settings) && db.events == old(db.events)
    {
      ghost var gone: set<string> := {};
      var i := 0;
      while i < |rows|
        invariant 0 <= i <= |rows|
        invariant Valid()
        invariant gone == KeysOf(rows[..i])
        invariant db.clipboard == old(db.clipboard) - gone
        invariant db.history == old(db.history) && db.processes == old(db.processes) && db.templates == old(db.templates)
        invariant db.settings == old(db.settings) && db.events == old(db.events)
      {
        var _ := db.DeleteClipboard(rows[i].key);
        assert rows[..i + 1] == rows[..i] + [rows[i]];
        MinusMore(old(db.clipboard), gone, rows[i].key);
        gone := gone + {rows[i].key};
        i := i + 1;
      }
      assert rows[..i] == rows;
    }

    // -------------------------------------------------------------------
    // Settings

    /// `get_settings`: the defaults, overridden row by row. The result is
    /// the decoding of the table, whatever order the rows come in.
    method GetSettings(now: Timestamp, order: seq<string>) returns (s: P.Settings)
      requires Valid()
      requires IsKeyOrder(db.settings, order)
      ensures s == Decode(Values(db.settings), now)
    {
      var rows := db.ListSettings(order);
      s := P.DefaultSettings(now);
      var i := 0;
      while i < |rows|
        invariant 0 <= i <= |rows|
        invariant s == SettingsOf(rows[..i], now)
      {
        assert rows[..i + 1][..i] == rows[..i];
        s := ApplySetting(s, rows[i].key, rows[i].value);
        i := i + 1;
      }
      assert rows[..i] == rows;
      ListingDecoded(db.settings, order, rows, now);
    }

    /// `update_settings`: the theme and the flag, each optional field that
    /// is set, and every environment variable (in the map's iteration
    /// order `envOrder`) are written; nothing is removed.
    method UpdateSettings(s: P.Settings, envOrder: seq<string>, now: Timestamp)
      requires Valid()
      requires IsKeyOrder(s.env_variables, envOrder)
      modifies db
      ensures Valid()
      ensures Values(db.settings) == Values(old(db.settings)) + Written(s)
      ensures db.clipboard == old(db.clipboard) && db.history == old(db.history) && db.processes == old(db.processes)
      ensures db.templates == old(db.templates) && db.events == old(db.events)
    {
      ghost var base := Values(db.settings);
      WriteFixed(s, base, now);
      WriteEnv(s, envOrder, base, now);
    }

    /// The named settings `update_settings` writes, in its order.
    method WriteFixed(s: P.Settings, ghost base: map<string, string>, now: Timestamp)
      requires Valid()
      requires Values(db.settings) == base
      modifies db
      ensures Valid()
      ensures Values(db.settings) == base + Fixed(s)
      ensures db.clipboard == old(db.clipboard) && db.history == old(db.history) && db.processes == old(db.processes)
      ensures db.templates == old(db.templates) && db.events == old(db.events)
    {
      ghost var w: map<string, string> := map[];
      MapsEqual(base, base + w);
      Set("theme", s.theme, base, w, now);
      w := w["theme" := s.theme];
      if s.auto_save_interval.Some? {
        Set("auto_save_interval", NatToString(s.auto_save_interval.value), base, w, now);
        w := w["auto_save_interval" := NatToString(s.auto_save_interval.value)];
      }
      if s.max_log_lines.Some? {
        Set("max_log_lines", NatToString(s.max_log_lines.value), base, w, now);
        w := w["max_log_lines" := NatToString(s.max_log_lines.value)];
      }
      Set("enable_auto_restart", BoolText(s.enable_auto_restart), base, w, now);
      w := w["enable_auto_restart" := BoolText(s.enable_auto_restart)];
      if s.default_shell.Some? {
        Set("default_shell", s.default_shell.value, base, w, now);
        w := w["default_shell" := s.default_shell.value];
      }
    }

    /// Every environment variable under its "env_" key, in the map's
    /// iteration order `envOrder`.
    method WriteEnv(s: P.Settings, envOrder: seq<string>, ghost base: map<string, string>, now: Timestamp)
      requires Valid()
      requires IsKeyOrder(s.env_variables, envOrder)
      requires Values(db.settings) == base + Fixed(s)
      modifies db
      ensures Valid()
      ensures Values(db.settings) == base + Written(s)
      ensures db.clipboard == old(db.clipboard) && db.history == old(db.history) && db.processes == old(db.processes)
      ensures db.templates == old(db.templates) && db.events == old(db.events)
    {
      ghost var w := Fixed(s) + EnvEntriesOf(s.env_variables, []);
      MapsEqual(Fixed(s), w);
      var i := 0;
      while i < |envOrder|
        invariant 0 <= i <= |envOrder|
        invariant Valid()
        invariant w == Fixed(s) + EnvEntriesOf(s.env_variables, envOrder[..i])
        invariant Values(db.settings) == base + w
        invariant db.clipboard == old(db.clipboard) && db.history == old(db.history) && db.processes == old(db.processes)
        invariant db.templates == old(db.templates) && db.events == old(db.events)
      {
        var name := envOrder[i];
        Set(EnvKey(name), s.env_variables[name], base, w, now);
        EnvWriteStep(s, envOrder, i);
        w := w[EnvKey(name) := s.env_variables[name]];
        i := i + 1;
      }
      EnvWriteDone(s, envOrder);
    }

    /// One `SettingsQueries::set`, seen as a write of one key's text on
    /// top of the writes `w` already made to the table `base`.
    method Set(key: string, value: string, ghost base: map<string, string>, ghost w: map<string, string>,
               now: Timestamp)
      requires Valid()
      requires Values(db.settings) == base + w
      modifies db
      ensures Valid()
      ensures Values(db.settings) == base + w[key := value]
      ensures db.clipboard == old(db.clipboard) && db.history == old(db.history) && db.processes == old(db.processes)
      ensures db.templates == old(db.templates) && db.events == old(db.events)
    {
      db.SetSetting(key, value, now);
      MapsEqual(Values(db.settings), (base + w)[key := value]);
      UpdateMerge(base, w, key, value);
    }

    // -------------------------------------------------------------------
    // Events

    /// `record_process_start`: one open run in the history, with the
    /// arguments and environment as JSON text.
    method RecordProcessStart(p: P.ProcessInfo, json: Q.JsonCodec, now: Timestamp)
      requires Valid()
      modifies db
      ensures Valid()
      ensures |db.history| == |old(db.history)| + 1 && db.history[..|old(db.history)|] == old(db.history)
      ensures var h := db.history[|old(db.history)|];
        && h.process_id == p.process_id && h.name == p.name && h.command == p.command && h.cwd == p.cwd
        && h.args == Some(json.list(p.args)) && h.env == Some(json.dict(p.env))
        && h.started_at == now && h.stopped_at.None? && h.exit_code.None? && h.error.None?
      ensures db.clipboard == old(db.clipboard) && db.processes == old(db.processes) && db.templates == old(db.templates)
      ensures db.settings == old(db.settings) && db.events == old(db.events)
    {
      var _ := db.RecordStart(p.process_id, p.name, p.command, Some(json.list(p.args)), Some(json.dict(p.env)), p.cwd, now);
    }

    /// `record_process_stop`: closes every open run of the process.
    method RecordProcessStop(processId: string, exitCode: Option<I32>, error: Option<string>, now: Timestamp)
      requires Valid()
      modifies db
      ensures Valid()
      ensures |db.history| == |old(db.history)|
      ensures forall i :: 0 <= i < |db.history| ==>
        if old(db.history[i]).process_id == processId && old(db.history[i]).stopped_at.None?
        then db.history[i] == old(db.history[i]).(stopped_at := Some(now), exit_code := exitCode, error := error)
        else db.history[i] == old(db.history[i])
      ensures forall i :: 0 <= i < |db.history| ==> !(db.history[i].process_id == processId && db.history[i].stopped_at.None?)
      ensures db.clipboard == old(db.clipboard) && db.processes == old(db.processes) && db.templates == old(db.templates)
      ensures db.settings == old(db.settings) && db.events == old(db.events)
    {
      db.RecordStop(processId, exitCode, error, now);
    }

    /// `record_system_event`: one more event, stamped with the time.
    method RecordSystemEvent(eventType: string, description: string, details: Option<string>, severity: string,
                             now: Timestamp)
      requires Valid()
      modifies db
      ensures Valid()
      ensures |db.events| == |old(db.events)| + 1 && db.events[..|old(db.events)|] == old(db.events)
      ensures var e := db.events[|old(db.events)|];
        && e.event_type == eventType && e.description == description && e.details == details
        && e.severity == severity && e.timestamp == now
      ensures db.clipboard == old(db.clipboard) && db.history == old(db.history) && db.processes == old(db.processes)
      ensures db.templates == old(db.templates) && db.settings == old(db.settings)
    {
      var _ := db.RecordEvent(eventType, description, details, severity, now);
    }

    // -------------------------------------------------------------------
    // Configuration file

    /// `load_config`: no file (`content` is None) is not an error; text
    /// that does not parse is; otherwise every process of the file is
    /// saved, a later entry with the same id overriding an earlier one.
    method LoadConfig(content: Option<string>, parser: string -> Result<seq<K.KdlNode>>, c: K.TimeCodec,
                      nowText: string, json: Q.JsonCodec, now: Timestamp) returns (r: Result<Unit>)
      requires Valid()
      modifies db
      ensures Valid()
      ensures content.None? ==> r == Ok(Unit) && db.processes == old(db.processes)
      ensures content.Some? && K.FromKdlString(content.value, parser, nowText).Err? ==>
        r == Err("Failed to parse KDL config: " + K.FromKdlString(content.value, parser, nowText).error)
        && db.processes == old(db.processes)
      ensures content.Some? && K.FromKdlString(content.value, parser, nowText).Ok? ==>
        r == Ok(Unit) && Imported(K.FromKdlString(content.value, parser, nowText).value.processes, c, json, now,
                                  old(db.processes), db.processes)
      ensures db.clipboard == old(db.clipboard) && db.history == old(db.history) && db.templates == old(db.templates)
      ensures db.settings == old(db.settings) && db.events == old(db.events)
    {
      if content.None? {
        return Ok(Unit);
      }
      var parsed := K.FromKdlString(content.value, parser, nowText);
      if parsed.Err? {
        return Err("Failed to parse KDL config: " + parsed.error);
      }
      SaveAll(parsed.value.processes, c, json, now);
      r := Ok(Unit);
    }

    /// The loop of `load_config`.
    method SaveAll(ps: seq<K.KdlProcess>, c: K.TimeCodec, json: Q.JsonCodec, now: Timestamp)
      requires Valid()
      modifies db
      ensures Valid()
      ensures Imported(ps, c, json, now, old(db.processes), db.processes)
      ensures db.clipboard == old(db.clipboard) && db.history == old(db.history) && db.templates == old(db.templates)
      ensures db.settings == old(db.settings) && db.events == old(db.events)
    {
      var i := 0;
      while i < |ps|
        invariant 0 <= i <= |ps|
        invariant Valid()
        invariant Imported(ps[..i], c, json, now, old(db.processes), db.processes)
        invariant db.clipboard == old(db.clipboard) && db.history == old(db.history) && db.templates == old(db.templates)
        invariant db.settings == old(db.settings) && db.events == old(db.events)
      {
        ghost var before := db.processes;
        SaveProcess(K.ToInfo(ps[i], c, now), json, now);
        assert SavedRow(c, json, now)(ps[i], db.processes[ps[i].id]);
        ImportedOneMore(ps, i, old(db.processes), before, db.processes, SavedRow(c, json, now));
        i := i + 1;
      }
      assert ps[..i] == ps;
    }

    /// `save_config`: the stored processes, most recently updated first,
    /// as KDL text under a fresh meta block; a row that cannot be read
    /// makes the whole save fail with its error.
    function SaveConfig(json: Q.JsonCodec, order: seq<string>, c: K.TimeCodec, now: Timestamp,
                        hostname: Option<string>, envOrderOf: map<string, string> -> seq<string>,
                        printer: seq<K.KdlNode> -> string): (r: Result<string>)
      reads db
      requires Q.Descending(db.processes, order, (p: Q.ProcessRecord) => p.updated_at)
      requires forall m :: IsKeyOrder(m, envOrderOf(m))
      ensures r.Err? <==> LoadAllProcesses(json, order).Err?
      ensures r.Err? ==> r.error == LoadAllProcesses(json, order).error
      ensures r.Ok? ==> var infos := LoadAllProcesses(json, order).value;
        r.value == K.ToKdlString(K.FromProcesses(infos, c, now, hostname), EnvOrders(infos, envOrderOf), printer)
    {
      match LoadAllProcesses(json, order)
      case Err(e) => Err(e)
      case Ok(infos) =>
        Ok(K.ToKdlString(K.FromProcesses(infos, c, now, hostname), EnvOrders(infos, envOrderOf), printer))
    }

    /// The document `save_config` writes reads back, entry by entry in
    /// listing order, as the stored processes: same id, name, command,
    /// working directory and auto-start flag.
    lemma SaveConfigReadsBack(json: Q.JsonCodec, order: seq<string>, c: K.TimeCodec, now: Timestamp,
                              hostname: Option<string>, envOrderOf: map<string, string> -> seq<string>,
                              nowText: string)
      requires Valid()
      requires Q.Descending(db.processes, order, (p: Q.ProcessRecord) => p.updated_at)
      requires forall m :: IsKeyOrder(m, envOrderOf(m))
      requires LoadAllProcesses(json, order).Ok?
      ensures var infos := LoadAllProcesses(json, order).value;
        var read := K.Walk(K.BuildDocument(K.FromProcesses(infos, c, now, hostname), EnvOrders(infos, envOrderOf)),
                           K.InitialMeta(nowText), []);
        && read.Ok? && |read.value.processes| == |order|
        && forall i :: 0 <= i < |order| ==>
             var row := db.processes[order[i]];
             && read.value.processes[i].id == order[i] && read.value.processes[i].name == row.name
             && read.value.processes[i].command == row.command && read.value.processes[i].cwd == row.cwd
    {
      var infos := LoadAllProcesses(json, order).value;
      var kdl := K.FromProcesses(infos, c, now, hostname);
      K.DocumentRoundTrip(kdl, EnvOrders(infos, envOrderOf), nowText);
      LoadedRows(json, order);
    }

    /// Each loaded process carries its row's id, name, command and
    /// directory.
    lemma LoadedRows(json: Q.JsonCodec, order: seq<string>)
      requires Valid()
      requires Q.Descending(db.processes, order, (p: Q.ProcessRecord) => p.updated_at)
      requires LoadAllProcesses(json, order).Ok?
      ensures var infos := LoadAllProcesses(json, order).value;
        forall i :: 0 <= i < |order| ==>
          var row := db.processes[order[i]];
          && infos[i].process_id == order[i] && infos[i].name == row.name
          && infos[i].command == row.command && infos[i].cwd == row.cwd
    {
      var infos := LoadAllProcesses(json, order).value;
      forall i | 0 <= i < |order|
        ensures infos[i].process_id == order[i]
      {
        assert order[i] in db.processes;
        assert Ok(infos[i]) == RecordToProcessInfo(db.processes[order[i]], json);
      }
    }
  }
}
