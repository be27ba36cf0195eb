// The SurrealDB persistence manager of the ichimi crate
// (crates/ichimi/src/persistence/manager.rs): process records stored with a
// delete-then-create upsert, loaded into a map keyed by process id, filtered
// by command; templates stored the same way and searched by category and
// tags; the web settings kept in one record. Database failures are passed in
// as parameters, one per statement that can fail.

module IchimiPersistence {
  import opened Common
  import opened ProcessTypes
  import T = ProcessTemplates
  import ST = SurrealTables

  /// The web dashboard settings (crates/ichimi/src/web/handlers.rs).
  datatype Settings = Settings(color_mode: string, auto_refresh: bool, refresh_interval: U32)

  /// `Settings::default`.
  function DefaultSettings(): (s: Settings)
    ensures s.color_mode == "dark" && s.auto_refresh && s.refresh_interval == 5000
  {
    Settings("dark", true, 5000)
  }

  // ---------------------------------------------------------------------
  // Process records

  /// The stored form of a process: no state, the working directory as text.
  datatype ProcessInfoRecord = ProcessInfoRecord(
    process_id: string,
    command: string,
    args: seq<string>,
    env: map<string, string>,
    cwd: Option<string>,
    auto_start_on_restore: bool)

  /// `ProcessInfoRecord::to_process_info`: every loaded process starts
  /// NotStarted.
  function InfoOf(r: ProcessInfoRecord): ProcessInfo
  {
    ProcessInfo(r.process_id, r.command, r.args, r.env, r.cwd, NotStarted, r.auto_start_on_restore)
  }

  /// `ProcessInfoRecord::from`: reading the record back gives the process
  /// with its state reset to NotStarted and every other field kept.
  function RecordOf(info: ProcessInfo): (r: ProcessInfoRecord)
    ensures InfoOf(r) == info.(state := NotStarted)
    ensures InfoOf(r).state.NotStarted?
  {
    ProcessInfoRecord(info.id, info.command, info.args, info.env, info.cwd, info.auto_start_on_restore)
  }

  /// Storing a loaded process gives back the record it came from.
  lemma RecordOfInfo(r: ProcessInfoRecord)
    ensures RecordOf(InfoOf(r)) == r
  {
  }

  function RecordKey(r: ProcessInfoRecord): string { r.process_id }

  function InfoKey(p: ProcessInfo): string { p.id }

  function TemplateKey(t: T.ProcessTemplate): string { t.template_id }

  /// The map `load_all_processes` builds from a table.
  function Loaded(rows: seq<ProcessInfoRecord>): map<string, ProcessInfo>
  {
    ST.Keyed(ST.Mapped(rows, InfoOf), InfoKey)
  }

  /// A loaded map holds exactly the stored ids, each process NotStarted
  /// under its own id, converted from the last record with that id.
  lemma LoadedEntries(rows: seq<ProcessInfoRecord>)
    ensures forall k :: k in Loaded(rows) <==> ST.HasKey(rows, RecordKey, k)
    ensures forall k :: k in Loaded(rows) ==> Loaded(rows)[k] == InfoOf(ST.Keyed(rows, RecordKey)[k])
    ensures forall k :: k in Loaded(rows) ==> Loaded(rows)[k].id == k && Loaded(rows)[k].state.NotStarted?
  {
    ST.KeyedMapped(rows, RecordKey, InfoOf, InfoKey);
  }

  /// Loading after a save gives the earlier load with the saved process,
  /// reset to NotStarted, under its id.
  lemma LoadedAfterSave(rows: seq<ProcessInfoRecord>, info: ProcessInfo)
    ensures Loaded(ST.Upserted(rows, RecordKey, RecordOf(info))) == Loaded(rows)[info.id := info.(state := NotStarted)]
  {
    var u := ST.Upserted(rows, RecordKey, RecordOf(info));
    ST.KeyedMapped(u, RecordKey, InfoOf, InfoKey);
    ST.KeyedMapped(rows, RecordKey, InfoOf, InfoKey);
    ST.KeyedUpserted(rows, RecordKey, RecordOf(info));
    MapsEqual(Loaded(u), Loaded(rows)[info.id := info.(state := NotStarted)]);
  }

  /// Loading after a delete gives the earlier load without that id.
  lemma LoadedAfterDelete(rows: seq<ProcessInfoRecord>, id: string)
    ensures Loaded(ST.DeleteWhere(rows, RecordKey, id)) == Loaded(rows) - {id}
  {
    var d := ST.DeleteWhere(rows, RecordKey, id);
    ST.KeyedMapped(d, RecordKey, InfoOf, InfoKey);
    ST.KeyedMapped(rows, RecordKey, InfoOf, InfoKey);
    ST.KeyedDeleted(rows, RecordKey, id);
    MapsEqual(Loaded(d), Loaded(rows) - {id});
  }

  /// With each id stored once, every record appears in the load once.
  lemma LoadedSize(rows: seq<ProcessInfoRecord>)
    requires ST.UniqueKeys(rows, RecordKey)
    ensures |Loaded(rows)| == |rows|
  {
    var infos := ST.Mapped(rows, InfoOf);
    assert ST.UniqueKeys(infos, InfoKey) by {
      forall i, j | 0 <= i < j < |infos| ensures InfoKey(infos[i]) != InfoKey(infos[j]) {
        assert InfoKey(infos[i]) == RecordKey(rows[i]) && InfoKey(infos[j]) == RecordKey(rows[j]);
      }
    }
    ST.KeyedSize(infos, InfoKey);
  }

  // ---------------------------------------------------------------------
  // Query builders

  /// A query text with the names of the parameters bound to it.
  datatype Query = Query(text: string, binds: set<string>)

  const ProcessBase := "SELECT * FROM process"

  /// The query `query_processes` sends: the filter is bound, and the
  /// CONTAINS clause added, exactly when the filter is not empty.
  function ProcessQuery(filter: string): (q: Query)
    ensures "filter" in q.binds <==> filter != ""
    ensures q.text == ProcessBase <==> filter == ""
    ensures StartsWith(q.text, ProcessBase)
  {
    if filter == "" then Query(ProcessBase, {})
    else
      var q := Query(ProcessBase + " WHERE command CONTAINS $filter", {"filter"});
      assert q.text[..|ProcessBase|] == ProcessBase;
      q
  }

  /// What `command CONTAINS $filter` keeps.
  function CommandMatches(filter: string): ProcessInfoRecord -> bool
  {
    (r: ProcessInfoRecord) => Contains(r.command, filter)
  }

  /// What the search query keeps: a command containing the term, or an
  /// argument whose lower-case form contains the lower-cased term.
  /// `lowercase` is Unicode lower-casing (`str::to_lowercase` for the term,
  /// the database's `string::lowercase` for the arguments), which lives in
  /// outside libraries and is passed in.
  predicate SearchMatches(term: string, r: ProcessInfoRecord, lowercase: string -> string)
  {
    Contains(r.command, term) || exists a :: a in r.args && Contains(lowercase(a), lowercase(term))
  }

  /// Converting each kept record lists exactly the conversions of the kept
  /// records.
  lemma MappedMembers(kept: seq<ProcessInfoRecord>)
    ensures forall p :: p in ST.Mapped(kept, InfoOf) <==> exists x :: x in kept && p == InfoOf(x)
  {
    var infos := ST.Mapped(kept, InfoOf);
    forall p | p in infos ensures exists x :: x in kept && p == InfoOf(x) {
      var i :| 0 <= i < |infos| && infos[i] == p;
      assert kept[i] in kept;
    }
    forall p | exists x :: x in kept && p == InfoOf(x) ensures p in infos {
      var x :| x in kept && p == InfoOf(x);
      var i :| 0 <= i < |kept| && kept[i] == x;
      assert infos[i] == p;
    }
  }

  /// The clauses `search_templates` can add.
  datatype Condition = CategoryIs | AnyTagIn

  function ConditionText(c: Condition): string
  {
    match c
    case CategoryIs => "category = $category"
    case AnyTagIn => "array::any(tags, |tag| array::includes($search_tags, tag))"
  }

  /// The parameter each clause needs.
  function ConditionParam(c: Condition): string
  {
    match c
    case CategoryIs => "category"
    case AnyTagIn => "search_tags"
  }

  /// The clauses for a search: the category clause when a category is
  /// given, then the tag clause when tags are given.
  function Conditions(category: Option<string>, tags: seq<string>): (cs: seq<Condition>)
    ensures CategoryIs in cs <==> category.Some?
    ensures AnyTagIn in cs <==> tags != []
    ensures category.Some? && tags != [] ==> cs == [CategoryIs, AnyTagIn]
  {
    (if category.Some? then [CategoryIs] else []) + (if tags != [] then [AnyTagIn] else [])
  }

  const TemplateBase := "USE NS ichimi DB main; SELECT * FROM template"

  function ConditionTexts(cs: seq<Condition>): (r: seq<string>)
    ensures |r| == |cs|
    ensures forall i :: 0 <= i < |cs| ==> r[i] == ConditionText(cs[i])
  {
    ST.Mapped(cs, ConditionText)
  }

  /// The clauses joined by " AND ".
  function ClauseText(cs: seq<Condition>): string
  {
    Join(ConditionTexts(cs), " AND ")
  }

  lemma ClauseTexts(c: Condition, d: Condition)
    ensures ClauseText([c]) == ConditionText(c)
    ensures ClauseText([c, d]) == ConditionText(c) + " AND " + ConditionText(d)
  {
    var ts := ConditionTexts([c, d]);
    assert ts == [ConditionText(c), ConditionText(d)];
    assert ts[1..] == [ConditionText(d)];
    assert Join(ts, " AND ") == ts[0] + " AND " + Join(ts[1..], " AND ");
  }

  /// The parameters the clauses use.
  lemma ConditionParams(category: Option<string>, tags: seq<string>)
    ensures (set c | c in Conditions(category, tags) :: ConditionParam(c))
            == (if category.Some? then {"category"} else {}) + (if tags != [] then {"search_tags"} else {})
  {
    var cs := Conditions(category, tags);
    var ps := set c | c in cs :: ConditionParam(c);
    assert "category" in ps <==> category.Some? by {
      if category.Some? { assert CategoryIs in cs; }
    }
    assert "search_tags" in ps <==> tags != [] by {
      if tags != [] { assert AnyTagIn in cs; }
    }
  }

  /// The query `search_templates` sends: " WHERE " and the clauses joined
  /// by " AND " follow the base only when there is a clause, and a
  /// parameter is bound exactly when a clause uses it.
  function SearchQuery(category: Option<string>, tags: seq<string>): (q: Query)
    ensures q.binds == set c | c in Conditions(category, tags) :: ConditionParam(c)
    ensures "category" in q.binds <==> category.Some?
    ensures "search_tags" in q.binds <==> tags != []
    ensures q.text == TemplateBase <==> category.None? && tags == []
    ensures category.Some? && tags == [] ==> q.text == TemplateBase + " WHERE " + ConditionText(CategoryIs)
    ensures category.None? && tags != [] ==> q.text == TemplateBase + " WHERE " + ConditionText(AnyTagIn)
    ensures category.Some? && tags != [] ==>
      q.text == TemplateBase + " WHERE " + ConditionText(CategoryIs) + " AND " + ConditionText(AnyTagIn)
  {
    var cs := Conditions(category, tags);
    var text := if cs == [] then TemplateBase else TemplateBase + " WHERE " + ClauseText(cs);
    var binds := (if category.Some? then {"category"} else {}) + (if tags != [] then {"search_tags"} else {});
    assert cs != [] ==> |text| > |TemplateBase|;
    ClauseTexts(CategoryIs, AnyTagIn);
    ClauseTexts(AnyTagIn, AnyTagIn);
    ConditionParams(category, tags);
    Query(text, binds)
  }

  /// What the search query keeps: the category matches when one is given,
  /// and some tag is among the searched tags when tags are given.
  predicate TemplateMatches(category: Option<string>, tags: seq<string>, t: T.ProcessTemplate)
  {
    (category.Some? ==> t.category == category)
    && (tags != [] ==> exists tag :: tag in t.tags && tag in tags)
  }

  function TemplateFilter(category: Option<string>, tags: seq<string>): T.ProcessTemplate -> bool
  {
    t => TemplateMatches(category, tags, t)
  }

  /// A key is held by a non-empty table exactly when its head or its tail
  /// holds it.
  lemma HasKeyCons(ts: seq<T.ProcessTemplate>, id: string)
    requires ts != []
    ensures ST.HasKey(ts, TemplateKey, id) <==> ts[0].template_id == id || ST.HasKey(ts[1..], TemplateKey, id)
  {
    if ST.HasKey(ts, TemplateKey, id) && ts[0].template_id != id {
      var i :| 0 <= i < |ts| && TemplateKey(ts[i]) == id;
      assert ts[1..][i - 1] == ts[i];
    }
    if ST.HasKey(ts[1..], TemplateKey, id) {
      var i :| 0 <= i < |ts[1..]| && TemplateKey(ts[1..][i]) == id;
      assert ts[i + 1] == ts[1..][i];
    }
  }

  /// The first template with the id, as `templates.first()` returns it.
  function FirstWith(ts: seq<T.ProcessTemplate>, id: string): (r: Option<T.ProcessTemplate>)
    ensures r.None? <==> !ST.HasKey(ts, TemplateKey, id)
    ensures r.Some? ==> exists i :: 0 <= i < |ts| && ts[i] == r.value && r.value.template_id == id
                                     && forall j :: 0 <= j < i ==> ts[j].template_id != id
  {
    if ts == [] then None
    else if ts[0].template_id == id then Some(ts[0])
    else
      HasKeyCons(ts, id);
      var r := FirstWith(ts[1..], id);
      FirstWithShift(ts, id, r);
      r
  }

  /// The first match in the tail is the first match in the whole table
  /// when the head does not match.
  lemma FirstWithShift(ts: seq<T.ProcessTemplate>, id: string, r: Option<T.ProcessTemplate>)
    requires ts != [] && ts[0].template_id != id
    requires r.Some? ==> exists i :: 0 <= i < |ts[1..]| && ts[1..][i] == r.value && r.value.template_id == id
                                     && forall j :: 0 <= j < i ==> ts[1..][j].template_id != id
    ensures r.Some? ==> exists i :: 0 <= i < |ts| && ts[i] == r.value && r.value.template_id == id
                                     && forall j :: 0 <= j < i ==> ts[j].template_id != id
  {
    if r.Some? {
      var i :| 0 <= i < |ts[1..]| && ts[1..][i] == r.value && r.value.template_id == id
               && forall j :: 0 <= j < i ==> ts[1..][j].template_id != id;
      assert ts[i + 1] == r.value;
      forall j | 0 <= j < i + 1 ensures ts[j].template_id != id {
        if j > 0 { assert ts[j] == ts[1..][j - 1]; }
      }
    }
  }

  /// A failure of the query or of decoding its rows.
  datatype ReadFault = QueryFails(reason: string) | DecodeFails(reason: string)

  /// Which statement of `save_process` fails.
  datatype SaveFault = DeleteFails | CreateFails | VerifyFails

  // ---------------------------------------------------------------------
  // The manager

  class PersistenceManager {
    /// The `process` table.
    var processes: seq<ProcessInfoRecord>
    /// The `template` table.
    var templates: seq<T.ProcessTemplate>
    /// The `settings:default` record.
    var settings: Option<Settings>

    /// The tables hold each process id and each template id at most once,
    /// as saving through this manager keeps them.
    ghost predicate Valid()
      reads this
    {
      ST.UniqueKeys(processes, RecordKey) && ST.UniqueKeys(templates, TemplateKey)
    }

    /// `with_database`: a manager over existing tables.
    constructor (ps: seq<ProcessInfoRecord>, ts: seq<T.ProcessTemplate>, s: Option<Settings>)
      ensures processes == ps && templates == ts && settings == s
    {
      processes := ps;
      templates := ts;
      settings := s;
    }

    /// `save_process` (and `update_process`, an alias): the old records
    /// with the id are deleted, then the new one is created. A failed
    /// create leaves the id deleted; a failed read-back leaves it saved.
    method SaveProcess(info: ProcessInfo, fault: Option<SaveFault>) returns (r: Result<Unit>)
      requires Valid()
      modifies this
      ensures Valid()
      ensures templates == old(templates) && settings == old(settings)
      ensures fault == None ==> r == Ok(Unit)
      ensures fault == Some(DeleteFails) ==> r == Err("Failed to delete existing process") && processes == old(processes)
      ensures fault == Some(CreateFails) ==>
        r == Err("Failed to create process in SurrealDB") && processes == ST.DeleteWhere(old(processes), RecordKey, info.id)
      ensures fault == Some(VerifyFails) ==> r == Err("Failed to verify save")
      ensures fault == None || fault == Some(VerifyFails) ==>
        processes == ST.Upserted(old(processes), RecordKey, RecordOf(info))
        && Loaded(processes) == Loaded(old(processes))[info.id := info.(state := NotStarted)]
    {
      if fault == Some(DeleteFails) {
        return Err("Failed to delete existing process");
      }
      ST.DeleteWhereUnique(processes, RecordKey, info.id);
      processes := ST.DeleteWhere(processes, RecordKey, info.id);
      if fault == Some(CreateFails) {
        return Err("Failed to create process in SurrealDB");
      }
      ST.UpsertedContents(old(processes), RecordKey, RecordOf(info));
      LoadedAfterSave(old(processes), info);
      processes := processes + [RecordOf(info)];
      if fault == Some(VerifyFails) {
        return Err("Failed to verify save");
      }
      r := Ok(Unit);
    }

    /// `delete_process`: every record with the id is removed.
    method DeleteProcess(id: string, fault: Option<string>) returns (r: Result<Unit>)
      requires Valid()
      modifies this
      ensures Valid()
      ensures templates == old(templates) && settings == old(settings)
      ensures fault.Some? ==> r == Err("Failed to delete process from SurrealDB") && processes == old(processes)
      ensures fault.None? ==> r == Ok(Unit) && processes == ST.DeleteWhere(old(processes), RecordKey, id)
      ensures fault.None? ==> Loaded(processes) == Loaded(old(processes)) - {id}
    {
      if fault.Some? {
        return Err("Failed to delete process from SurrealDB");
      }
      ST.DeleteWhereUnique(processes, RecordKey, id);
      LoadedAfterDelete(processes, id);
      processes := ST.DeleteWhere(processes, RecordKey, id);
      r := Ok(Unit);
    }

    /// `load_all_processes`: each record, converted, is inserted under its
    /// id, so a later record with the same id overwrites an earlier one.
    method LoadAllProcesses(fault: Option<ReadFault>) returns (r: Result<map<string, ProcessInfo>>)
      ensures fault.Some? && fault.value.QueryFails? ==> r == Err("Failed to query processes: " + fault.value.reason)
      ensures fault.Some? && fault.value.DecodeFails? ==>
        r == Err("Failed to deserialize process records: " + fault.value.reason)
      ensures fault.None? ==> r == Ok(Loaded(processes))
    {
      if fault.Some? {
        match fault.value
        case QueryFails(e) => return Err("Failed to query processes: " + e);
        case DecodeFails(e) => return Err("Failed to deserialize process records: " + e);
      }
      var records := processes;
      var result: map<string, ProcessInfo> := map[];
      var i := 0;
      while i < |records|
        invariant 0 <= i <= |records|
        invariant result == ST.Keyed(ST.Mapped(records[..i], InfoOf), InfoKey)
      {
        var info := InfoOf(records[i]);
        assert ST.Mapped(records[..i + 1], InfoOf) == ST.Mapped(records[..i], InfoOf) + [info];
        ST.KeyedSnoc(ST.Mapped(records[..i], InfoOf), InfoKey, info);
        result := result[info.id := info];
        i := i + 1;
      }
      assert records[..i] == records;
      r := Ok(result);
    }

    /// `query_processes`: the records whose command contains the filter,
    /// in table order; an empty filter keeps every record.
    function QueryProcesses(filter: string, fault: Option<ReadFault>): (r: Result<seq<ProcessInfo>>)
      reads this
      ensures fault.Some? && fault.value.QueryFails? ==> r == Err("Failed to query processes: " + fault.value.reason)
      ensures fault.Some? && fault.value.DecodeFails? ==> r == Err("Failed to parse process records: " + fault.value.reason)
      ensures fault.None? ==> r == Ok(ST.Mapped(Kept(processes, CommandMatches(filter)), InfoOf))
      ensures fault.None? ==> forall p :: p in r.value <==>
                exists x :: x in processes && Contains(x.command, filter) && p == InfoOf(x)
      ensures fault.None? && filter == "" ==> r.value == ST.Mapped(processes, InfoOf)
    {
      if fault.Some? then
        match fault.value
        case QueryFails(e) => Err("Failed to query processes: " + e)
        case DecodeFails(e) => Err("Failed to parse process records: " + e)
      else
        var q := ProcessQuery(filter);
        var kept := if "filter" in q.binds then Kept(processes, CommandMatches(filter)) else processes;
        KeptMembers(processes, CommandMatches(filter));
        assert filter == "" ==> forall x :: x in processes ==> CommandMatches(filter)(x);
        MappedMembers(kept);
        Ok(ST.Mapped(kept, InfoOf))
    }

    /// `search_processes`: the records whose command contains the term or
    /// one of whose arguments contains it ignoring case, in table order.
    function SearchProcesses(term: string, lowercase: string -> string, fault: Option<ReadFault>): (r: Result<seq<ProcessInfo>>)
      reads this
      ensures fault.Some? && fault.value.QueryFails? ==> r == Err("Failed to search processes: " + fault.value.reason)
      ensures fault.Some? && fault.value.DecodeFails? ==> r == Err("Failed to parse search results: " + fault.value.reason)
      ensures fault.None? ==> r.Ok? && |r.value| <= |processes|
      ensures fault.None? ==> forall p :: p in r.value <==>
                exists x :: x in processes && SearchMatches(term, x, lowercase) && p == InfoOf(x)
    {
      if fault.Some? then
        match fault.value
        case QueryFails(e) => Err("Failed to search processes: " + e)
        case DecodeFails(e) => Err("Failed to parse search results: " + e)
      else
        var keep := (x: ProcessInfoRecord) => SearchMatches(term, x, lowercase);
        var kept := Kept(processes, keep);
        KeptMembers(processes, keep);
        MappedMembers(kept);
        Ok(ST.Mapped(kept, InfoOf))
    }

    // -------------------------------------------------------------------
    // Settings

    /// `get_settings`: the stored record, or the defaults when there is
    /// none or reading it fails; it never fails itself.
    function GetSettings(readFails: bool): (r: Result<Settings>)
      reads this
      ensures r.Ok?
      ensures r.value == (if !readFails && settings.Some? then settings.value else DefaultSettings())
    {
      if readFails then Ok(DefaultSettings())
      else match settings
        case Some(s) => Ok(s)
        case None => Ok(DefaultSettings())
    }

    /// `save_settings`: the record is replaced, and reading it back gives
    /// the saved settings.
    method SaveSettings(s: Settings, fault: Option<string>) returns (r: Result<Unit>)
      modifies this
      ensures processes == old(processes) && templates == old(templates)
      ensures fault.Some? ==> r == Err("Failed to save settings: " + fault.value) && settings == old(settings)
      ensures fault.None? ==> r == Ok(Unit) && settings == Some(s) && GetSettings(false) == Ok(s)
    {
      if fault.Some? {
        return Err("Failed to save settings: " + fault.value);
      }
      settings := Some(s);
      r := Ok(Unit);
    }

    // -------------------------------------------------------------------
    // Templates

    /// `save_template`: delete-then-create by template id, stamping the
    /// update time; reading the id back gives the saved template.
    method SaveTemplate(t: T.ProcessTemplate, now: Timestamp, fault: Option<string>) returns (r: Result<Unit>)
      requires Valid()
      modifies this
      ensures Valid()
      ensures processes == old(processes) && settings == old(settings)
      ensures fault.Some? ==> r == Err("Failed to save template: " + fault.value) && templates == old(templates)
      ensures fault.None? ==> r == Ok(Unit) && templates == ST.Upserted(old(templates), TemplateKey, t.(updated_at := now))
      ensures fault.None? ==> GetTemplate(t.template_id, None) == Ok(Some(t.(updated_at := now)))
      ensures forall u: T.ProcessTemplate :: u.template_id != t.template_id ==> (u in templates <==> u in old(templates))
    {
      if fault.Some? {
        return Err("Failed to save template: " + fault.value);
      }
      var saved := t.(updated_at := now);
      ST.UpsertedContents(templates, TemplateKey, saved);
      templates := ST.Upserted(templates, TemplateKey, saved);
      var found := FirstWith(templates, t.template_id);
      assert found == Some(saved);
      r := Ok(Unit);
    }

    /// `delete_template`: every template with the id is removed.
    method DeleteTemplate(id: string, fault: Option<string>) returns (r: Result<Unit>)
      requires Valid()
      modifies this
      ensures Valid()
      ensures processes == old(processes) && settings == old(settings)
      ensures fault.Some? ==> r == Err("Failed to delete template: " + fault.value) && templates == old(templates)
      ensures fault.None? ==> r == Ok(Unit) && templates == ST.DeleteWhere(old(templates), TemplateKey, id)
      ensures fault.None? ==> GetTemplate(id, None) == Ok(None)
    {
      if fault.Some? {
        return Err("Failed to delete template: " + fault.value);
      }
      ST.DeleteWhereUnique(templates, TemplateKey, id);
      templates := ST.DeleteWhere(templates, TemplateKey, id);
      r := Ok(Unit);
    }

    /// `load_all_templates`: every stored template, in table order.
    function LoadAllTemplates(fault: Option<ReadFault>): (r: Result<seq<T.ProcessTemplate>>)
      reads this
      ensures fault.Some? && fault.value.QueryFails? ==> r == Err("Failed to query templates: " + fault.value.reason)
      ensures fault.Some? && fault.value.DecodeFails? ==>
        r == Err("Failed to deserialize template records: " + fault.value.reason)
      ensures fault.None? ==> r == Ok(templates)
    {
      if fault.Some? then
        match fault.value
        case QueryFails(e) => Err("Failed to query templates: " + e)
        case DecodeFails(e) => Err("Failed to deserialize template records: " + e)
      else Ok(templates)
    }

    /// `get_template`: the first template with the id, or None.
    function GetTemplate(id: string, fault: Option<ReadFault>): (r: Result<Option<T.ProcessTemplate>>)
      reads this
      ensures fault.Some? && fault.value.QueryFails? ==> r == Err("Failed to query template: " + fault.value.reason)
      ensures fault.Some? && fault.value.DecodeFails? ==>
        r == Err("Failed to deserialize template record: " + fault.value.reason)
      ensures fault.None? ==> r.Ok? && (r.value.None? <==> !ST.HasKey(templates, TemplateKey, id))
      ensures fault.None? && r.value.Some? ==> r.value.value.template_id == id && r.value.value in templates
    {
      if fault.Some? then
        match fault.value
        case QueryFails(e) => Err("Failed to query template: " + e)
        case DecodeFails(e) => Err("Failed to deserialize template record: " + e)
      else Ok(FirstWith(templates, id))
    }

    /// `search_templates`: the templates the built query selects, in table
    /// order.
    function SearchTemplates(category: Option<string>, tags: seq<string>, fault: Option<ReadFault>)
      : (r: Result<seq<T.ProcessTemplate>>)
      reads this
      ensures fault.Some? && fault.value.QueryFails? ==> r == Err("Failed to search templates: " + fault.value.reason)
      ensures fault.Some? && fault.value.DecodeFails? ==>
        r == Err("Failed to deserialize template records: " + fault.value.reason)
      ensures fault.None? ==> r.Ok? && forall t :: t in r.value <==> t in templates && TemplateMatches(category, tags, t)
      ensures fault.None? && category.None? && tags == [] ==> r.value == templates
    {
      if fault.Some? then
        match fault.value
        case QueryFails(e) => Err("Failed to search templates: " + e)
        case DecodeFails(e) => Err("Failed to deserialize template records: " + e)
      else
        KeptMembers(templates, TemplateFilter(category, tags));
        Ok(Kept(templates, TemplateFilter(category, tags)))
    }
  }
}
