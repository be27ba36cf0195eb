// The SurrealDB persistence manager of the root crate
// (src/persistence/manager.rs). It stores the root process record, which
// carries both auto-start flags, with the same delete-then-create upsert as
// the ichimi crate, but sends the delete and the create as one query.
// Database failures are passed in as parameters.

module RootPersistence {
  import opened Common
  import opened ProcessTypes
  import RootManager
  import ST = SurrealTables
  import IP = IchimiPersistence

  type RootProcessInfo = RootManager.RootProcessInfo

  /// The stored form of a root process: no state, both flags.
  datatype ProcessInfoRecord = ProcessInfoRecord(
    process_id: string,
    command: string,
    args: seq<string>,
    env: map<string, string>,
    cwd: Option<string>,
    auto_start_on_create: bool,
    auto_start_on_restore: bool)

  /// `ProcessInfoRecord::to_process_info`: every loaded process starts
  /// NotStarted.
  function InfoOf(r: ProcessInfoRecord): RootProcessInfo
  {
    RootManager.RootProcessInfo(r.process_id, r.command, r.args, r.env, r.cwd, NotStarted,
                                r.auto_start_on_create, r.auto_start_on_restore)
  }

  /// `ProcessInfoRecord::from`: reading the record back gives the process
  /// with its state reset to NotStarted and both flags and every other
  /// field kept.
  function RecordOf(info: RootProcessInfo): (r: ProcessInfoRecord)
    ensures InfoOf(r) == info.(state := NotStarted)
    ensures InfoOf(r).auto_start_on_create == info.auto_start_on_create
    ensures InfoOf(r).auto_start_on_restore == info.auto_start_on_restore
  {
    ProcessInfoRecord(info.id, info.command, info.args, info.env, info.cwd,
                      info.auto_start_on_create, info.auto_start_on_restore)
  }

  /// Storing a loaded process gives back the record it came from.
  lemma RecordOfInfo(r: ProcessInfoRecord)
    ensures RecordOf(InfoOf(r)) == r
  {
  }

  function RecordKey(r: ProcessInfoRecord): string { r.process_id }

  function InfoKey(p: RootProcessInfo): string { p.id }

  /// The map `load_all_processes` builds from a table.
  function Loaded(rows: seq<ProcessInfoRecord>): map<string, RootProcessInfo>
  {
    ST.Keyed(ST.Mapped(rows, InfoOf), InfoKey)
  }

  /// A loaded map holds exactly the stored ids, each process NotStarted
  /// under its own id.
  lemma LoadedEntries(rows: seq<ProcessInfoRecord>)
    ensures forall k :: k in Loaded(rows) <==> ST.HasKey(rows, RecordKey, k)
    ensures forall k :: k in Loaded(rows) ==> Loaded(rows)[k] == InfoOf(ST.Keyed(rows, RecordKey)[k])
    ensures forall k :: k in Loaded(rows) ==> Loaded(rows)[k].id == k && Loaded(rows)[k].state.NotStarted?
  {
    ST.KeyedMapped(rows, RecordKey, InfoOf, InfoKey);
  }

  /// Loading after a save gives the earlier load with the saved process,
  /// reset to NotStarted, under its id.
  lemma LoadedAfterSave(rows: seq<ProcessInfoRecord>, info: RootProcessInfo)
    ensures Loaded(ST.Upserted(rows, RecordKey, RecordOf(info))) == Loaded(rows)[info.id := info.(state := NotStarted)]
  {
    var u := ST.Upserted(rows, RecordKey, RecordOf(info));
    ST.KeyedMapped(u, RecordKey, InfoOf, InfoKey);
    ST.KeyedMapped(rows, RecordKey, InfoOf, InfoKey);
    ST.KeyedUpserted(rows, RecordKey, RecordOf(info));
    MapsEqual(Loaded(u), Loaded(rows)[info.id := info.(state := NotStarted)]);
  }

  /// Loading after a delete gives the earlier load without that id.
  lemma LoadedAfterDelete(rows: seq<ProcessInfoRecord>, id: string)
    ensures Loaded(ST.DeleteWhere(rows, RecordKey, id)) == Loaded(rows) - {id}
  {
    var d := ST.DeleteWhere(rows, RecordKey, id);
    ST.KeyedMapped(d, RecordKey, InfoOf, InfoKey);
    ST.KeyedMapped(rows, RecordKey, InfoOf, InfoKey);
    ST.KeyedDeleted(rows, RecordKey, id);
    MapsEqual(Loaded(d), Loaded(rows) - {id});
  }

  /// Saving two versions of one id leaves a single record with that id,
  /// the later one, and loading gives the later version.
  lemma SavedTwice(rows: seq<ProcessInfoRecord>, first: RootProcessInfo, second: RootProcessInfo)
    requires first.id == second.id
    ensures var u := ST.Upserted(ST.Upserted(rows, RecordKey, RecordOf(first)), RecordKey, RecordOf(second));
      && RecordOf(second) in u
      && (forall x :: x in u && x.process_id == second.id ==> x == RecordOf(second))
      && Loaded(u) == Loaded(rows)[second.id := second.(state := NotStarted)]
  {
    var once := ST.Upserted(rows, RecordKey, RecordOf(first));
    ST.UpsertedContents(once, RecordKey, RecordOf(second));
    LoadedAfterSave(rows, first);
    LoadedAfterSave(once, second);
    UpdateTwice(Loaded(rows), second.id, first.(state := NotStarted), second.(state := NotStarted));
  }

  lemma UpdateTwice(m: map<string, RootProcessInfo>, k: string, a: RootProcessInfo, b: RootProcessInfo)
    ensures m[k := a][k := b] == m[k := b]
  {
    MapsEqual(m[k := a][k := b], m[k := b]);
  }

  /// With each id stored once, every record appears in the load once.
  lemma LoadedSize(rows: seq<ProcessInfoRecord>)
    requires ST.UniqueKeys(rows, RecordKey)
    ensures |Loaded(rows)| == |rows|
  {
    var infos := ST.Mapped(rows, InfoOf);
    assert ST.UniqueKeys(infos, InfoKey) by {
      forall i, j | 0 <= i < j < |infos| ensures InfoKey(infos[i]) != InfoKey(infos[j]) {
        assert InfoKey(infos[i]) == RecordKey(rows[i]) && InfoKey(infos[j]) == RecordKey(rows[j]);
      }
    }
    ST.KeyedSize(infos, InfoKey);
  }

  /// What `command CONTAINS $filter` keeps.
  function CommandMatches(filter: string): ProcessInfoRecord -> bool
  {
    (r: ProcessInfoRecord) => Contains(r.command, filter)
  }

  /// What the search query keeps: a command containing the term, or an
  /// argument whose lower-case form contains the lower-cased term.
  /// `lowercase` is Unicode lower-casing (`str::to_lowercase` for the term,
  /// the database's `string::lowercase` for the arguments), which lives in
  /// outside libraries and is passed in.
  predicate SearchMatches(term: string, r: ProcessInfoRecord, lowercase: string -> string)
  {
    Contains(r.command, term) || exists a :: a in r.args && Contains(lowercase(a), lowercase(term))
  }

  /// Converting each kept record lists exactly the conversions of the kept
  /// records.
  lemma MappedMembers(kept: seq<ProcessInfoRecord>)
    ensures forall p :: p in ST.Mapped(kept, InfoOf) <==> exists x :: x in kept && p == InfoOf(x)
  {
    var infos := ST.Mapped(kept, InfoOf);
    forall p | p in infos ensures exists x :: x in kept && p == InfoOf(x) {
      var i :| 0 <= i < |infos| && infos[i] == p;
      assert kept[i] in kept;
    }
    forall p | exists x :: x in kept && p == InfoOf(x) ensures p in infos {
      var x :| x in kept && p == InfoOf(x);
      var i :| 0 <= i < |kept| && kept[i] == x;
      assert infos[i] == p;
    }
  }

  /// Whether the single save query or the read-back query fails.
  datatype SaveFault = QueryFails | VerifyFails

  class PersistenceManager {
    /// The `process` table.
    var processes: seq<ProcessInfoRecord>

    /// The table holds each process id at most once, as saving through this
    /// manager keeps it.
    ghost predicate Valid()
      reads this
    {
      ST.UniqueKeys(processes, RecordKey)
    }

    /// `with_database`: a manager over an existing table.
    constructor (ps: seq<ProcessInfoRecord>)
      ensures processes == ps
    {
      processes := ps;
    }

    /// `save_process` (and `update_process`): one query deletes the
    /// records with the id and creates the new one; a failed read-back
    /// leaves it saved.
    method SaveProcess(info: RootProcessInfo, fault: Option<SaveFault>) returns (r: Result<Unit>)
      requires Valid()
      modifies this
      ensures Valid()
      ensures fault == None ==> r == Ok(Unit)
      ensures fault == Some(QueryFails) ==> r == Err("Failed to save process to SurrealDB") && processes == old(processes)
      ensures fault == Some(VerifyFails) ==> r == Err("Failed to verify save")
      ensures fault != Some(QueryFails) ==>
        processes == ST.Upserted(old(processes), RecordKey, RecordOf(info))
        && Loaded(processes) == Loaded(old(processes))[info.id := info.(state := NotStarted)]
    {
      if fault == Some(QueryFails) {
        return Err("Failed to save process to SurrealDB");
      }
      ST.UpsertedContents(processes, RecordKey, RecordOf(info));
      LoadedAfterSave(processes, info);
      processes := ST.Upserted(processes, RecordKey, RecordOf(info));
      if fault == Some(VerifyFails) {
        return Err("Failed to verify save");
      }
      r := Ok(Unit);
    }

    /// `delete_process`: every record with the id is removed, so the next
    /// load no longer holds it.
    method DeleteProcess(id: string, fault: Option<string>) returns (r: Result<Unit>)
      requires Valid()
      modifies this
      ensures Valid()
      ensures fault.Some? ==> r == Err("Failed to delete process from SurrealDB") && processes == old(processes)
      ensures fault.None? ==> r == Ok(Unit) && processes == ST.DeleteWhere(old(processes), RecordKey, id)
      ensures fault.None? ==> Loaded(processes) == Loaded(old(processes)) - {id} && id !in Loaded(processes)
    {
      if fault.Some? {
        return Err("Failed to delete process from SurrealDB");
      }
      ST.DeleteWhereUnique(processes, RecordKey, id);
      LoadedAfterDelete(processes, id);
      processes := ST.DeleteWhere(processes, RecordKey, id);
      r := Ok(Unit);
    }

    /// `load_all_processes`: each record, converted, is inserted under its
    /// id, so a later record with the same id overwrites an earlier one.
    method LoadAllProcesses(fault: Option<IP.ReadFault>) returns (r: Result<map<string, RootProcessInfo>>)
      ensures fault.Some? && fault.value.QueryFails? ==> r == Err("Failed to query processes: " + fault.value.reason)
      ensures fault.Some? && fault.value.DecodeFails? ==>
        r == Err("Failed to deserialize process records: " + fault.value.reason)
      ensures fault.None? ==> r == Ok(Loaded(processes))
    {
      if fault.Some? {
        match fault.value
        case QueryFails(e) => return Err("Failed to query processes: " + e);
        case DecodeFails(e) => return Err("Failed to deserialize process records: " + e);
      }
      var records := processes;
      var result: map<string, RootProcessInfo> := map[];
      var i := 0;
      while i < |records|
        invariant 0 <= i <= |records|
        invariant result == ST.Keyed(ST.Mapped(records[..i], InfoOf), InfoKey)
      {
        var info := InfoOf(records[i]);
        assert ST.Mapped(records[..i + 1], InfoOf) == ST.Mapped(records[..i], InfoOf) + [info];
        ST.KeyedSnoc(ST.Mapped(records[..i], InfoOf), InfoKey, info);
        result := result[info.id := info];
        i := i + 1;
      }
      assert records[..i] == records;
      r := Ok(result);
    }

    /// `query_processes`: the query `IchimiPersistence.ProcessQuery`
    /// builds, selecting the records whose command contains the filter,
    /// in table order; an empty filter keeps every record.
    function QueryProcesses(filter: string, fault: Option<IP.ReadFault>): (r: Result<seq<RootProcessInfo>>)
      reads this
      ensures fault.Some? && fault.value.QueryFails? ==> r == Err("Failed to query processes: " + fault.value.reason)
      ensures fault.Some? && fault.value.DecodeFails? ==> r == Err("Failed to parse process records: " + fault.value.reason)
      ensures fault.None? ==> r == Ok(ST.Mapped(Kept(processes, CommandMatches(filter)), InfoOf))
      ensures fault.None? ==> forall p :: p in r.value <==>
                exists x :: x in processes && Contains(x.command, filter) && p == InfoOf(x)
      ensures fault.None? && filter == "" ==> r.value == ST.Mapped(processes, InfoOf)
    {
      if fault.Some? then
        match fault.value
        case QueryFails(e) => Err("Failed to query processes: " + e)
        case DecodeFails(e) => Err("Failed to parse process records: " + e)
      else
        var q := IP.ProcessQuery(filter);
        var kept := if "filter" in q.binds then Kept(processes, CommandMatches(filter)) else processes;
        KeptMembers(processes, CommandMatches(filter));
        assert filter == "" ==> forall x :: x in processes ==> CommandMatches(filter)(x);
        MappedMembers(kept);
        Ok(ST.Mapped(kept, InfoOf))
    }

    /// `search_processes`: the records whose command contains the term or
    /// one of whose arguments contains it ignoring case, in table order.
    function SearchProcesses(term: string, lowercase: string -> string, fault: Option<IP.ReadFault>): (r: Result<seq<RootProcessInfo>>)
      reads this
      ensures fault.Some? && fault.value.QueryFails? ==> r == Err("Failed to search processes: " + fault.value.reason)
      ensures fault.Some? && fault.value.DecodeFails? ==> r == Err("Failed to parse search results: " + fault.value.reason)
      ensures fault.None? ==> r.Ok? && |r.value| <= |processes|
      ensures fault.None? ==> forall p :: p in r.value <==>
                exists x :: x in processes && SearchMatches(term, x, lowercase) && p == InfoOf(x)
    {
      if fault.Some? then
        match fault.value
        case QueryFails(e) => Err("Failed to search processes: " + e)
        case DecodeFails(e) => Err("Failed to parse search results: " + e)
      else
        var keep := (x: ProcessInfoRecord) => SearchMatches(term, x, lowercase);
        var kept := Kept(processes, keep);
        KeptMembers(processes, keep);
        MappedMembers(kept);
        Ok(ST.Mapped(kept, InfoOf))
    }
  }
}
