// Rows of the SQLite tables read back as the records of the
// ichimi-persistence crate (crates/ichimi-persistence/src/persistence/manager.rs):
// the JSON columns parsed, the state text mapped, the first error kept.

module PersistRows {
  import opened Common
  import P = PersistTypes
  import Q = Queries

  // ---------------------------------------------------------------------
  // Rows back to records

  /// The `state` column read back: any text other than the three known
  /// states is NotStarted.
  function ParseState(s: string): (r: P.ProcessState)
    ensures forall st :: s == Q.StateText(st) ==> r == st
    ensures s != "running" && s != "stopped" && s != "failed" ==> r == P.NotStarted
  {
    if s == "running" then P.Running
    else if s == "stopped" then P.Stopped
    else if s == "failed" then P.Failed
    else P.NotStarted
  }

  /// A nullable JSON column: an absent value is the empty default, a
  /// present one must parse, and a parse error is prefixed with `what`.
  function ParseColumn<T>(column: Option<string>, parse: string -> Result<T>, empty: T, what: string): (r: Result<T>)
    ensures column.None? ==> r == Ok(empty)
    ensures column.Some? && parse(column.value).Ok? ==> r == parse(column.value)
    ensures column.Some? && parse(column.value).Err? ==> r == Err(what + parse(column.value).error)
  {
    match column
    case None => Ok(empty)
    case Some(text) =>
      match parse(text)
      case Ok(v) => Ok(v)
      case Err(e) => Err(what + e)
  }

  /// `record_to_process_info`: the row id becomes the record id, the JSON
  /// columns are parsed in the order args, env, tags and the first that
  /// fails is the error, and the pid column is read back as a u32.
  function RecordToProcessInfo(r: Q.ProcessRecord, json: Q.JsonCodec): (res: Result<P.ProcessInfo>)
    ensures var args := ParseColumn(r.args, json.parseList, [], "Failed to parse args: ");
      var env := ParseColumn(r.env, json.parseDict, map[], "Failed to parse env: ");
      var tags := ParseColumn(r.tags, json.parseList, [], "Failed to parse tags: ");
      && (res.Ok? <==> args.Ok? && env.Ok? && tags.Ok?)
      && (args.Err? ==> res == Err(args.error))
      && (args.Ok? && env.Err? ==> res == Err(env.error))
      && (args.Ok? && env.Ok? && tags.Err? ==> res == Err(tags.error))
      && (res.Ok? ==> res.value.args == args.value && res.value.env == env.value && res.value.tags == tags.value)
    ensures res.Ok? ==>
      && res.value.id == Some(IntToString(r.id)) && res.value.process_id == r.process_id
      && res.value.name == r.name && res.value.command == r.command && res.value.cwd == r.cwd
      && res.value.status.state == ParseState(r.state)
      && (r.pid.Some? <==> res.value.status.pid.Some?)
      && (r.pid.Some? ==> Q.PidColumn(res.value.status.pid.value) == r.pid.value)
      && res.value.created_at == r.created_at && res.value.updated_at == r.updated_at
      && res.value.auto_start_on_restore == r.auto_start_on_restore
  {
    var args := ParseColumn(r.args, json.parseList, [], "Failed to parse args: ");
    var env := ParseColumn(r.env, json.parseDict, map[], "Failed to parse env: ");
    var tags := ParseColumn(r.tags, json.parseList, [], "Failed to parse tags: ");
    if args.Err? then Err(args.error)
    else if env.Err? then Err(env.error)
    else if tags.Err? then Err(tags.error)
    else
      var status := P.ProcessStatus(ParseState(r.state),
                                    if r.pid.Some? then Some(Q.PidValue(r.pid.value)) else None,
                                    r.exit_code, r.started_at, r.stopped_at, r.error);
      Ok(P.ProcessInfo(Some(IntToString(r.id)), r.process_id, r.name, r.command, args.value, env.value, r.cwd,
                       status, r.created_at, r.updated_at, tags.value, r.auto_start_on_restore))
  }

  /// What reading back a stored process gives: the record as it was saved,
  /// under the row id, creation time and update time the table assigned.
  function Stored(p: P.ProcessInfo, id: int, createdAt: Timestamp, now: Timestamp): P.ProcessInfo
  {
    p.(id := Some(IntToString(id)), created_at := createdAt, updated_at := now)
  }

  /// The row the upsert writes converts back into the record that was
  /// saved, when the JSON columns parse back what they were given.
  lemma ProcessRowRoundTrip(p: P.ProcessInfo, json: Q.JsonCodec, id: int, createdAt: Timestamp, now: Timestamp)
    requires Q.Faithful(json)
    ensures RecordToProcessInfo(Q.ProcessRow(p, json, id, createdAt, now), json) == Ok(Stored(p, id, createdAt, now))
  {
    var row := Q.ProcessRow(p, json, id, createdAt, now);
    assert json.parseList(json.list(p.args)) == Ok(p.args);
    assert json.parseDict(json.dict(p.env)) == Ok(p.env);
    assert json.parseList(json.list(p.tags)) == Ok(p.tags);
    assert ParseState(row.state) == p.status.state;
    if p.status.pid.Some? {
      Q.PidRoundTrip(p.status.pid.value);
    }
  }

  /// `record_to_template`: the JSON columns are parsed in the order args,
  /// env, variables, tags, and the first that fails is the error.
  function RecordToTemplate(r: Q.ProcessTemplateRecord, json: Q.JsonCodec): (res: Result<P.ProcessTemplate>)
    ensures var args := ParseColumn(r.args, json.parseList, [], "Failed to parse args: ");
      var env := ParseColumn(r.env, json.parseDict, map[], "Failed to parse env: ");
      var vars := ParseColumn(r.variables, json.parseVariables, [], "Failed to parse variables: ");
      var tags := ParseColumn(r.tags, json.parseList, [], "Failed to parse tags: ");
      && (res.Ok? <==> args.Ok? && env.Ok? && vars.Ok? && tags.Ok?)
      && (args.Err? ==> res == Err(args.error))
      && (args.Ok? && env.Err? ==> res == Err(env.error))
      && (args.Ok? && env.Ok? && vars.Err? ==> res == Err(vars.error))
      && (args.Ok? && env.Ok? && vars.Ok? && tags.Err? ==> res == Err(tags.error))
      && (res.Ok? ==> res.value.args == args.value && res.value.env == env.value
                      && res.value.variables == vars.value && res.value.tags == tags.value)
    ensures res.Ok? ==>
      && res.value.id == Some(IntToString(r.id)) && res.value.template_id == r.template_id
      && res.value.name == r.name && res.value.description == r.description && res.value.category == r.category
      && res.value.command == r.command && res.value.default_cwd == r.default_cwd
      && res.value.default_auto_start == r.default_auto_start
      && res.value.created_at == r.created_at && res.value.updated_at == r.updated_at
  {
    var args := ParseColumn(r.args, json.parseList, [], "Failed to parse args: ");
    var env := ParseColumn(r.env, json.parseDict, map[], "Failed to parse env: ");
    var vars := ParseColumn(r.variables, json.parseVariables, [], "Failed to parse variables: ");
    var tags := ParseColumn(r.tags, json.parseList, [], "Failed to parse tags: ");
    if args.Err? then Err(args.error)
    else if env.Err? then Err(env.error)
    else if vars.Err? then Err(vars.error)
    else if tags.Err? then Err(tags.error)
    else Ok(P.ProcessTemplate(Some(IntToString(r.id)), r.template_id, r.name, r.description, r.category, r.command,
                              args.value, env.value, r.default_cwd, r.default_auto_start, vars.value,
                              r.created_at, r.updated_at, tags.value))
  }

  /// The template row converts back into the template that was saved.
  lemma TemplateRowRoundTrip(t: P.ProcessTemplate, json: Q.JsonCodec, id: int, createdAt: Timestamp, now: Timestamp)
    requires Q.Faithful(json)
    ensures RecordToTemplate(Q.TemplateRow(t, json, id, createdAt, now), json)
         == Ok(t.(id := Some(IntToString(id)), created_at := createdAt, updated_at := now))
  {
    assert json.parseList(json.list(t.args)) == Ok(t.args);
    assert json.parseDict(json.dict(t.env)) == Ok(t.env);
    assert json.parseVariables(json.variables(t.variables)) == Ok(t.variables);
    assert json.parseList(json.list(t.tags)) == Ok(t.tags);
  }

  /// `collect::<Result<Vec<_>>>()`: every conversion in order, or the
  /// error of the first one that fails.
  function CollectAll<R, T>(rows: seq<R>, convert: R -> Result<T>): (r: Result<seq<T>>)
    ensures r.Ok? <==> forall i :: 0 <= i < |rows| ==> convert(rows[i]).Ok?
    ensures r.Ok? ==> |r.value| == |rows| && forall i :: 0 <= i < |rows| ==> r.value[i] == convert(rows[i]).value
    ensures r.Err? ==> exists i :: 0 <= i < |rows| && convert(rows[i]) == Err(r.error)
                                   && forall j :: 0 <= j < i ==> convert(rows[j]).Ok?
    decreases |rows|
  {
    if rows == [] then Ok([])
    else
      match convert(rows[0])
      case Err(e) => Err(e)
      case Ok(v) =>
        var rest := CollectAll(rows[1..], convert);
        assert forall i :: 1 <= i < |rows| ==> rows[i] == rows[1..][i - 1];
        if rest.Err? then
          var i :| 0 <= i < |rows[1..]| && convert(rows[1..][i]) == Err(rest.error)
                   && forall j :: 0 <= j < i ==> convert(rows[1..][j]).Ok?;
          assert forall j :: 0 <= j < i + 1 ==> convert(rows[j]).Ok? by {
            forall j | 0 <= j < i + 1 ensures convert(rows[j]).Ok? {
              if j > 0 { assert rows[j] == rows[1..][j - 1]; }
            }
          }
          Err(rest.error)
        else
          Ok([v] + rest.value)
  }


  /// Every process row converted, in order, or the first error.
  function ConvertProcesses(rows: seq<Q.ProcessRecord>, json: Q.JsonCodec): (r: Result<seq<P.ProcessInfo>>)
    ensures r.Ok? <==> forall i :: 0 <= i < |rows| ==> RecordToProcessInfo(rows[i], json).Ok?
    ensures r.Ok? ==> |r.value| == |rows|
    ensures r.Ok? ==> forall i :: 0 <= i < |rows| ==> Ok(r.value[i]) == RecordToProcessInfo(rows[i], json)
    ensures r.Ok? ==> forall i :: 0 <= i < |rows| ==> r.value[i].updated_at == rows[i].updated_at
  {
    CollectAll(rows, (row: Q.ProcessRecord) => RecordToProcessInfo(row, json))
  }

  /// Rows listed most recently updated first convert to records in the
  /// same order.
  function ConvertSorted(rows: seq<Q.ProcessRecord>, json: Q.JsonCodec): (r: Result<seq<P.ProcessInfo>>)
    requires forall i, j :: 0 <= i < j < |rows| ==> rows[i].updated_at >= rows[j].updated_at
    ensures r.Ok? <==> forall i :: 0 <= i < |rows| ==> RecordToProcessInfo(rows[i], json).Ok?
    ensures r.Ok? ==> |r.value| == |rows|
    ensures r.Ok? ==> forall i :: 0 <= i < |rows| ==> Ok(r.value[i]) == RecordToProcessInfo(rows[i], json)
    ensures r.Ok? ==> forall i, j :: 0 <= i < j < |r.value| ==> r.value[i].updated_at >= r.value[j].updated_at
  {
    ConvertProcesses(rows, json)
  }

  /// `load_all_processes` on the process table `table` listed in the
  /// order `order` (most recently updated first): the records in that
  /// order, or the first row that cannot be read.
  function LoadAll(table: map<string, Q.ProcessRecord>, order: seq<string>, json: Q.JsonCodec)
    : (r: Result<seq<P.ProcessInfo>>)
    requires Q.Descending(table, order, (p: Q.ProcessRecord) => p.updated_at)
    ensures |order| == |table|
    ensures r.Ok? <==> forall i :: 0 <= i < |order| ==> RecordToProcessInfo(table[order[i]], json).Ok?
    ensures r.Ok? ==> |r.value| == |order|
    ensures r.Ok? ==> forall i :: 0 <= i < |order| ==> Ok(r.value[i]) == RecordToProcessInfo(table[order[i]], json)
    ensures r.Ok? ==> forall i, j :: 0 <= i < j < |r.value| ==> r.value[i].updated_at >= r.value[j].updated_at
  {
    ConvertSorted(Listed(table, order), json)
  }

  /// The rows of the process table in the order `order`.
  function Listed(table: map<string, Q.ProcessRecord>, order: seq<string>): (r: seq<Q.ProcessRecord>)
    requires Q.Descending(table, order, (p: Q.ProcessRecord) => p.updated_at)
    ensures |r| == |order| == |table|
    ensures forall i :: 0 <= i < |r| ==> order[i] in table && r[i] == table[order[i]]
    ensures forall i, j :: 0 <= i < j < |r| ==> r[i].updated_at >= r[j].updated_at
  {
    KeyOrderLength(table, order);
    seq(|order|, i requires 0 <= i < |order| => table[order[i]])
  }
}
