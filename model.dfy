// The root crate's SurrealDB model layer (src/model.rs): the `process`
// table's record, its validation, and the SET clause a `CREATE` query is
// built from. Serialising a record to JSON text and parsing it back are
// parameters, and so is the order in which a JSON object's fields are
// visited. The database itself is not modelled; the queries are returned
// as text.

module Model {
  import opened Common
  import opened JsonValues

  /// A SurrealDB record id: table and key.
  datatype Thing = Thing(table: string, key: string)

  /// A row of the `process` table. The two time stamps are kept as the
  /// text the clock gave.
  datatype Process = Process(
    id: Thing,
    process_id: string,
    command: string,
    args: seq<string>,
    env: map<string, string>,
    cwd: Option<string>,
    state: string,
    created_at: string,
    updated_at: string)

  const TableName := "process"

  /// `Process::new`: the record id is the process id in table `process`,
  /// and both time stamps are the same instant.
  function NewProcess(process_id: string, command: string, args: seq<string>, env: map<string, string>,
                      cwd: Option<string>, state: string, now: string): (p: Process)
    ensures p.id == Thing(TableName, process_id) && p.process_id == process_id
    ensures p.command == command && p.args == args && p.env == env && p.cwd == cwd && p.state == state
    ensures p.created_at == now && p.updated_at == now
  {
    Process(Thing(TableName, process_id), process_id, command, args, env, cwd, state, now, now)
  }

  /// `Model::id`: a process is identified by its process id.
  function Id(p: Process): string
  {
    p.process_id
  }

  /// `Model::thing_id`: the table name paired with the id.
  function ThingId(p: Process): (t: Thing)
    ensures t.table == TableName && t.key == p.process_id
  {
    Thing(TableName, Id(p))
  }

  /// A freshly built process carries, as its record id, exactly the id
  /// `thing_id` computes.
  lemma NewProcessThingId(process_id: string, command: string, args: seq<string>, env: map<string, string>,
                          cwd: Option<string>, state: string, now: string)
    ensures var p := NewProcess(process_id, command, args, env, cwd, state, now); p.id == ThingId(p)
  {
  }

  /// `Process::validate`: the process id is checked first, then the
  /// command.
  function Validate(p: Process): (r: Result<Unit>)
    ensures r.Ok? <==> p.process_id != "" && p.command != ""
    ensures p.process_id == "" ==> r == Err("process_id cannot be empty")
    ensures p.process_id != "" && p.command == "" ==> r == Err("command cannot be empty")
  {
    if p.process_id == "" then Err("process_id cannot be empty")
    else if p.command == "" then Err("command cannot be empty")
    else Ok(Unit)
  }

  // ---------------------------------------------------------------------
  // Single-quoted SurrealQL strings

  /// How SurrealQL reads a single-quoted string from the text after its
  /// opening quote: a backslash takes the next character literally, an
  /// unescaped quote ends the string. The result is the string and the
  /// text after the closing quote, or None when the string never ends.
  function ReadQuoted(t: string): Option<(string, string)>
    decreases |t|
  {
    if t == [] then None
    else if t[0] == '\'' then Some(("", t[1..]))
    else if t[0] == '\\' then
      if |t| < 2 then None
      else match ReadQuoted(t[2..])
        case None => None
        case Some(r) => Some(([t[1]] + r.0, r.1))
    else match ReadQuoted(t[1..])
      case None => None
      case Some(r) => Some(([t[0]] + r.0, r.1))
  }

  /// The escaping `json_to_set_clause` applies as written: every quote is
  /// preceded by a backslash, and nothing else changes.
  function QuoteEscapedAsWritten(s: string): string
  {
    Replace(s, "'", "\\'")
  }

  /// A value ending in a backslash: as written, the backslash escapes the
  /// closing quote, and the string never ends.
  lemma AsWrittenTrailingBackslash()
    ensures ReadQuoted(QuoteEscapedAsWritten("\\") + "'") == None
  {
    assert QuoteEscapedAsWritten("\\") == "\\";
    assert ("\\" + "'")[2..] == "";
  }

  /// The escaping with backslashes escaped as well as quotes.
  function QuoteEscaped(s: string): string
    decreases |s|
  {
    if s == [] then ""
    else CharEscaped(s[0]) + QuoteEscaped(s[1..])
  }

  /// The escape of one character.
  function CharEscaped(c: char): string
  {
    if c == '\\' || c == '\'' then ['\\', c] else [c]
  }

  /// Reading past one escaped character yields that character.
  lemma ReadEscapedChar(c: char, tail: string)
    ensures ReadQuoted(CharEscaped(c) + tail) ==
      match ReadQuoted(tail)
      case None => None
      case Some(r) => Some(([c] + r.0, r.1))
  {
    var t := CharEscaped(c) + tail;
    if c == '\\' || c == '\'' {
      assert t[2..] == tail;
    } else {
      assert t[1..] == tail;
    }
  }

  /// Reading an escaped string back, up to its closing quote, gives the
  /// original value and leaves the rest of the query untouched.
  lemma {:induction false} QuotedReadsBack(s: string, rest: string)
    ensures ReadQuoted(QuoteEscaped(s) + "'" + rest) == Some((s, rest))
    decreases |s|
  {
    var close := "'" + rest;
    AppendRegroup(QuoteEscaped(s), "'", rest);
    if s != [] {
      QuotedReadsBack(s[1..], rest);
      AppendRegroup(QuoteEscaped(s[1..]), "'", rest);
      AppendRegroup(CharEscaped(s[0]), QuoteEscaped(s[1..]), close);
      ReadEscapedChar(s[0], QuoteEscaped(s[1..]) + close);
      assert s == [s[0]] + s[1..];
    }
  }

  /// For a value without backslashes the two escapings agree.
  lemma {:induction false} EscapingsAgree(s: string)
    requires '\\' !in s
    ensures QuoteEscaped(s) == QuoteEscapedAsWritten(s)
    decreases |s|
  {
    if s != [] {
      assert '\\' !in s[1..];
      EscapingsAgree(s[1..]);
      assert s[..1] == [s[0]];
    }
  }

  // ---------------------------------------------------------------------
  // The SET clause

  /// Which escaping a string value gets: the one src/model.rs applies, or
  /// the corrected one that escapes backslashes too.
  datatype Escaping = AsWritten | Corrected

  function Escape(esc: Escaping, s: string): string
  {
    match esc
    case AsWritten => QuoteEscapedAsWritten(s)
    case Corrected => QuoteEscaped(s)
  }

  /// One value of the SET clause: time stamp strings cast to datetime,
  /// strings quoted, null as `null`, anything else as its JSON text. The
  /// source is `esc == AsWritten`.
  function ValueText(key: string, v: Json, render: Json -> string, esc: Escaping): (r: string)
    ensures v.JString? && (key == "created_at" || key == "updated_at") ==> r == "<datetime>'" + Escape(esc, v.s) + "'"
    ensures v.JString? && key != "created_at" && key != "updated_at" ==> r == "'" + Escape(esc, v.s) + "'"
    ensures v.JNull? ==> r == "null"
    ensures !v.JString? && !v.JNull? ==> r == render(v)
  {
    match v
    case JString(s) =>
      if key == "created_at" || key == "updated_at" then "<datetime>'" + Escape(esc, s) + "'"
      else "'" + Escape(esc, s) + "'"
    case JNull => "null"
    case _ => render(v)
  }

  /// A string value is read back from its text exactly when backslashes
  /// are escaped, or when it holds none; as written, the value `\` gives
  /// a string that never ends.
  lemma StringValueReadsBack(key: string, s: string, render: Json -> string, esc: Escaping)
    ensures esc == Corrected || '\\' !in s ==>
      && (key != "created_at" && key != "updated_at" ==>
            ValueText(key, JString(s), render, esc)[0] == '\'' && ReadQuoted(ValueText(key, JString(s), render, esc)[1..]) == Some((s, "")))
      && (key == "created_at" || key == "updated_at" ==>
            StartsWith(ValueText(key, JString(s), render, esc), "<datetime>'")
            && ReadQuoted(ValueText(key, JString(s), render, esc)[|"<datetime>'"|..]) == Some((s, "")))
    ensures key != "created_at" && key != "updated_at" ==>
      ReadQuoted(ValueText(key, JString("\\"), render, AsWritten)[1..]) == None
  {
    if esc == Corrected || '\\' !in s {
      if esc == AsWritten {
        EscapingsAgree(s);
      }
      assert Escape(esc, s) == QuoteEscaped(s);
      QuotedReadsBack(s, "");
      var e := QuoteEscaped(s) + "'" + "";
      assert e == QuoteEscaped(s) + "'";
      var q := "'" + QuoteEscaped(s) + "'";
      assert q[1..] == e;
      var d := "<datetime>'" + QuoteEscaped(s) + "'";
      assert d[|"<datetime>'"|..] == e;
      assert d[..|"<datetime>'"|] == "<datetime>'";
    }
    AsWrittenTrailingBackslash();
    assert ("'" + QuoteEscapedAsWritten("\\") + "'")[1..] == QuoteEscapedAsWritten("\\") + "'";
  }

  /// One field: `key = value`.
  function FieldText(key: string, v: Json, render: Json -> string, esc: Escaping): string
  {
    key + " = " + ValueText(key, v, render, esc)
  }

  /// The fields of an object, in the order the object is visited.
  function Fields(m: map<string, Json>, order: seq<string>, render: Json -> string, esc: Escaping): (r: seq<string>)
    requires IsKeyOrder(m, order)
    ensures |r| == |order| == |m|
    ensures forall i :: 0 <= i < |order| ==> r[i] == FieldText(order[i], m[order[i]], render, esc)
  {
    KeyOrderLength(m, order);
    seq(|order|, i requires 0 <= i < |order| => FieldText(order[i], m[order[i]], render, esc))
  }

  /// The visiting order of every JSON object.
  ghost predicate ObjectOrders(orderOf: map<string, Json> -> seq<string>)
  {
    forall m :: IsKeyOrder(m, orderOf(m))
  }

  /// `json_to_set_clause`: parse the record's JSON text; a parse failure
  /// and a value that is not an object are errors; otherwise the fields,
  /// joined by commas.
  function SetClause(json: string, parse: string -> Result<Json>, render: Json -> string,
                     orderOf: map<string, Json> -> seq<string>, esc: Escaping): (r: Result<string>)
    requires ObjectOrders(orderOf)
    ensures parse(json).Err? ==> r == Err("Failed to parse JSON: " + parse(json).error)
    ensures parse(json).Ok? && !parse(json).value.JObject? ==> r == Err("Expected JSON object")
    ensures r.Ok? <==> parse(json).Ok? && parse(json).value.JObject?
  {
    match parse(json)
    case Err(e) => Err("Failed to parse JSON: " + e)
    case Ok(v) =>
      if v.JObject? then
        var m := v.fields;
        Ok(Join(Fields(m, orderOf(m), render, esc), ", "))
      else Err("Expected JSON object")
  }

  /// Every field of the parsed object appears in the clause as
  /// `key = value`.
  lemma SetClauseHasEachField(json: string, parse: string -> Result<Json>, render: Json -> string,
                              orderOf: map<string, Json> -> seq<string>, esc: Escaping, key: string)
    requires ObjectOrders(orderOf)
    requires parse(json).Ok? && parse(json).value.JObject? && key in parse(json).value.fields
    ensures var m := parse(json).value.fields;
      Contains(SetClause(json, parse, render, orderOf, esc).value, FieldText(key, m[key], render, esc))
  {
    var m := parse(json).value.fields;
    var order := orderOf(m);
    var i :| 0 <= i < |order| && order[i] == key;
    JoinHasPart(Fields(m, order, render, esc), ", ", i);
  }

  // ---------------------------------------------------------------------
  // Queries

  /// `ModelDb::save`: validate, serialise, build the SET clause, and the
  /// `CREATE` query for the record.
  function SaveQuery(p: Process, serialize: Process -> string, parse: string -> Result<Json>, render: Json -> string,
                     orderOf: map<string, Json> -> seq<string>, esc: Escaping): (r: Result<string>)
    requires ObjectOrders(orderOf)
    ensures Validate(p).Err? ==> r == Err(Validate(p).error)
    ensures Validate(p).Ok? ==> (r.Ok? <==> SetClause(serialize(p), parse, render, orderOf, esc).Ok?)
    ensures r.Ok? ==> r.value == "CREATE " + TableName + ":`" + Id(p) + "` SET " + SetClause(serialize(p), parse, render, orderOf, esc).value
  {
    match Validate(p)
    case Err(e) => Err(e)
    case Ok(_) =>
      match SetClause(serialize(p), parse, render, orderOf, esc)
      case Err(e) => Err(e)
      case Ok(clause) => Ok("CREATE " + TableName + ":`" + Id(p) + "` SET " + clause)
  }

  /// `ModelDb::update`: validate, then the `UPDATE ... CONTENT` query with
  /// the record's JSON text.
  function UpdateQuery(p: Process, serialize: Process -> string): (r: Result<string>)
    ensures r.Ok? <==> Validate(p).Ok?
    ensures r.Err? ==> r == Err(Validate(p).error)
    ensures r.Ok? ==> r.value == "UPDATE " + TableName + ":`" + Id(p) + "` CONTENT " + serialize(p)
  {
    match Validate(p)
    case Err(e) => Err(e)
    case Ok(_) => Ok("UPDATE " + TableName + ":`" + Id(p) + "` CONTENT " + serialize(p))
  }

  /// Neither query is built for a process without an id or a command.
  lemma InvalidProcessNeverQueried(p: Process, serialize: Process -> string, parse: string -> Result<Json>,
                                   render: Json -> string, orderOf: map<string, Json> -> seq<string>, esc: Escaping)
    requires ObjectOrders(orderOf)
    requires p.process_id == "" || p.command == ""
    ensures SaveQuery(p, serialize, parse, render, orderOf, esc).Err?
    ensures UpdateQuery(p, serialize).Err?
  {
  }
}
