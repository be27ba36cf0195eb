// The root crate's KDL configuration file (src/persistence/kdl_persistence.rs):
// loading it (a missing file is the default configuration), adding or
// replacing a process entry, removing entries, and the hand-written KDL text
// the configuration is saved as. The file is a field holding its text, or
// None while it does not exist; the KDL parser is a parameter, and so is the
// order in which a HashMap of environment variables is visited.

module KdlPersistence {
  import opened Common

  /// The meta block as this file uses it: a version and optional schema
  /// and time stamps.
  datatype ConfigMeta = ConfigMeta(
    version: string,
    schema: Option<string>,
    created_at: Option<string>,
    updated_at: Option<string>)

  /// A process entry as this file uses it: an optional working directory
  /// and an environment.
  datatype ProcessConfig = ProcessConfig(
    id: string,
    command: string,
    args: seq<string>,
    cwd: Option<string>,
    env: map<string, string>,
    auto_start: bool)

  datatype IchimiConfig = IchimiConfig(meta: ConfigMeta, process: seq<ProcessConfig>)

  /// The default configuration: version "1.0.0", nothing else, no
  /// processes.
  function DefaultConfig(): (c: IchimiConfig)
    ensures c.meta.version == "1.0.0" && c.process == []
    ensures c.meta.schema.None? && c.meta.created_at.None? && c.meta.updated_at.None?
  {
    IchimiConfig(ConfigMeta("1.0.0", None, None, None), [])
  }

  // ---------------------------------------------------------------------
  // The generated text

  function Quoted(s: string): string { "\"" + s + "\"" }

  function BoolText(b: bool): string { if b then "true" else "false" }

  const HeaderTitle := "// Ichimi Server Process Configuration\n"
  const HeaderNote := "// Auto-generated file - modifications will be preserved\n\n"
  const Header := HeaderTitle + HeaderNote

  /// A named line inside a block, with the value quoted.
  function Line(name: string, value: string): string
  {
    "    " + name + " " + Quoted(value) + "\n"
  }

  /// An optional meta line: present only when the value is.
  function OptionalLine(name: string, v: Option<string>): string
  {
    if v.Some? then Line(name, v.value) else ""
  }

  function MetaBlock(m: ConfigMeta): string
  {
    "meta {\n" + Line("version", m.version)
    + OptionalLine("schema", m.schema) + OptionalLine("created_at", m.created_at)
    + OptionalLine("updated_at", m.updated_at) + "}\n\n"
  }

  /// Each argument, quoted and preceded by a space.
  function ArgsText(args: seq<string>): string
    decreases |args|
  {
    if args == [] then "" else ArgsText(args[..|args| - 1]) + " " + Quoted(args[|args| - 1])
  }

  function EnvLine(key: string, value: string): string
  {
    "        " + key + " " + Quoted(value) + "\n"
  }

  /// One line per environment variable, in the given key order.
  function EnvLines(env: map<string, string>, keys: seq<string>): string
    requires forall k :: k in keys ==> k in env
    decreases |keys|
  {
    if keys == [] then ""
    else EnvLines(env, keys[..|keys| - 1]) + EnvLine(keys[|keys| - 1], env[keys[|keys| - 1]])
  }

  function Opening(id: string): string { "process " + Quoted(id) + " {\n" }

  /// The argument line, present only when there are arguments.
  function ArgsLine(args: seq<string>): string
  {
    if args != [] then "    args" + ArgsText(args) + "\n" else ""
  }

  function EnvBlock(p: ProcessConfig, keys: seq<string>): string
    requires IsKeyOrder(p.env, keys)
  {
    if p.env != map[] then "    env {\n" + EnvLines(p.env, keys) + "    }\n" else ""
  }

  /// The auto-start line and the closing brace of a process block.
  function Closing(auto_start: bool): string
  {
    "    auto_start " + BoolText(auto_start) + "\n}\n\n"
  }

  /// What follows the opening line of a process block: the command, the
  /// arguments only when there are some, the working directory only when
  /// set, the environment only when not empty, and the auto-start line
  /// always.
  function BlockBody(p: ProcessConfig, keys: seq<string>): string
    requires IsKeyOrder(p.env, keys)
  {
    Line("command", p.command) + ArgsLine(p.args) + OptionalLine("cwd", p.cwd) + EnvBlock(p, keys) + Closing(p.auto_start)
  }

  /// A process block: its opening line and its body.
  function ProcessBlock(p: ProcessConfig, keys: seq<string>): string
    requires IsKeyOrder(p.env, keys)
  {
    Opening(p.id) + BlockBody(p, keys)
  }

  /// The visiting order of every environment map.
  ghost predicate EnvOrders(envOrderOf: map<string, string> -> seq<string>)
  {
    forall m :: IsKeyOrder(m, envOrderOf(m))
  }

  /// One block per process, in list order.
  function Blocks(ps: seq<ProcessConfig>, envOrderOf: map<string, string> -> seq<string>): string
    requires EnvOrders(envOrderOf)
    decreases |ps|
  {
    if ps == [] then ""
    else
      var p := ps[|ps| - 1];
      Blocks(ps[..|ps| - 1], envOrderOf) + ProcessBlock(p, envOrderOf(p.env))
  }

  /// Appending the next block to a text that ends with the blocks so far.
  lemma BlocksNext(kdl: string, ps: seq<ProcessConfig>, envOrderOf: map<string, string> -> seq<string>, i: nat)
    requires EnvOrders(envOrderOf) && i < |ps|
    ensures kdl + Blocks(ps[..i], envOrderOf) + ProcessBlock(ps[i], envOrderOf(ps[i].env)) == kdl + Blocks(ps[..i + 1], envOrderOf)
  {
    assert ps[..i + 1][..i] == ps[..i];
    AppendRegroup(kdl, Blocks(ps[..i], envOrderOf), ProcessBlock(ps[i], envOrderOf(ps[i].env)));
  }

  /// The text `generate_kdl` produces.
  function KdlText(c: IchimiConfig, envOrderOf: map<string, string> -> seq<string>): string
    requires EnvOrders(envOrderOf)
  {
    Header + MetaBlock(c.meta) + Blocks(c.process, envOrderOf)
  }

  /// A process block starts with its opening line.
  lemma BlockOpens(p: ProcessConfig, keys: seq<string>)
    requires IsKeyOrder(p.env, keys)
    ensures Contains(ProcessBlock(p, keys), Opening(p.id))
  {
    ContainsFront(Opening(p.id), BlockBody(p, keys));
  }

  /// Every process of the list has its opening line in the blocks.
  lemma {:induction false} BlocksOpenEach(ps: seq<ProcessConfig>, envOrderOf: map<string, string> -> seq<string>, i: nat)
    requires EnvOrders(envOrderOf) && i < |ps|
    ensures Contains(Blocks(ps, envOrderOf), Opening(ps[i].id))
    decreases |ps|
  {
    var init := ps[..|ps| - 1];
    var p := ps[|ps| - 1];
    var block := ProcessBlock(p, envOrderOf(p.env));
    if i == |ps| - 1 {
      BlockOpens(p, envOrderOf(p.env));
      ContainsAppended(Blocks(init, envOrderOf), block, Opening(p.id));
    } else {
      assert init[i] == ps[i];
      BlocksOpenEach(init, envOrderOf, i);
      ContainsPrefixOf(Blocks(init, envOrderOf), block, Opening(ps[i].id));
    }
  }

  /// The generated file opens every process of the configuration.
  lemma KdlTextOpensEach(c: IchimiConfig, envOrderOf: map<string, string> -> seq<string>, i: nat)
    requires EnvOrders(envOrderOf) && i < |c.process|
    ensures Contains(KdlText(c, envOrderOf), Opening(c.process[i].id))
  {
    BlocksOpenEach(c.process, envOrderOf, i);
    ContainsAppended(Header + MetaBlock(c.meta), Blocks(c.process, envOrderOf), Opening(c.process[i].id));
  }

  /// The generated file starts with the header and the meta block.
  lemma KdlTextStartsWithMeta(c: IchimiConfig, envOrderOf: map<string, string> -> seq<string>)
    requires EnvOrders(envOrderOf)
    ensures StartsWith(KdlText(c, envOrderOf), Header + MetaBlock(c.meta))
  {
    var t := KdlText(c, envOrderOf);
    var h := Header + MetaBlock(c.meta);
    assert t[..|h|] == h;
  }

  /// `generate_kdl`: the header, the meta block, then each process block,
  /// appended piece by piece.
  method GenerateKdl(config: IchimiConfig, envOrderOf: map<string, string> -> seq<string>) returns (kdl: string)
    requires EnvOrders(envOrderOf)
    ensures kdl == KdlText(config, envOrderOf)
  {
    kdl := HeaderTitle;
    kdl := kdl + HeaderNote;
    kdl := AppendMeta(kdl, config.meta);
    kdl := AppendBlocks(kdl, config.process, envOrderOf);
  }

  /// The loop over processes in `generate_kdl`.
  method AppendBlocks(kdl: string, ps: seq<ProcessConfig>, envOrderOf: map<string, string> -> seq<string>) returns (out: string)
    requires EnvOrders(envOrderOf)
    ensures out == kdl + Blocks(ps, envOrderOf)
  {
    out := kdl;
    for i := 0 to |ps|
      invariant out == kdl + Blocks(ps[..i], envOrderOf)
    {
      out := AppendProcess(out, ps[i], envOrderOf(ps[i].env));
      BlocksNext(kdl, ps, envOrderOf, i);
    }
    assert ps[..|ps|] == ps;
  }

  /// The meta block part of `generate_kdl`.
  method AppendMeta(kdl: string, m: ConfigMeta) returns (out: string)
    ensures out == kdl + MetaBlock(m)
  {
    ghost var block := "meta {\n";
    out := kdl + "meta {\n";
    out, block := Push(out, kdl, block, Line("version", m.version));
    if m.schema.Some? {
      out, block := Push(out, kdl, block, Line("schema", m.schema.value));
    }
    assert block == "meta {\n" + Line("version", m.version) + OptionalLine("schema", m.schema);
    if m.created_at.Some? {
      out, block := Push(out, kdl, block, Line("created_at", m.created_at.value));
    }
    assert block == "meta {\n" + Line("version", m.version) + OptionalLine("schema", m.schema)
      + OptionalLine("created_at", m.created_at);
    if m.updated_at.Some? {
      out, block := Push(out, kdl, block, Line("updated_at", m.updated_at.value));
    }
    assert block == "meta {\n" + Line("version", m.version) + OptionalLine("schema", m.schema)
      + OptionalLine("created_at", m.created_at) + OptionalLine("updated_at", m.updated_at);
    out, block := Push(out, kdl, block, "}\n\n");
  }

  /// Appending a piece to the text being built, while the ghost `block`
  /// tracks what has been appended after `kdl`.
  method Push(out: string, ghost kdl: string, ghost block: string, piece: string) returns (out': string, ghost block': string)
    requires out == kdl + block
    ensures out' == out + piece && block' == block + piece
    ensures out' == kdl + block'
  {
    out' := out + piece;
    block' := block + piece;
    AppendRegroup(kdl, block, piece);
  }

  /// One iteration of the loop over processes in `generate_kdl`.
  method AppendProcess(kdl: string, p: ProcessConfig, keys: seq<string>) returns (out: string)
    requires IsKeyOrder(p.env, keys)
    ensures out == kdl + ProcessBlock(p, keys)
  {
    out := kdl + Opening(p.id);
    ghost var head := out;
    ghost var body := "";
    assert out == head + body;
    out, body := Push(out, head, body, Line("command", p.command));
    if p.args != [] {
      var args := AppendArgs("    args", p.args);
      out, body := Push(out, head, body, args + "\n");
    }
    if p.cwd.Some? {
      out, body := Push(out, head, body, Line("cwd", p.cwd.value));
    }
    assert body == Line("command", p.command) + ArgsLine(p.args) + OptionalLine("cwd", p.cwd);
    if p.env != map[] {
      var env := AppendEnv("    env {\n", p.env, keys);
      out, body := Push(out, head, body, env + "    }\n");
    }
    assert body == Line("command", p.command) + ArgsLine(p.args) + OptionalLine("cwd", p.cwd) + EnvBlock(p, keys);
    out, body := Push(out, head, body, Closing(p.auto_start));
    AppendRegroup(kdl, Opening(p.id), body);
  }

  /// The loop over arguments in `generate_kdl`.
  method AppendArgs(kdl: string, args: seq<string>) returns (out: string)
    ensures out == kdl + ArgsText(args)
  {
    out := kdl;
    var j := 0;
    while j < |args|
      invariant 0 <= j <= |args|
      invariant out == kdl + ArgsText(args[..j])
    {
      assert args[..j + 1][..j] == args[..j];
      out := out + " " + Quoted(args[j]);
      j := j + 1;
    }
    assert args[..j] == args;
  }

  /// The loop over environment variables in `generate_kdl`.
  method AppendEnv(kdl: string, env: map<string, string>, keys: seq<string>) returns (out: string)
    requires forall k :: k in keys ==> k in env
    ensures out == kdl + EnvLines(env, keys)
  {
    out := kdl;
    var j := 0;
    while j < |keys|
      invariant 0 <= j <= |keys|
      invariant out == kdl + EnvLines(env, keys[..j])
    {
      assert keys[..j + 1][..j] == keys[..j];
      out := out + EnvLine(keys[j], env[keys[j]]);
      j := j + 1;
    }
    assert keys[..j] == keys;
  }

  // ---------------------------------------------------------------------
  // The process list

  /// The position of the first entry with the id, if any.
  function FirstIndex(ps: seq<ProcessConfig>, id: string): (r: Option<nat>)
    ensures r.None? <==> forall j :: 0 <= j < |ps| ==> ps[j].id != id
    ensures r.Some? ==> r.value < |ps| && ps[r.value].id == id
    ensures r.Some? ==> forall j :: 0 <= j < r.value ==> ps[j].id != id
    decreases |ps|
  {
    if ps == [] then None
    else if ps[0].id == id then Some(0)
    else
      var r := FirstIndex(ps[1..], id);
      assert forall j :: 1 <= j < |ps| ==> ps[j] == ps[1..][j - 1];
      if r.Some? then Some(r.value + 1) else None
  }

  /// The list after `add_or_update_process`: the first entry with the id
  /// is replaced in place, or the entry is appended when none has it.
  function AddedOrUpdated(ps: seq<ProcessConfig>, p: ProcessConfig): (r: seq<ProcessConfig>)
    ensures p in r
    ensures |ps| <= |r| <= |ps| + 1
    ensures |r| == |ps| + 1 <==> forall j :: 0 <= j < |ps| ==> ps[j].id != p.id
    ensures forall j :: 0 <= j < |ps| && ps[j].id != p.id ==> r[j] == ps[j]
    ensures forall j :: 0 <= j < |ps| ==> r[j] == p || r[j] == ps[j]
    ensures forall j :: 0 <= j < |ps| && r[j] != ps[j] ==> forall k :: 0 <= k < j ==> ps[k].id != p.id
    ensures |r| == |ps| + 1 ==> r[|ps|] == p
  {
    match FirstIndex(ps, p.id)
    case Some(i) =>
      var r := ps[i := p];
      assert r[i] == p;
      r
    case None => ps + [p]
  }

  /// Keeps the entries with another id.
  function OtherThan(id: string): ProcessConfig -> bool
  {
    (q: ProcessConfig) => q.id != id
  }

  /// Removing every entry with the id shortens the list exactly when some
  /// entry had it.
  lemma {:induction false} RemovedShorter(ps: seq<ProcessConfig>, id: string)
    ensures |Kept(ps, OtherThan(id))| < |ps| <==> exists j :: 0 <= j < |ps| && ps[j].id == id
    ensures |Kept(ps, OtherThan(id))| <= |ps|
    decreases |ps|
  {
    if ps != [] {
      RemovedShorter(ps[1..], id);
      if exists j :: 0 <= j < |ps[1..]| && ps[1..][j].id == id {
        var j :| 0 <= j < |ps[1..]| && ps[1..][j].id == id;
        assert ps[j + 1].id == id;
      }
      if exists j :: 0 <= j < |ps| && ps[j].id == id {
        var j :| 0 <= j < |ps| && ps[j].id == id;
        if j > 0 { assert ps[1..][j - 1].id == id; }
      }
    }
  }

  /// What the parser gives for each text: the configuration or an error.
  type Parser = string -> Result<IchimiConfig>

  /// A string `generate_kdl` can write between quotes unescaped: no quote,
  /// backslash or line break.
  predicate PlainText(s: string)
  {
    forall i :: 0 <= i < |s| ==> s[i] != '"' && s[i] != '\\' && s[i] != '\n' && s[i] != '\r'
  }

  predicate IdentStart(c: char)
  {
    'a' <= c <= 'z' || 'A' <= c <= 'Z' || c == '_'
  }

  /// An environment key `generate_kdl` can write as a bare node name: a
  /// letter or underscore, then letters, digits and underscores, and not a
  /// KDL keyword.
  predicate PlainKey(k: string)
  {
    && k != [] && IdentStart(k[0])
    && (forall i :: 0 <= i < |k| ==> IdentStart(k[i]) || '0' <= k[i] <= '9')
    && k != "true" && k != "false" && k != "null"
  }

  predicate PlainOption(v: Option<string>)
  {
    v.Some? ==> PlainText(v.value)
  }

  predicate PlainProcess(p: ProcessConfig)
  {
    && PlainText(p.id) && PlainText(p.command) && PlainOption(p.cwd)
    && (forall i :: 0 <= i < |p.args| ==> PlainText(p.args[i]))
    && (forall k :: k in p.env ==> PlainKey(k) && PlainText(p.env[k]))
  }

  /// A configuration whose every string the generated text carries as it is.
  predicate Plain(c: IchimiConfig)
  {
    && PlainText(c.meta.version) && PlainOption(c.meta.schema)
    && PlainOption(c.meta.created_at) && PlainOption(c.meta.updated_at)
    && forall i :: 0 <= i < |c.process| ==> PlainProcess(c.process[i])
  }

  /// The parser reads back every plain configuration as `generate_kdl`
  /// writes it.
  ghost predicate ReadsBack(parse: Parser, envOrderOf: map<string, string> -> seq<string>)
    requires EnvOrders(envOrderOf)
  {
    forall c :: Plain(c) ==> parse(KdlText(c, envOrderOf)) == Ok(c)
  }

  /// A saved plain configuration parses back to itself.
  lemma SavedReadsBack(parse: Parser, envOrderOf: map<string, string> -> seq<string>, c: IchimiConfig)
    requires EnvOrders(envOrderOf)
    ensures ReadsBack(parse, envOrderOf) && Plain(c) ==> parse(KdlText(c, envOrderOf)) == Ok(c)
  {
  }

  /// `generate_kdl` does not escape the strings it quotes, so two different
  /// configurations, one of them not plain, are written as the same text
  /// and no parser reads both back: the arguments `a` and `b`, and the one
  /// argument `a" "b`.
  lemma UnescapedQuoteCollides(parse: Parser, envOrderOf: map<string, string> -> seq<string>)
    requires EnvOrders(envOrderOf)
    ensures var c1 := IchimiConfig(DefaultConfig().meta, [ProcessConfig("p", "c", ["a", "b"], None, map[], false)]);
      var c2 := IchimiConfig(DefaultConfig().meta, [ProcessConfig("p", "c", ["a\" \"b"], None, map[], false)]);
      && c1 != c2 && Plain(c1) && !Plain(c2)
      && KdlText(c1, envOrderOf) == KdlText(c2, envOrderOf)
      && !(parse(KdlText(c1, envOrderOf)) == Ok(c1) && parse(KdlText(c2, envOrderOf)) == Ok(c2))
  {
    var p1 := ProcessConfig("p", "c", ["a", "b"], None, map[], false);
    var p2 := ProcessConfig("p", "c", ["a\" \"b"], None, map[], false);
    ArgsCollide();
    assert ProcessBlock(p1, envOrderOf(map[])) == ProcessBlock(p2, envOrderOf(map[]));
    assert Blocks([p1], envOrderOf) == ProcessBlock(p1, envOrderOf(map[]));
    assert Blocks([p2], envOrderOf) == ProcessBlock(p2, envOrderOf(map[]));
    assert p2.args[0][1] == '"';
    assert !PlainProcess(p2);
  }

  lemma ArgsCollide()
    ensures ArgsText(["a", "b"]) == ArgsText(["a\" \"b"])
  {
    assert ["a", "b"][..1] == ["a"];
    assert ArgsText(["a"]) == " \"a\"";
    assert ArgsText(["a", "b"]) == " \"a\"" + " " + "\"b\"";
  }

  /// Replacing or appending a plain entry in a plain list keeps it plain.
  lemma AddedOrUpdatedPlain(ps: seq<ProcessConfig>, p: ProcessConfig)
    requires forall i :: 0 <= i < |ps| ==> PlainProcess(ps[i])
    requires PlainProcess(p)
    ensures forall i :: 0 <= i < |AddedOrUpdated(ps, p)| ==> PlainProcess(AddedOrUpdated(ps, p)[i])
  {
    var r := AddedOrUpdated(ps, p);
    forall i | 0 <= i < |r| ensures PlainProcess(r[i]) {
      if i < |ps| {
        assert r[i] == p || r[i] == ps[i];
      }
    }
  }

  /// The search-and-replace step of `add_or_update_process`: find the
  /// first entry with the id and overwrite it, or push the entry.
  method AddOrUpdateIn(ps: seq<ProcessConfig>, p: ProcessConfig) returns (out: seq<ProcessConfig>)
    ensures out == AddedOrUpdated(ps, p)
  {
    var i := 0;
    while i < |ps| && ps[i].id != p.id
      invariant 0 <= i <= |ps|
      invariant forall j :: 0 <= j < i ==> ps[j].id != p.id
    {
      i := i + 1;
    }
    if i < |ps| {
      out := ps[i := p];
    } else {
      out := ps + [p];
    }
  }

  // ---------------------------------------------------------------------
  // The file

  class KdlPersistence {
    /// The text of `processes.kdl`, or None while the file does not exist.
    var file: Option<string>

    constructor (existing: Option<string>)
      ensures file == existing
    {
      file := existing;
    }

    /// `load_config`: the default configuration when the file is missing,
    /// the parsed configuration otherwise, and a fixed message when the
    /// text does not parse.
    function LoadConfig(parse: Parser): (r: Result<IchimiConfig>)
      reads this
      ensures file.None? ==> r == Ok(DefaultConfig())
      ensures file.Some? && parse(file.value).Ok? ==> r == parse(file.value)
      ensures file.Some? && parse(file.value).Err? ==> r == Err("Failed to parse KDL configuration")
    {
      if file.None? then Ok(DefaultConfig())
      else match parse(file.value)
        case Ok(c) => Ok(c)
        case Err(_) => Err("Failed to parse KDL configuration")
    }

    /// `get_all_processes`: the loaded configuration's process list.
    function GetAllProcesses(parse: Parser): (r: Result<seq<ProcessConfig>>)
      reads this
      ensures r.Ok? <==> LoadConfig(parse).Ok?
      ensures r.Ok? ==> r.value == LoadConfig(parse).value.process
      ensures file.None? ==> r == Ok([])
    {
      match LoadConfig(parse)
      case Ok(c) => Ok(c.process)
      case Err(e) => Err(e)
    }

    /// `save_config`: the file now holds the generated text.
    method SaveConfig(config: IchimiConfig, envOrderOf: map<string, string> -> seq<string>)
      requires EnvOrders(envOrderOf)
      modifies this
      ensures file == Some(KdlText(config, envOrderOf))
    {
      var kdl := GenerateKdl(config, envOrderOf);
      file := Some(kdl);
    }

    /// `add_or_update_process`: load, replace the first entry with the id
    /// or append, stamp the update time, save. When the parser reads back
    /// plain configurations and the loaded one, the entry and the time are
    /// plain, the saved list holds the entry.
    method AddOrUpdateProcess(p: ProcessConfig, parse: Parser, envOrderOf: map<string, string> -> seq<string>,
                              nowText: string) returns (r: Result<Unit>)
      requires EnvOrders(envOrderOf)
      modifies this
      ensures old(LoadConfig(parse)).Err? ==> r == Err(old(LoadConfig(parse)).error) && file == old(file)
      ensures old(LoadConfig(parse)).Ok? ==> r == Ok(Unit)
      ensures old(LoadConfig(parse)).Ok? ==>
        var c := old(LoadConfig(parse)).value;
        file == Some(KdlText(IchimiConfig(c.meta.(updated_at := Some(nowText)), AddedOrUpdated(c.process, p)), envOrderOf))
      ensures (old(LoadConfig(parse)).Ok? && ReadsBack(parse, envOrderOf)
               && Plain(old(LoadConfig(parse)).value) && PlainProcess(p) && PlainText(nowText)) ==>
        GetAllProcesses(parse) == Ok(AddedOrUpdated(old(LoadConfig(parse)).value.process, p))
        && p in GetAllProcesses(parse).value
    {
      var loaded := LoadConfig(parse);
      if loaded.Err? {
        return Err(loaded.error);
      }
      var config := loaded.value;
      var ps := AddOrUpdateIn(config.process, p);
      config := IchimiConfig(config.meta.(updated_at := Some(nowText)), ps);
      SaveConfig(config, envOrderOf);
      if Plain(loaded.value) && PlainProcess(p) && PlainText(nowText) {
        AddedOrUpdatedPlain(loaded.value.process, p);
      }
      SavedReadsBack(parse, envOrderOf, config);
      r := Ok(Unit);
    }

    /// `remove_process`: every entry with the id is dropped, the rest kept
    /// in order; the file is rewritten, and true returned, only when some
    /// entry had the id.
    method RemoveProcess(id: string, parse: Parser, envOrderOf: map<string, string> -> seq<string>,
                         nowText: string) returns (r: Result<bool>)
      requires EnvOrders(envOrderOf)
      modifies this
      ensures old(LoadConfig(parse)).Err? ==> r == Err(old(LoadConfig(parse)).error) && file == old(file)
      ensures old(LoadConfig(parse)).Ok? ==> r.Ok?
      ensures old(LoadConfig(parse)).Ok? ==>
        var ps := old(LoadConfig(parse)).value.process;
        (r.value <==> exists j :: 0 <= j < |ps| && ps[j].id == id)
      ensures old(LoadConfig(parse)).Ok? && !r.value ==> file == old(file)
      ensures old(LoadConfig(parse)).Ok? && r.value ==>
        var c := old(LoadConfig(parse)).value;
        file == Some(KdlText(IchimiConfig(c.meta.(updated_at := Some(nowText)), Kept(c.process, OtherThan(id))), envOrderOf))
    {
      var loaded := LoadConfig(parse);
      if loaded.Err? {
        return Err(loaded.error);
      }
      var config := loaded.value;
      var initialLen := |config.process|;
      var kept := Kept(config.process, OtherThan(id));
      RemovedShorter(config.process, id);
      if |kept| < initialLen {
        config := IchimiConfig(config.meta.(updated_at := Some(nowText)), kept);
        SaveConfig(config, envOrderOf);
        r := Ok(true);
      } else {
        r := Ok(false);
      }
    }
  }
}
