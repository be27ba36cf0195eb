// The KDL snapshot of the ichimi-persistence crate
// (crates/ichimi-persistence/src/kdl_serde.rs): conversions between stored
// records and KDL records, the document `to_kdl_string` builds, and the
// node walk of `from_kdl_string`. Turning a document into text and back is
// the kdl library's work and is not modelled; neither is RFC 3339
// formatting and parsing of instants, which are passed in as a codec.

module KdlSerde {
  import opened Common
  import P = PersistTypes

  // ---------------------------------------------------------------------
  // Records

  datatype KdlMeta = KdlMeta(version: string, timestamp: string, hostname: Option<string>)

  datatype KdlProcessState = KdlProcessState(
    state_type: string,
    pid: Option<U32>,
    started_at: Option<string>,
    stopped_at: Option<string>,
    exit_code: Option<I32>,
    error: Option<string>)

  datatype KdlProcess = KdlProcess(
    id: string,
    name: string,
    command: string,
    args: seq<string>,
    cwd: Option<string>,
    auto_start: bool,
    tags: seq<string>,
    env: map<string, string>,
    state: Option<KdlProcessState>)

  datatype KdlSnapshot = KdlSnapshot(meta: KdlMeta, processes: seq<KdlProcess>)

  /// RFC 3339 text of an instant and back (chrono's `to_rfc3339` and
  /// `parse_from_rfc3339`).
  datatype TimeCodec = TimeCodec(format: Timestamp -> string, parse: string -> Option<Timestamp>)

  /// Parsing gives back every formatted instant.
  ghost predicate Faithful(c: TimeCodec)
  {
    forall t :: c.parse(c.format(t)) == Some(t)
  }

  /// `KdlProcessState::from_status`: no state block for NotStarted, nor for
  /// a state whose required fields are missing.
  function FromStatus(status: P.ProcessStatus, c: TimeCodec): (r: Option<KdlProcessState>)
    ensures r.None? <==>
      || status.state == P.NotStarted
      || (status.state == P.Running && (status.pid.None? || status.started_at.None?))
      || (status.state == P.Stopped && status.stopped_at.None?)
      || (status.state == P.Failed && (status.error.None? || status.stopped_at.None?))
    ensures r.Some? && status.state == P.Running ==> r.value.state_type == "running" && r.value.pid == status.pid
    ensures r.Some? && status.state == P.Stopped ==> r.value.state_type == "stopped" && r.value.exit_code == status.exit_code
    ensures r.Some? && status.state == P.Failed ==> r.value.state_type == "failed" && r.value.error == status.error
  {
    match status.state
    case NotStarted => None
    case Running =>
      if status.pid.Some? && status.started_at.Some? then
        Some(KdlProcessState("running", status.pid, Some(c.format(status.started_at.value)), None, None, None))
      else None
    case Stopped =>
      if status.stopped_at.Some? then
        Some(KdlProcessState("stopped", None, MapTime(status.started_at, c), Some(c.format(status.stopped_at.value)),
                             status.exit_code, None))
      else None
    case Failed =>
      if status.error.Some? && status.stopped_at.Some? then
        Some(KdlProcessState("failed", None, MapTime(status.started_at, c), Some(c.format(status.stopped_at.value)),
                             status.exit_code, status.error))
      else None
  }

  function MapTime(t: Option<Timestamp>, c: TimeCodec): Option<string>
  {
    if t.Some? then Some(c.format(t.value)) else None
  }

  function ParseTime(s: Option<string>, c: TimeCodec): Option<Timestamp>
  {
    if s.Some? then c.parse(s.value) else None
  }

  /// `KdlProcessState::to_process_status`: the three known state names
  /// give their state, anything else the default NotStarted status; a
  /// running state carries no exit code or stop time.
  function ToStatus(s: KdlProcessState, c: TimeCodec): (r: P.ProcessStatus)
    ensures s.state_type != "running" && s.state_type != "stopped" && s.state_type != "failed" ==>
      r == P.DefaultStatus()
    ensures s.state_type == "running" ==> r.state == P.Running && r.exit_code.None? && r.stopped_at.None?
    ensures s.state_type == "stopped" ==> r.state == P.Stopped && r.pid.None? && r.error.None?
    ensures s.state_type == "failed" ==> r.state == P.Failed && r.pid.None? && r.error == s.error
  {
    match s.state_type
    case "running" => P.ProcessStatus(P.Running, s.pid, None, ParseTime(s.started_at, c), None, None)
    case "stopped" => P.ProcessStatus(P.Stopped, None, s.exit_code, ParseTime(s.started_at, c),
                                      ParseTime(s.stopped_at, c), None)
    case "failed" => P.ProcessStatus(P.Failed, None, s.exit_code, ParseTime(s.started_at, c),
                                     ParseTime(s.stopped_at, c), s.error)
    case _ => P.DefaultStatus()
  }

  /// With a faithful codec a status survives the trip through a state
  /// block, apart from the fields its state does not use: a running one
  /// loses nothing it needs, a stopped one only its pid and error, a failed
  /// one only its pid. A status without a block reads back as the default.
  lemma StatusRoundTrip(status: P.ProcessStatus, c: TimeCodec)
    requires Faithful(c)
    ensures FromStatus(status, c).Some? && status.state == P.Running ==>
      ToStatus(FromStatus(status, c).value, c) == status.(exit_code := None, stopped_at := None, error := None)
    ensures FromStatus(status, c).Some? && status.state == P.Stopped ==>
      ToStatus(FromStatus(status, c).value, c) == status.(pid := None, error := None)
    ensures FromStatus(status, c).Some? && status.state == P.Failed ==>
      ToStatus(FromStatus(status, c).value, c) == status.(pid := None)
  {
    if status.started_at.Some? {
      var t := status.started_at.value;
      assert c.parse(c.format(t)) == Some(t);
    }
    if status.stopped_at.Some? {
      var t := status.stopped_at.value;
      assert c.parse(c.format(t)) == Some(t);
    }
  }

  /// `From<ProcessInfo> for KdlProcess`.
  function FromInfo(info: P.ProcessInfo, c: TimeCodec): (r: KdlProcess)
    ensures r.id == info.process_id && r.name == info.name && r.command == info.command
    ensures r.args == info.args && r.cwd == info.cwd && r.tags == info.tags && r.env == info.env
    ensures r.auto_start == info.auto_start_on_restore
    ensures r.state == FromStatus(info.status, c)
  {
    KdlProcess(info.process_id, info.name, info.command, info.args, info.cwd, info.auto_start_on_restore,
               info.tags, info.env, FromStatus(info.status, c))
  }

  /// `KdlProcess::to_process_info`: a missing state block gives the
  /// default status; the record id is left unset and both timestamps are
  /// the current time.
  function ToInfo(p: KdlProcess, c: TimeCodec, now: Timestamp): (r: P.ProcessInfo)
    ensures r.id.None? && r.process_id == p.id && r.name == p.name && r.command == p.command
    ensures r.args == p.args && r.env == p.env && r.cwd == p.cwd && r.tags == p.tags
    ensures r.auto_start_on_restore == p.auto_start
    ensures p.state.None? ==> r.status == P.DefaultStatus()
    ensures r.created_at == r.updated_at == now
  {
    var status := if p.state.Some? then ToStatus(p.state.value, c) else P.DefaultStatus();
    P.ProcessInfo(None, p.id, p.name, p.command, p.args, p.env, p.cwd, status, now, now, p.tags, p.auto_start)
  }

  /// A record converted to KDL and back keeps its identity and
  /// configuration, and its state kind unless the state had to be dropped.
  lemma InfoRoundTrip(info: P.ProcessInfo, c: TimeCodec, now: Timestamp)
    requires Faithful(c)
    ensures var back := ToInfo(FromInfo(info, c), c, now);
      && back.process_id == info.process_id && back.name == info.name && back.command == info.command
      && back.args == info.args && back.env == info.env && back.cwd == info.cwd && back.tags == info.tags
      && back.auto_start_on_restore == info.auto_start_on_restore
      && (FromStatus(info.status, c).Some? ==> back.status.state == info.status.state)
      && (FromStatus(info.status, c).None? ==> back.status == P.DefaultStatus())
  {
    StatusRoundTrip(info.status, c);
  }

  /// `KdlSnapshot::from_processes`; the clock text and host name are
  /// parameters.
  function FromProcesses(infos: seq<P.ProcessInfo>, c: TimeCodec, now: Timestamp, hostname: Option<string>)
    : (r: KdlSnapshot)
    ensures r.meta == KdlMeta("1.0", c.format(now), hostname)
    ensures |r.processes| == |infos| && forall i :: 0 <= i < |infos| ==> r.processes[i] == FromInfo(infos[i], c)
  {
    KdlSnapshot(KdlMeta("1.0", c.format(now), hostname),
                seq(|infos|, i requires 0 <= i < |infos| => FromInfo(infos[i], c)))
  }

  // ---------------------------------------------------------------------
  // Documents

  datatype KdlValue = KString(s: string) | KInt(i: int) | KBool(b: bool)

  /// A node entry: an argument, or a property `key=value`.
  datatype KdlEntry = Argument(value: KdlValue) | Property(key: string, value: KdlValue)

  datatype KdlNode = KdlNode(name: string, entries: seq<KdlEntry>, children: Option<seq<KdlNode>>)

  /// `KdlNode::get(key)`: the rightmost property with that key, as KDL
  /// resolves duplicate properties.
  function Get(e: seq<KdlEntry>, key: string): Option<KdlValue>
  {
    if e == [] then None
    else if e[|e| - 1].Property? && e[|e| - 1].key == key then Some(e[|e| - 1].value)
    else Get(e[..|e| - 1], key)
  }

  /// The node's arguments in order; `KdlNode::get(i)` is the i-th of them.
  function Arguments(e: seq<KdlEntry>): seq<KdlValue>
  {
    if e == [] then []
    else Arguments(e[..|e| - 1]) + (if e[|e| - 1].Argument? then [e[|e| - 1].value] else [])
  }

  function GetArg(e: seq<KdlEntry>, i: nat): Option<KdlValue>
  {
    var args := Arguments(e);
    if i < |args| then Some(args[i]) else None
  }

  function AsString(v: Option<KdlValue>): Option<string>
  {
    if v.Some? && v.value.KString? then Some(v.value.s) else None
  }

  function AsBool(v: Option<KdlValue>): Option<bool>
  {
    if v.Some? && v.value.KBool? then Some(v.value.b) else None
  }

  function AsInt(v: Option<KdlValue>): Option<int>
  {
    if v.Some? && v.value.KInt? then Some(v.value.i) else None
  }

  /// `KdlNode::insert(key, value)`: the rightmost property with that key
  /// takes the new value in place; without one the property is appended.
  function Insert(e: seq<KdlEntry>, key: string, v: KdlValue): seq<KdlEntry>
  {
    if e == [] then [Property(key, v)]
    else if e[|e| - 1].Property? && e[|e| - 1].key == key then e[..|e| - 1] + [Property(key, v)]
    else Insert(e[..|e| - 1], key, v) + [e[|e| - 1]]
  }

  /// After an insert, the key reads back the new value, other keys and the
  /// arguments are untouched.
  lemma {:induction false} GetInsert(e: seq<KdlEntry>, key: string, v: KdlValue, other: string)
    ensures Get(Insert(e, key, v), key) == Some(v)
    ensures other != key ==> Get(Insert(e, key, v), other) == Get(e, other)
    ensures Arguments(Insert(e, key, v)) == Arguments(e)
    decreases |e|
  {
    if e != [] {
      var init, last := e[..|e| - 1], e[|e| - 1];
      if last.Property? && last.key == key {
        var r := init + [Property(key, v)];
        assert r[..|r| - 1] == init;
      } else {
        GetInsert(init, key, v, other);
        var r := Insert(init, key, v) + [last];
        assert r[..|r| - 1] == Insert(init, key, v);
      }
    }
  }

  /// The `for` loops that insert one property per list element.
  function InsertEach(e: seq<KdlEntry>, key: string, vs: seq<string>): seq<KdlEntry>
    decreases |vs|
  {
    if vs == [] then e else InsertEach(Insert(e, key, KString(vs[0])), key, vs[1..])
  }

  lemma {:induction false} GetInsertEach(e: seq<KdlEntry>, key: string, vs: seq<string>, other: string)
    requires other != key
    ensures Get(InsertEach(e, key, vs), other) == Get(e, other)
    ensures Arguments(InsertEach(e, key, vs)) == Arguments(e)
    decreases |vs|
  {
    if vs != [] {
      GetInsert(e, key, KString(vs[0]), other);
      GetInsertEach(Insert(e, key, KString(vs[0])), key, vs[1..], other);
    }
  }

  /// The values of every string property with the given key, in order.
  function StringsNamed(e: seq<KdlEntry>, key: string): seq<string>
  {
    if e == [] then []
    else
      var last := e[|e| - 1];
      var here := if last.Property? && last.key == key && last.value.KString? then [last.value.s] else [];
      StringsNamed(e[..|e| - 1], key) + here
  }

  function MetaNode(m: KdlMeta): KdlNode
  {
    var e := Insert(Insert([], "version", KString(m.version)), "timestamp", KString(m.timestamp));
    KdlNode("meta", if m.hostname.Some? then Insert(e, "hostname", KString(m.hostname.value)) else e, None)
  }

  function ProcessEntries(p: KdlProcess): seq<KdlEntry>
  {
    InsertEach(UntaggedEntries(p), "tag", p.tags)
  }

  /// The entries of a process node before its tags are inserted.
  function UntaggedEntries(p: KdlProcess): seq<KdlEntry>
  {
    var e1 := Insert([Argument(KString(p.id))], "name", KString(p.name));
    var e2 := Insert(e1, "command", KString(p.command));
    var e3 := InsertEach(e2, "args", p.args);
    var e4 := if p.cwd.Some? then Insert(e3, "cwd", KString(p.cwd.value)) else e3;
    if p.auto_start then Insert(e4, "auto_start", KBool(true)) else e4
  }

  function VarNode(key: string, value: string): KdlNode
  {
    KdlNode("var", [Argument(KString(key)), Argument(KString(value))], None)
  }

  function StateNode(s: KdlProcessState): KdlNode
  {
    var e0 := [Argument(KString(s.state_type))];
    var e1 := if s.pid.Some? then Insert(e0, "pid", KInt(s.pid.value)) else e0;
    var e2 := if s.started_at.Some? then Insert(e1, "started_at", KString(s.started_at.value)) else e1;
    var e3 := if s.stopped_at.Some? then Insert(e2, "stopped_at", KString(s.stopped_at.value)) else e2;
    var e4 := if s.exit_code.Some? then Insert(e3, "exit_code", KInt(s.exit_code.value)) else e3;
    var e5 := if s.error.Some? then Insert(e4, "error", KString(s.error.value)) else e4;
    KdlNode("state", e5, None)
  }

  /// The process node `to_kdl_string` builds; `envOrder` is the
  /// environment map's iteration order.
  function ProcessNode(p: KdlProcess, envOrder: seq<string>): KdlNode
    requires IsKeyOrder(p.env, envOrder)
  {
    assert forall i :: 0 <= i < |envOrder| ==> envOrder[i] in p.env;
    var env := if p.env == map[] then []
      else [KdlNode("env", [], Some(seq(|envOrder|, i requires 0 <= i < |envOrder| =>
                                          VarNode(envOrder[i], p.env[envOrder[i]]))))];
    var state := if p.state.Some? then [StateNode(p.state.value)] else [];
    KdlNode("process", ProcessEntries(p), if env + state == [] then None else Some(env + state))
  }

  /// The document of `to_kdl_string`: the meta node, then one process node
  /// per process in list order.
  function BuildDocument(s: KdlSnapshot, envOrders: seq<seq<string>>): (doc: seq<KdlNode>)
    requires |envOrders| == |s.processes|
    requires forall i :: 0 <= i < |s.processes| ==> IsKeyOrder(s.processes[i].env, envOrders[i])
    ensures |doc| == |s.processes| + 1 && doc[0].name == "meta"
    ensures forall i :: 1 <= i < |doc| ==> doc[i].name == "process"
  {
    [MetaNode(s.meta)] + seq(|s.processes|, i requires 0 <= i < |s.processes| =>
                               ProcessNode(s.processes[i], envOrders[i]))
  }

  // ---------------------------------------------------------------------
  // Reading a document back

  /// The environment gathered from `env` children: every `var` node with
  /// two string arguments, a later one overriding an earlier one.
  function EnvOf(children: seq<KdlNode>): map<string, string>
  {
    if children == [] then map[]
    else
      var last := children[|children| - 1];
      var vars := if last.name == "env" && last.children.Some? then VarsOf(last.children.value) else map[];
      EnvOf(children[..|children| - 1]) + vars
  }

  function VarsOf(nodes: seq<KdlNode>): map<string, string>
  {
    if nodes == [] then map[]
    else
      var last := nodes[|nodes| - 1];
      var key := AsString(GetArg(last.entries, 0));
      var value := AsString(GetArg(last.entries, 1));
      if last.name == "var" && key.Some? && value.Some? then VarsOf(nodes[..|nodes| - 1])[key.value := value.value]
      else VarsOf(nodes[..|nodes| - 1])
  }

  /// The state gathered from `state` children: the last one wins, and a
  /// missing first argument reads as "unknown".
  function StateOf(children: seq<KdlNode>): Option<KdlProcessState>
  {
    if children == [] then None
    else
      var last := children[|children| - 1];
      if last.name == "state" then
        var e := last.entries;
        var pid := AsInt(Get(e, "pid"));
        var code := AsInt(Get(e, "exit_code"));
        Some(KdlProcessState(AsString(GetArg(e, 0)).UnwrapOr("unknown"),
                             if pid.Some? then Some(pid.value % 0x1_0000_0000) else None,
                             AsString(Get(e, "started_at")), AsString(Get(e, "stopped_at")),
                             if code.Some? then Some(AsI32(code.value)) else None,
                             AsString(Get(e, "error"))))
      else StateOf(children[..|children| - 1])
  }

  /// Rust's `v as i32` on a 64-bit value: keep the low 32 bits, signed.
  function AsI32(v: int): (r: I32)
    ensures -0x8000_0000 <= v <= 0x7FFF_FFFF ==> r == v
  {
    var low := v % 0x1_0000_0000;
    if low >= 0x8000_0000 then low - 0x1_0000_0000 else low
  }

  /// One `process` node: its first argument must be a string id; the name
  /// defaults to the id, the command to "" and auto_start to false.
  function ParseProcessNode(n: KdlNode): (r: Result<KdlProcess>)
    ensures AsString(GetArg(n.entries, 0)).None? <==> r == Err("Process ID not found")
    ensures r.Ok? ==> r.value.id == AsString(GetArg(n.entries, 0)).value
    ensures r.Ok? ==> r.value.name == AsString(Get(n.entries, "name")).UnwrapOr(r.value.id)
    ensures r.Ok? ==> r.value.command == AsString(Get(n.entries, "command")).UnwrapOr("")
    ensures r.Ok? ==> r.value.auto_start == AsBool(Get(n.entries, "auto_start")).UnwrapOr(false)
  {
    var id := AsString(GetArg(n.entries, 0));
    if id.None? then Err("Process ID not found")
    else
      var children := n.children.UnwrapOr([]);
      Ok(KdlProcess(id.value,
                    AsString(Get(n.entries, "name")).UnwrapOr(id.value),
                    AsString(Get(n.entries, "command")).UnwrapOr(""),
                    StringsNamed(n.entries, "args"),
                    AsString(Get(n.entries, "cwd")),
                    AsBool(Get(n.entries, "auto_start")).UnwrapOr(false),
                    StringsNamed(n.entries, "tag"),
                    EnvOf(children),
                    StateOf(children)))
  }

  /// The meta block as updated by one `meta` node: each string property
  /// present replaces the value read so far.
  function ReadMeta(m: KdlMeta, n: KdlNode): KdlMeta
  {
    var version := AsString(Get(n.entries, "version"));
    var timestamp := AsString(Get(n.entries, "timestamp"));
    var hostname := AsString(Get(n.entries, "hostname"));
    KdlMeta(version.UnwrapOr(m.version), timestamp.UnwrapOr(m.timestamp),
            if hostname.Some? then hostname else m.hostname)
  }

  /// The node walk of `from_kdl_string` from the point where `meta` and
  /// `processes` have been read: meta nodes update the meta block, process
  /// nodes append a process or stop the walk with an error, and any other
  /// node is skipped.
  function Walk(nodes: seq<KdlNode>, meta: KdlMeta, processes: seq<KdlProcess>): Result<KdlSnapshot>
    decreases |nodes|
  {
    if nodes == [] then Ok(KdlSnapshot(meta, processes))
    else if nodes[0].name == "meta" then Walk(nodes[1..], ReadMeta(meta, nodes[0]), processes)
    else if nodes[0].name == "process" then
      var p := ParseProcessNode(nodes[0]);
      if p.Err? then Err(p.error) else Walk(nodes[1..], meta, processes + [p.value])
    else Walk(nodes[1..], meta, processes)
  }

  /// The meta block before any meta node is read.
  function InitialMeta(nowText: string): KdlMeta
  {
    KdlMeta("1.0", nowText, None)
  }

  /// The loop of `from_kdl_string` over a parsed document; `nowText` is the
  /// current time as RFC 3339 text.
  method ReadDocument(nodes: seq<KdlNode>, nowText: string) returns (r: Result<KdlSnapshot>)
    ensures r == Walk(nodes, InitialMeta(nowText), [])
  {
    var meta := InitialMeta(nowText);
    var processes: seq<KdlProcess> := [];
    var i := 0;
    while i < |nodes|
      invariant 0 <= i <= |nodes|
      invariant Walk(nodes, InitialMeta(nowText), []) == Walk(nodes[i..], meta, processes)
    {
      var node := nodes[i];
      assert nodes[i..][0] == node && nodes[i..][1..] == nodes[i + 1..];
      if node.name == "meta" {
        meta := ReadMeta(meta, node);
      } else if node.name == "process" {
        var p := ParseProcessNode(node);
        if p.Err? {
          return Err(p.error);
        }
        processes := processes + [p.value];
      }
      i := i + 1;
    }
    r := Ok(KdlSnapshot(meta, processes));
  }

  predicate KnownNode(n: KdlNode)
  {
    n.name == "meta" || n.name == "process"
  }

  function Known(): KdlNode -> bool
  {
    (n: KdlNode) => KnownNode(n)
  }

  /// Nodes other than meta and process make no difference.
  lemma {:induction false} UnknownNodesIgnored(nodes: seq<KdlNode>, meta: KdlMeta, processes: seq<KdlProcess>)
    ensures Walk(nodes, meta, processes) == Walk(Kept(nodes, Known()), meta, processes)
    decreases |nodes|
  {
    if nodes != [] {
      UnknownNodesIgnored(nodes[1..], if nodes[0].name == "meta" then ReadMeta(meta, nodes[0]) else meta,
                          if nodes[0].name == "process" && ParseProcessNode(nodes[0]).Ok?
                          then processes + [ParseProcessNode(nodes[0]).value] else processes);
    }
  }

  /// A document without a meta node reads with version "1.0" and no host
  /// name; a process node without a string id fails the whole read.
  lemma {:induction false} WalkDefaults(nodes: seq<KdlNode>, meta: KdlMeta, processes: seq<KdlProcess>)
    requires forall i :: 0 <= i < |nodes| ==> nodes[i].name != "meta"
    ensures Walk(nodes, meta, processes).Ok? ==> Walk(nodes, meta, processes).value.meta == meta
    ensures (exists i :: 0 <= i < |nodes| && nodes[i].name == "process" && AsString(GetArg(nodes[i].entries, 0)).None?)
      ==> Walk(nodes, meta, processes) == Err("Process ID not found")
    decreases |nodes|
  {
    if nodes != [] {
      assert forall i :: 0 <= i < |nodes| - 1 ==> nodes[1..][i] == nodes[i + 1];
      var next := if nodes[0].name == "process" && ParseProcessNode(nodes[0]).Ok?
        then processes + [ParseProcessNode(nodes[0]).value] else processes;
      WalkDefaults(nodes[1..], meta, next);
      if exists i :: 0 <= i < |nodes| && nodes[i].name == "process" && AsString(GetArg(nodes[i].entries, 0)).None? {
        var i :| 0 <= i < |nodes| && nodes[i].name == "process" && AsString(GetArg(nodes[i].entries, 0)).None?;
        if i > 0 {
          assert nodes[1..][i - 1] == nodes[i];
        }
      }
    }
  }

  lemma NoMetaDefaults(nodes: seq<KdlNode>, nowText: string)
    requires forall i :: 0 <= i < |nodes| ==> nodes[i].name != "meta"
    ensures Walk(nodes, InitialMeta(nowText), []).Ok? ==>
      Walk(nodes, InitialMeta(nowText), []).value.meta.version == "1.0"
      && Walk(nodes, InitialMeta(nowText), []).value.meta.hostname.None?
  {
    WalkDefaults(nodes, InitialMeta(nowText), []);
  }

  // ---------------------------------------------------------------------
  // Round trip through a document

  /// What the entries of a built process node say about the process.
  lemma ProcessEntriesRead(p: KdlProcess)
    ensures GetArg(ProcessEntries(p), 0) == Some(KString(p.id))
    ensures Get(ProcessEntries(p), "name") == Some(KString(p.name))
    ensures Get(ProcessEntries(p), "command") == Some(KString(p.command))
    ensures AsString(Get(ProcessEntries(p), "cwd")) == p.cwd
    ensures AsBool(Get(ProcessEntries(p), "auto_start")).UnwrapOr(false) == p.auto_start
  {
    var e0 := [Argument(KString(p.id))];
    var e1 := Insert(e0, "name", KString(p.name));
    var e2 := Insert(e1, "command", KString(p.command));
    var e3 := InsertEach(e2, "args", p.args);
    var e4 := if p.cwd.Some? then Insert(e3, "cwd", KString(p.cwd.value)) else e3;
    var e5 := if p.auto_start then Insert(e4, "auto_start", KBool(true)) else e4;
    assert e0[..0] == [];
    assert Arguments(e0) == [KString(p.id)];
    ArgumentOnly(p.id, "cwd");
    ArgumentOnly(p.id, "auto_start");
    EarlyKeys(e0, p);
    GetInsertEach(e2, "args", p.args, "name");
    GetInsertEach(e2, "args", p.args, "command");
    GetInsertEach(e2, "args", p.args, "cwd");
    GetInsertEach(e2, "args", p.args, "auto_start");
    LateKeys(e3, p);
    GetInsertEach(e5, "tag", p.tags, "name");
    GetInsertEach(e5, "tag", p.tags, "command");
    GetInsertEach(e5, "tag", p.tags, "cwd");
    GetInsertEach(e5, "tag", p.tags, "auto_start");
  }

  lemma ArgumentOnly(id: string, key: string)
    ensures Get([Argument(KString(id))], key) == None
  {
    var e := [Argument(KString(id))];
    assert e[..|e| - 1] == [];
  }

  lemma EarlyKeys(e0: seq<KdlEntry>, p: KdlProcess)
    ensures var e2 := Insert(Insert(e0, "name", KString(p.name)), "command", KString(p.command));
      && Arguments(e2) == Arguments(e0)
      && Get(e2, "name") == Some(KString(p.name)) && Get(e2, "command") == Some(KString(p.command))
      && Get(e2, "cwd") == Get(e0, "cwd") && Get(e2, "auto_start") == Get(e0, "auto_start")
  {
    var e1 := Insert(e0, "name", KString(p.name));
    GetInsert(e0, "name", KString(p.name), "cwd");
    GetInsert(e0, "name", KString(p.name), "auto_start");
    GetInsert(e1, "command", KString(p.command), "name");
    GetInsert(e1, "command", KString(p.command), "cwd");
    GetInsert(e1, "command", KString(p.command), "auto_start");
  }

  lemma LateKeys(e3: seq<KdlEntry>, p: KdlProcess)
    requires Get(e3, "cwd") == None && Get(e3, "auto_start") == None
    ensures var e4 := if p.cwd.Some? then Insert(e3, "cwd", KString(p.cwd.value)) else e3;
      var e5 := if p.auto_start then Insert(e4, "auto_start", KBool(true)) else e4;
      && Arguments(e5) == Arguments(e3)
      && Get(e5, "name") == Get(e3, "name") && Get(e5, "command") == Get(e3, "command")
      && AsString(Get(e5, "cwd")) == p.cwd
      && AsBool(Get(e5, "auto_start")).UnwrapOr(false) == p.auto_start
  {
    var e4 := if p.cwd.Some? then Insert(e3, "cwd", KString(p.cwd.value)) else e3;
    if p.cwd.Some? {
      GetInsert(e3, "cwd", KString(p.cwd.value), "name");
      GetInsert(e3, "cwd", KString(p.cwd.value), "command");
      GetInsert(e3, "cwd", KString(p.cwd.value), "auto_start");
    }
    if p.auto_start {
      GetInsert(e4, "auto_start", KBool(true), "name");
      GetInsert(e4, "auto_start", KBool(true), "command");
      GetInsert(e4, "auto_start", KBool(true), "cwd");
    }
  }

  /// A process node built from a process reads back with the same id,
  /// name, command, working directory and auto-start flag.
  lemma ProcessNodeRoundTrip(p: KdlProcess, envOrder: seq<string>)
    requires IsKeyOrder(p.env, envOrder)
    ensures ParseProcessNode(ProcessNode(p, envOrder)).Ok?
    ensures var q := ParseProcessNode(ProcessNode(p, envOrder)).value;
      q.id == p.id && q.name == p.name && q.command == p.command && q.cwd == p.cwd && q.auto_start == p.auto_start
  {
    ProcessEntriesRead(p);
    assert ProcessNode(p, envOrder).entries == ProcessEntries(p);
  }

  /// The meta node reads back as the meta block it was built from.
  lemma MetaNodeRoundTrip(m: KdlMeta, before: KdlMeta)
    ensures ReadMeta(before, MetaNode(m)) == m.(hostname := if m.hostname.Some? then m.hostname else before.hostname)
  {
    var e0: seq<KdlEntry> := [];
    var e1 := Insert(e0, "version", KString(m.version));
    var e2 := Insert(e1, "timestamp", KString(m.timestamp));
    assert Get(e0, "hostname") == None;
    GetInsert(e0, "version", KString(m.version), "hostname");
    GetInsert(e1, "timestamp", KString(m.timestamp), "version");
    GetInsert(e1, "timestamp", KString(m.timestamp), "hostname");
    if m.hostname.Some? {
      GetInsert(e2, "hostname", KString(m.hostname.value), "version");
      GetInsert(e2, "hostname", KString(m.hostname.value), "timestamp");
    }
  }

  /// Reading process nodes that parse to `ps` appends `ps`, in order, to
  /// the processes read so far, and leaves the meta block alone.
  lemma {:induction false} WalkProcesses(nodes: seq<KdlNode>, meta: KdlMeta, acc: seq<KdlProcess>, ps: seq<KdlProcess>)
    requires |ps| == |nodes|
    requires forall i :: 0 <= i < |nodes| ==> nodes[i].name == "process" && ParseProcessNode(nodes[i]) == Ok(ps[i])
    ensures Walk(nodes, meta, acc) == Ok(KdlSnapshot(meta, acc + ps))
    decreases |nodes|
  {
    if nodes == [] {
      assert acc + ps == acc;
    } else {
      var tail := nodes[1..];
      assert forall i :: 0 <= i < |tail| ==> tail[i] == nodes[i + 1];
      WalkProcesses(tail, meta, acc + [ps[0]], ps[1..]);
      assert (acc + [ps[0]]) + ps[1..] == acc + ps;
    }
  }

  /// Writing a snapshot as a document and reading it back gives the same
  /// meta block and, process by process in order, the same id, name,
  /// command, working directory and auto-start flag.
  lemma DocumentRoundTrip(s: KdlSnapshot, envOrders: seq<seq<string>>, nowText: string)
    requires |envOrders| == |s.processes|
    requires forall i :: 0 <= i < |s.processes| ==> IsKeyOrder(s.processes[i].env, envOrders[i])
    ensures Walk(BuildDocument(s, envOrders), InitialMeta(nowText), []).Ok?
    ensures var r := Walk(BuildDocument(s, envOrders), InitialMeta(nowText), []).value;
      && r.meta.version == s.meta.version && r.meta.timestamp == s.meta.timestamp
      && (s.meta.hostname.Some? ==> r.meta.hostname == s.meta.hostname)
      && |r.processes| == |s.processes|
      && forall i :: 0 <= i < |s.processes| ==>
           r.processes[i].id == s.processes[i].id && r.processes[i].name == s.processes[i].name
           && r.processes[i].command == s.processes[i].command && r.processes[i].cwd == s.processes[i].cwd
           && r.processes[i].auto_start == s.processes[i].auto_start
  {
    var doc := BuildDocument(s, envOrders);
    var meta := ReadMeta(InitialMeta(nowText), MetaNode(s.meta));
    MetaNodeRoundTrip(s.meta, InitialMeta(nowText));
    var rest := doc[1..];
    forall i | 0 <= i < |rest|
      ensures rest[i] == ProcessNode(s.processes[i], envOrders[i])
      ensures ParseProcessNode(rest[i]).Ok?
      ensures var q := ParseProcessNode(rest[i]).value;
        q.id == s.processes[i].id && q.name == s.processes[i].name && q.command == s.processes[i].command
        && q.cwd == s.processes[i].cwd && q.auto_start == s.processes[i].auto_start
    {
      ProcessNodeRoundTrip(s.processes[i], envOrders[i]);
    }
    var ps := seq(|rest|, i requires 0 <= i < |rest| => ParseProcessNode(rest[i]).value);
    assert Walk(doc, InitialMeta(nowText), []) == Walk(rest, meta, []);
    WalkProcesses(rest, meta, [], ps);
    assert [] + ps == ps;
  }

  // ---------------------------------------------------------------------
  // Lists written as repeated properties

  /// The number of properties with the given key.
  function KeyCount(e: seq<KdlEntry>, key: string): nat
  {
    if e == [] then 0
    else KeyCount(e[..|e| - 1], key) + (if e[|e| - 1].Property? && e[|e| - 1].key == key then 1 else 0)
  }

  lemma {:induction false} NoKeyNoStrings(e: seq<KdlEntry>, key: string)
    requires KeyCount(e, key) == 0
    ensures StringsNamed(e, key) == []
    decreases |e|
  {
    if e != [] {
      NoKeyNoStrings(e[..|e| - 1], key);
    }
  }

  /// Inserting under another key changes neither how often `key` occurs
  /// nor the strings stored under it.
  lemma {:induction false} InsertOther(e: seq<KdlEntry>, other: string, v: KdlValue, key: string)
    requires other != key
    ensures KeyCount(Insert(e, other, v), key) == KeyCount(e, key)
    ensures StringsNamed(Insert(e, other, v), key) == StringsNamed(e, key)
    decreases |e|
  {
    if e == [] {
      var r := [Property(other, v)];
      assert r[..|r| - 1] == [];
    } else {
      var init, last := e[..|e| - 1], e[|e| - 1];
      if last.Property? && last.key == other {
        var r := init + [Property(other, v)];
        assert r[..|r| - 1] == init;
      } else {
        InsertOther(init, other, v, key);
        var r := Insert(init, other, v) + [last];
        assert r[..|r| - 1] == Insert(init, other, v);
      }
    }
  }

  lemma {:induction false} InsertEachOther(e: seq<KdlEntry>, other: string, vs: seq<string>, key: string)
    requires other != key
    ensures KeyCount(InsertEach(e, other, vs), key) == KeyCount(e, key)
    ensures StringsNamed(InsertEach(e, other, vs), key) == StringsNamed(e, key)
    decreases |vs|
  {
    if vs != [] {
      InsertOther(e, other, KString(vs[0]), key);
      InsertEachOther(Insert(e, other, KString(vs[0])), other, vs[1..], key);
    }
  }

  /// Inserting a string under a key held at most once leaves that string
  /// as the only one under the key.
  lemma {:induction false} InsertSingle(e: seq<KdlEntry>, key: string, s: string)
    requires KeyCount(e, key) <= 1
    ensures KeyCount(Insert(e, key, KString(s)), key) == 1
    ensures StringsNamed(Insert(e, key, KString(s)), key) == [s]
    decreases |e|
  {
    if e == [] {
      var r := [Property(key, KString(s))];
      assert r[..|r| - 1] == [];
    } else {
      var init, last := e[..|e| - 1], e[|e| - 1];
      if last.Property? && last.key == key {
        var r := init + [Property(key, KString(s))];
        assert r[..|r| - 1] == init;
        NoKeyNoStrings(init, key);
      } else {
        InsertSingle(init, key, s);
        var r := Insert(init, key, KString(s)) + [last];
        assert r[..|r| - 1] == Insert(init, key, KString(s));
      }
    }
  }

  /// Inserting a list element by element keeps only its last element.
  lemma {:induction false} InsertEachKeepsLast(e: seq<KdlEntry>, key: string, vs: seq<string>)
    requires KeyCount(e, key) <= 1 && vs != []
    ensures KeyCount(InsertEach(e, key, vs), key) == 1
    ensures StringsNamed(InsertEach(e, key, vs), key) == [vs[|vs| - 1]]
    decreases |vs|
  {
    InsertSingle(e, key, vs[0]);
    if |vs| > 1 {
      InsertEachKeepsLast(Insert(e, key, KString(vs[0])), key, vs[1..]);
      assert vs[1..][|vs[1..]| - 1] == vs[|vs| - 1];
    }
  }

  /// The inserted entries hold only the last argument.
  lemma InsertedEntriesArgs(p: KdlProcess)
    requires p.args != []
    ensures StringsNamed(ProcessEntries(p), "args") == [p.args[|p.args| - 1]]
  {
    var e0 := [Argument(KString(p.id))];
    var e1 := Insert(e0, "name", KString(p.name));
    var e2 := Insert(e1, "command", KString(p.command));
    var e3 := InsertEach(e2, "args", p.args);
    var e4 := if p.cwd.Some? then Insert(e3, "cwd", KString(p.cwd.value)) else e3;
    var e5 := if p.auto_start then Insert(e4, "auto_start", KBool(true)) else e4;
    ArgumentNoKey(p.id, "args");
    InsertOther(e0, "name", KString(p.name), "args");
    InsertOther(e1, "command", KString(p.command), "args");
    InsertEachKeepsLast(e2, "args", p.args);
    var last := p.args[|p.args| - 1];
    assert StringsNamed(e3, "args") == [last];
    if p.cwd.Some? {
      InsertOther(e3, "cwd", KString(p.cwd.value), "args");
    }
    assert StringsNamed(e4, "args") == [last];
    if p.auto_start {
      InsertOther(e4, "auto_start", KBool(true), "args");
    }
    assert StringsNamed(e5, "args") == [last];
    InsertEachOther(e5, "tag", p.tags, "args");
    assert ProcessEntries(p) == InsertEach(e5, "tag", p.tags);
  }

  /// No entry before the tags is a tag.
  lemma UntaggedHasNoTag(p: KdlProcess)
    ensures KeyCount(UntaggedEntries(p), "tag") == 0
  {
    var e0 := [Argument(KString(p.id))];
    var e1 := Insert(e0, "name", KString(p.name));
    var e2 := Insert(e1, "command", KString(p.command));
    var e3 := InsertEach(e2, "args", p.args);
    var e4 := if p.cwd.Some? then Insert(e3, "cwd", KString(p.cwd.value)) else e3;
    ArgumentNoKey(p.id, "tag");
    InsertOther(e0, "name", KString(p.name), "tag");
    InsertOther(e1, "command", KString(p.command), "tag");
    InsertEachOther(e2, "args", p.args, "tag");
    if p.cwd.Some? {
      InsertOther(e3, "cwd", KString(p.cwd.value), "tag");
    }
    if p.auto_start {
      InsertOther(e4, "auto_start", KBool(true), "tag");
    }
  }

  /// The inserted entries hold only the last tag.
  lemma InsertedEntriesTags(p: KdlProcess)
    requires p.tags != []
    ensures StringsNamed(ProcessEntries(p), "tag") == [p.tags[|p.tags| - 1]]
  {
    UntaggedHasNoTag(p);
    InsertEachKeepsLast(UntaggedEntries(p), "tag", p.tags);
  }

  /// As written, the argument and tag loops of `to_kdl_string` insert every
  /// element under one key, and each insert replaces the previous one: a
  /// process node reads back with only the last argument and the last tag.
  lemma ListsKeepOnlyLast(p: KdlProcess, envOrder: seq<string>)
    requires IsKeyOrder(p.env, envOrder)
    ensures ParseProcessNode(ProcessNode(p, envOrder)).Ok?
    ensures var q := ParseProcessNode(ProcessNode(p, envOrder)).value;
      && (p.args != [] ==> q.args == [p.args[|p.args| - 1]])
      && (p.tags != [] ==> q.tags == [p.tags[|p.tags| - 1]])
      && (|p.args| >= 2 ==> q.args != p.args)
      && (|p.tags| >= 2 ==> q.tags != p.tags)
  {
    ProcessNodeRoundTrip(p, envOrder);
    if p.args != [] {
      InsertedEntriesArgs(p);
    }
    if p.tags != [] {
      InsertedEntriesTags(p);
    }
    assert ProcessNode(p, envOrder).entries == ProcessEntries(p);
  }

  /// Each element appended as a property of its own, as pushing
  /// `KdlEntry::new_prop(key, value)` does; nothing is replaced.
  function PushEach(e: seq<KdlEntry>, key: string, vs: seq<string>): (r: seq<KdlEntry>)
    ensures |r| == |e| + |vs|
    decreases |vs|
  {
    if vs == [] then e else PushEach(e + [Property(key, KString(vs[0]))], key, vs[1..])
  }

  /// Pushing a list under a key adds the list, in order, after the strings
  /// already under it; other keys and the arguments are unchanged.
  lemma {:induction false} PushEachRead(e: seq<KdlEntry>, key: string, vs: seq<string>, other: string)
    requires other != key
    ensures StringsNamed(PushEach(e, key, vs), key) == StringsNamed(e, key) + vs
    ensures StringsNamed(PushEach(e, key, vs), other) == StringsNamed(e, other)
    ensures Get(PushEach(e, key, vs), other) == Get(e, other)
    ensures Arguments(PushEach(e, key, vs)) == Arguments(e)
    decreases |vs|
  {
    if vs != [] {
      var e' := e + [Property(key, KString(vs[0]))];
      assert e'[..|e'| - 1] == e;
      PushEachRead(e', key, vs[1..], other);
      assert [vs[0]] + vs[1..] == vs;
    }
  }

  /// The entries of a process node with the argument and tag loops pushing
  /// each element instead of inserting it.
  function ProcessEntriesPushed(p: KdlProcess): seq<KdlEntry>
  {
    var e1 := Insert([Argument(KString(p.id))], "name", KString(p.name));
    var e2 := Insert(e1, "command", KString(p.command));
    var e3 := PushEach(e2, "args", p.args);
    var e4 := if p.cwd.Some? then Insert(e3, "cwd", KString(p.cwd.value)) else e3;
    var e5 := if p.auto_start then Insert(e4, "auto_start", KBool(true)) else e4;
    PushEach(e5, "tag", p.tags)
  }

  /// The process node with the corrected entries.
  function ProcessNodePushed(p: KdlProcess, envOrder: seq<string>): KdlNode
    requires IsKeyOrder(p.env, envOrder)
  {
    ProcessNode(p, envOrder).(entries := ProcessEntriesPushed(p))
  }

  /// The bare id argument holds no property.
  lemma ArgumentNoKey(id: string, key: string)
    ensures KeyCount([Argument(KString(id))], key) == 0
  {
    var e := [Argument(KString(id))];
    assert e[..|e| - 1] == [];
  }

  /// The pushed entries hold every argument and every tag, in order.
  lemma PushedEntriesLists(p: KdlProcess)
    ensures StringsNamed(ProcessEntriesPushed(p), "args") == p.args
    ensures StringsNamed(ProcessEntriesPushed(p), "tag") == p.tags
  {
    var e0 := [Argument(KString(p.id))];
    var e1 := Insert(e0, "name", KString(p.name));
    var e2 := Insert(e1, "command", KString(p.command));
    var e3 := PushEach(e2, "args", p.args);
    var e4 := if p.cwd.Some? then Insert(e3, "cwd", KString(p.cwd.value)) else e3;
    var e5 := if p.auto_start then Insert(e4, "auto_start", KBool(true)) else e4;
    ArgumentNoKey(p.id, "args");
    ArgumentNoKey(p.id, "tag");
    InsertOther(e0, "name", KString(p.name), "args");
    InsertOther(e0, "name", KString(p.name), "tag");
    InsertOther(e1, "command", KString(p.command), "args");
    InsertOther(e1, "command", KString(p.command), "tag");
    NoKeyNoStrings(e2, "args");
    NoKeyNoStrings(e2, "tag");
    PushEachRead(e2, "args", p.args, "tag");
    if p.cwd.Some? {
      InsertOther(e3, "cwd", KString(p.cwd.value), "args");
      InsertOther(e3, "cwd", KString(p.cwd.value), "tag");
    }
    if p.auto_start {
      InsertOther(e4, "auto_start", KBool(true), "args");
      InsertOther(e4, "auto_start", KBool(true), "tag");
    }
    PushEachRead(e5, "tag", p.tags, "args");
  }

  /// The pushed entries read back the id, name, command, working directory
  /// and auto-start flag as the inserted ones do.
  lemma PushedEntriesRead(p: KdlProcess)
    ensures GetArg(ProcessEntriesPushed(p), 0) == Some(KString(p.id))
    ensures Get(ProcessEntriesPushed(p), "name") == Some(KString(p.name))
    ensures Get(ProcessEntriesPushed(p), "command") == Some(KString(p.command))
    ensures AsString(Get(ProcessEntriesPushed(p), "cwd")) == p.cwd
    ensures AsBool(Get(ProcessEntriesPushed(p), "auto_start")).UnwrapOr(false) == p.auto_start
  {
    var e0 := [Argument(KString(p.id))];
    var e1 := Insert(e0, "name", KString(p.name));
    var e2 := Insert(e1, "command", KString(p.command));
    var e3 := PushEach(e2, "args", p.args);
    var e4 := if p.cwd.Some? then Insert(e3, "cwd", KString(p.cwd.value)) else e3;
    var e5 := if p.auto_start then Insert(e4, "auto_start", KBool(true)) else e4;
    assert e0[..0] == [];
    assert Arguments(e0) == [KString(p.id)];
    ArgumentOnly(p.id, "cwd");
    ArgumentOnly(p.id, "auto_start");
    EarlyKeys(e0, p);
    PushEachRead(e2, "args", p.args, "name");
    PushEachRead(e2, "args", p.args, "command");
    PushEachRead(e2, "args", p.args, "cwd");
    PushEachRead(e2, "args", p.args, "auto_start");
    LateKeys(e3, p);
    PushEachRead(e5, "tag", p.tags, "name");
    PushEachRead(e5, "tag", p.tags, "command");
    PushEachRead(e5, "tag", p.tags, "cwd");
    PushEachRead(e5, "tag", p.tags, "auto_start");
  }

  /// With every element pushed, a process node reads back with all of its
  /// arguments and tags in order, besides its id, name, command, working
  /// directory and auto-start flag.
  lemma PushedNodeRoundTrip(p: KdlProcess, envOrder: seq<string>)
    requires IsKeyOrder(p.env, envOrder)
    ensures ParseProcessNode(ProcessNodePushed(p, envOrder)).Ok?
    ensures var q := ParseProcessNode(ProcessNodePushed(p, envOrder)).value;
      && q.id == p.id && q.name == p.name && q.command == p.command && q.cwd == p.cwd
      && q.auto_start == p.auto_start && q.args == p.args && q.tags == p.tags
  {
    PushedEntriesLists(p);
    PushedEntriesRead(p);
    assert ProcessNodePushed(p, envOrder).entries == ProcessEntriesPushed(p);
  }

  // ---------------------------------------------------------------------
  // Text

  /// Rust's `str::lines`: the pieces between line feeds, without the empty
  /// piece after a final line feed; a piece that a line feed ends loses
  /// one trailing carriage return, and a last piece with no line feed after
  /// it keeps its carriage return. By `SplitJoin` the pieces of `Split`
  /// joined with line feeds give `s` back.
  function Lines(s: string): (r: seq<string>)
    ensures forall i :: 0 <= i < |r| ==> '\n' !in r[i]
    ensures var parts := Split(s, '\n');
      && |r| == (if parts[|parts| - 1] == "" then |parts| - 1 else |parts|)
      && forall i :: 0 <= i < |r| ==>
           if i < |parts| - 1 && EndsWithReturn(parts[i]) then parts[i] == r[i] + "\r" else r[i] == parts[i]
  {
    var parts := Split(s, '\n');
    var pieces := if parts[|parts| - 1] == "" then parts[..|parts| - 1] else parts;
    seq(|pieces|, i requires 0 <= i < |pieces| =>
      if i < |parts| - 1 && EndsWithReturn(pieces[i]) then pieces[i][..|pieces[i]| - 1] else pieces[i])
  }

  predicate EndsWithReturn(line: string)
  {
    |line| > 0 && line[|line| - 1] == '\r'
  }

  /// A carriage return is dropped before a line feed and kept at the end.
  lemma LinesCarriageReturn()
    ensures Lines("a\r\n") == ["a"]
    ensures Lines("a\r") == ["a\r"]
    ensures Lines("a\nb\n") == ["a", "b"]
  {
    LinesReturnNewline();
    LinesBareReturn();
    LinesFinalNewline();
  }

  lemma LinesReturnNewline()
    ensures Lines("a\r\n") == ["a"]
  {
    assert Split("\n"[1..], '\n') == [""];
    assert Split("\n", '\n') == ["", ""];
    assert "\r\n"[1..] == "\n";
    assert ['\r'] + "" == "\r";
    assert Split("\r\n", '\n') == ["\r", ""];
    assert "a\r\n"[1..] == "\r\n";
    assert ['a'] + "\r" == "a\r";
    var parts := Split("a\r\n", '\n');
    assert parts == ["a\r", ""];
    var r := Lines("a\r\n");
    assert |r| == 1 && EndsWithReturn(parts[0]);
    assert parts[0] == r[0] + "\r";
    assert r[0] == "a";
  }

  lemma LinesBareReturn()
    ensures Lines("a\r") == ["a\r"]
  {
    assert Split("\r"[1..], '\n') == [""];
    assert ['\r'] + "" == "\r";
    assert Split("\r", '\n') == ["\r"];
    assert "a\r"[1..] == "\r";
    assert ['a'] + "\r" == "a\r";
    assert Split("a\r", '\n') == ["a\r"];
  }

  lemma LinesFinalNewline()
    ensures Lines("a\nb\n") == ["a", "b"]
  {
    assert Split("\n"[1..], '\n') == [""];
    assert Split("\n", '\n') == ["", ""];
    assert "b\n"[1..] == "\n";
    assert ['b'] + "" == "b";
    assert Split("b\n", '\n') == ["b", ""];
    assert "\nb\n"[1..] == "b\n";
    assert Split("\nb\n", '\n') == ["", "b", ""];
    assert "a\nb\n"[1..] == "\nb\n";
    assert ['a'] + "" == "a";
    var parts := Split("a\nb\n", '\n');
    assert parts == ["a", "b", ""];
    assert !EndsWithReturn(parts[0]) && !EndsWithReturn(parts[1]);
  }

  /// A line whose first non-blank characters are `//`.
  predicate IsComment(line: string)
  {
    StartsWith(TrimStart(line), "//")
  }

  function NotComment(): string -> bool
  {
    line => !IsComment(line)
  }

  /// The lines `from_kdl_string` hands to the parser: every line of the
  /// content that is not a comment, in order.
  function CleanLines(content: string): (r: seq<string>)
    ensures forall line :: line in r <==> line in Lines(content) && !IsComment(line)
  {
    KeptMembers(Lines(content), NotComment());
    Kept(Lines(content), NotComment())
  }

  function CleanContent(content: string): string
  {
    Join(CleanLines(content), "\n")
  }

  /// The two comment lines and the blank line `to_kdl_string` puts before
  /// the document.
  function Header(timestamp: string): seq<string>
  {
    var title := " Ichimi Process Snapshot";
    var generated := " 生成日時: ";
    ["//" + title, "//" + generated + timestamp, ""]
  }

  /// `to_kdl_string`, with the kdl library's printer passed in.
  function ToKdlString(s: KdlSnapshot, envOrders: seq<seq<string>>, printer: seq<KdlNode> -> string): string
    requires |envOrders| == |s.processes|
    requires forall i :: 0 <= i < |s.processes| ==> IsKeyOrder(s.processes[i].env, envOrders[i])
  {
    Header(s.meta.timestamp)[0] + "\n" + Header(s.meta.timestamp)[1] + "\n\n" + printer(BuildDocument(s, envOrders))
  }

  /// Comment stripping drops the two header comment lines and keeps the
  /// blank line after them and every other non-comment line.
  lemma HeaderStripped(timestamp: string, rest: seq<string>)
    ensures Kept(Header(timestamp) + rest, NotComment()) == [""] + Kept(rest, NotComment())
  {
    var h := Header(timestamp);
    var keep := NotComment();
    SlashesComment(h[0][2..]);
    SlashesComment(h[1][2..]);
    assert h[0] == "//" + h[0][2..] && h[1] == "//" + h[1][2..];
    assert !keep(h[0]) && !keep(h[1]) && keep(h[2]);
    DropOne(h[0], [h[1], h[2]] + rest, keep);
    DropOne(h[1], [h[2]] + rest, keep);
    assert h + rest == [h[0]] + ([h[1], h[2]] + rest);
    assert [h[1], h[2]] + rest == [h[1]] + ([h[2]] + rest);
    assert ([h[2]] + rest)[1..] == rest;
  }

  lemma SlashesComment(t: string)
    ensures IsComment("//" + t)
  {
    assert ("//" + t)[0] == '/';
    assert TrimStart("//" + t) == "//" + t;
  }

  lemma DropOne(x: string, xs: seq<string>, keep: string -> bool)
    requires !keep(x)
    ensures Kept([x] + xs, keep) == Kept(xs, keep)
  {
    assert ([x] + xs)[1..] == xs;
  }

  /// `from_kdl_string`, with the kdl library's parser passed in; `nowText`
  /// is the current time as RFC 3339 text.
  function FromKdlString(content: string, parser: string -> Result<seq<KdlNode>>, nowText: string): (r: Result<KdlSnapshot>)
    ensures parser(CleanContent(content)).Err? ==>
      r == Err("Failed to parse KDL: " + parser(CleanContent(content)).error)
    ensures parser(CleanContent(content)).Ok? ==>
      r == Walk(parser(CleanContent(content)).value, InitialMeta(nowText), [])
  {
    match parser(CleanContent(content))
    case Err(e) => Err("Failed to parse KDL: " + e)
    case Ok(nodes) => Walk(nodes, InitialMeta(nowText), [])
  }
}
