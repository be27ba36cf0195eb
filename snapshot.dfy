// The snapshot wrapper of the ichimi-persistence crate
// (crates/ichimi-persistence/src/snapshot.rs): a snapshot is built through
// the KDL records, filtered to its auto-start entries, written as KDL text
// and read back from it. The state of each entry uses the same variants and
// conversions as the YAML snapshot. Reading and writing files is left out.

module Snapshots {
  import opened Common
  import P = PersistTypes
  import Y = YamlSnapshot
  import K = KdlSerde

  datatype ProcessSnapshot = ProcessSnapshot(
    id: string,
    name: string,
    command: string,
    args: seq<string>,
    env: map<string, string>,
    cwd: Option<string>,
    auto_start: bool,
    state: Y.StateSnapshot,
    tags: seq<string>)

  datatype Snapshot = Snapshot(
    version: string,
    timestamp: Timestamp,
    hostname: Option<string>,
    processes: seq<ProcessSnapshot>)

  /// `From<&ProcessInfo> for ProcessSnapshot`: the stored auto-start flag
  /// becomes the entry's `auto_start`.
  function FromInfo(info: P.ProcessInfo): (r: ProcessSnapshot)
    ensures r.id == info.process_id && r.name == info.name && r.command == info.command
    ensures r.args == info.args && r.env == info.env && r.cwd == info.cwd && r.tags == info.tags
    ensures r.auto_start == info.auto_start_on_restore
    ensures r.state == Y.FromStatus(info.status)
  {
    ProcessSnapshot(info.process_id, info.name, info.command, info.args, info.env, info.cwd,
                    info.auto_start_on_restore, Y.FromStatus(info.status), info.tags)
  }

  /// `ProcessSnapshot::to_process_info`: no record id, both timestamps are
  /// the current time, and `auto_start` becomes `auto_start_on_restore`.
  function ToInfo(s: ProcessSnapshot, now: Timestamp): (r: P.ProcessInfo)
    ensures r.id.None? && r.process_id == s.id && r.name == s.name && r.command == s.command
    ensures r.args == s.args && r.env == s.env && r.cwd == s.cwd && r.tags == s.tags
    ensures r.auto_start_on_restore == s.auto_start
    ensures Y.FromStatus(r.status) == s.state
    ensures r.created_at == r.updated_at == now
  {
    P.ProcessInfo(None, s.id, s.name, s.command, s.args, s.env, s.cwd, Y.ToStatus(s.state), now, now,
                  s.tags, s.auto_start)
  }

  /// An entry converted to a record and back is the same entry.
  lemma EntryRoundTrip(s: ProcessSnapshot, now: Timestamp)
    ensures FromInfo(ToInfo(s, now)) == s
  {
    assert Y.FromStatus(ToInfo(s, now).status) == s.state;
  }

  /// A record converted to an entry and back keeps its identity and
  /// configuration, and its state when the state could be kept.
  lemma RecordRoundTrip(info: P.ProcessInfo, now: Timestamp)
    ensures var back := ToInfo(FromInfo(info), now);
      && back.process_id == info.process_id && back.name == info.name && back.command == info.command
      && back.args == info.args && back.env == info.env && back.cwd == info.cwd && back.tags == info.tags
      && back.auto_start_on_restore == info.auto_start_on_restore
      && (Y.FromStatus(info.status).NotStarted? ==> back.status == P.DefaultStatus())
      && (!Y.FromStatus(info.status).NotStarted? ==> back.status.state == info.status.state)
  {
    Y.StatusRoundTrip(info.status);
  }

  function FromInfos(infos: seq<P.ProcessInfo>): (r: seq<ProcessSnapshot>)
    ensures |r| == |infos| && forall i :: 0 <= i < |infos| ==> r[i] == FromInfo(infos[i])
  {
    seq(|infos|, i requires 0 <= i < |infos| => FromInfo(infos[i]))
  }

  /// `Snapshot::from_kdl`: version and host name come from the meta block;
  /// the timestamp is the meta block's when it parses and `now` otherwise.
  function FromKdl(kdl: K.KdlSnapshot, infos: seq<P.ProcessInfo>, c: K.TimeCodec, now: Timestamp): (r: Snapshot)
    ensures r.version == kdl.meta.version && r.hostname == kdl.meta.hostname
    ensures c.parse(kdl.meta.timestamp).Some? ==> r.timestamp == c.parse(kdl.meta.timestamp).value
    ensures c.parse(kdl.meta.timestamp).None? ==> r.timestamp == now
    ensures r.processes == FromInfos(infos)
  {
    var timestamp := match c.parse(kdl.meta.timestamp) case Some(t) => t case None => now;
    Snapshot(kdl.meta.version, timestamp, kdl.meta.hostname, FromInfos(infos))
  }

  /// `Snapshot::new`: one entry per record, in order, stamped with the
  /// current time; the host name is a parameter.
  function New(infos: seq<P.ProcessInfo>, c: K.TimeCodec, now: Timestamp, hostname: Option<string>): (r: Snapshot)
    ensures r.version == "1.0" && r.hostname == hostname
    ensures K.Faithful(c) ==> r.timestamp == now
    ensures |r.processes| == |infos|
    ensures forall i :: 0 <= i < |infos| ==>
      r.processes[i].id == infos[i].process_id && r.processes[i].auto_start == infos[i].auto_start_on_restore
  {
    FromKdl(K.FromProcesses(infos, c, now, hostname), infos, c, now)
  }

  function AutoStart(): ProcessSnapshot -> bool
  {
    (p: ProcessSnapshot) => p.auto_start
  }

  /// `Snapshot::filter_auto_start`: exactly the auto-start entries remain,
  /// in their order; everything else about the snapshot is kept.
  function FilterAutoStart(s: Snapshot): (r: Snapshot)
    ensures r.version == s.version && r.timestamp == s.timestamp && r.hostname == s.hostname
    ensures r.processes == Kept(s.processes, AutoStart())
    ensures SubsequenceOf(r.processes, s.processes)
    ensures forall p :: p in r.processes <==> p in s.processes && p.auto_start
    ensures |r.processes| <= |s.processes|
  {
    KeptMembers(s.processes, AutoStart());
    KeptSubsequence(s.processes, AutoStart());
    KeptLength(s.processes, AutoStart());
    s.(processes := Kept(s.processes, AutoStart()))
  }

  /// Filtering twice is filtering once.
  lemma {:induction false} FilterAutoStartIdempotent(s: Snapshot)
    ensures FilterAutoStart(FilterAutoStart(s)) == FilterAutoStart(s)
  {
    KeptMembers(s.processes, AutoStart());
    KeptAll(Kept(s.processes, AutoStart()), AutoStart());
  }

  lemma {:induction false} KeptLength<T>(xs: seq<T>, keep: T -> bool)
    ensures |Kept(xs, keep)| <= |xs|
    decreases |xs|
  {
    if xs != [] {
      KeptLength(xs[1..], keep);
    }
  }

  /// Keeping from a list whose every element is kept changes nothing.
  lemma {:induction false} KeptAll<T>(xs: seq<T>, keep: T -> bool)
    requires forall x :: x in xs ==> keep(x)
    ensures Kept(xs, keep) == xs
    decreases |xs|
  {
    if xs != [] {
      assert forall x :: x in xs[1..] ==> x in xs;
      KeptAll(xs[1..], keep);
    }
  }

  /// The records `to_kdl` hands to the KDL snapshot.
  function ToInfos(ps: seq<ProcessSnapshot>, now: Timestamp): (r: seq<P.ProcessInfo>)
    ensures |r| == |ps| && forall i :: 0 <= i < |ps| ==> r[i] == ToInfo(ps[i], now)
  {
    seq(|ps|, i requires 0 <= i < |ps| => ToInfo(ps[i], now))
  }

  /// `Snapshot::to_kdl`: the entries as KDL text, under a fresh meta block
  /// (version "1.0", the current time, the given host name). Rendering
  /// never fails, so the empty-text fallback is not reachable. The text is
  /// the comment header and then the printed document that `KdlRoundTrip`
  /// reads back.
  function ToKdl(s: Snapshot, c: K.TimeCodec, now: Timestamp, hostname: Option<string>,
                 envOrders: seq<seq<string>>, printer: seq<K.KdlNode> -> string): (text: string)
    requires |envOrders| == |s.processes|
    requires forall i :: 0 <= i < |s.processes| ==> IsKeyOrder(s.processes[i].env, envOrders[i])
    ensures StartsWith(text, "// Ichimi Process Snapshot\n")
    ensures EndsWith(text, printer(K.BuildDocument(K.FromProcesses(ToInfos(s.processes, now), c, now, hostname), envOrders)))
  {
    var kdl := K.FromProcesses(ToInfos(s.processes, now), c, now, hostname);
    var h := K.Header(kdl.meta.timestamp);
    var doc := printer(K.BuildDocument(kdl, envOrders));
    var title := "// Ichimi Process Snapshot\n";
    var text := K.ToKdlString(kdl, envOrders, printer);
    var middle := h[1] + "\n\n";
    HeaderTitle(kdl.meta.timestamp);
    assert text == title + middle + doc;
    FrontAndBack(title, middle, doc);
    text
  }

  /// The first header line is the snapshot title.
  lemma HeaderTitle(timestamp: string)
    ensures K.Header(timestamp)[0] + "\n" == "// Ichimi Process Snapshot\n"
  {
    assert K.Header(timestamp)[0] == "//" + " Ichimi Process Snapshot";
  }

  lemma FrontAndBack(a: string, b: string, c: string)
    ensures StartsWith(a + b + c, a) && EndsWith(a + b + c, c)
  {
    assert (a + b + c)[..|a|] == a;
    assert (a + b + c)[|a + b + c| - |c|..] == c;
  }

  /// `Snapshot::from_kdl_str`: a KDL error is wrapped once more; the KDL
  /// processes become records stamped `now` and then entries.
  function FromKdlStr(content: string, parser: string -> Result<seq<K.KdlNode>>, c: K.TimeCodec,
                      nowText: string, now: Timestamp): (r: Result<Snapshot>)
    ensures K.FromKdlString(content, parser, nowText).Err? <==> r.Err?
    ensures r.Err? ==> r.error == "Failed to parse KDL snapshot: " + K.FromKdlString(content, parser, nowText).error
    ensures r.Ok? ==> |r.value.processes| == |K.FromKdlString(content, parser, nowText).value.processes|
  {
    match K.FromKdlString(content, parser, nowText)
    case Err(e) => Err("Failed to parse KDL snapshot: " + e)
    case Ok(kdl) =>
      var infos := seq(|kdl.processes|, i requires 0 <= i < |kdl.processes| => K.ToInfo(kdl.processes[i], c, now));
      Ok(FromKdl(kdl, infos, c, now))
  }

  /// Reading back the document `to_kdl` writes for a snapshot gives, entry
  /// by entry, the same id, name, command, working directory and
  /// auto-start flag, under version "1.0" and the host name written.
  lemma KdlRoundTrip(s: Snapshot, c: K.TimeCodec, now: Timestamp, hostname: Option<string>,
                     envOrders: seq<seq<string>>, nowText: string)
    requires |envOrders| == |s.processes|
    requires forall i :: 0 <= i < |s.processes| ==> IsKeyOrder(s.processes[i].env, envOrders[i])
    ensures var kdl := K.FromProcesses(ToInfos(s.processes, now), c, now, hostname);
      var read := K.Walk(K.BuildDocument(kdl, envOrders), K.InitialMeta(nowText), []);
      && read.Ok?
      && var back := FromKdl(read.value, seq(|read.value.processes|, i requires 0 <= i < |read.value.processes| =>
                                               K.ToInfo(read.value.processes[i], c, now)), c, now);
      && back.version == "1.0" && (hostname.Some? ==> back.hostname == hostname)
      && |back.processes| == |s.processes|
      && forall i :: 0 <= i < |s.processes| ==>
           back.processes[i].id == s.processes[i].id && back.processes[i].name == s.processes[i].name
           && back.processes[i].command == s.processes[i].command && back.processes[i].cwd == s.processes[i].cwd
           && back.processes[i].auto_start == s.processes[i].auto_start
  {
    var kdl := K.FromProcesses(ToInfos(s.processes, now), c, now, hostname);
    assert forall i :: 0 <= i < |kdl.processes| ==> kdl.processes[i].env == s.processes[i].env;
    K.DocumentRoundTrip(kdl, envOrders, nowText);
    var read := K.Walk(K.BuildDocument(kdl, envOrders), K.InitialMeta(nowText), []).value;
    var infos := seq(|read.processes|, i requires 0 <= i < |read.processes| => K.ToInfo(read.processes[i], c, now));
    var back := FromKdl(read, infos, c, now);
    forall i | 0 <= i < |s.processes|
      ensures back.processes[i].id == s.processes[i].id && back.processes[i].name == s.processes[i].name
      ensures back.processes[i].command == s.processes[i].command && back.processes[i].cwd == s.processes[i].cwd
      ensures back.processes[i].auto_start == s.processes[i].auto_start
    {
      assert back.processes[i] == FromInfo(infos[i]);
      assert kdl.processes[i] == K.FromInfo(ToInfo(s.processes[i], now), c);
    }
  }
}
