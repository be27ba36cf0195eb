// The texts the MCP tools answer with, shared by the `crates/ichimi` and
// `crates/vantage-atom` servers (crates/ichimi/src/lib.rs and
// crates/vantage-atom/src/lib.rs build them the same way): the health
// checks, the confirmations of the update and export tools, the suggestion
// list, the web console defaults, and how a process manager failure is
// reported.

module ToolMessages {
  import opened Common

  /// The error codes of JSON-RPC 2.0 that the tools report with.
  const INVALID_PARAMS := -32602
  const INTERNAL_ERROR := -32603

  datatype McpError = McpError(code: int, message: string)

  /// A failure of the process manager: an internal error that carries the
  /// manager's own message unchanged.
  function ManagerFailure(message: string): (e: McpError)
    ensures e.code == INTERNAL_ERROR && e.message == message
  {
    McpError(INTERNAL_ERROR, message)
  }

  // ---------------------------------------------------------------------
  // Health checks

  const EchoPrefix := "Echo: "

  /// `echo`: the message behind a fixed prefix, recoverable from the answer.
  function Echo(message: string): (r: string)
    ensures StartsWith(r, EchoPrefix) && r[|EchoPrefix|..] == message
  {
    var r := EchoPrefix + message;
    assert r[..|EchoPrefix|] == EchoPrefix;
    r
  }

  /// `ping`: always the same answer, whatever the state of the server.
  function Ping(): (r: string)
    ensures r == "pong"
  {
    "pong"
  }

  // ---------------------------------------------------------------------
  // update_process_config and update_process

  function BoolText(b: bool): string
  {
    if b then "true" else "false"
  }

  const AutoStartNote := " - auto_start_on_restore set to "

  /// The confirmation of `update_process_config`: the note on the new
  /// auto-start value is added exactly when a value was given.
  function ConfigUpdatedMessage(id: string, autoStart: Option<bool>): (m: string)
    ensures StartsWith(m, "Process '" + id + "' configuration updated")
    ensures autoStart.Some? ==> EndsWith(m, AutoStartNote + BoolText(autoStart.value))
  {
    var base := "Process '" + id + "' configuration updated";
    var m := if autoStart.Some? then base + (AutoStartNote + BoolText(autoStart.value)) else base;
    assert m[..|base|] == base;
    assert autoStart.Some? ==> m[|m| - |AutoStartNote + BoolText(autoStart.value)|..] == AutoStartNote + BoolText(autoStart.value);
    m
  }

  /// Without a value, the confirmation does not end with the note for
  /// either value.
  lemma ConfigNoteOnlyWithValue(id: string, autoStart: Option<bool>)
    ensures autoStart.Some? <==>
              EndsWith(ConfigUpdatedMessage(id, autoStart), AutoStartNote + "true") ||
              EndsWith(ConfigUpdatedMessage(id, autoStart), AutoStartNote + "false")
  {
    if autoStart.None? {
      var m := ConfigUpdatedMessage(id, autoStart);
      assert m[|m| - 1] == 'd';
    }
  }

  /// Which attributes an `update_process` request gave.
  datatype Given = Given(command: bool, args: bool, env: bool, cwd: bool, autoStartOnRestore: bool)

  datatype Field = Command | Args | Env | Cwd | AutoStartOnRestore

  function FieldName(f: Field): string
  {
    match f
    case Command => "command"
    case Args => "args"
    case Env => "env"
    case Cwd => "cwd"
    case AutoStartOnRestore => "auto_start_on_restore"
  }

  /// The position of each attribute in the order the confirmation lists
  /// them.
  function Rank(f: Field): nat
  {
    match f
    case Command => 0
    case Args => 1
    case Env => 2
    case Cwd => 3
    case AutoStartOnRestore => 4
  }

  predicate IsGiven(g: Given, f: Field)
  {
    match f
    case Command => g.command
    case Args => g.args
    case Env => g.env
    case Cwd => g.cwd
    case AutoStartOnRestore => g.autoStartOnRestore
  }

  /// The attribute at each position of the fixed order.
  function FieldAt(k: nat): (f: Field)
    requires k < 5
    ensures Rank(f) == k
  {
    [Command, Args, Env, Cwd, AutoStartOnRestore][k]
  }

  /// The attributes the request gave among the first n of the fixed order,
  /// each taken in turn.
  function GivenUpTo(g: Given, n: nat): seq<Field>
    requires n <= 5
  {
    if n == 0 then []
    else GivenUpTo(g, n - 1) + (if IsGiven(g, FieldAt(n - 1)) then [FieldAt(n - 1)] else [])
  }

  function FieldsGiven(g: Given): seq<Field>
  {
    GivenUpTo(g, 5)
  }

  function Names(fs: seq<Field>): (names: seq<string>)
    ensures |names| == |fs|
    decreases |fs|
  {
    if fs == [] then [] else Names(fs[..|fs| - 1]) + [FieldName(fs[|fs| - 1])]
  }

  lemma NamesSnoc(fs: seq<Field>, f: Field)
    ensures Names(fs + [f]) == Names(fs) + [FieldName(f)]
  {
    assert (fs + [f])[..|fs|] == fs;
  }

  lemma {:induction false} NamesAt(fs: seq<Field>, i: nat)
    requires i < |fs|
    ensures Names(fs)[i] == FieldName(fs[i])
    decreases |fs|
  {
    if i < |fs| - 1 {
      NamesAt(fs[..|fs| - 1], i);
    }
  }

  /// The list `update_process` builds, one `if` per attribute in the
  /// fixed order.
  method UpdatedFields(g: Given) returns (updates: seq<string>)
    ensures updates == Names(FieldsGiven(g))
  {
    updates := [];
    assert FieldAt(0) == Command && FieldAt(1) == Args && FieldAt(2) == Env;
    assert FieldAt(3) == Cwd && FieldAt(4) == AutoStartOnRestore;
    updates := NoteIfGiven(updates, GivenUpTo(g, 0), g, Command);
    updates := NoteIfGiven(updates, GivenUpTo(g, 1), g, Args);
    updates := NoteIfGiven(updates, GivenUpTo(g, 2), g, Env);
    updates := NoteIfGiven(updates, GivenUpTo(g, 3), g, Cwd);
    updates := NoteIfGiven(updates, GivenUpTo(g, 4), g, AutoStartOnRestore);
  }

  /// One `if` of `update_process`: the attribute's name is pushed when the
  /// request gave it.
  method NoteIfGiven(updates: seq<string>, ghost fs: seq<Field>, g: Given, f: Field)
    returns (updates': seq<string>)
    requires updates == Names(fs)
    ensures updates' == Names(fs + if IsGiven(g, f) then [f] else [])
  {
    updates' := updates;
    if IsGiven(g, f) {
      NamesSnoc(fs, f);
      updates' := updates + [FieldName(f)];
    } else {
      assert fs + [] == fs;
    }
  }

  /// Ranks strictly rising along the list: the fixed order, and no
  /// attribute twice.
  predicate InFixedOrder(fs: seq<Field>)
  {
    forall i, j :: 0 <= i < j < |fs| ==> Rank(fs[i]) < Rank(fs[j])
  }

  /// Among the first n attributes, the list holds exactly the given ones,
  /// in the fixed order.
  lemma {:induction false} GivenUpToExactly(g: Given, n: nat)
    requires n <= 5
    ensures forall f :: f in GivenUpTo(g, n) <==> IsGiven(g, f) && Rank(f) < n
    ensures InFixedOrder(GivenUpTo(g, n))
  {
    if n > 0 {
      GivenUpToExactly(g, n - 1);
      var f := FieldAt(n - 1);
      forall h: Field | Rank(h) == n - 1
        ensures h == f
      {
      }
    }
  }

  /// The list names exactly the given attributes, in the fixed order and
  /// each once; it is empty exactly when nothing was given.
  lemma FieldsGivenExactly(g: Given)
    ensures forall f :: f in FieldsGiven(g) <==> IsGiven(g, f)
    ensures InFixedOrder(FieldsGiven(g))
    ensures FieldsGiven(g) == [] <==> !(g.command || g.args || g.env || g.cwd || g.autoStartOnRestore)
  {
    GivenUpToExactly(g, 5);
    if FieldsGiven(g) == [] {
      assert !IsGiven(g, Command) && !IsGiven(g, Args) && !IsGiven(g, Env);
      assert !IsGiven(g, Cwd) && !IsGiven(g, AutoStartOnRestore);
    } else {
      var f := FieldsGiven(g)[0];
      assert IsGiven(g, f);
    }
  }

  /// The confirmation of `update_process`.
  function UpdateMessage(id: string, updates: seq<string>): (m: string)
    ensures updates == [] ==> m == "Process '" + id + "' - no attributes updated"
    ensures updates != [] ==> m == "Process '" + id + "' updated: " + Join(updates, ", ")
  {
    if updates == [] then "Process '" + id + "' - no attributes updated"
    else "Process '" + id + "' updated: " + Join(updates, ", ")
  }

  /// Every attribute the request gave is named in the confirmation.
  lemma UpdateMessageNamesGivenFields(id: string, g: Given, f: Field)
    requires IsGiven(g, f)
    ensures Contains(UpdateMessage(id, Names(FieldsGiven(g))), FieldName(f))
  {
    FieldsGivenExactly(g);
    var updates := Names(FieldsGiven(g));
    assert f in FieldsGiven(g);
    var i :| 0 <= i < |FieldsGiven(g)| && FieldsGiven(g)[i] == f;
    NamesAt(FieldsGiven(g), i);
    JoinHasPart(updates, ", ", i);
    ContainsAppended("Process '" + id + "' updated: ", Join(updates, ", "), FieldName(f));
  }

  // ---------------------------------------------------------------------
  // export_yaml and create_formatted_snapshot

  /// The confirmation of `export_yaml`, by which processes were exported.
  function ExportYamlMessage(path: string, onlyAutoStart: bool): (m: string)
    ensures onlyAutoStart ==> m == "Auto-start processes exported to YAML at " + path
    ensures !onlyAutoStart ==> m == "All processes exported to YAML at " + path
  {
    if onlyAutoStart then "Auto-start processes exported to YAML at " + path
    else "All processes exported to YAML at " + path
  }

  datatype SnapshotFormat = Yaml | Surql

  /// What `create_formatted_snapshot` asks the process manager for.
  datatype ExportCall = ExportYaml(path: Option<string>, onlyAutoStart: bool) | ExportSurql(path: Option<string>)

  /// A YAML snapshot holds only the processes started on restore.
  function SnapshotCall(format: SnapshotFormat, path: Option<string>): (c: ExportCall)
    ensures format == Yaml ==> c == ExportYaml(path, true)
    ensures format == Surql ==> c == ExportSurql(path)
  {
    match format
    case Yaml => ExportYaml(path, true)
    case Surql => ExportSurql(path)
  }

  // ---------------------------------------------------------------------
  // get_suggestions

  /// A suggestion as shown: its message, its action and its confidence
  /// (already printed as a whole percentage) and its reason.
  datatype Suggestion = Suggestion(message: string, action: string, confidence: string, reason: string)

  const NoSuggestions := "No suggestions available at this time."
  const SuggestionsHeader := "Smart Suggestions:\n\n"

  /// The heading of the entry numbered n.
  function EntryHead(n: nat, s: Suggestion): string
  {
    NatToString(n) + ". " + s.message
  }

  function EntryBody(s: Suggestion): string
  {
    "\n   Action: " + s.action + "\n   Confidence: " + s.confidence + "%\n   Reason: " + s.reason + "\n\n"
  }

  function Entry(n: nat, s: Suggestion): string
  {
    EntryHead(n, s) + EntryBody(s)
  }

  /// The entries of `ss`, numbered from 1 in list order.
  function Entries(ss: seq<Suggestion>): string
    decreases |ss|
  {
    if ss == [] then "" else Entries(ss[..|ss| - 1]) + Entry(|ss|, ss[|ss| - 1])
  }

  function SuggestionsText(ss: seq<Suggestion>): string
  {
    if ss == [] then NoSuggestions else SuggestionsHeader + Entries(ss)
  }

  /// The loop of `get_suggestions` that appends one entry per suggestion.
  method FormatSuggestions(ss: seq<Suggestion>) returns (text: string)
    ensures text == SuggestionsText(ss)
  {
    if ss == [] {
      return NoSuggestions;
    }
    text := SuggestionsHeader;
    for i := 0 to |ss|
      invariant text == SuggestionsHeader + Entries(ss[..i])
    {
      assert ss[..i + 1][..i] == ss[..i];
      AppendRegroup(SuggestionsHeader, Entries(ss[..i]), Entry(i + 1, ss[i]));
      text := text + Entry(i + 1, ss[i]);
    }
    assert ss[..|ss|] == ss;
  }

  /// The entry numbered i + 1 is the i-th suggestion, so the list is shown
  /// in order and numbered from 1.
  lemma {:induction false} EntriesListEach(ss: seq<Suggestion>, i: nat)
    requires i < |ss|
    ensures Contains(Entries(ss), EntryHead(i + 1, ss[i]))
    decreases |ss|
  {
    var init := ss[..|ss| - 1];
    var last := Entry(|ss|, ss[|ss| - 1]);
    if i == |ss| - 1 {
      ContainsFront(EntryHead(i + 1, ss[i]), EntryBody(ss[i]));
      ContainsAppended(Entries(init), last, EntryHead(i + 1, ss[i]));
    } else {
      assert init[i] == ss[i];
      EntriesListEach(init, i);
      ContainsPrefixOf(Entries(init), last, EntryHead(i + 1, ss[i]));
    }
  }

  lemma SuggestionsListEach(ss: seq<Suggestion>, i: nat)
    requires i < |ss|
    ensures StartsWith(SuggestionsText(ss), SuggestionsHeader)
    ensures Contains(SuggestionsText(ss), EntryHead(i + 1, ss[i]))
  {
    EntriesListEach(ss, i);
    ContainsAppended(SuggestionsHeader, Entries(ss), EntryHead(i + 1, ss[i]));
    assert (SuggestionsHeader + Entries(ss))[..|SuggestionsHeader|] == SuggestionsHeader;
  }

  // ---------------------------------------------------------------------
  // open_web_console

  /// The port and browser setting of `open_web_console`: port 12700 and
  /// opening the browser unless the request says otherwise.
  function WebConsoleSettings(port: Option<nat>, autoOpen: Option<bool>): (r: (nat, bool))
    ensures r.0 == (if port.Some? then port.value else 12700)
    ensures r.1 == (autoOpen.None? || autoOpen.value)
  {
    (if port.Some? then port.value else 12700, if autoOpen.Some? then autoOpen.value else true)
  }
}
