// Records of the ichimi-persistence crate
// (crates/ichimi-persistence/src/types.rs): a flat process status, the
// stored process and template records, clipboard items and settings, and
// the template instantiation that substitutes every supplied key.

module PersistTypes {
  import opened Common

  /// The state without its payload; the payload lives beside it in
  /// `ProcessStatus`.
  datatype ProcessState = NotStarted | Running | Stopped | Failed

  datatype ProcessStatus = ProcessStatus(
    state: ProcessState,
    pid: Option<U32>,
    exit_code: Option<I32>,
    started_at: Option<Timestamp>,
    stopped_at: Option<Timestamp>,
    error: Option<string>)

  /// `ProcessStatus::default`.
  function DefaultStatus(): (s: ProcessStatus)
    ensures s.state == NotStarted
    ensures s.pid.None? && s.exit_code.None? && s.started_at.None? && s.stopped_at.None? && s.error.None?
  {
    ProcessStatus(NotStarted, None, None, None, None, None)
  }

  datatype ProcessInfo = ProcessInfo(
    id: Option<string>,
    process_id: string,
    name: string,
    command: string,
    args: seq<string>,
    env: map<string, string>,
    cwd: Option<string>,
    status: ProcessStatus,
    created_at: Timestamp,
    updated_at: Timestamp,
    tags: seq<string>,
    auto_start_on_restore: bool)

  datatype TemplateVariable = TemplateVariable(
    name: string,
    description: Option<string>,
    default_value: Option<string>,
    required: bool,
    var_type: Option<string>,
    example: Option<string>)

  datatype ProcessTemplate = ProcessTemplate(
    id: Option<string>,
    template_id: string,
    name: string,
    description: Option<string>,
    category: Option<string>,
    command: string,
    args: seq<string>,
    env: map<string, string>,
    default_cwd: Option<string>,
    default_auto_start: bool,
    variables: seq<TemplateVariable>,
    created_at: Timestamp,
    updated_at: Timestamp,
    tags: seq<string>)

  /// `ProcessTemplate::new`; the generated id and the clock are parameters.
  function NewTemplate(name: string, command: string, generatedId: string, now: Timestamp): (t: ProcessTemplate)
    ensures t.id.None? && t.template_id == generatedId && t.name == name && t.command == command
    ensures t.description.None? && t.category.None? && t.default_cwd.None? && !t.default_auto_start
    ensures t.args == [] && t.env == map[] && t.variables == [] && t.tags == []
    ensures t.created_at == t.updated_at == now
  {
    ProcessTemplate(None, generatedId, name, None, None, command, [], map[], None, false, [], now, now, [])
  }

  datatype ClipboardItem = ClipboardItem(
    id: Option<string>,
    clipboard_id: string,
    content: string,
    filename: Option<string>,
    created_at: Timestamp,
    updated_at: Timestamp,
    content_type: Option<string>,
    tags: seq<string>)

  /// `ClipboardItem::new`; the generated id and the clock are parameters.
  function NewClipboardItem(content: string, filename: Option<string>, contentType: Option<string>,
                            generatedId: string, now: Timestamp): (c: ClipboardItem)
    ensures c.id.None? && c.clipboard_id == generatedId
    ensures c.content == content && c.filename == filename && c.content_type == contentType
    ensures c.created_at == c.updated_at == now && c.tags == []
  {
    ClipboardItem(None, generatedId, content, filename, now, now, contentType, [])
  }

  datatype Settings = Settings(
    theme: string,
    auto_save_interval: Option<U64>,
    max_log_lines: Option<U64>,
    enable_auto_restart: bool,
    default_shell: Option<string>,
    env_variables: map<string, string>,
    updated_at: Timestamp)

  /// `Settings::default`, stamped with the current time.
  function DefaultSettings(now: Timestamp): (s: Settings)
    ensures s.theme == "dark" && s.auto_save_interval == Some(300) && s.max_log_lines == Some(1000)
    ensures !s.enable_auto_restart && s.default_shell.None? && s.env_variables == map[]
    ensures s.updated_at == now
  {
    Settings("dark", Some(300), Some(1000), false, None, map[], now)
  }

  // ---------------------------------------------------------------------
  // Template instantiation

  function Placeholder(key: string): (p: string)
    ensures |p| == |key| + 4
  {
    "{{" + key + "}}"
  }

  /// The text after the keys `keys` have been substituted in turn, each
  /// `{{key}}` replaced everywhere by `values[key]`.
  function Substituted(s: string, keys: seq<string>, values: map<string, string>): string
    requires forall k :: k in keys ==> k in values
  {
    if keys == [] then s
    else
      var last := keys[|keys| - 1];
      Replace(Substituted(s, keys[..|keys| - 1], values), Placeholder(last), values[last])
  }

  /// With nothing supplied a text is left as it is, placeholders included;
  /// a declared default is never consulted.
  lemma SubstitutedNothing(s: string, values: map<string, string>)
    ensures Substituted(s, [], values) == s
  {
  }

  /// A text holding no placeholder of any supplied key is left as it is.
  lemma {:induction false} SubstitutedUntouched(s: string, keys: seq<string>, values: map<string, string>)
    requires forall k :: k in keys ==> k in values
    requires forall i :: 0 <= i < |keys| ==> !Contains(s, Placeholder(keys[i]))
    ensures Substituted(s, keys, values) == s
    decreases |keys|
  {
    if keys != [] {
      var init := keys[..|keys| - 1];
      assert forall i :: 0 <= i < |init| ==> init[i] == keys[i];
      SubstitutedUntouched(s, init, values);
      ReplaceAbsent(s, Placeholder(keys[|keys| - 1]), values[keys[|keys| - 1]]);
    }
  }

  /// The first required variable missing from the supplied keys.
  function FirstMissing(vars: seq<TemplateVariable>, values: map<string, string>): (r: Option<nat>)
    ensures r.Some? ==> r.value < |vars| && vars[r.value].required && vars[r.value].name !in values
    ensures r.Some? ==> forall j :: 0 <= j < r.value ==> !(vars[j].required && vars[j].name !in values)
    ensures r.None? ==> forall j :: 0 <= j < |vars| ==> !(vars[j].required && vars[j].name !in values)
  {
    if vars == [] then None
    else if vars[0].required && vars[0].name !in values then Some(0)
    else
      var rest := FirstMissing(vars[1..], values);
      assert forall j :: 1 <= j < |vars| ==> vars[j] == vars[1..][j - 1];
      if rest.None? then None else Some(rest.value + 1)
  }

  function MissingRequired(name: string): string
  {
    "Required variable '" + name + "' is missing"
  }

  /// The record a successful instantiation yields, given the substituted
  /// command, arguments and environment.
  function Instantiated(t: ProcessTemplate, processId: string, command: string, args: seq<string>,
                        env: map<string, string>, now: Timestamp): ProcessInfo
  {
    ProcessInfo(None, processId, t.name, command, args, env, t.default_cwd, DefaultStatus(), now, now,
                t.tags, t.default_auto_start)
  }

  /// The substitution loop of `instantiate`: every supplied key, in the
  /// map's iteration order `order`, is substituted into the command, each
  /// argument and each environment value, and environment keys are kept.
  method SubstituteAll(t: ProcessTemplate, values: map<string, string>, order: seq<string>)
    returns (command: string, args: seq<string>, env: map<string, string>)
    requires forall k :: k in order ==> k in values
    ensures command == Substituted(t.command, order, values)
    ensures |args| == |t.args|
    ensures forall i :: 0 <= i < |t.args| ==> args[i] == Substituted(t.args[i], order, values)
    ensures env.Keys == t.env.Keys
    ensures forall k :: k in t.env ==> env[k] == Substituted(t.env[k], order, values)
  {
    command, args, env := t.command, t.args, t.env;
    var i := 0;
    while i < |order|
      invariant 0 <= i <= |order|
      invariant command == Substituted(t.command, order[..i], values)
      invariant |args| == |t.args|
      invariant forall j :: 0 <= j < |args| ==> args[j] == Substituted(t.args[j], order[..i], values)
      invariant env.Keys == t.env.Keys
      invariant forall k :: k in env ==> env[k] == Substituted(t.env[k], order[..i], values)
    {
      var key := order[i];
      var p := Placeholder(key);
      assert order[..i + 1][..i] == order[..i] && order[..i + 1][i] == key;
      command := Replace(command, p, values[key]);
      args := seq(|args|, j requires 0 <= j < |args| => Replace(args[j], p, values[key]));
      env := map k | k in env :: Replace(env[k], p, values[key]);
      i := i + 1;
    }
    assert order[..i] == order;
  }

  /// The required-variable loop of `instantiate`.
  method CheckRequired(vars: seq<TemplateVariable>, values: map<string, string>) returns (r: Result<Unit>)
    ensures FirstMissing(vars, values).Some? ==> r == Err(MissingRequired(vars[FirstMissing(vars, values).value].name))
    ensures FirstMissing(vars, values).None? ==> r == Ok(Unit)
  {
    var j := 0;
    while j < |vars|
      invariant 0 <= j <= |vars|
      invariant forall m :: 0 <= m < j ==> !(vars[m].required && vars[m].name !in values)
    {
      if vars[j].required && vars[j].name !in values {
        return Err(MissingRequired(vars[j].name));
      }
      j := j + 1;
    }
    r := Ok(Unit);
  }

  /// `ProcessTemplate::instantiate`: substitution of every supplied key,
  /// then a required variable whose name was not supplied makes the whole
  /// call fail; otherwise a NotStarted record with the template's name,
  /// tags, working directory and auto-start default.
  method Instantiate(t: ProcessTemplate, processId: string, values: map<string, string>, order: seq<string>,
                     now: Timestamp) returns (r: Result<ProcessInfo>)
    requires IsKeyOrder(values, order)
    ensures FirstMissing(t.variables, values).Some? ==>
      r == Err(MissingRequired(t.variables[FirstMissing(t.variables, values).value].name))
    ensures FirstMissing(t.variables, values).None? ==>
      && r.Ok?
      && r.value == Instantiated(t, processId, Substituted(t.command, order, values),
                                 r.value.args, r.value.env, now)
      && |r.value.args| == |t.args|
      && (forall i :: 0 <= i < |t.args| ==> r.value.args[i] == Substituted(t.args[i], order, values))
      && r.value.env.Keys == t.env.Keys
      && (forall k :: k in t.env ==> r.value.env[k] == Substituted(t.env[k], order, values))
  {
    var command, args, env := SubstituteAll(t, values, order);
    var checked := CheckRequired(t.variables, values);
    if checked.Err? {
      return Err(checked.error);
    }
    r := Ok(Instantiated(t, processId, command, args, env, now));
  }

  /// The variables' declared defaults play no part: two templates that
  /// differ only there fail on the same input.
  lemma DefaultsIgnored(t: ProcessTemplate, values: map<string, string>, defaults: seq<Option<string>>)
    requires |defaults| == |t.variables|
    ensures var t2 := t.(variables := seq(|t.variables|, i requires 0 <= i < |t.variables| =>
                                            t.variables[i].(default_value := defaults[i])));
      FirstMissing(t2.variables, values) == FirstMissing(t.variables, values)
  {
    var vs2 := seq(|t.variables|, i requires 0 <= i < |t.variables| => t.variables[i].(default_value := defaults[i]));
    FirstMissingDefaults(t.variables, vs2, values);
  }

  lemma {:induction false} FirstMissingDefaults(vs: seq<TemplateVariable>, ws: seq<TemplateVariable>,
                                                values: map<string, string>)
    requires |vs| == |ws|
    requires forall i :: 0 <= i < |vs| ==> ws[i].name == vs[i].name && ws[i].required == vs[i].required
    ensures FirstMissing(ws, values) == FirstMissing(vs, values)
    decreases |vs|
  {
    if vs != [] {
      FirstMissingDefaults(vs[1..], ws[1..], values);
    }
  }
}
