// Process templates of the root crate (src/process/template.rs): declared
// variables with defaults and typed validation, `{{NAME}}` substitution, and
// instantiation into a process record. Regular-expression matching is an
// outside library, so it is passed in as a function.

module ProcessTemplates {
  import opened Common
  import opened ProcessTypes
  import RootManager

  datatype VariableType = Text | Number | Boolean | FilePath | Enum(options: seq<string>)

  datatype VariableValidation = VariableValidation(
    min: Option<int>,
    max: Option<int>,
    pattern: Option<string>,
    error_message: Option<string>)

  datatype TemplateVariable = TemplateVariable(
    name: string,
    description: Option<string>,
    var_type: VariableType,
    default_value: Option<string>,
    required: bool,
    validation: Option<VariableValidation>)

  datatype ProcessTemplate = ProcessTemplate(
    template_id: string,
    name: string,
    description: Option<string>,
    category: Option<string>,
    command: string,
    args: seq<string>,
    env: map<string, string>,
    default_cwd: Option<string>,
    default_auto_start: bool,
    variables: seq<TemplateVariable>,
    tags: seq<string>,
    created_at: Timestamp,
    updated_at: Timestamp)

  /// `ProcessTemplate::new`, stamped with the current time.
  function NewTemplate(template_id: string, name: string, command: string, now: Timestamp): (t: ProcessTemplate)
    ensures t.template_id == template_id && t.name == name && t.command == command
    ensures t.description.None? && t.category.None? && t.default_cwd.None? && !t.default_auto_start
    ensures t.args == [] && t.env == map[] && t.variables == [] && t.tags == []
    ensures t.created_at == t.updated_at == now
  {
    ProcessTemplate(template_id, name, None, None, command, [], map[], None, false, [], [], now, now)
  }

  /// What the regular-expression library says about a value and a pattern.
  datatype RegexOutcome = Matched | NotMatched | InvalidPattern(reason: string)

  /// `str::parse::<bool>`: exactly "true" or "false".
  function ParseBool(s: string): (r: Option<bool>)
    ensures r.Some? <==> s == "true" || s == "false"
    ensures r == Some(true) <==> s == "true"
  {
    if s == "true" then Some(true) else if s == "false" then Some(false) else None
  }

  // ---------------------------------------------------------------------
  // `{:?}` of strings

  /// Characters `{:?}` writes as an escape: the quote, the backslash and
  /// the ASCII control characters.
  predicate NeedsDebugEscape(c: char)
  {
    c == '"' || c == '\\' || c < ' ' || c as int == 127
  }

  function HexDigit(d: nat): (c: char)
    requires d < 16
    ensures HexValue(c) == Some(d)
  {
    if d < 10 then ('0' as int + d) as char else ('a' as int + d - 10) as char
  }

  function HexValue(c: char): (r: Option<nat>)
    ensures r.Some? ==> r.value < 16
  {
    if '0' <= c <= '9' then Some(c as int - '0' as int)
    else if 'a' <= c <= 'f' then Some(c as int - 'a' as int + 10)
    else None
  }

  /// One character of a `{:?}` string: `\"`, `\\`, `\n`, `\r`, `\t` and
  /// `\0` for those, `\u{..}` in lower-case hexadecimal for the other
  /// ASCII control characters, anything else as itself.
  function DebugChar(c: char): (r: string)
    ensures r != [] && (r == [c] <==> !NeedsDebugEscape(c))
    ensures NeedsDebugEscape(c) ==> r[0] == '\\'
  {
    if c == '"' then "\\\""
    else if c == '\\' then "\\\\"
    else if c == '\n' then "\\n"
    else if c == '\r' then "\\r"
    else if c == '\t' then "\\t"
    else if c == '\0' then "\\0"
    else if c as int < 16 then "\\u{" + [HexDigit(c as int)] + "}"
    else if NeedsDebugEscape(c) then "\\u{" + [HexDigit(c as int / 16), HexDigit(c as int % 16)] + "}"
    else [c]
  }

  function DebugEscaped(s: string): string
  {
    if s == [] then [] else DebugChar(s[0]) + DebugEscaped(s[1..])
  }

  /// `{:?}` of a string: escaped, between double quotes.
  function DebugQuoted(s: string): string
  {
    "\"" + DebugEscaped(s) + "\""
  }

  function DebugQuotedAll(xs: seq<string>): (r: seq<string>)
    ensures |r| == |xs| && forall i :: 0 <= i < |xs| ==> r[i] == DebugQuoted(xs[i])
  {
    seq(|xs|, i requires 0 <= i < |xs| => DebugQuoted(xs[i]))
  }

  /// `{:?}` of a list of strings: each quoted, separated by ", ", in brackets.
  function DebugList(options: seq<string>): string
  {
    "[" + Join(DebugQuotedAll(options), ", ") + "]"
  }

  function Prepend(c: char, r: Option<(string, string)>): Option<(string, string)>
  {
    if r.None? then None else Some(([c] + r.value.0, r.value.1))
  }

  /// A reader of `{:?}` strings: the characters up to the closing quote,
  /// unescaped, and what follows it.
  function ReadDebugBody(t: string): (r: Option<(string, string)>)
    ensures r.Some? ==> |r.value.1| < |t|
    decreases |t|
  {
    if t == [] then None
    else if t[0] == '"' then Some(("", t[1..]))
    else if t[0] != '\\' then Prepend(t[0], ReadDebugBody(t[1..]))
    else if |t| < 2 then None
    else if t[1] == '"' || t[1] == '\\' then Prepend(t[1], ReadDebugBody(t[2..]))
    else if t[1] == 'n' then Prepend('\n', ReadDebugBody(t[2..]))
    else if t[1] == 'r' then Prepend('\r', ReadDebugBody(t[2..]))
    else if t[1] == 't' then Prepend('\t', ReadDebugBody(t[2..]))
    else if t[1] == '0' then Prepend('\0', ReadDebugBody(t[2..]))
    else if t[1] == 'u' && |t| >= 5 && t[2] == '{' && HexValue(t[3]).Some? then
      if t[4] == '}' then Prepend(HexValue(t[3]).value as char, ReadDebugBody(t[5..]))
      else if |t| >= 6 && HexValue(t[4]).Some? && t[5] == '}' then
        Prepend((16 * HexValue(t[3]).value + HexValue(t[4]).value) as char, ReadDebugBody(t[6..]))
      else None
    else None
  }

  /// A reader of `{:?}` lists of strings.
  function ReadDebugList(t: string): Option<seq<string>>
  {
    if t == "[]" then Some([])
    else if t != [] && t[0] == '[' then ReadDebugItems(t[1..])
    else None
  }

  function ReadDebugItems(t: string): Option<seq<string>>
    decreases |t|
  {
    if t == [] || t[0] != '"' then None
    else match ReadDebugBody(t[1..])
      case None => None
      case Some((s, rest)) =>
        if rest == "]" then Some([s])
        else if |rest| >= 2 && rest[..2] == ", " then
          var more := ReadDebugItems(rest[2..]);
          if more.None? then None else Some([s] + more.value)
        else None
  }

  lemma ReadDebugChar(c: char, t: string)
    ensures ReadDebugBody(DebugChar(c) + t) == Prepend(c, ReadDebugBody(t))
  {
    var e := DebugChar(c) + t;
    if !NeedsDebugEscape(c) {
      assert e[0] == c && e[1..] == t;
    } else if c == '"' || c == '\\' || c == '\n' || c == '\r' || c == '\t' || c == '\0' {
      assert e[2..] == t;
    } else if c as int < 16 {
      assert e[5..] == t;
      assert (HexValue(e[3]).value as char) == c;
    } else {
      assert e[6..] == t;
      assert ((16 * HexValue(e[3]).value + HexValue(e[4]).value) as char) == c;
    }
  }

  /// Reading an escaped string back gives the string and what follows its
  /// closing quote.
  lemma {:induction false} DebugEscapedReadsBack(s: string, rest: string)
    ensures ReadDebugBody(DebugEscaped(s) + "\"" + rest) == Some((s, rest))
    decreases |s|
  {
    if s == [] {
      assert DebugEscaped(s) + "\"" + rest == "\"" + rest;
    } else {
      DebugEscapedReadsBack(s[1..], rest);
      var tail := DebugEscaped(s[1..]) + "\"" + rest;
      assert DebugEscaped(s) + "\"" + rest == DebugChar(s[0]) + tail;
      ReadDebugChar(s[0], tail);
      assert [s[0]] + s[1..] == s;
    }
  }

  /// A `{:?}` list reads back as the list it was written from, so the
  /// message names every option exactly.
  lemma DebugListReadsBack(options: seq<string>)
    ensures ReadDebugList(DebugList(options)) == Some(options)
  {
    if options == [] {
      assert DebugList(options) == "[]";
    } else {
      DebugItemsReadBack(options);
      assert DebugList(options)[1..] == Join(DebugQuotedAll(options), ", ") + "]";
      assert DebugList(options) != "[]" by {
        assert DebugList(options)[1] == '"';
      }
    }
  }

  lemma {:induction false} DebugItemsReadBack(xs: seq<string>)
    requires xs != []
    ensures ReadDebugItems(Join(DebugQuotedAll(xs), ", ") + "]") == Some(xs)
    decreases |xs|
  {
    if |xs| == 1 {
      LastItem(xs);
    } else {
      DebugItemsReadBack(xs[1..]);
      NextItem(xs);
    }
  }

  lemma LastItem(xs: seq<string>)
    requires |xs| == 1
    ensures ReadDebugItems(Join(DebugQuotedAll(xs), ", ") + "]") == Some(xs)
  {
    var e := DebugEscaped(xs[0]);
    assert Join(DebugQuotedAll(xs), ", ") + "]" == "\"" + (e + "\"" + "]");
    ReadOneItem(xs[0], "]");
    assert xs == [xs[0]];
  }

  lemma NextItem(xs: seq<string>)
    requires |xs| > 1
    requires ReadDebugItems(Join(DebugQuotedAll(xs[1..]), ", ") + "]") == Some(xs[1..])
    ensures ReadDebugItems(Join(DebugQuotedAll(xs), ", ") + "]") == Some(xs)
  {
    var q := DebugQuotedAll(xs);
    var e := DebugEscaped(xs[0]);
    assert q[1..] == DebugQuotedAll(xs[1..]);
    var more := Join(q[1..], ", ") + "]";
    JoinQuoted(q, e, ", ", "]");
    ReadOneItem(xs[0], ", " + more);
    assert (", " + more)[2..] == more;
    assert [xs[0]] + xs[1..] == xs;
  }

  lemma JoinQuoted(q: seq<string>, e: string, sep: string, tail: string)
    requires |q| > 1 && q[0] == "\"" + e + "\""
    ensures Join(q, sep) + tail == "\"" + (e + "\"" + (sep + (Join(q[1..], sep) + tail)))
  {
  }

  /// Reading one quoted item of a list, and what follows it.
  lemma ReadOneItem(s: string, tail: string)
    ensures ReadDebugItems("\"" + (DebugEscaped(s) + "\"" + tail)) ==
      if tail == "]" then Some([s])
      else if |tail| >= 2 && tail[..2] == ", " then
        var more := ReadDebugItems(tail[2..]);
        if more.None? then None else Some([s] + more.value)
      else None
  {
    var t := "\"" + (DebugEscaped(s) + "\"" + tail);
    assert t[0] == '"' && t[1..] == DebugEscaped(s) + "\"" + tail;
    DebugEscapedReadsBack(s, tail);
  }

  /// The message `validate_variable_value` rejects a supplied value with,
  /// or None when the value is acceptable.
  function ValueError(v: TemplateVariable, value: string, regex: (string, string) -> RegexOutcome): (r: Option<string>)
    ensures v.var_type.Number? ==>
      (r.None? <==>
        && ParseSigned(value, I64_MIN, I64_MAX).Some?
        && (v.validation.Some? && v.validation.value.min.Some? ==>
              ParseSigned(value, I64_MIN, I64_MAX).value >= v.validation.value.min.value)
        && (v.validation.Some? && v.validation.value.max.Some? ==>
              ParseSigned(value, I64_MIN, I64_MAX).value <= v.validation.value.max.value))
    ensures v.var_type.Number? && ParseSigned(value, I64_MIN, I64_MAX).None? ==>
      r == Some("Variable '" + v.name + "' must be a number")
    ensures v.var_type.Number? && ParseSigned(value, I64_MIN, I64_MAX).Some? && r.Some? && v.validation.value.error_message.Some? ==>
      r == v.validation.value.error_message
    ensures v.var_type.Boolean? ==> (r.None? <==> value == "true" || value == "false")
    ensures v.var_type.Enum? ==> (r.None? <==> value in v.var_type.options)
    ensures (v.var_type.Text? || v.var_type.FilePath?) && (v.validation.None? || v.validation.value.pattern.None?) ==> r.None?
    ensures (v.var_type.Text? || v.var_type.FilePath?) && v.validation.Some? && v.validation.value.pattern.Some? ==>
      (r.None? <==> regex(v.validation.value.pattern.value, value) == Matched)
  {
    match v.var_type
    case Number =>
      var n := ParseSigned(value, I64_MIN, I64_MAX);
      if n.None? then Some("Variable '" + v.name + "' must be a number")
      else if v.validation.Some? && v.validation.value.min.Some? && n.value < v.validation.value.min.value then
        Some(v.validation.value.error_message.UnwrapOr(
          "Variable '" + v.name + "' must be >= " + IntToString(v.validation.value.min.value)))
      else if v.validation.Some? && v.validation.value.max.Some? && n.value > v.validation.value.max.value then
        Some(v.validation.value.error_message.UnwrapOr(
          "Variable '" + v.name + "' must be <= " + IntToString(v.validation.value.max.value)))
      else None
    case Boolean =>
      if ParseBool(value).None? then Some("Variable '" + v.name + "' must be a boolean") else None
    case Enum(options) =>
      if value !in options then Some("Variable '" + v.name + "' must be one of: " + DebugList(options)) else None
    case _ =>
      if v.validation.Some? && v.validation.value.pattern.Some? then
        match regex(v.validation.value.pattern.value, value)
        case InvalidPattern(e) => Some("Invalid regex pattern: " + e)
        case NotMatched => Some(v.validation.value.error_message.UnwrapOr("Variable '" + v.name + "' does not match pattern"))
        case Matched => None
      else None
  }

  function MissingRequired(name: string): string
  {
    "Required variable '" + name + "' is missing"
  }

  /// Whether one declared variable passes: present if required, and valid
  /// if supplied. An optional variable without a value is not checked.
  predicate VariableOk(v: TemplateVariable, values: map<string, string>, regex: (string, string) -> RegexOutcome)
  {
    (v.required ==> v.name in values)
    && (v.name in values ==> ValueError(v, values[v.name], regex).None?)
  }

  /// `validate_variables`: the declared variables in order, stopping at the
  /// first failure.
  function ValidateVariables(vars: seq<TemplateVariable>, values: map<string, string>,
                             regex: (string, string) -> RegexOutcome): (r: Result<Unit>)
    ensures r.Ok? <==> forall i :: 0 <= i < |vars| ==> VariableOk(vars[i], values, regex)
  {
    if vars == [] then Ok(Unit)
    else if vars[0].required && vars[0].name !in values then Err(MissingRequired(vars[0].name))
    else if vars[0].name in values && ValueError(vars[0], values[vars[0].name], regex).Some? then
      Err(ValueError(vars[0], values[vars[0].name], regex).value)
    else
      var rest := ValidateVariables(vars[1..], values, regex);
      assert forall i :: 1 <= i < |vars| ==> vars[i] == vars[1..][i - 1];
      rest
  }

  /// The first failing variable decides the message: a missing required
  /// variable gives "Required variable '…' is missing", otherwise the
  /// value's own validation message.
  lemma {:induction false} ValidateVariablesFirstFailure(vars: seq<TemplateVariable>, values: map<string, string>,
                                                         regex: (string, string) -> RegexOutcome, i: nat)
    requires i < |vars| && !VariableOk(vars[i], values, regex)
    requires forall j :: 0 <= j < i ==> VariableOk(vars[j], values, regex)
    ensures vars[i].required && vars[i].name !in values ==>
      ValidateVariables(vars, values, regex) == Err(MissingRequired(vars[i].name))
    ensures !(vars[i].required && vars[i].name !in values) ==>
      ValidateVariables(vars, values, regex) == Err(ValueError(vars[i], values[vars[i].name], regex).value)
    decreases i
  {
    if i > 0 {
      assert VariableOk(vars[0], values, regex);
      assert forall j :: 0 <= j < i - 1 ==> vars[1..][j] == vars[j + 1];
      ValidateVariablesFirstFailure(vars[1..], values, regex, i - 1);
    }
  }

  /// The loop of `validate_variables`.
  method CheckVariables(vars: seq<TemplateVariable>, values: map<string, string>,
                        regex: (string, string) -> RegexOutcome) returns (r: Result<Unit>)
    ensures r == ValidateVariables(vars, values, regex)
  {
    var i := 0;
    while i < |vars|
      invariant 0 <= i <= |vars|
      invariant ValidateVariables(vars, values, regex) == ValidateVariables(vars[i..], values, regex)
    {
      var v := vars[i];
      assert vars[i..][0] == v && vars[i..][1..] == vars[i + 1..];
      if v.required && v.name !in values {
        return Err(MissingRequired(v.name));
      }
      if v.name in values {
        var e := ValueError(v, values[v.name], regex);
        if e.Some? {
          return Err(e.value);
        }
      }
      i := i + 1;
    }
    r := Ok(Unit);
  }

  /// The text `{{NAME}}` stands for variable NAME.
  function Placeholder(name: string): (p: string)
    ensures |p| == |name| + 4 && p[0] == '{'
  {
    "{{" + name + "}}"
  }

  function NoValue(name: string): string
  {
    "No value provided for variable '" + name + "'"
  }

  /// `substitute_string` from the point where `acc` is the text so far and
  /// `vars` the variables still to handle: a variable whose placeholder
  /// occurs is replaced everywhere by the supplied value, else its default,
  /// else the whole substitution fails.
  function SubstituteFrom(acc: string, vars: seq<TemplateVariable>, values: map<string, string>): Result<string>
    decreases |vars|
  {
    if vars == [] then Ok(acc)
    else
      var v := vars[0];
      var p := Placeholder(v.name);
      if !Contains(acc, p) then SubstituteFrom(acc, vars[1..], values)
      else if v.name in values then SubstituteFrom(Replace(acc, p, values[v.name]), vars[1..], values)
      else if v.default_value.Some? then SubstituteFrom(Replace(acc, p, v.default_value.value), vars[1..], values)
      else Err(NoValue(v.name))
  }

  /// The loop of `substitute_string`.
  method SubstituteString(input: string, vars: seq<TemplateVariable>, values: map<string, string>)
    returns (r: Result<string>)
    ensures r == SubstituteFrom(input, vars, values)
  {
    var result := input;
    var i := 0;
    while i < |vars|
      invariant 0 <= i <= |vars|
      invariant SubstituteFrom(input, vars, values) == SubstituteFrom(result, vars[i..], values)
    {
      var v := vars[i];
      assert vars[i..][0] == v && vars[i..][1..] == vars[i + 1..];
      var p := Placeholder(v.name);
      if Contains(result, p) {
        if v.name in values {
          result := Replace(result, p, values[v.name]);
        } else if v.default_value.Some? {
          result := Replace(result, p, v.default_value.value);
        } else {
          return Err(NoValue(v.name));
        }
      }
      i := i + 1;
    }
    r := Ok(result);
  }

  /// A string holding no declared placeholder comes back unchanged; this
  /// covers placeholders of undeclared names.
  lemma {:induction false} SubstituteUnchanged(s: string, vars: seq<TemplateVariable>, values: map<string, string>)
    requires forall i :: 0 <= i < |vars| ==> !Contains(s, Placeholder(vars[i].name))
    ensures SubstituteFrom(s, vars, values) == Ok(s)
    decreases |vars|
  {
    if vars != [] {
      assert forall i :: 0 <= i < |vars| - 1 ==> vars[1..][i] == vars[i + 1];
      SubstituteUnchanged(s, vars[1..], values);
    }
  }

  /// Substitution fails only for a variable that has neither a supplied
  /// value nor a default, and then it names that variable.
  lemma {:induction false} SubstituteFailure(s: string, vars: seq<TemplateVariable>, values: map<string, string>)
    ensures SubstituteFrom(s, vars, values).Err? ==>
      exists i :: 0 <= i < |vars| && vars[i].name !in values && vars[i].default_value.None?
        && SubstituteFrom(s, vars, values).error == NoValue(vars[i].name)
    decreases |vars|
  {
    if vars != [] {
      var v := vars[0];
      var p := Placeholder(v.name);
      var next := if !Contains(s, p) then s
        else if v.name in values then Replace(s, p, values[v.name])
        else if v.default_value.Some? then Replace(s, p, v.default_value.value)
        else s;
      if Contains(s, p) && v.name !in values && v.default_value.None? {
        assert SubstituteFrom(s, vars, values).error == NoValue(vars[0].name);
      } else {
        assert SubstituteFrom(s, vars, values) == SubstituteFrom(next, vars[1..], values);
        SubstituteFailure(next, vars[1..], values);
        if SubstituteFrom(next, vars[1..], values).Err? {
          var j :| 0 <= j < |vars[1..]| && vars[1..][j].name !in values && vars[1..][j].default_value.None?
            && SubstituteFrom(next, vars[1..], values).error == NoValue(vars[1..][j].name);
          assert vars[j + 1] == vars[1..][j];
        }
      }
    }
  }

  /// When every declared variable has a supplied value or a default,
  /// substitution cannot fail.
  lemma SubstituteTotal(s: string, vars: seq<TemplateVariable>, values: map<string, string>)
    requires forall i :: 0 <= i < |vars| ==> vars[i].name in values || vars[i].default_value.Some?
    ensures SubstituteFrom(s, vars, values).Ok?
  {
    SubstituteFailure(s, vars, values);
  }

  /// `substitute_variables`: every argument in order, failing at the first
  /// argument whose substitution fails.
  function SubstituteArgs(args: seq<string>, vars: seq<TemplateVariable>, values: map<string, string>)
    : (r: Result<seq<string>>)
    ensures r.Ok? <==> forall i :: 0 <= i < |args| ==> SubstituteFrom(args[i], vars, values).Ok?
    ensures r.Ok? ==>
      && |r.value| == |args|
      && forall i :: 0 <= i < |args| ==> r.value[i] == SubstituteFrom(args[i], vars, values).value
  {
    if args == [] then Ok([])
    else
      var first := SubstituteFrom(args[0], vars, values);
      var rest := SubstituteArgs(args[1..], vars, values);
      assert forall i :: 1 <= i < |args| ==> args[1..][i - 1] == args[i];
      if first.Err? then Err(first.error)
      else if rest.Err? then Err(rest.error)
      else Ok([first.value] + rest.value)
  }

  /// `substitute_env_variables`, visiting the keys in the map's iteration
  /// order: the keys are kept and each value is substituted.
  function SubstituteEnv(env: map<string, string>, order: seq<string>, vars: seq<TemplateVariable>,
                         values: map<string, string>): (r: Result<map<string, string>>)
    requires forall k :: k in order ==> k in env
    ensures r.Ok? <==> forall i :: 0 <= i < |order| ==> SubstituteFrom(env[order[i]], vars, values).Ok?
    ensures r.Ok? ==>
      && r.value.Keys == (set k | k in order)
      && forall k :: k in r.value ==> r.value[k] == SubstituteFrom(env[k], vars, values).value
  {
    if order == [] then Ok(map[])
    else
      var first := SubstituteFrom(env[order[0]], vars, values);
      var rest := SubstituteEnv(env, order[1..], vars, values);
      assert forall i :: 1 <= i < |order| ==> order[1..][i - 1] == order[i];
      if first.Err? then Err(first.error)
      else if rest.Err? then Err(rest.error)
      else Ok(rest.value[order[0] := first.value])
  }

  /// `ProcessTemplate::instantiate`, as written: validation first, then
  /// args, env and working directory substituted, while the command is
  /// copied as it is. A successful call yields a NotStarted record with the
  /// given id and the template's auto-start default.
  function Instantiate(t: ProcessTemplate, processId: string, values: map<string, string>, envOrder: seq<string>,
                       regex: (string, string) -> RegexOutcome): (r: Result<RootManager.RootProcessInfo>)
    requires IsKeyOrder(t.env, envOrder)
    ensures ValidateVariables(t.variables, values, regex).Err? ==>
      r == Err(ValidateVariables(t.variables, values, regex).error)
    ensures r.Ok? ==>
      && ValidateVariables(t.variables, values, regex).Ok?
      && r.value.id == processId && r.value.command == t.command && r.value.state == NotStarted
      && r.value.auto_start_on_restore == t.default_auto_start
      && |r.value.args| == |t.args|
      && (forall i :: 0 <= i < |t.args| ==>
            SubstituteFrom(t.args[i], t.variables, values).Ok? && r.value.args[i] == SubstituteFrom(t.args[i], t.variables, values).value)
      && r.value.env.Keys == t.env.Keys
      && (forall k :: k in r.value.env ==>
            SubstituteFrom(t.env[k], t.variables, values).Ok? && r.value.env[k] == SubstituteFrom(t.env[k], t.variables, values).value)
      && (r.value.cwd.Some? <==> t.default_cwd.Some?)
      && (t.default_cwd.Some? ==>
            SubstituteFrom(t.default_cwd.value, t.variables, values).Ok?
            && r.value.cwd == Some(SubstituteFrom(t.default_cwd.value, t.variables, values).value))
    ensures ValidateVariables(t.variables, values, regex).Ok? && SubstituteArgs(t.args, t.variables, values).Ok?
            && SubstituteEnv(t.env, envOrder, t.variables, values).Ok?
            && t.default_cwd.Some? && SubstituteFrom(t.default_cwd.value, t.variables, values).Err? ==>
      r == Err(SubstituteFrom(t.default_cwd.value, t.variables, values).error)
  {
    InstantiateWith(t, t.command, processId, values, envOrder, regex)
  }

  /// The record instantiation yields, with `command` as its command.
  function InstantiateWith(t: ProcessTemplate, command: string, processId: string, values: map<string, string>,
                           envOrder: seq<string>, regex: (string, string) -> RegexOutcome)
    : (r: Result<RootManager.RootProcessInfo>)
    requires IsKeyOrder(t.env, envOrder)
    ensures ValidateVariables(t.variables, values, regex).Err? ==>
      r == Err(ValidateVariables(t.variables, values, regex).error)
    ensures r.Ok? ==>
      && ValidateVariables(t.variables, values, regex).Ok?
      && r.value.id == processId && r.value.command == command && r.value.state == NotStarted
      && r.value.auto_start_on_restore == t.default_auto_start
      && |r.value.args| == |t.args|
      && (forall i :: 0 <= i < |t.args| ==>
            SubstituteFrom(t.args[i], t.variables, values).Ok? && r.value.args[i] == SubstituteFrom(t.args[i], t.variables, values).value)
      && r.value.env.Keys == t.env.Keys
      && (forall k :: k in r.value.env ==>
            SubstituteFrom(t.env[k], t.variables, values).Ok? && r.value.env[k] == SubstituteFrom(t.env[k], t.variables, values).value)
      && (r.value.cwd.Some? <==> t.default_cwd.Some?)
      && (t.default_cwd.Some? ==>
            SubstituteFrom(t.default_cwd.value, t.variables, values).Ok?
            && r.value.cwd == Some(SubstituteFrom(t.default_cwd.value, t.variables, values).value))
    ensures ValidateVariables(t.variables, values, regex).Ok? && SubstituteArgs(t.args, t.variables, values).Ok?
            && SubstituteEnv(t.env, envOrder, t.variables, values).Ok?
            && t.default_cwd.Some? && SubstituteFrom(t.default_cwd.value, t.variables, values).Err? ==>
      r == Err(SubstituteFrom(t.default_cwd.value, t.variables, values).error)
  {
    var checked := ValidateVariables(t.variables, values, regex);
    if checked.Err? then Err(checked.error)
    else
      var args := SubstituteArgs(t.args, t.variables, values);
      if args.Err? then Err(args.error)
      else
        var env := SubstituteEnv(t.env, envOrder, t.variables, values);
        if env.Err? then Err(env.error)
        else
          var cwd := if t.default_cwd.Some? then Some(SubstituteFrom(t.default_cwd.value, t.variables, values)) else None;
          if cwd.Some? && cwd.value.Err? then Err(cwd.value.error)
          else
            Ok(RootManager.RootProcessInfo(processId, command, args.value, env.value,
                                           if cwd.Some? then Some(cwd.value.value) else None,
                                           NotStarted, false, t.default_auto_start))
  }

  // ---------------------------------------------------------------------
  // The built-in python-venv template

  /// The "python-venv" entry of `get_builtin_templates`.
  function PythonVenv(now: Timestamp): ProcessTemplate
  {
    ProcessTemplate(
      "python-venv", "Python Virtual Environment",
      Some("Run Python script in a virtual environment"), Some("development"),
      Placeholder("VENV_PATH") + "/bin/python",
      [Placeholder("SCRIPT_PATH")],
      map["PYTHONPATH" := Placeholder("PROJECT_PATH")],
      Some(Placeholder("PROJECT_PATH")),
      false,
      [TemplateVariable("VENV_PATH", Some("Path to Python virtual environment"), FilePath, Some(".venv"), true, None),
       TemplateVariable("SCRIPT_PATH", Some("Path to Python script"), FilePath, None, true, None),
       TemplateVariable("PROJECT_PATH", Some("Path to the project directory"), FilePath, None, true, None)],
      ["python", "development"],
      now, now)
  }

  /// Values for all three variables of the python-venv template.
  predicate VenvValues(values: map<string, string>)
  {
    "VENV_PATH" in values && "SCRIPT_PATH" in values && "PROJECT_PATH" in values
  }

  lemma VenvValuesAccepted(values: map<string, string>, now: Timestamp, regex: (string, string) -> RegexOutcome)
    requires VenvValues(values)
    ensures ValidateVariables(PythonVenv(now).variables, values, regex).Ok?
    ensures forall s :: SubstituteFrom(s, PythonVenv(now).variables, values).Ok?
  {
    forall s ensures SubstituteFrom(s, PythonVenv(now).variables, values).Ok? {
      SubstituteTotal(s, PythonVenv(now).variables, values);
    }
  }

  /// Instantiation succeeds, whatever the command, once the variables are
  /// accepted and every text of the template substitutes.
  lemma InstantiateWithSucceeds(t: ProcessTemplate, command: string, processId: string, values: map<string, string>,
                                envOrder: seq<string>, regex: (string, string) -> RegexOutcome)
    requires IsKeyOrder(t.env, envOrder)
    requires ValidateVariables(t.variables, values, regex).Ok?
    requires forall s :: SubstituteFrom(s, t.variables, values).Ok?
    ensures InstantiateWith(t, command, processId, values, envOrder, regex).Ok?
  {
    assert SubstituteArgs(t.args, t.variables, values).Ok?;
    assert SubstituteEnv(t.env, envOrder, t.variables, values).Ok?;
  }

  /// As written, instantiating python-venv with every variable supplied
  /// succeeds but leaves `{{VENV_PATH}}` in the command, which then names no
  /// executable.
  lemma {:induction false} VenvCommandKeepsPlaceholder(values: map<string, string>, now: Timestamp,
                                                       regex: (string, string) -> RegexOutcome)
    requires VenvValues(values)
    ensures Instantiate(PythonVenv(now), "venv", values, ["PYTHONPATH"], regex).Ok?
    ensures Contains(Instantiate(PythonVenv(now), "venv", values, ["PYTHONPATH"], regex).value.command,
                     Placeholder("VENV_PATH"))
  {
    VenvValuesAccepted(values, now, regex);
    var t := PythonVenv(now);
    InstantiateWithSucceeds(t, t.command, "venv", values, ["PYTHONPATH"], regex);
    assert StartsWith(t.command, Placeholder("VENV_PATH"));
  }

  /// The evidently intended instantiation: the command is substituted like
  /// the arguments, environment values and working directory.
  function InstantiateCorrected(t: ProcessTemplate, processId: string, values: map<string, string>,
                                envOrder: seq<string>, regex: (string, string) -> RegexOutcome)
    : (r: Result<RootManager.RootProcessInfo>)
    requires IsKeyOrder(t.env, envOrder)
    ensures SubstituteFrom(t.command, t.variables, values).Err? && ValidateVariables(t.variables, values, regex).Ok? ==>
      r == Err(SubstituteFrom(t.command, t.variables, values).error)
    ensures r.Ok? ==>
      && SubstituteFrom(t.command, t.variables, values).Ok?
      && Instantiate(t, processId, values, envOrder, regex).Ok?
      && r.value == Instantiate(t, processId, values, envOrder, regex).value.(
           command := SubstituteFrom(t.command, t.variables, values).value)
  {
    var checked := ValidateVariables(t.variables, values, regex);
    var command := SubstituteFrom(t.command, t.variables, values);
    if checked.Err? then Err(checked.error)
    else if command.Err? then Err(command.error)
    else
      InstantiateWithCommand(t, command.value, processId, values, envOrder, regex);
      InstantiateWith(t, command.value, processId, values, envOrder, regex)
  }

  /// The command given to the instantiation is the only thing it takes
  /// from outside the template.
  lemma InstantiateWithCommand(t: ProcessTemplate, command: string, processId: string, values: map<string, string>,
                               envOrder: seq<string>, regex: (string, string) -> RegexOutcome)
    requires IsKeyOrder(t.env, envOrder)
    ensures InstantiateWith(t, command, processId, values, envOrder, regex).Ok? <==>
            InstantiateWith(t, t.command, processId, values, envOrder, regex).Ok?
    ensures InstantiateWith(t, command, processId, values, envOrder, regex).Ok? ==>
            InstantiateWith(t, command, processId, values, envOrder, regex).value ==
            InstantiateWith(t, t.command, processId, values, envOrder, regex).value.(command := command)
  {
  }

  /// A string without '{' holds no placeholder.
  lemma NoBraceNoPlaceholder(s: string, name: string)
    requires '{' !in s
    ensures !Contains(s, Placeholder(name))
  {
    if Contains(s, Placeholder(name)) {
      ContainsHasChars(s, Placeholder(name), 0);
    }
  }

  /// Replacing a leading placeholder in front of text free of '{'.
  lemma ReplaceLeading(name: string, tail: string, v: string)
    requires '{' !in tail
    ensures Replace(Placeholder(name) + tail, Placeholder(name), v) == v + tail
  {
    var p := Placeholder(name);
    assert (p + tail)[..|p|] == p && (p + tail)[|p|..] == tail;
    NoBraceNoPlaceholder(tail, name);
    ReplaceAbsent(tail, p, v);
  }

  /// Corrected, the python-venv command becomes the virtual environment's
  /// interpreter: the supplied VENV_PATH followed by "/bin/python".
  lemma {:induction false} VenvCommandCorrected(values: map<string, string>, now: Timestamp,
                                                regex: (string, string) -> RegexOutcome)
    requires VenvValues(values) && '{' !in values["VENV_PATH"]
    ensures InstantiateCorrected(PythonVenv(now), "venv", values, ["PYTHONPATH"], regex).Ok?
    ensures InstantiateCorrected(PythonVenv(now), "venv", values, ["PYTHONPATH"], regex).value.command
         == values["VENV_PATH"] + "/bin/python"
  {
    VenvValuesAccepted(values, now, regex);
    var t := PythonVenv(now);
    var vars := t.variables;
    var tail := "/bin/python";
    var v := values["VENV_PATH"];
    assert '{' !in tail;
    assert StartsWith(t.command, Placeholder("VENV_PATH"));
    ReplaceLeading("VENV_PATH", tail, v);
    var after := v + tail;
    assert '{' !in after;
    NoBraceNoPlaceholder(after, "SCRIPT_PATH");
    NoBraceNoPlaceholder(after, "PROJECT_PATH");
    assert SubstituteFrom(after, vars[2..], values) == Ok(after);
    assert SubstituteFrom(after, vars[1..], values) == Ok(after);
    assert SubstituteFrom(t.command, vars, values) == Ok(after);
    InstantiateWithSucceeds(t, after, "venv", values, ["PYTHONPATH"], regex);
  }
}
