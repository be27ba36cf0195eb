// Input validation run before a process is registered (src/security/mod.rs):
// the command must be a single plain program name, the arguments must not
// smuggle in shell expansion or control characters, and the environment
// must not override the loader or the search path.

module Security {
  import opened Common

  // ---------------------------------------------------------------------
  // Command

  /// Substrings that would let a shell chain, pipe or redirect, in the order
  /// they are looked for.
  const DANGEROUS_PATTERNS: seq<string> :=
    ["&&", "||", ";", "|", "$(", "`", "\n", "\r", ">", "<", ">>", "<<", "&>", "&>>", "2>", "2>>"]

  /// The characters from which every dangerous pattern is built.
  predicate IsMetaChar(c: char)
  {
    c == '&' || c == '|' || c == ';' || c == '$' || c == '`' || c == '\n' || c == '\r'
    || c == '>' || c == '<'
  }

  function DangerousPatternError(p: string): string
  {
    "Command contains potentially dangerous pattern: '" + p + "'"
  }

  /// The first pattern of `patterns` that occurs in `command`.
  function FirstPatternIn(command: string, patterns: seq<string>): (r: Option<string>)
    ensures r.Some? ==> r.value in patterns && Contains(command, r.value)
    ensures r.None? ==> forall i :: 0 <= i < |patterns| ==> !Contains(command, patterns[i])
  {
    if patterns == [] then None
    else if Contains(command, patterns[0]) then Some(patterns[0])
    else FirstPatternIn(command, patterns[1..])
  }

  /// What `validate_command` returns.
  function CommandCheck(command: string): Result<Unit>
  {
    if Trim(command) == [] then Err("Command cannot be empty")
    else if FirstPatternIn(command, DANGEROUS_PATTERNS).Some? then
      Err(DangerousPatternError(FirstPatternIn(command, DANGEROUS_PATTERNS).value))
    else CharacterCheck(command)
  }

  /// The last two checks of `validate_command`: '$' only as a leading "$/",
  /// and no wildcard.
  function CharacterCheck(command: string): Result<Unit>
  {
    if '$' in command && !StartsWith(command, "$/") then
      Err("Command contains potential shell expansion: '$'")
    else if '*' in command || '?' in command || '[' in command then
      Err("Command contains wildcards which are not allowed")
    else Ok(Unit)
  }

  /// `validate_command`: the pattern scan is a loop over the list.
  method ValidateCommand(command: string) returns (r: Result<Unit>)
    ensures r == CommandCheck(command)
  {
    if Trim(command) == [] {
      return Err("Command cannot be empty");
    }
    var found := ScanPatterns(command, DANGEROUS_PATTERNS);
    if found.Some? {
      return Err(DangerousPatternError(found.value));
    }
    r := CheckCharacters(command);
  }

  /// The scan loop of `validate_command`, over any list of patterns.
  method ScanPatterns(command: string, patterns: seq<string>) returns (r: Option<string>)
    ensures r == FirstPatternIn(command, patterns)
  {
    var i := 0;
    while i < |patterns|
      invariant 0 <= i <= |patterns|
      invariant FirstPatternIn(command, patterns) == FirstPatternIn(command, patterns[i..])
    {
      assert patterns[i..][1..] == patterns[i + 1..];
      if Contains(command, patterns[i]) {
        return Some(patterns[i]);
      }
      i := i + 1;
    }
    r := None;
  }

  method CheckCharacters(command: string) returns (r: Result<Unit>)
    ensures r == CharacterCheck(command)
  {
    if '$' in command && !StartsWith(command, "$/") {
      return Err("Command contains potential shell expansion: '$'");
    }
    if '*' in command || '?' in command || '[' in command {
      return Err("Command contains wildcards which are not allowed");
    }
    r := Ok(Unit);
  }

  /// A command is accepted exactly when it is not blank, contains none of
  /// the dangerous patterns, uses '$' only as a leading "$/", and has no
  /// wildcard.
  lemma CommandCheckOk(command: string)
    ensures CommandCheck(command).Ok? <==>
      && Trim(command) != []
      && (forall i :: 0 <= i < |DANGEROUS_PATTERNS| ==> !Contains(command, DANGEROUS_PATTERNS[i]))
      && ('$' in command ==> StartsWith(command, "$/"))
      && '*' !in command && '?' !in command && '[' !in command
  {
  }

  /// A blank command is always refused, with the emptiness message.
  lemma CommandCheckBlank(command: string)
    requires forall i :: 0 <= i < |command| ==> IsWhitespace(command[i])
    ensures CommandCheck(command) == Err("Command cannot be empty")
  {
    TrimEmptyIffBlank(command);
  }

  /// Every dangerous pattern contains a metacharacter.
  predicate HasMeta(p: string)
  {
    exists k :: 0 <= k < |p| && IsMetaChar(p[k])
  }

  lemma PatternsHaveMeta()
    ensures forall i :: 0 <= i < |DANGEROUS_PATTERNS| ==> HasMeta(DANGEROUS_PATTERNS[i])
  {
    forall i | 0 <= i < |DANGEROUS_PATTERNS|
      ensures HasMeta(DANGEROUS_PATTERNS[i])
    {
      var p := DANGEROUS_PATTERNS[i];
      var k := if i == 14 || i == 15 then 1 else 0;
      assert IsMetaChar(p[k]);
    }
  }

  /// A command with no shell metacharacter passes the pattern scan.
  lemma {:induction false} NoMetaNoPattern(command: string)
    requires forall j :: 0 <= j < |command| ==> !IsMetaChar(command[j])
    ensures FirstPatternIn(command, DANGEROUS_PATTERNS).None?
  {
    forall i | 0 <= i < |DANGEROUS_PATTERNS|
      ensures !Contains(command, DANGEROUS_PATTERNS[i])
    {
      var p := DANGEROUS_PATTERNS[i];
      PatternsHaveMeta();
      assert HasMeta(p);
      var k :| 0 <= k < |p| && IsMetaChar(p[k]);
      if Contains(command, p) {
        ContainsHasChars(command, p, k);
      }
    }
    NoneContainedNoPattern(command, DANGEROUS_PATTERNS);
  }

  /// The scan finds nothing when no pattern of the list occurs.
  lemma {:induction false} NoneContainedNoPattern(command: string, patterns: seq<string>)
    requires forall i :: 0 <= i < |patterns| ==> !Contains(command, patterns[i])
    ensures FirstPatternIn(command, patterns).None?
  {
    if patterns != [] {
      var rest := patterns[1..];
      assert forall i :: 0 <= i < |rest| ==> rest[i] == patterns[i + 1];
      NoneContainedNoPattern(command, rest);
    }
  }

  /// A non-blank command made only of letters, digits, '/', '.', '_' and '-'
  /// is accepted.
  lemma {:induction false} PlainCommandAccepted(command: string)
    requires command != []
    requires forall j :: 0 <= j < |command| ==> PlainChar(command[j])
    ensures CommandCheck(command) == Ok(Unit)
  {
    PlainHasNoMeta(command);
    NoMetaNoPattern(command);
    PlainNotBlank(command);
    PlainCharactersAccepted(command);
  }

  lemma PlainHasNoMeta(command: string)
    requires forall j :: 0 <= j < |command| ==> PlainChar(command[j])
    ensures forall j :: 0 <= j < |command| ==> !IsMetaChar(command[j])
  {
    forall j | 0 <= j < |command|
      ensures !IsMetaChar(command[j])
    {
      PlainCharIsSafe(command[j]);
    }
  }

  /// A plain character is neither a shell metacharacter, nor '$', nor a
  /// wildcard.
  lemma PlainCharIsSafe(c: char)
    requires PlainChar(c)
    ensures !IsMetaChar(c) && c != '$' && c != '*' && c != '?' && c != '['
  {
  }

  lemma PlainNotBlank(command: string)
    requires command != []
    requires forall j :: 0 <= j < |command| ==> PlainChar(command[j])
    ensures Trim(command) != []
  {
    TrimEmptyIffBlank(command);
    assert !IsWhitespace(command[0]);
  }

  lemma PlainCharactersAccepted(command: string)
    requires forall j :: 0 <= j < |command| ==> PlainChar(command[j])
    ensures CharacterCheck(command) == Ok(Unit)
  {
    forall j | 0 <= j < |command|
      ensures command[j] != '$' && command[j] != '*' && command[j] != '?' && command[j] != '['
    {
      PlainCharIsSafe(command[j]);
    }
  }

  predicate PlainChar(c: char)
  {
    ('a' <= c <= 'z') || ('A' <= c <= 'Z') || ('0' <= c <= '9') || c == '/' || c == '.' || c == '_' || c == '-'
  }

  lemma ExampleCommandsAccepted()
    ensures CommandCheck("echo").Ok?
    ensures CommandCheck("/usr/bin/ls").Ok?
    ensures CommandCheck("python3").Ok?
  {
    var a, b, c := "echo", "/usr/bin/ls", "python3";
    assert forall j :: 0 <= j < |a| ==> PlainChar(a[j]);
    assert forall j :: 0 <= j < |b| ==> PlainChar(b[j]);
    assert forall j :: 0 <= j < |c| ==> PlainChar(c[j]);
    PlainCommandAccepted(a);
    PlainCommandAccepted(b);
    PlainCommandAccepted(c);
  }

  /// A non-blank command containing a dangerous pattern is refused with
  /// the first pattern of the list that it contains.
  lemma PatternRefused(command: string, i: nat)
    requires Trim(command) != [] && i < |DANGEROUS_PATTERNS| && Contains(command, DANGEROUS_PATTERNS[i])
    ensures CommandCheck(command).Err?
    ensures exists j :: 0 <= j <= i && CommandCheck(command) == Err(DangerousPatternError(DANGEROUS_PATTERNS[j]))
  {
    var p := FirstPatternIn(command, DANGEROUS_PATTERNS).value;
    var j :| 0 <= j < |DANGEROUS_PATTERNS| && DANGEROUS_PATTERNS[j] == p;
    FirstPatternIsFirst(command, DANGEROUS_PATTERNS, i);
  }

  /// FirstPatternIn returns an earliest pattern that occurs.
  lemma {:induction false} FirstPatternIsFirst(command: string, patterns: seq<string>, i: nat)
    requires i < |patterns| && Contains(command, patterns[i])
    ensures FirstPatternIn(command, patterns).Some?
    ensures exists j :: 0 <= j <= i && FirstPatternIn(command, patterns) == Some(patterns[j])
  {
    if !Contains(command, patterns[0]) {
      FirstPatternIsFirst(command, patterns[1..], i - 1);
      var j :| 0 <= j <= i - 1 && FirstPatternIn(command, patterns[1..]) == Some(patterns[1..][j]);
      assert FirstPatternIn(command, patterns) == Some(patterns[j + 1]);
    }
  }

  // ---------------------------------------------------------------------
  // Arguments

  /// A control character other than tab, line feed and carriage return.
  predicate ForbiddenInArg(c: char)
  {
    IsControl(c) && c != '\t' && c != '\n' && c != '\r'
  }

  /// The error argument i raises, if any.
  function ArgError(args: seq<string>, i: nat): Option<string>
    requires i < |args|
  {
    var arg := args[i];
    if Trim(arg) == [] then Some("Empty arguments are not allowed")
    else if exists j :: 0 <= j < |arg| && ForbiddenInArg(arg[j]) then
      Some("Arguments contain control characters")
    // everything after a leading "-c" is a shell script and exempt
    else if i > 0 && |args| > 1 && args[0] == "-c" then None
    else if !StartsWith(arg, "-") && ('$' in arg || '`' in arg) then
      Some("Argument contains shell expansion: '" + arg + "'")
    else None
  }

  /// The first error raised by args[i..].
  function FirstArgError(args: seq<string>, i: nat): (r: Option<string>)
    requires i <= |args|
    ensures r.None? <==> forall k :: i <= k < |args| ==> ArgError(args, k).None?
    decreases |args| - i
  {
    if i == |args| then None
    else if ArgError(args, i).Some? then ArgError(args, i)
    else FirstArgError(args, i + 1)
  }

  function ArgsCheck(args: seq<string>): Result<Unit>
  {
    var e := FirstArgError(args, 0);
    if e.Some? then Err(e.value) else Ok(Unit)
  }

  /// The checks `validate_args` applies to argument i.
  method CheckArg(args: seq<string>, i: nat) returns (e: Option<string>)
    requires i < |args|
    ensures e == ArgError(args, i)
  {
    var arg := args[i];
    if Trim(arg) == [] {
      return Some("Empty arguments are not allowed");
    }
    var j := 0;
    var bad := false;
    while j < |arg|
      invariant 0 <= j <= |arg|
      invariant bad <==> exists k :: 0 <= k < j && ForbiddenInArg(arg[k])
    {
      if ForbiddenInArg(arg[j]) { bad := true; }
      j := j + 1;
    }
    if bad {
      return Some("Arguments contain control characters");
    }
    if i > 0 && |args| > 1 && args[0] == "-c" {
      return None;
    }
    if !StartsWith(arg, "-") && ('$' in arg || '`' in arg) {
      return Some("Argument contains shell expansion: '" + arg + "'");
    }
    e := None;
  }

  /// `validate_args`.
  method ValidateArgs(args: seq<string>) returns (r: Result<Unit>)
    ensures r == ArgsCheck(args)
  {
    var i := 0;
    while i < |args|
      invariant 0 <= i <= |args|
      invariant FirstArgError(args, 0) == FirstArgError(args, i)
    {
      var e := CheckArg(args, i);
      if e.Some? {
        return Err(e.value);
      }
      i := i + 1;
    }
    r := Ok(Unit);
  }

  /// After a leading "-c", every later argument is a shell script and may
  /// use '$' and '`' freely; only blankness and control characters count.
  lemma ScriptArgumentExempt(args: seq<string>, i: nat)
    requires 0 < i < |args| && args[0] == "-c"
    requires args[i] != [] && !IsWhitespace(args[i][0])
    requires forall j :: 0 <= j < |args[i]| ==> !ForbiddenInArg(args[i][j])
    ensures ArgError(args, i).None?
  {
    TrimEmptyIffBlank(args[i]);
  }

  /// Without the "-c" exemption, an argument that does not start with '-'
  /// and contains '$' is refused.
  lemma ExpansionRefused(args: seq<string>, i: nat)
    requires i < |args| && !(i > 0 && args[0] == "-c")
    requires args[i] != [] && !IsWhitespace(args[i][0]) && args[i][0] != '-'
    requires '$' in args[i]
    ensures ArgError(args, i).Some?
    ensures ArgsCheck(args).Err?
  {
    TrimEmptyIffBlank(args[i]);
  }

  /// Option-like arguments are exempt from the expansion check but not from
  /// the control-character check.
  lemma OptionArgumentExempt(args: seq<string>, i: nat)
    requires i < |args| && StartsWith(args[i], "-")
    requires forall j :: 0 <= j < |args[i]| ==> !ForbiddenInArg(args[i][j])
    ensures ArgError(args, i).None?
  {
    TrimEmptyIffBlank(args[i]);
    assert args[i][0] == '-';
  }

  lemma {:induction false} ArgsCheckOk(args: seq<string>)
    ensures ArgsCheck(args).Ok? <==> forall k :: 0 <= k < |args| ==> ArgError(args, k).None?
  {
  }

  // ---------------------------------------------------------------------
  // Environment

  const DANGEROUS_VARS: seq<string> :=
    ["LD_PRELOAD", "LD_LIBRARY_PATH", "DYLD_INSERT_LIBRARIES", "DYLD_LIBRARY_PATH", "PATH"]

  predicate IsDangerousKey(key: string)
  {
    exists i :: 0 <= i < |DANGEROUS_VARS| && EqIgnoreAsciiCase(key, DANGEROUS_VARS[i])
  }

  /// Values may contain tab and line feed but no other control character
  /// (unlike arguments, a carriage return is refused).
  predicate ForbiddenInValue(c: char)
  {
    IsControl(c) && c != '\t' && c != '\n'
  }

  function EnvEntryError(key: string, value: string): Option<string>
  {
    if key == [] then Some("Environment variable key cannot be empty")
    else if IsDangerousKey(key) then Some("Setting '" + key + "' environment variable is not allowed")
    else if exists j :: 0 <= j < |value| && ForbiddenInValue(value[j]) then
      Some("Environment variable '" + key + "' contains control characters")
    else None
  }

  function FirstEnvError(env: map<string, string>, order: seq<string>): (r: Option<string>)
    requires forall k :: k in order ==> k in env
    ensures r.None? <==> forall i :: 0 <= i < |order| ==> EnvEntryError(order[i], env[order[i]]).None?
  {
    if order == [] then None
    else if EnvEntryError(order[0], env[order[0]]).Some? then EnvEntryError(order[0], env[order[0]])
    else FirstEnvError(env, order[1..])
  }

  /// What `validate_env_vars` returns when the map is visited in `order`.
  function EnvCheck(env: map<string, string>, order: seq<string>): Result<Unit>
    requires IsKeyOrder(env, order)
  {
    var e := FirstEnvError(env, order);
    if e.Some? then Err(e.value) else Ok(Unit)
  }

  /// `validate_env_vars`.
  method ValidateEnvVars(env: map<string, string>, order: seq<string>) returns (r: Result<Unit>)
    requires IsKeyOrder(env, order)
    ensures r == EnvCheck(env, order)
  {
    var i := 0;
    while i < |order|
      invariant 0 <= i <= |order|
      invariant FirstEnvError(env, order) == FirstEnvError(env, order[i..])
    {
      assert order[i..][1..] == order[i + 1..];
      var e := EnvEntryError(order[i], env[order[i]]);
      if e.Some? {
        return Err(e.value);
      }
      i := i + 1;
    }
    r := Ok(Unit);
  }

  /// Whether the environment is accepted does not depend on the order the
  /// map is visited in: it holds iff every entry is acceptable.
  lemma EnvCheckOk(env: map<string, string>, order: seq<string>)
    requires IsKeyOrder(env, order)
    ensures EnvCheck(env, order).Ok? <==> forall k :: k in env ==> EnvEntryError(k, env[k]).None?
  {
    if EnvCheck(env, order).Ok? {
      forall k | k in env ensures EnvEntryError(k, env[k]).None? {
        var i :| 0 <= i < |order| && order[i] == k;
      }
    }
  }

  /// The loader and search-path variables are refused in any letter case,
  /// whatever the value.
  lemma DangerousKeyRefused(key: string, value: string, i: nat)
    requires i < |DANGEROUS_VARS| && |key| == |DANGEROUS_VARS[i]|
    requires forall j :: 0 <= j < |key| ==> AsciiLower(key[j]) == AsciiLower(DANGEROUS_VARS[i][j])
    ensures EnvEntryError(key, value) == Some("Setting '" + key + "' environment variable is not allowed")
  {
    assert AsciiLowercase(key) == AsciiLowercase(DANGEROUS_VARS[i]);
    assert key != [];
  }

  /// A carriage return is allowed in an argument but not in an env value.
  lemma CarriageReturnAsymmetry()
    ensures !ForbiddenInArg('\r') && ForbiddenInValue('\r')
  {
  }

  // ---------------------------------------------------------------------
  // All inputs

  /// What `validate_process_inputs` returns. The working-directory check
  /// consults the file system; its verdict is `cwdCheck`.
  function ProcessInputsCheck(command: string, args: seq<string>, env: map<string, string>,
                              order: seq<string>, cwdCheck: Result<Unit>): Result<Unit>
    requires IsKeyOrder(env, order)
  {
    if CommandCheck(command).Err? then CommandCheck(command)
    else if ArgsCheck(args).Err? then ArgsCheck(args)
    else if EnvCheck(env, order).Err? then EnvCheck(env, order)
    else cwdCheck
  }

  /// `validate_process_inputs`: the four checks in order, first failure wins.
  method ValidateProcessInputs(command: string, args: seq<string>, env: map<string, string>,
                               order: seq<string>, cwdCheck: Result<Unit>) returns (r: Result<Unit>)
    requires IsKeyOrder(env, order)
    ensures r == ProcessInputsCheck(command, args, env, order, cwdCheck)
    ensures r.Ok? <==> CommandCheck(command).Ok? && ArgsCheck(args).Ok?
                       && EnvCheck(env, order).Ok? && cwdCheck.Ok?
  {
    r := ValidateCommand(command);
    if r.Err? { return; }
    r := ValidateArgs(args);
    if r.Err? { return; }
    r := ValidateEnvVars(env, order);
    if r.Err? { return; }
    r := cwdCheck;
  }

  lemma ProcessInputsFirstFailure(command: string, args: seq<string>, env: map<string, string>,
                                  order: seq<string>, cwdCheck: Result<Unit>)
    requires IsKeyOrder(env, order)
    ensures CommandCheck(command).Err? ==>
      ProcessInputsCheck(command, args, env, order, cwdCheck) == CommandCheck(command)
    ensures CommandCheck(command).Ok? && ArgsCheck(args).Err? ==>
      ProcessInputsCheck(command, args, env, order, cwdCheck) == ArgsCheck(args)
    ensures ProcessInputsCheck(command, args, env, order, cwdCheck).Ok? <==>
      CommandCheck(command).Ok? && ArgsCheck(args).Ok? && EnvCheck(env, order).Ok? && cwdCheck.Ok?
  {
  }
}
