# A verified model of the ichimi / vantage process manager

Ichimi (published further as vantage-mcp) is a Rust service that starts, stops and watches local processes on behalf of an MCP client. It offers the same operations over an HTTP API for its web console. The repository carries the service several times over:

- the root crate `src/`;
- `crates/ichimi`;
- `crates/vantage-atom`;
- the persistence crates `crates/ichimi-persistence` and `crates/vantage-persistence`.

This project models the sequential logic of those crates in Dafny and proves what that logic promises. Every copy is modelled against its own source file.

What is modelled, by area:

- **Per-process state.**
  - `OutputBuffer` (buffer.dfy): the bounded output log, a class over a sequence of lines that drops the oldest line when full.
  - `ProcessTypes`, `ProcessProtocol`: the four-state lifecycle NotStarted, Running, Stopped and Failed, and its predicates.
  - `Shell`: the shell process, a class whose start, stop, kill and clear operations change its state, its child handle and its two logs.
- **Process registries.**
  - `IchimiManager` and `RootManager` model the two `ProcessManager` variants as classes over a map from id to managed process.
  - Spawning, killing and waiting come in as outcome parameters.
  - `ManagerRules` holds the output-slicing and list-filter rules the two variants share.
- **Input validation.** `Security`: the command, argument and environment validators, and their composition.
- **Templates.**
  - `ProcessTemplates` (template.dfy): declared variables, defaults, typed validation and `{{NAME}}` substitution.
  - `PersistTypes`: the raw key substitution of the persistence crate, and its record types and defaults.
  - `TemplateRepository`: the repository's template builders and use counter.
- **Snapshots and record converters.**
  - `YamlSnapshot`, `Snapshots`, `KdlSerde` (KDL records and the node walk of the reader) and `KdlSchema`.
  - `KdlPersistence`: the KDL configuration file kept by the root crate, with its upsert, removal and text generation.
- **Stores.**
  - `Queries`: the SQLite queries over tables held as maps.
  - `PersistManager`, `PersistRows`, `PersistSettings`, `PersistClipboard`, `PersistConfig`, `PersistHistory`: the persistence manager of `crates/ichimi-persistence`.
  - `IchimiPersistence`, `SurrealTables`, `RootPersistence`: the SurrealDB-backed managers, with their delete-then-create upserts and keyed loads.
  - `Model`: the SurrealQL record layer of the root crate.
- **Front ends.**
  - `WebHandlers`, `RootWebHandlers`: the HTTP handlers.
  - `StaticServer`, `Assets`: static asset serving and content types.
  - `IchimiCli`, `RootCli`: the two hand-written argument loops.
  - `ToolMessages`: the tool replies of `crates/ichimi`.
  - `AtomTools`: the tools of `crates/vantage-atom`.
  - `Ci`: the GitHub Actions monitor.
  - `Errors`: the two error types and their classification.
- **Shared helpers.**
  - `Common`: Option and Result, string helpers with the meaning of Rust's `str` methods, and decimal printing and parsing.
  - `JsonValues` (json.dfy): a JSON value type and the codec parameter.

The central operations carry a partner: an inverse they round-trip with, an invariant they keep, or a reference function a loop is proved to compute. Simple converters and query builders are stated against their inputs directly, and "## Left out" names every contract that says less than the source.

Some things are parameters of the model:

- anything that talks to the operating system, a database engine, a clock or an outside parser;
- Unicode lower-casing in the process search;
- the order in which a Rust `HashMap` is visited, given as an explicit list of its keys.

## Model

| member | source | states |
|---|---|---|
| OutputBuffer.PushedWithinBound | src/process/buffer.rs:21-27 | a push never takes a buffer past its capacity, and a capacity-0 buffer still keeps the one line just pushed (popping an empty deque does nothing) |
| OutputBuffer.PushedAppends | src/process/buffer.rs:21-27 | the pushed line is the newest line, and the lines kept before it are the newest of the old ones, in their old order |
| OutputBuffer.PushedBelowCapacity | src/process/buffer.rs:23-26 | below capacity nothing is evicted |
| OutputBuffer.PushedWhenFull | src/process/buffer.rs:23-26 | on a full buffer exactly the oldest line is evicted: the contents become the last `capacity` lines of old contents plus the new line |
| OutputBuffer.LastNProperties | src/process/buffer.rs:30-39 | `get_last_n` returns min(n, len) lines, a suffix of the contents: none for n = 0, all of them for n ≥ len |
| OutputBuffer.LastNOfLastN | src/process/buffer.rs:30-39 | the last n of the last m lines are the last min(n, m) lines |
| OutputBuffer.CircularBuffer.constructor | src/process/buffer.rs:13-18 | a new buffer is empty and has the given capacity |
| OutputBuffer.CircularBuffer.Push | src/process/buffer.rs:21-27 | the new contents are the old contents pushed (evicting the front when full), and the capacity bound is kept |
| OutputBuffer.CircularBuffer.GetLastN | src/process/buffer.rs:30-39 | returns the last min(n, len) lines in their original order and changes nothing |
| OutputBuffer.CircularBuffer.GetAll | src/process/buffer.rs:42-45 | returns every line, oldest first |
| OutputBuffer.CircularBuffer.Clear | src/process/buffer.rs:48-51 | leaves the buffer empty |
| OutputBuffer.CircularBuffer.Len | src/process/buffer.rs:54-57 | returns the number of lines held |
| ProcessProtocol.ExactlyOnePhase | crates/ichimi/src/process/protocol.rs:44-62 | for every state exactly one of is_running, is_stopped, is_failed and is_not_started holds |
| ProcessProtocol.PhaseDependsOnlyOnState | crates/ichimi/src/process/protocol.rs:44-62 | the four queries look only at the state: two processes with equal states answer alike whatever their other fields |
| ProcessProtocol.RunningWhateverPayload | crates/ichimi/src/process/protocol.rs:45-47 | is_running holds for every pid and start time a Running state carries, and is_stopped then fails |
| ManagerRules.ManagerOutputBounds | crates/ichimi/src/process/manager.rs:502-512 | output never exceeds the requested count (100 by default); Both is the last ⌊n/2⌋ stdout lines followed by the last ⌊n/2⌋ stderr lines |
| ManagerRules.ManagerOutputOddCount | crates/ichimi/src/process/manager.rs:507-511 | with an odd count and full buffers, Both returns one line fewer than asked for, because n/2 rounds down |
| ManagerRules.MatchesFilterCases | crates/ichimi/src/process/manager.rs:526-553 | no filter, an empty filter or an All filter without a pattern keeps everything; a NotStarted process fails every specific state filter; a pattern equal to the id reduces the filter to its state part |
| Errors.Prefix | crates/ichimi/src/error.rs:6-83 | each variant's message has a fixed non-empty prefix, except `Other`, which has none |
| Errors.Display | crates/ichimi/src/error.rs:6-83 | the displayed text is the variant's prefix followed by what it carries; `Other` displays its message unchanged |
| Errors.ToMcpError | crates/ichimi/src/error.rs:90-98 | a missing or duplicate process is named in quotes; the two security variants keep their prefixed text; every other variant uses its displayed text |
| Errors.McpTextDiffersOnlyForLookups | crates/ichimi/src/error.rs:90-98 | the MCP text differs from the displayed text exactly for ProcessNotFound and ProcessAlreadyExists |
| Errors.SecurityErrorsAreNotRetryable | crates/ichimi/src/error.rs:101-117 | no error is both a security error and retryable, and a lookup failure, a bad argument or an `Other` error is never retryable |
| Errors.FromMessage | crates/ichimi/src/error.rs:121-131 | a message becomes an `Other` error whose displayed text is the message itself; it is neither a security error nor retryable |
| Errors.FromLibraryError | crates/ichimi/src/error.rs:134-138 | a library error becomes `Internal`, whose text is "Internal error: " followed by the error's text |
| Errors.MessageRoundTrip | crates/ichimi/src/error.rs:121-131 | converting a message to an error and back, by display or as MCP text, gives the message unchanged |
| Errors.VariantExists | crates/vantage-atom/src/error.rs:59-64 | the `crates/vantage-atom` copy always has the web-server and port-in-use variants; the `crates/ichimi` copy has them only with its web feature (crates/ichimi/src/error.rs:60-66) |
| Errors.WebVariantsAreOrdinary | crates/vantage-atom/src/error.rs:88-116 | in the `crates/vantage-atom` copy the web-server and port-in-use errors are neither security errors nor retryable, and their MCP text is their displayed text |
| Shell.PushedAllSnoc | crates/ichimi/src/process/shell.rs:109-118 | pushing a list of lines and then one more line is the same as pushing the longer list |
| Shell.CapturedLinesSnoc | crates/ichimi/src/process/shell.rs:113-116 | reading one more raw line adds its right-trimmed text exactly when that text is non-empty |
| Shell.CapturedLinesClean | crates/ichimi/src/process/shell.rs:113-116 | every stored line is non-empty and ends in a non-whitespace character, and no more lines are stored than were read |
| Shell.CaptureOutput | crates/ichimi/src/process/shell.rs:105-137 | the reader task leaves the buffer holding its old lines with every non-blank, right-trimmed line read pushed in order |
| Shell.OutputOfBoth | crates/ichimi/src/process/shell.rs:254-266 | Both with a limit n returns min(n, total) lines from the end of stdout followed by stderr; a large enough n returns everything, and an n no larger than the stderr log returns only stderr lines |
| Shell.OutputOfSingle | crates/ichimi/src/process/shell.rs:240-253 | a single stream never includes lines from the other buffer, and Stdout without a limit is the whole stdout log |
| Shell.ShellProcess.constructor | crates/ichimi/src/process/shell.rs:27-49 | a new process is NotStarted, not auto-started on restore, holds no child and no reader tasks, and has two empty 1000-line buffers |
| Shell.ShellProcess.Start | crates/ichimi/src/process/shell.rs:56-149 | a running process is refused with "Process is already running"; a failed spawn, a missing pid or a missing pipe reports its message and changes nothing; a spawn sets Running with the pid and holds the child and both readers |
| Shell.ShellProcess.Stop | crates/ichimi/src/process/shell.rs:151-205 | a process that is not running is refused; a running process without a child fails with "No child process found" and stays Running; otherwise it becomes Stopped with the exit code if the wait succeeded and none after a forced kill, and child and readers are dropped |
| Shell.ShellProcess.Kill | crates/ichimi/src/process/shell.rs:207-236 | as Stop, except that a failed kill reports "Failed to kill process: …" after the child has been taken, leaving the state Running and the readers held |
| Shell.ShellProcess.GetOutput | crates/ichimi/src/process/shell.rs:238-268 | returns the selected buffer's lines, or the last n of them, or the last n lines of stdout followed by stderr |
| Shell.ShellProcess.ClearOutput | crates/ichimi/src/process/shell.rs:270-283 | clears exactly the selected buffers and leaves the other one intact |
| Shell.BuildError | crates/ichimi/src/process/shell.rs:368-372 | a build succeeds exactly when both id and command are given; a missing id is reported first, then a missing command |
| Shell.Build | crates/ichimi/src/process/shell.rs:368-377 | a failed build reports the builder's error; a successful one yields a new NotStarted process with the builder's fields and auto-start flag and empty buffers |
| IchimiManager.NewManaged | crates/ichimi/src/process/manager.rs:27-49 | a new managed process carries the given id, command, args, env and cwd, is NotStarted and not auto-started, with empty buffers, no child and no reader tasks |
| IchimiManager.UptimeCases | crates/ichimi/src/process/manager.rs:473-478 | uptime is the seconds elapsed since the start; a start time in the future wraps around as a u64 |
| IchimiManager.InfosAt | crates/ichimi/src/process/manager.rs:522-524 | the infos of the listed ids, one per id and in the same order |
| IchimiManager.InfosAtMembers | crates/ichimi/src/process/manager.rs:522-524 | walking the map in key order visits exactly the registered processes' infos |
| IchimiManager.ListedMembers | crates/ichimi/src/process/manager.rs:518-559 | a process info is listed iff it is registered and matches the filter; with no filter every process is listed |
| IchimiManager.ListedExactlyMatching | crates/ichimi/src/process/manager.rs:526-555 | a process info is listed iff it belongs to a registered process and passes both the state and the name-pattern test |
| IchimiManager.UnfilteredListsAll | crates/ichimi/src/process/manager.rs:518-559 | with no filter the list is as long as the registry |
| IchimiManager.FilteredStep | crates/ichimi/src/process/manager.rs:522-556 | visiting one more process appends its info exactly when it matches the filter |
| IchimiManager.ProcessManager.constructor | crates/ichimi/src/process/manager.rs:78-86 | the registry starts empty |
| IchimiManager.ProcessManager.Create | crates/ichimi/src/process/manager.rs:178-217 | invalid inputs are rejected with the validator's message and an existing id with "Process with id '…' already exists", and neither changes the map; otherwise exactly the new NotStarted entry is added, with the given auto-start flag |
| IchimiManager.ProcessManager.Start | crates/ichimi/src/process/manager.rs:220-298 | an unknown id gives "Process '…' not found" and a running process "… is already running"; a failed spawn, pid or pipe reports its message; these change nothing. A spawn makes the entry Running with the pid, holding the child and readers, and returns the pid |
| IchimiManager.ProcessManager.MonitorTakeChild | crates/ichimi/src/process/manager.rs:309-314 | the exit monitor takes the child out of the entry and reports whether one was there |
| IchimiManager.ProcessManager.MonitorRecordExit | crates/ichimi/src/process/manager.rs:316-353 | after the child ends the entry becomes Stopped with its exit code, and after a wait error it becomes Failed with "Process wait failed: …" |
| IchimiManager.ProcessManager.Stop | crates/ichimi/src/process/manager.rs:361-421 | an unknown id or a process that is not running is refused; if the monitor already took the child, stop succeeds and changes nothing; a failed kill is reported after the child is taken; otherwise the entry becomes Stopped without an exit code, with child and readers dropped |
| IchimiManager.ProcessManager.GetProcessStatus | crates/ichimi/src/process/manager.rs:465-486 | an unknown id is not found; otherwise the status carries the info and no cpu or memory figures, and an uptime exactly when the process is running |
| IchimiManager.ProcessManager.GetProcessOutput | crates/ichimi/src/process/manager.rs:489-515 | an unknown id is not found; otherwise the output is the manager output rule over the entry's buffers, never more than the requested count |
| IchimiManager.ProcessManager.ListProcesses | crates/ichimi/src/process/manager.rs:518-559 | returns, in map order, exactly the infos that match the filter, and every process when there is no filter |
| IchimiManager.ProcessManager.Remove | crates/ichimi/src/process/manager.rs:562-577 | an unknown id is not found and changes nothing; otherwise the entry is removed and every other entry is unchanged |
| IchimiManager.ProcessManager.UpdateProcessConfig | crates/ichimi/src/process/manager.rs:611-637 | the auto-start flag changes only when given; the change stays in memory even when persisting fails, and that failure is reported |
| IchimiManager.ProcessManager.UpdateProcess | crates/ichimi/src/process/manager.rs:640-695 | exactly the given attributes are replaced; the change stays in memory even when persisting fails, and that failure is reported |
| IchimiManager.ProcessManager.RecordOutput | crates/ichimi/src/process/manager.rs:276-290 | a line read from the child is pushed unfiltered onto the entry's stdout or stderr buffer |
| IchimiManager.UpdatedInfo | crates/ichimi/src/process/manager.rs:656-687 | each given attribute replaces the stored one, and id, state and the attributes not given are unchanged |
| IchimiManager.UpdatedInfoNothing | crates/ichimi/src/process/manager.rs:656-687 | an update that gives nothing leaves the info unchanged |
| RootManager.NewManaged | src/process/manager.rs:25-48 | a new managed process carries the given id, command, args, env and cwd, is NotStarted with both auto-start flags off, empty buffers, no child and no readers |
| RootManager.InfosAt | src/process/manager.rs:439-441 | the infos of the listed ids, one per id and in the same order |
| RootManager.InfosAtMembers | src/process/manager.rs:439-441 | walking the map in key order visits exactly the registered processes' infos |
| RootManager.ListedMembers | src/process/manager.rs:435-476 | a process info is listed iff it is registered and matches the filter; with no filter every process is listed |
| RootManager.ListedExactlyMatching | src/process/manager.rs:435-476 | a process info is listed iff it belongs to a registered process and passes both the state and the name-pattern test |
| RootManager.UnfilteredListsAll | src/process/manager.rs:435-476 | with no filter the list is as long as the registry |
| RootManager.FilteredStep | src/process/manager.rs:439-473 | visiting one more process appends its info exactly when it matches the filter |
| RootManager.ProcessManager.constructor | src/process/manager.rs:77-85 | the registry starts empty |
| RootManager.ProcessManager.Create | src/process/manager.rs:177-226 | invalid inputs and an existing id are refused without touching the map; otherwise the new entry stores both flags as given and, with auto_start_on_create, is started when the spawn succeeds; a failed auto-start still returns Ok |
| RootManager.ProcessManager.Insert | src/process/manager.rs:194-225 | after validation an existing id is refused with "Process with id '…' already exists" and nothing changes; otherwise exactly the new entry is added, Running when it was auto-started and the spawn succeeded |
| RootManager.ProcessManager.Start | src/process/manager.rs:229-316 | an unknown id or a running process is refused; a failed spawn, pid or pipe reports its message; these change nothing. A spawn makes the entry Running with the pid and returns it |
| RootManager.ProcessManager.Stop | src/process/manager.rs:319-379 | an unknown id or a process that is not running is refused; without a child, stop succeeds and changes nothing; a failed kill is reported after the child is taken; otherwise the entry becomes Stopped without an exit code |
| RootManager.ProcessManager.GetProcessStatus | src/process/manager.rs:382-403 | an unknown id is not found; otherwise the status carries the info and no cpu or memory figures, and an uptime exactly when the process is running |
| RootManager.ProcessManager.GetProcessOutput | src/process/manager.rs:406-432 | an unknown id is not found; otherwise the output is the last n lines of one buffer, or the last n/2 of stdout followed by the last n/2 of stderr, never more than n (100 by default) |
| RootManager.ProcessManager.ListProcesses | src/process/manager.rs:435-476 | returns, in map order, exactly the infos that match the filter, and every process when there is no filter |
| RootManager.ProcessManager.Remove | src/process/manager.rs:479-494 | an unknown id is not found and changes nothing; otherwise the entry is removed and every other entry is unchanged |
| RootManager.ProcessManager.UpdateProcessConfig | src/process/manager.rs:528-560 | each flag changes only when given, independently of the other; the change stays in memory even when persisting fails, and that failure is reported |
| RootManager.ProcessManager.RecordOutput | src/process/manager.rs:285-299 | a line read from the child is pushed unfiltered onto the entry's stdout or stderr buffer |
| Security.FirstPatternIn | src/security/mod.rs:16-23 | the pattern reported is one of the list that occurs in the command; nothing is reported only when no pattern occurs |
| Security.ValidateCommand | src/security/mod.rs:5-37 | the command check in order: blank, then the first dangerous pattern, then '$' unless the command starts with "$/", then wildcards |
| Security.ScanPatterns | src/security/mod.rs:16-23 | the loop returns the first pattern of the list that occurs in the command, or none |
| Security.CheckCharacters | src/security/mod.rs:26-34 | refuses '$' unless the command starts with "$/", then '*', '?' and '[' |
| Security.CommandCheckOk | src/security/mod.rs:5-37 | a command is accepted iff it is not blank, contains none of the sixteen patterns, has '$' only after a leading "$/", and has no wildcard |
| Security.CommandCheckBlank | src/security/mod.rs:7-9 | an empty or whitespace-only command is refused with "Command cannot be empty" |
| Security.PatternsHaveMeta | src/security/mod.rs:12-14 | every dangerous pattern contains a shell metacharacter |
| Security.NoMetaNoPattern | src/security/mod.rs:12-23 | a command without shell metacharacters passes the pattern scan |
| Security.NoneContainedNoPattern | src/security/mod.rs:16-23 | the scan reports nothing when no pattern of the list occurs |
| Security.PlainCommandAccepted | src/security/mod.rs:5-37 | a non-empty command made only of letters, digits, '/', '.', '_' and '-' is accepted |
| Security.ExampleCommandsAccepted | src/security/mod.rs:202-206 | "echo", "/usr/bin/ls" and "python3" are accepted |
| Security.PatternRefused | src/security/mod.rs:16-23 | a non-blank command containing the i-th dangerous pattern is refused, naming the first pattern in list order (index ≤ i) that it contains |
| Security.FirstPatternIsFirst | src/security/mod.rs:16-23 | when the i-th pattern occurs, the scan stops at a pattern at or before index i |
| Security.FirstArgError | src/security/mod.rs:41-68 | no argument error is found iff every argument from the given index on passes |
| Security.CheckArg | src/security/mod.rs:41-67 | the per-argument checks in order: blank, a control character other than tab/LF/CR, the "-c" script exemption, then '$' or '`' in an argument not starting with '-' |
| Security.ValidateArgs | src/security/mod.rs:40-71 | returns the first argument's error, in order, or Ok |
| Security.ScriptArgumentExempt | src/security/mod.rs:57-60 | after a leading "-c", a later argument that is non-blank and free of forbidden control characters is accepted whatever it contains |
| Security.ExpansionRefused | src/security/mod.rs:62-67 | outside the script exemption, a non-blank argument not starting with '-' that contains '$' is refused, and so is the whole argument list |
| Security.OptionArgumentExempt | src/security/mod.rs:62-67 | an argument starting with '-' is exempt from the expansion check but not from the control-character check |
| Security.ArgsCheckOk | src/security/mod.rs:40-71 | the arguments pass iff each of them passes |
| Security.FirstEnvError | src/security/mod.rs:75-110 | no environment error is found iff every entry, in the visiting order, passes |
| Security.ValidateEnvVars | src/security/mod.rs:74-113 | returns the first failing entry's error in the map's visiting order, or Ok |
| Security.EnvCheckOk | src/security/mod.rs:74-113 | whether the environment is accepted does not depend on the visiting order: it is accepted iff every entry passes |
| Security.DangerousKeyRefused | src/security/mod.rs:82-98 | LD_PRELOAD, LD_LIBRARY_PATH, DYLD_INSERT_LIBRARIES, DYLD_LIBRARY_PATH and PATH are refused in any ASCII letter case, whatever the value |
| Security.CarriageReturnAsymmetry | src/security/mod.rs:48-109 | a carriage return is allowed in an argument but refused in an environment value |
| Security.ValidateProcessInputs | src/security/mod.rs:184-195 | the four checks in order, the first failure winning; the inputs pass iff command, arguments, environment and working directory all pass |
| Security.ProcessInputsFirstFailure | src/security/mod.rs:184-195 | a command failure is reported before an argument failure; the whole check passes iff each of the four passes |
| Security.PlainCharactersAccepted | src/security/mod.rs:11-36 | a command made only of letters, digits and harmless punctuation passes every pattern, '$' and wildcard test |
| Security.PlainNotBlank | src/security/mod.rs:7-9 | a non-empty command of such characters is not refused as blank |
| ProcessTemplates.NewTemplate | src/process/template.rs:103-121 | a new template has the given id, name and command, no description, category or working directory, auto-start off, no args, env, variables or tags, and equal creation and update times |
| ProcessTemplates.ParseBool | src/process/template.rs:188-191 | a boolean value parses exactly when it is "true" or "false" |
| ProcessTemplates.ValueError | src/process/template.rs:167-211 | a Number value is accepted iff it parses as an i64 within the given min and max, and a bound failure uses the custom message when there is one; a Boolean iff "true" or "false"; an Enum iff it is one of the options; a String or Path value iff it matches its pattern, or always when there is none |
| ProcessTemplates.DebugChar | src/process/template.rs:194 | as `{:?}` writes a character inside a string: itself unless it is a quote, a backslash or an ASCII control character, which become an escape starting with a backslash |
| ProcessTemplates.DebugEscapedReadsBack | src/process/template.rs:194 | an escaped string reads back exactly up to its closing quote, and what follows is untouched |
| ProcessTemplates.DebugListReadsBack | src/process/template.rs:194 | the option list in the Enum message reads back as exactly the list of options |
| ProcessTemplates.ValidateVariables | src/process/template.rs:153-164 | the variables pass iff each declared variable that is required is supplied and each supplied value is valid; optional variables without a value are not checked |
| ProcessTemplates.ValidateVariablesFirstFailure | src/process/template.rs:153-164 | the first failing variable decides the error: "Required variable '…' is missing" when a required value is absent, otherwise that value's own validation message |
| ProcessTemplates.CheckVariables | src/process/template.rs:153-164 | the validation loop returns what the variable rule says |
| ProcessTemplates.Placeholder | src/process/template.rs:247 | the placeholder of a variable is its name in double braces |
| ProcessTemplates.SubstituteString | src/process/template.rs:238-257 | the substitution loop: for each declared variable whose placeholder occurs, replace it everywhere with the supplied value, else its default, else fail naming the variable |
| ProcessTemplates.SubstituteUnchanged | src/process/template.rs:246-248 | a string holding no declared placeholder, including one holding only undeclared ones, comes back unchanged |
| ProcessTemplates.SubstituteFailure | src/process/template.rs:249-251 | substitution fails only with "No value provided for variable '…'" for a declared variable that has neither a supplied value nor a default |
| ProcessTemplates.SubstituteTotal | src/process/template.rs:246-256 | when every declared variable has a value or a default, substitution cannot fail |
| ProcessTemplates.SubstituteArgs | src/process/template.rs:214-222 | the arguments substitute iff each one does, and then the result has one substituted string per argument, in order |
| ProcessTemplates.SubstituteEnv | src/process/template.rs:225-235 | the environment substitutes iff every value does; the keys are kept and each value is substituted |
| ProcessTemplates.Instantiate | src/process/template.rs:124-150 | validation failures are reported first; a result carries the given id, the command copied unsubstituted, NotStarted, the template's auto-start default, args and env substituted element by element with the same keys, and the working directory exactly when the template has one, namely its `default_cwd` substituted; a failing directory substitution, after args and env succeed, is the error |
| ProcessTemplates.InstantiateWith | src/process/template.rs:124-150 | instantiation with a given command: the same guarantees as Instantiate with that command in the result |
| ProcessTemplates.VenvValuesAccepted | src/process/template.rs:307-350 | with all three python-venv variables supplied, validation passes and every string substitutes |
| ProcessTemplates.InstantiateWithSucceeds | src/process/template.rs:124-150 | once the variables are accepted and every string substitutes, instantiation succeeds whatever the command |
| ProcessTemplates.VenvCommandKeepsPlaceholder | src/process/template.rs:141-149 | as written, instantiating python-venv with every variable supplied succeeds but leaves "{{VENV_PATH}}" in the command |
| ProcessTemplates.InstantiateCorrected | src/process/template.rs:124-150 | the corrected instantiation also substitutes the command: its failure is reported, and a result equals the as-written one with the command substituted |
| ProcessTemplates.InstantiateWithCommand | src/process/template.rs:141-149 | the command is the only thing instantiation takes from outside the template: success does not depend on it, and results differ only in it |
| ProcessTemplates.NoBraceNoPlaceholder | src/process/template.rs:247-248 | a string without '{' contains no placeholder |
| ProcessTemplates.ReplaceLeading | src/process/template.rs:252 | replacing a leading placeholder in front of brace-free text puts the value in its place |
| ProcessTemplates.VenvCommandCorrected | src/process/template.rs:313 | with the correction, the python-venv command is the supplied VENV_PATH followed by "/bin/python" |
| IchimiPersistence.DefaultSettings | crates/ichimi/src/web/handlers.rs:350-358 | the default dashboard settings are the dark colour mode, auto-refresh on, and a 5000 ms interval |
| IchimiPersistence.RecordOf | crates/ichimi/src/persistence/manager.rs:22-47 | reading a stored process back gives the process with its state reset to NotStarted and every other field kept |
| IchimiPersistence.RecordOfInfo | crates/ichimi/src/persistence/manager.rs:22-47 | storing a loaded process gives back the record it was loaded from |
| IchimiPersistence.LoadedEntries | crates/ichimi/src/persistence/manager.rs:166-170 | a load holds exactly the stored ids; each is NotStarted under its own id and comes from the last record with that id |
| IchimiPersistence.LoadedAfterSave | crates/ichimi/src/persistence/manager.rs:67-130 | a load after a save is the earlier load plus the saved process under its id, reset to NotStarted |
| IchimiPersistence.LoadedAfterDelete | crates/ichimi/src/persistence/manager.rs:137-149 | a load after a delete is the earlier load without that id |
| IchimiPersistence.LoadedSize | crates/ichimi/src/persistence/manager.rs:166-170 | when each id is stored once, every record appears in the load exactly once |
| IchimiPersistence.ProcessQuery | crates/ichimi/src/persistence/manager.rs:180-192 | the filter is bound, and the CONTAINS clause added, exactly when the filter is not empty |
| IchimiPersistence.Conditions | crates/ichimi/src/persistence/manager.rs:438-446 | the category clause is present exactly when a category is given, and the tag clause exactly when tags are given, in that order |
| IchimiPersistence.ClauseTexts | crates/ichimi/src/persistence/manager.rs:448-451 | one clause is written alone, and two clauses are joined by " AND " |
| IchimiPersistence.ConditionParams | crates/ichimi/src/persistence/manager.rs:453-461 | the parameters bound are exactly those that the chosen clauses use |
| IchimiPersistence.SearchQuery | crates/ichimi/src/persistence/manager.rs:437-461 | the query is the bare base exactly when there is no category and no tag; otherwise " WHERE " and the clauses follow the base; each parameter is bound exactly when its clause is present |
| IchimiPersistence.FirstWith | crates/ichimi/src/persistence/manager.rs:422-426 | finds nothing exactly when no template has the id; otherwise returns the earliest template with that id |
| IchimiPersistence.PersistenceManager.constructor | crates/ichimi/src/persistence/manager.rs:62-65 | a manager over existing tables holds them unchanged |
| IchimiPersistence.PersistenceManager.SaveProcess | crates/ichimi/src/persistence/manager.rs:67-130 | delete-then-create by process id, with each failure's message; a failed create leaves the id deleted; on success or a failed read-back, the load gains the saved process; ids stay unique |
| IchimiPersistence.PersistenceManager.DeleteProcess | crates/ichimi/src/persistence/manager.rs:137-149 | either fails with the table unchanged, or removes every record with the id so that the load loses that id |
| IchimiPersistence.PersistenceManager.LoadAllProcesses | crates/ichimi/src/persistence/manager.rs:152-174 | gives the query and decode failures with their messages; otherwise inserts each converted record under its id, so a later duplicate overwrites an earlier one |
| IchimiPersistence.PersistenceManager.QueryProcesses | crates/ichimi/src/persistence/manager.rs:177-203 | gives the failures with their messages; otherwise returns exactly the converted records whose command contains the filter, in table order; an empty filter returns them all |
| IchimiPersistence.PersistenceManager.SearchProcesses | crates/ichimi/src/persistence/manager.rs:228-249 | returns exactly the records whose command contains the term or that have an argument whose lower-cased form contains the lower-cased term, with lower-casing as the libraries do it; never more than are stored; a failing query or decode gives its message |
| IchimiPersistence.PersistenceManager.GetSettings | crates/ichimi/src/persistence/manager.rs:289-303 | never fails; gives the stored record, or the defaults when there is none or the read fails |
| IchimiPersistence.PersistenceManager.SaveSettings | crates/ichimi/src/persistence/manager.rs:305-318 | either fails with the record unchanged, or replaces it so that the next read gives the saved settings |
| IchimiPersistence.PersistenceManager.SaveTemplate | crates/ichimi/src/persistence/manager.rs:323-368 | delete-then-create by template id, stamped with the update time; a later lookup of the id returns the saved template, and templates with other ids are untouched |
| IchimiPersistence.PersistenceManager.DeleteTemplate | crates/ichimi/src/persistence/manager.rs:371-383 | removes every template with the id, so that a later lookup finds none |
| IchimiPersistence.PersistenceManager.LoadAllTemplates | crates/ichimi/src/persistence/manager.rs:386-405 | gives the failures with their messages; otherwise every stored template in table order |
| IchimiPersistence.PersistenceManager.GetTemplate | crates/ichimi/src/persistence/manager.rs:408-427 | returns None exactly when no stored template has the id; otherwise a stored template with that id |
| IchimiPersistence.PersistenceManager.SearchTemplates | crates/ichimi/src/persistence/manager.rs:430-475 | keeps exactly the templates whose category matches when one is given and that have a searched tag when tags are given; with neither, keeps every template |
| PersistTypes.DefaultStatus | crates/ichimi-persistence/src/types.rs:32-43 | the default status is NotStarted with no pid, exit code, start or stop time, or error |
| PersistTypes.NewTemplate | crates/ichimi-persistence/src/types.rs:197-215 | a new template keeps the given name and command, takes a fresh id, has no arguments, environment, variables or tags, does not auto-start, and its created and updated times are equal |
| PersistTypes.NewClipboardItem | crates/ichimi-persistence/src/types.rs:271-283 | a new clipboard item keeps its content, file name and content type, takes a fresh id, has no tags, and its created and updated times are equal |
| PersistTypes.DefaultSettings | crates/ichimi-persistence/src/types.rs:299-309 | the default settings are the dark theme, a 300-second auto-save, 1000 log lines, no auto-restart, no shell and no environment |
| PersistTypes.Placeholder | crates/ichimi-persistence/src/types.rs:147 | a placeholder is the key wrapped in two braces on each side, four characters longer than the key |
| PersistTypes.SubstitutedNothing | crates/ichimi-persistence/src/types.rs:146-162 | with no values supplied the text is unchanged, placeholders included, because declared defaults are never used |
| PersistTypes.SubstitutedUntouched | crates/ichimi-persistence/src/types.rs:146-162 | a text holding no placeholder of any supplied key comes out unchanged |
| PersistTypes.FirstMissing | crates/ichimi-persistence/src/types.rs:165-169 | finds the first required variable whose name was not supplied; every earlier variable is supplied or optional, and None means every required variable was supplied |
| PersistTypes.SubstituteAll | crates/ichimi-persistence/src/types.rs:141-162 | the command, each argument and each environment value have every supplied key substituted in iteration order; the number of arguments and the environment keys do not change |
| PersistTypes.CheckRequired | crates/ichimi-persistence/src/types.rs:165-169 | fails with the missing-variable message naming exactly the first required variable that was not supplied, and succeeds otherwise |
| PersistTypes.Instantiate | crates/ichimi-persistence/src/types.rs:135-192 | fails naming the first missing required variable; otherwise yields a NotStarted record with the template's name, tags, working directory and auto-start default, and the substituted command, arguments and environment |
| PersistTypes.DefaultsIgnored | crates/ichimi-persistence/src/types.rs:165-169 | two templates that differ only in their variables' defaults fail on the same input |
| PersistTypes.FirstMissingDefaults | crates/ichimi-persistence/src/types.rs:165-169 | the first missing variable depends only on each variable's name and whether it is required |
| YamlSnapshot.NewSnapshot | crates/ichimi-persistence/src/yaml/mod.rs:72-92 | a snapshot has version "1.0" and keeps the given list; its counters give the list's length and the number of auto-start entries |
| YamlSnapshot.NewAutoStartOnly | crates/ichimi-persistence/src/yaml/mod.rs:95-102 | holds exactly the entries flagged for auto-start, in their input order (an order-preserving filter and a subsequence of the input), so both counters equal its length |
| YamlSnapshot.NewSnapshotCompatible | crates/ichimi-persistence/src/yaml/mod.rs:141-145 | a new snapshot is compatible, and a snapshot is compatible exactly when its version is "1.0" |
| YamlSnapshot.FromStatus | crates/ichimi-persistence/src/yaml/mod.rs:164-198 | gives each state kind exactly when the status has that state and carries the fields it needs, with those fields; otherwise NotStarted |
| YamlSnapshot.ToStatus | crates/ichimi-persistence/src/yaml/mod.rs:220-258 | converting back and reading again gives the same snapshot state; only a running state has a pid and start time, and only a failed state has an error |
| YamlSnapshot.StatusRoundTrip | crates/ichimi-persistence/src/yaml/mod.rs:164-258 | a status that keeps its kind through a snapshot keeps its state; a running status keeps its pid and start time; each kind drops exactly the fields its snapshot does not carry |
| YamlSnapshot.FromInfo | crates/ichimi-persistence/src/yaml/mod.rs:148-162 | an entry keeps the record's id, name, command, arguments, environment, directory, tags and auto-start flag, and converts its status |
| YamlSnapshot.ToInfo | crates/ichimi-persistence/src/yaml/mod.rs:200-218 | an imported record keeps every field of the entry, has no record id, and stamps both times with the current time |
| YamlSnapshot.InfoRoundTrip | crates/ichimi-persistence/src/yaml/mod.rs:148-218 | exporting a record and importing it back changes only the record id, the timestamps and the status fields the snapshot drops |
| YamlSnapshot.SnapshotRoundTrip | crates/ichimi-persistence/src/yaml/mod.rs:148-218 | importing an entry and exporting it again gives the same entry |
| Snapshots.FromInfo | crates/ichimi-persistence/src/snapshot.rs:117-131 | an entry keeps the record's identity and configuration, takes its auto-start flag, and converts its status |
| Snapshots.ToInfo | crates/ichimi-persistence/src/snapshot.rs:133-151 | a record made from an entry has no record id, takes the entry's fields and auto-start flag, stamps both times with the current time, and reads back to the same state |
| Snapshots.EntryRoundTrip | crates/ichimi-persistence/src/snapshot.rs:117-151 | an entry converted to a record and back is the same entry |
| Snapshots.RecordRoundTrip | crates/ichimi-persistence/src/snapshot.rs:117-219 | a record converted to an entry and back keeps its identity and configuration, and its state kind unless the state falls back to NotStarted |
| Snapshots.FromKdl | crates/ichimi-persistence/src/snapshot.rs:78-89 | takes the version and host name from the meta block, and its timestamp when that parses, otherwise the current time; one entry per record, in order |
| Snapshots.New | crates/ichimi-persistence/src/snapshot.rs:43-46 | version "1.0", one entry per record in order with its id and auto-start flag, stamped with the current time |
| Snapshots.FilterAutoStart | crates/ichimi-persistence/src/snapshot.rs:49-52 | exactly the auto-start entries remain, in their old order (a subsequence of the old entries), and version, time and host are kept |
| Snapshots.FilterAutoStartIdempotent | crates/ichimi-persistence/src/snapshot.rs:49-52 | filtering twice gives the same snapshot as filtering once |
| Snapshots.ToKdl | crates/ichimi-persistence/src/snapshot.rs:55-62 | the text starts with the snapshot header comment and ends with the printed document of the entries' records, the document `Snapshots.KdlRoundTrip` reads back |
| Snapshots.FromKdlStr | crates/ichimi-persistence/src/snapshot.rs:65-75 | fails exactly when the KDL text does not parse, with the KDL error wrapped once more; otherwise one entry per process read |
| Snapshots.KdlRoundTrip | crates/ichimi-persistence/src/snapshot.rs:55-89 | reading back the KDL written for a snapshot gives version "1.0", the written host name, and every entry's id, name, command, directory and auto-start flag |
| KdlSerde.FromStatus | crates/ichimi-persistence/src/kdl_serde.rs:358-398 | there is no state block exactly for NotStarted, or for a state missing the fields it needs; otherwise the block is named after the state and carries its pid, exit code or error |
| KdlSerde.ToStatus | crates/ichimi-persistence/src/kdl_serde.rs:401-435 | "running", "stopped" and "failed" give their state, and any other name gives the default status; a running state has no exit code or stop time; only a failed state has an error |
| KdlSerde.StatusRoundTrip | crates/ichimi-persistence/src/kdl_serde.rs:358-435 | with a codec that reads back what it writes, a running status keeps everything it uses; a stopped one loses only its pid and error; a failed one loses only its pid |
| KdlSerde.FromInfo | crates/ichimi-persistence/src/kdl_serde.rs:312-328 | a KDL process keeps the record's identity, configuration and auto-start flag, and converts its status |
| KdlSerde.ToInfo | crates/ichimi-persistence/src/kdl_serde.rs:330-354 | a record made from a KDL process keeps its fields, has no record id, stamps both times with the current time, and gets the default status when there is no state block |
| KdlSerde.InfoRoundTrip | crates/ichimi-persistence/src/kdl_serde.rs:312-354 | a record converted to KDL and back keeps its identity and configuration, and its state kind unless the state block was dropped, in which case it reads back as the default |
| KdlSerde.FromProcesses | crates/ichimi-persistence/src/kdl_serde.rs:49-60 | the meta block is version "1.0" with the current time and the host name; one KDL process per record, in order |
| KdlSerde.GetInsert | crates/ichimi-persistence/src/kdl_serde.rs:69-95 | after a property is inserted, its key reads back the new value, and other keys and the arguments are unchanged |
| KdlSerde.GetInsertEach | crates/ichimi-persistence/src/kdl_serde.rs:84-100 | inserting a list under one key leaves every other key and the arguments unchanged |
| KdlSerde.BuildDocument | crates/ichimi-persistence/src/kdl_serde.rs:63-141 | the document is a meta node followed by one process node per process |
| KdlSerde.AsI32 | crates/ichimi-persistence/src/kdl_serde.rs:279-282 | a value within the 32-bit signed range is kept as it is |
| KdlSerde.ParseProcessNode | crates/ichimi-persistence/src/kdl_serde.rs:188-303 | fails with "Process ID not found" exactly when the first argument is not a string; otherwise takes that id, the name (defaulting to the id), the command (defaulting to "") and the auto-start flag (defaulting to false) |
| KdlSerde.ReadDocument | crates/ichimi-persistence/src/kdl_serde.rs:164-308 | the loop over a parsed document agrees with the node walk from the initial meta block and an empty list |
| KdlSerde.UnknownNodesIgnored | crates/ichimi-persistence/src/kdl_serde.rs:172-306 | nodes other than meta and process make no difference to the result |
| KdlSerde.WalkDefaults | crates/ichimi-persistence/src/kdl_serde.rs:164-306 | without a meta node the meta block stays as it was; a process node without a string id fails the whole read |
| KdlSerde.NoMetaDefaults | crates/ichimi-persistence/src/kdl_serde.rs:164-168 | a document without a meta node reads with version "1.0" and no host name |
| KdlSerde.ProcessEntriesRead | crates/ichimi-persistence/src/kdl_serde.rs:78-100 | the entries written for a process read back its id, name, command, directory and auto-start flag |
| KdlSerde.ProcessNodeRoundTrip | crates/ichimi-persistence/src/kdl_serde.rs:77-303 | a process node built from a process parses, and gives back the same id, name, command, directory and auto-start flag |
| KdlSerde.MetaNodeRoundTrip | crates/ichimi-persistence/src/kdl_serde.rs:67-187 | the meta node reads back as the meta block it was built from; an absent host name leaves the earlier one |
| KdlSerde.WalkProcesses | crates/ichimi-persistence/src/kdl_serde.rs:172-306 | reading process nodes that parse appends their processes in order and leaves the meta block alone |
| KdlSerde.DocumentRoundTrip | crates/ichimi-persistence/src/kdl_serde.rs:63-309 | writing a snapshot as a document and reading it back gives the same version and timestamp, the host name when one was written, and, process by process, the same id, name, command, directory and auto-start flag |
| KdlSerde.Lines | crates/ichimi-persistence/src/kdl_serde.rs:154-158 | as Rust's `str::lines`: the pieces between line feeds, none holding a line feed, without the empty piece after a final line feed; a piece a line feed ends loses one carriage return, a last piece without one keeps it |
| KdlSerde.CleanLines | crates/ichimi-persistence/src/kdl_serde.rs:154-158 | exactly the lines of the content that are not comments are kept |
| KdlSerde.LinesCarriageReturn | crates/ichimi-persistence/src/kdl_serde.rs:154-158 | a carriage return before a line feed is dropped, a final one without a line feed is kept, and a final line feed adds no empty line |
| KdlSerde.HeaderStripped | crates/ichimi-persistence/src/kdl_serde.rs:143-158 | removing comments drops the two header comment lines, keeps the blank line after them and keeps every other non-comment line |
| KdlSerde.FromKdlString | crates/ichimi-persistence/src/kdl_serde.rs:152-309 | a parser error is reported as "Failed to parse KDL: " plus the error; otherwise the result is the node walk over the parsed document |
| KdlSerde.InsertEachKeepsLast | crates/ichimi-persistence/src/kdl_serde.rs:84-100 | inserting a list one element at a time under one key leaves only the last element under that key |
| KdlSerde.InsertedEntriesArgs | crates/ichimi-persistence/src/kdl_serde.rs:78-100 | the process entries as written hold only the last argument |
| KdlSerde.InsertedEntriesTags | crates/ichimi-persistence/src/kdl_serde.rs:78-100 | the process entries as written hold only the last tag |
| KdlSerde.UntaggedHasNoTag | crates/ichimi-persistence/src/kdl_serde.rs:78-95 | the properties written before the tag loop never use the tag key |
| KdlSerde.ListsKeepOnlyLast | crates/ichimi-persistence/src/kdl_serde.rs:77-231 | as written, a process node reads back with only its last argument and last tag, so any list of two or more does not survive the round trip |
| KdlSerde.PushEachRead | crates/ichimi-persistence/src/kdl_serde.rs:84-100 | pushing a list under a key appends the whole list, in order, and leaves other keys and the arguments unchanged |
| KdlSerde.PushedEntriesLists | crates/ichimi-persistence/src/kdl_serde.rs:78-100 | with each element pushed, the entries hold every argument and every tag in order |
| KdlSerde.PushedEntriesRead | crates/ichimi-persistence/src/kdl_serde.rs:78-100 | with each element pushed, the entries still read back the id, name, command, directory and auto-start flag |
| KdlSerde.PushedNodeRoundTrip | crates/ichimi-persistence/src/kdl_serde.rs:77-231 | with each element pushed, a process node reads back with all its arguments and tags in order, as well as its id, name, command, directory and auto-start flag |
| KdlSerde.InsertSingle | crates/ichimi-persistence/src/kdl_serde.rs:69-95 | inserting a string under a key held at most once leaves that key held once, with exactly that string |
| PersistManager.TemplatesFromTable | crates/ichimi-persistence/src/persistence/manager.rs:172-183 | listing the whole template table gives one template per row, each converted from a stored row, and cannot fail while every row is readable |
| PersistManager.PersistenceManager.constructor | crates/ichimi-persistence/src/persistence/manager.rs:22-41 | a manager over a valid database holds that database |
| PersistManager.PersistenceManager.SaveProcess | crates/ichimi-persistence/src/persistence/manager.rs:103-108 | the process table gains or replaces the row under the process id; an existing row keeps its row id and creation time; with a faithful JSON codec the process reads back as saved; no other table changes |
| PersistManager.PersistenceManager.GetProcess | crates/ichimi-persistence/src/persistence/manager.rs:138-147 | nothing when no row has the id; otherwise it succeeds exactly when the row converts, giving a process with that id |
| PersistManager.PersistenceManager.DeleteProcess | crates/ichimi-persistence/src/persistence/manager.rs:116-121 | the row with the id is removed and a later lookup finds nothing; no other table changes |
| PersistManager.PersistenceManager.LoadAllProcesses | crates/ichimi-persistence/src/persistence/manager.rs:124-135 | succeeds exactly when every row converts, giving one process per row, most recently updated first |
| PersistManager.PersistenceManager.ReadableLoads | crates/ichimi-persistence/src/persistence/manager.rs:124-135 | while every stored row is readable, loading all processes succeeds |
| PersistManager.PersistenceManager.SaveTemplate | crates/ichimi-persistence/src/persistence/manager.rs:152-157 | the template table gains or replaces the row under the template id, and with a faithful codec the template reads back with its new row id and times; no other table changes |
| PersistManager.PersistenceManager.GetTemplate | crates/ichimi-persistence/src/persistence/manager.rs:160-169 | nothing when no row has the id; otherwise it succeeds exactly when the row converts, giving a template with that id |
| PersistManager.PersistenceManager.ListTemplates | crates/ichimi-persistence/src/persistence/manager.rs:172-183 | one template per row, the i-th converted from the i-th row of the listing, which is ordered by category (missing first) and then name; it cannot fail while every row is readable |
| PersistManager.PersistenceManager.DeleteTemplate | crates/ichimi-persistence/src/persistence/manager.rs:186-191 | the row with the id is removed and a later lookup finds nothing; no other table changes |
| PersistManager.PersistenceManager.AddToClipboard | crates/ichimi-persistence/src/persistence/manager.rs:196-225 | stores the content as "text" under a key made from the clock, with metadata exactly when metadata was given; the returned item carries the metadata's file name, which the stored JSON reads back |
| PersistManager.PersistenceManager.SetClipboardText | crates/ichimi-persistence/src/persistence/manager.rs:290-292 | stores the text with no metadata and returns a text item without a file name |
| PersistManager.PersistenceManager.SaveClipboardItem | crates/ichimi-persistence/src/persistence/manager.rs:295-320 | stores the item under its own id when it has one, otherwise under a key made from the clock; a missing content type is stored as "text"; the file name is stored as JSON metadata and reads back |
| PersistManager.PersistenceManager.ClipboardHistory | crates/ichimi-persistence/src/persistence/manager.rs:228-251 | the first `limit` visible entries, most recent first, each rebuilt as a new item |
| PersistManager.PersistenceManager.LatestClipboardItem | crates/ichimi-persistence/src/persistence/manager.rs:270-287 | nothing exactly when no entry is visible; otherwise the item rebuilt from the first row of the listing, a visible entry updated no earlier than any other visible entry |
| PersistManager.PersistenceManager.ClipboardText | crates/ichimi-persistence/src/persistence/manager.rs:323-326 | nothing exactly when no entry is visible; otherwise the content of the first row of the listing, a visible entry updated no earlier than any other visible entry |
| PersistManager.PersistenceManager.NewestFirst | crates/ichimi-persistence/src/database/queries.rs:74-85 | the head of a newest-first listing of the visible entries is visible and updated no earlier than any other visible entry |
| PersistManager.PersistenceManager.ClearClipboard | crates/ichimi-persistence/src/persistence/manager.rs:254-267 | every visible entry is deleted; an entry past its expiry that was never cleaned up survives the clear |
| PersistManager.PersistenceManager.DeleteKeys | crates/ichimi-persistence/src/persistence/manager.rs:260-264 | removes exactly the keys of the listed rows |
| PersistManager.PersistenceManager.GetSettings | crates/ichimi-persistence/src/persistence/manager.rs:331-368 | the defaults overridden by every stored row, equal to the decoding of the table in any row order |
| PersistManager.PersistenceManager.UpdateSettings | crates/ichimi-persistence/src/persistence/manager.rs:371-419 | the stored values become the old ones overridden by every value the settings write; nothing is removed |
| PersistManager.PersistenceManager.WriteFixed | crates/ichimi-persistence/src/persistence/manager.rs:373-409 | writes the theme, the flag and each optional setting that is set |
| PersistManager.PersistenceManager.WriteEnv | crates/ichimi-persistence/src/persistence/manager.rs:411-416 | writes every environment variable under its "env_" key |
| PersistManager.PersistenceManager.RecordProcessStart | crates/ichimi-persistence/src/persistence/manager.rs:424-443 | appends one open run with the process's id, name, command and directory and its arguments and environment as JSON; earlier history is unchanged |
| PersistManager.PersistenceManager.RecordProcessStop | crates/ichimi-persistence/src/persistence/manager.rs:446-457 | closes every open run of the process with the stop time, exit code and error; other runs are unchanged and no open run of it remains |
| PersistManager.PersistenceManager.RecordSystemEvent | crates/ichimi-persistence/src/persistence/manager.rs:460-478 | appends one event with the given type, description, details and severity, stamped with the time |
| PersistManager.PersistenceManager.LoadConfig | crates/ichimi-persistence/src/persistence/manager.rs:51-71 | a missing file is not an error; text that does not parse fails with the KDL error and changes nothing; otherwise every process of the file is saved, a later entry with the same id winning |
| PersistManager.PersistenceManager.SaveAll | crates/ichimi-persistence/src/persistence/manager.rs:64-67 | after the loop every process read is stored under its id, converted as `save_process` stores it |
| PersistManager.PersistenceManager.SaveConfig | crates/ichimi-persistence/src/persistence/manager.rs:74-98 | fails exactly when loading the processes fails, with that error; otherwise gives the KDL text of the stored processes under a fresh meta block |
| PersistManager.PersistenceManager.SaveConfigReadsBack | crates/ichimi-persistence/src/persistence/manager.rs:74-98 | the document written reads back, entry by entry in listing order, with each stored process's id, name, command and directory |
| PersistManager.PersistenceManager.LoadedRows | crates/ichimi-persistence/src/persistence/manager.rs:124-135 | each loaded process carries its row's id, name, command and directory |
| PersistManager.PersistenceManager.Set | crates/ichimi-persistence/src/persistence/manager.rs:373-416 | one write sets the key to the value, on top of what was written before |
| PersistRows.ParseState | crates/ichimi-persistence/src/persistence/manager.rs:516-521 | each state's stored text reads back as that state, and any other text as NotStarted |
| PersistRows.ParseColumn | crates/ichimi-persistence/src/persistence/manager.rs:495-500 | an absent column is the empty default; a present one is parsed, and a parse error is prefixed with the column's message |
| PersistRows.RecordToProcessInfo | crates/ichimi-persistence/src/persistence/manager.rs:494-544 | succeeds exactly when the args, env and tags columns all parse, otherwise gives the first failure in that order; on success it keeps every column, the row id as the record id, and reads the state text and pid column back |
| PersistRows.ProcessRowRoundTrip | crates/ichimi-persistence/src/persistence/manager.rs:494-544 | with a faithful JSON codec, the row the upsert writes converts back to the saved record under the row id and times the table assigned |
| PersistRows.RecordToTemplate | crates/ichimi-persistence/src/persistence/manager.rs:547-592 | succeeds exactly when args, env, variables and tags all parse, otherwise gives the first failure in that order; on success it keeps every column |
| PersistRows.TemplateRowRoundTrip | crates/ichimi-persistence/src/persistence/manager.rs:547-592 | with a faithful JSON codec, the template row converts back to the saved template under the row id and times the table assigned |
| PersistRows.CollectAll | crates/ichimi-persistence/src/persistence/manager.rs:129-132 | succeeds exactly when every conversion does, with the results in order; otherwise gives the error of the first conversion that fails, all earlier ones having succeeded |
| PersistRows.ConvertProcesses | crates/ichimi-persistence/src/persistence/manager.rs:129-132 | every row converted in order, keeping each update time, or the first error |
| PersistRows.ConvertSorted | crates/ichimi-persistence/src/persistence/manager.rs:124-135 | rows listed most recently updated first convert to records in that same order |
| PersistRows.LoadAll | crates/ichimi-persistence/src/persistence/manager.rs:124-135 | the whole table, most recently updated first, converted row by row; it fails exactly when some row cannot be read |
| PersistRows.Listed | crates/ichimi-persistence/src/persistence/manager.rs:124-135 | one row per key, in the given order, most recently updated first |
| PersistSettings.ParseBool | crates/ichimi-persistence/src/persistence/manager.rs:350 | a flag text parses to true exactly for "true" and to false exactly for "false" |
| PersistSettings.ParseU64 | crates/ichimi-persistence/src/persistence/manager.rs:343-348 | a number text that parses is non-empty and made of digits after its first character |
| PersistSettings.ParseU64Printed | crates/ichimi-persistence/src/persistence/manager.rs:378-392 | every 64-bit number written as text parses back to itself |
| PersistSettings.EnvKey | crates/ichimi-persistence/src/persistence/manager.rs:412-413 | the key of a variable is "env_" followed by the variable's name |
| PersistSettings.EnvKeyOf | crates/ichimi-persistence/src/persistence/manager.rs:357-358 | a key that starts with "env_" is the key of the name after the prefix |
| PersistSettings.EnvPrefixNotNamed | crates/ichimi-persistence/src/persistence/manager.rs:338-364 | no "env_" key is one of the five named settings, so every such row sets a variable |
| PersistSettings.Decode | crates/ichimi-persistence/src/persistence/manager.rs:331-368 | the settings a table holds: the stored theme or "dark", the flag true only for the text "true", and one variable per "env_" key |
| PersistSettings.DecodeEmpty | crates/ichimi-persistence/src/persistence/manager.rs:337 | an empty table reads as the default settings |
| PersistSettings.ApplyDecoded | crates/ichimi-persistence/src/persistence/manager.rs:338-364 | applying one row to the settings of a table gives the settings of that table with the row written |
| PersistSettings.SettingsOfDecoded | crates/ichimi-persistence/src/persistence/manager.rs:331-368 | the loop over the rows gives the settings of the map the rows describe, a later row winning |
| PersistSettings.ListingDecoded | crates/ichimi-persistence/src/persistence/manager.rs:331-368 | listing the table in any key order and applying every row gives the settings the table holds |
| PersistSettings.Written | crates/ichimi-persistence/src/persistence/manager.rs:371-419 | the rows written: theme and flag always, interval, line limit and shell only when set, each variable under its "env_" key |
| PersistSettings.EnvWriteDone | crates/ichimi-persistence/src/persistence/manager.rs:411-416 | after the loop over the variables, in any order, every row the update writes has been written |
| PersistSettings.EnvEntriesOfAll | crates/ichimi-persistence/src/persistence/manager.rs:411-416 | writing the variables one by one in the map's order writes each under its key |
| PersistSettings.UpdateThenDecode | crates/ichimi-persistence/src/persistence/manager.rs:331-419 | reading after an update gives back the theme, the flag and each field that was set; an unset field keeps the table's earlier value; stored variables are only added to or replaced |
| PersistSettings.FreshUpdateThenDecode | crates/ichimi-persistence/src/persistence/manager.rs:331-419 | on an empty table the settings read back as written, except that an unset interval or line limit reads as its default |
| PersistSettings.EnvAfterWrite | crates/ichimi-persistence/src/persistence/manager.rs:411-416 | once every variable's row is written, the variables read from the table are the earlier ones overridden by the new ones |
| PersistClipboard.FilenameOf | crates/ichimi-persistence/src/persistence/manager.rs:201-205 | an entry has a file name exactly when its metadata is present and carries a string "filename" field |
| PersistClipboard.FilenameFromText | crates/ichimi-persistence/src/persistence/manager.rs:238-245 | a missing metadata column, or one that is not JSON, carries no file name |
| PersistClipboard.FilenameMetadata | crates/ichimi-persistence/src/persistence/manager.rs:303-306 | the metadata written for a file name is, under a faithful JSON codec, the object with the one field "filename" |
| PersistClipboard.FilenameRoundTrip | crates/ichimi-persistence/src/persistence/manager.rs:238-306 | with a faithful JSON codec, the file name that saving an item writes into the metadata column reads back unchanged |
| PersistClipboard.GeneratedKey | crates/ichimi-persistence/src/persistence/manager.rs:207-210 | a key generated for an entry always starts with "clipboard_" |
| PersistClipboard.ItemOf | crates/ichimi-persistence/src/persistence/manager.rs:236-247 | a listed row becomes an item with no id, the row's content and content type, and the file name its metadata carries |
| PersistClipboard.ClearedTable | crates/ichimi-persistence/src/persistence/manager.rs:254-267 | deleting the key of every listed entry leaves exactly the entries that are no longer visible |
| PersistConfig.EnvOrders | crates/ichimi-persistence/src/persistence/manager.rs:64-67 | one environment order per imported process, each listing exactly that process's variables |
| PersistConfig.LastWith | crates/ichimi-persistence/src/persistence/manager.rs:64-67 | the last entry of the file with an id: none exactly when no entry has that id, otherwise an entry of the file with that id |
| PersistConfig.LastWithSnoc | crates/ichimi-persistence/src/persistence/manager.rs:64-67 | after one more entry is read, the last entry for its id is that entry, and every other id keeps its last entry |
| PersistConfig.ImportedOneMore | crates/ichimi-persistence/src/persistence/manager.rs:64-67 | saving one more entry of the file keeps the import description: the file's ids are added, each holding the row of its last entry, and no other row changes |
| PersistConfig.ImportedNext | crates/ichimi-persistence/src/persistence/manager.rs:64-67 | the same step stated for the entries read so far and the next entry |
| PersistHistory.Limited | crates/ichimi-persistence/src/database/queries.rs:194-196 | at most the first n rows for a limit n of zero or more, and every row when there is no limit or it is negative |
| PersistHistory.Arranged | crates/ichimi-persistence/src/database/queries.rs:192 | every history row, once each, most recently started first |
| PersistHistory.HistoryRows | crates/ichimi-persistence/src/database/queries.rs:182-210 | only rows of the given process when one is named, most recently started first, no more than a non-negative limit; a matching row is left out only when the limit is reached, and then every row returned started no earlier than it; the whole history when neither filter is given |
| PersistHistory.OrderCovers | crates/ichimi-persistence/src/database/queries.rs:192 | an ordering of all positions holds every position, so sorting drops no row |
| PersistHistory.LimitedPassesOver | crates/ichimi-persistence/src/database/queries.rs:194-196 | a row that LIMIT cuts off from a sorted list comes after every row it keeps, and the limit was reached |
| PersistHistory.KeptSorted | crates/ichimi-persistence/src/database/queries.rs:188-192 | filtering a history sorted by start time keeps it sorted |
| Queries.StateText | crates/ichimi-persistence/src/database/queries.rs:225-230 | the stored state is one of "not_started", "running", "stopped" and "failed" |
| Queries.PidColumn | crates/ichimi-persistence/src/database/queries.rs:266 | a pid up to the largest i32 is stored as itself; a larger one wraps to its value minus 2^32 |
| Queries.PidValue | crates/ichimi-persistence/src/persistence/manager.rs:533 | reading a stored pid back as u32 undoes the i32 cast |
| Queries.PidRoundTrip | crates/ichimi-persistence/src/database/queries.rs:266 | every u32 pid survives the round trip through the i32 column |
| Queries.ExpiringNowInLimbo | crates/ichimi-persistence/src/database/queries.rs:74-113 | an entry whose expiry is exactly now is neither listed nor removed by a cleanup |
| Queries.PlaceholdersAppend | crates/ichimi-persistence/src/database/queries.rs:186-196 | the placeholders of a joined query text are those of its parts |
| Queries.HistoryPlaceholders | crates/ichimi-persistence/src/database/queries.rs:182-211 | the history query has one placeholder when filtered by process and none otherwise, whatever its limit |
| Queries.HistoryQuery | crates/ichimi-persistence/src/database/queries.rs:182-211 | the process filter is added exactly when a process id is given, and that id is then the one bound value |
| Queries.EventsPlaceholders | crates/ichimi-persistence/src/database/queries.rs:510-564 | the events query has one placeholder for each filter it carries |
| Queries.EventsQuery | crates/ichimi-persistence/src/database/queries.rs:510-564 | one clause per given filter, type before severity, with the values bound in that same order |
| Queries.ProcessRow | crates/ichimi-persistence/src/database/queries.rs:219-280 | the process row keeps the process id, stores the state text, the lists as JSON and the pid through the i32 cast, and is stamped now |
| Queries.TemplateRow | crates/ichimi-persistence/src/database/queries.rs:322-373 | the template row keeps the template id, stores lists, environment and variables as JSON, and is stamped now |
| Queries.TextLeTotal | crates/ichimi-persistence/src/database/queries.rs:394 | any two texts are ordered one way or the other |
| Queries.TextLeAntisymmetric | crates/ichimi-persistence/src/database/queries.rs:394 | texts ordered both ways are equal |
| Queries.CategoryNameTotal | crates/ichimi-persistence/src/database/queries.rs:394 | any two template rows are ordered by category and name one way or the other |
| Queries.Database.constructor | crates/ichimi-persistence/src/database/mod.rs:18-51 | a new database has every table empty |
| Queries.Database.StoreClipboard | crates/ichimi-persistence/src/database/queries.rs:13-48 | an upsert on the key: a new key gets a new row id; an existing one keeps id, creation and access time and has its content, type, metadata and expiry replaced; no other table changes |
| Queries.Database.GetClipboard | crates/ichimi-persistence/src/database/queries.rs:51-71 | the entry is returned only while visible, and its access time is stamped whether visible or not |
| Queries.Database.ListClipboard | crates/ichimi-persistence/src/database/queries.rs:74-85 | exactly the visible entries, kept in the order of the table listing, so most recently updated first |
| Queries.Database.ClipboardRows | crates/ichimi-persistence/src/database/queries.rs:74-85 | one row per key of the listing order, holding every entry of the table |
| Queries.Database.DeleteClipboard | crates/ichimi-persistence/src/database/queries.rs:88-96 | the key is removed, and the result is true exactly when it was present |
| Queries.Database.CleanupExpired | crates/ichimi-persistence/src/database/queries.rs:99-113 | exactly the entries whose expiry has passed are removed, and their number is returned |
| Queries.Database.RecordStart | crates/ichimi-persistence/src/database/queries.rs:121-152 | one open run is appended under a new row id |
| Queries.Database.RecordStop | crates/ichimi-persistence/src/database/queries.rs:155-179 | every open run of the process is closed with the exit code and error; every other run is unchanged |
| Queries.Database.UpsertProcess | crates/ichimi-persistence/src/database/queries.rs:219-280 | an upsert on the process id that keeps the row id and creation time of an existing row, and replaces every other column |
| Queries.Database.GetProcess | crates/ichimi-persistence/src/database/queries.rs:283-292 | the row of the process id, when present |
| Queries.Database.ListProcesses | crates/ichimi-persistence/src/database/queries.rs:295-303 | every row once, most recently updated first |
| Queries.Database.DeleteProcess | crates/ichimi-persistence/src/database/queries.rs:306-314 | the row is removed, and the result is true exactly when it was present |
| Queries.Database.UpsertTemplate | crates/ichimi-persistence/src/database/queries.rs:322-373 | an upsert on the template id that keeps the row id and creation time of an existing row |
| Queries.Database.GetTemplate | crates/ichimi-persistence/src/database/queries.rs:376-389 | the row of the template id, when present |
| Queries.Database.ListTemplates | crates/ichimi-persistence/src/database/queries.rs:392-401 | every template row, each once, ordered by category (a missing category first) and then by name |
| Queries.Database.DeleteTemplate | crates/ichimi-persistence/src/database/queries.rs:404-412 | the row is removed, and the result is true exactly when it was present |
| Queries.Database.SetSetting | crates/ichimi-persistence/src/database/queries.rs:420-441 | an upsert on the key that keeps the creation time of an existing setting |
| Queries.Database.GetSetting | crates/ichimi-persistence/src/database/queries.rs:444-452 | the stored text of the key, when present |
| Queries.Database.ListSettings | crates/ichimi-persistence/src/database/queries.rs:455-462 | one row per key, in the given key order |
| Queries.Database.DeleteSetting | crates/ichimi-persistence/src/database/queries.rs:465-473 | the key is removed, and the result is true exactly when it was present |
| Queries.Database.RecordEvent | crates/ichimi-persistence/src/database/queries.rs:481-507 | one event stamped now is appended under a new row id |
| SurrealTables.Mapped | crates/ichimi/src/persistence/manager.rs:167-170 | one converted record per record, in table order |
| SurrealTables.MappedPrefix | crates/ichimi/src/persistence/manager.rs:167-170 | converting the first n records is the first n conversions |
| SurrealTables.DeleteWhere | crates/ichimi/src/persistence/manager.rs:77 | the delete keeps, in order, exactly the records with another key, and changes nothing when no record has the key |
| SurrealTables.DeleteWhereUnique | crates/ichimi/src/persistence/manager.rs:77 | the delete keeps a table with each key held once in that state |
| SurrealTables.UpsertedContents | crates/ichimi/src/persistence/manager.rs:75-100 | after delete-then-create the new record is the only one with its key, records with other keys are as before, and keys stay unique |
| SurrealTables.Keyed | crates/ichimi/src/persistence/manager.rs:166-170 | the map loaded from a table holds exactly the keys some record carries, each under its own key |
| SurrealTables.KeyedLastWins | crates/ichimi/src/persistence/manager.rs:166-170 | the loaded map holds, for each key, the last record with that key |
| SurrealTables.KeyedSnoc | crates/ichimi/src/persistence/manager.rs:166-170 | loading one more record overwrites its key and leaves the rest |
| SurrealTables.KeyedDeleted | crates/ichimi/src/persistence/manager.rs:77 | deleting a key and then loading is loading and then dropping the key |
| SurrealTables.KeyedUpserted | crates/ichimi/src/persistence/manager.rs:75-100 | loading after an upsert puts the new record under its key and keeps every other entry |
| SurrealTables.KeyedMapped | crates/ichimi/src/persistence/manager.rs:166-170 | converting each record, keeping its key, before loading is loading first and converting each value |
| SurrealTables.KeyedSize | crates/ichimi/src/persistence/manager.rs:166-170 | with each key held once, the loaded map has one entry per record |
| RootPersistence.RecordOf | src/persistence/manager.rs:22-48 | a stored root process reads back with its state reset to NotStarted and both auto-start flags and every other field kept |
| RootPersistence.RecordOfInfo | src/persistence/manager.rs:22-48 | storing a loaded process gives back the record it came from |
| RootPersistence.LoadedEntries | src/persistence/manager.rs:149-174 | a load holds exactly the stored ids, each process NotStarted under its own id |
| RootPersistence.LoadedAfterSave | src/persistence/manager.rs:69-126 | loading after a save gives the earlier load with the saved process, reset to NotStarted, under its id |
| RootPersistence.LoadedAfterDelete | src/persistence/manager.rs:134-146 | loading after a delete gives the earlier load without that id |
| RootPersistence.SavedTwice | src/persistence/manager.rs:69-131 | saving two versions of one id leaves one record with that id, the later one, which is what a load gives |
| RootPersistence.LoadedSize | src/persistence/manager.rs:149-174 | with each id stored once, the load has one entry per record |
| RootPersistence.MappedMembers | src/persistence/manager.rs:177-203 | the converted list holds exactly the conversions of the kept records |
| RootPersistence.PersistenceManager.constructor | src/persistence/manager.rs:64-66 | a manager over an existing table |
| RootPersistence.PersistenceManager.SaveProcess | src/persistence/manager.rs:69-126 | one query deletes the id's records and creates the new one, which the next load returns; a failed query changes nothing; a failed read-back reports an error but leaves the process saved |
| RootPersistence.PersistenceManager.DeleteProcess | src/persistence/manager.rs:134-146 | on success every record with the id is gone and the next load lacks it; on failure nothing changes |
| RootPersistence.PersistenceManager.LoadAllProcesses | src/persistence/manager.rs:149-174 | the load of the table, or the query or decoding error with its message |
| RootPersistence.PersistenceManager.QueryProcesses | src/persistence/manager.rs:177-203 | the processes whose command contains the filter, in table order, and every process for an empty filter; or the error with its message |
| RootPersistence.PersistenceManager.SearchProcesses | src/persistence/manager.rs:228-249 | exactly the processes whose command contains the term or one of whose arguments, lower-cased, contains the lower-cased term, with lower-casing as the libraries do it; or the error with its message |
| KdlPersistence.DefaultConfig | src/persistence/kdl_schema.rs:55-62 | the default configuration has version "1.0.0", no schema or time stamps, and no processes |
| KdlPersistence.BlocksNext | src/persistence/kdl_persistence.rs:80-106 | appending the next process block to the blocks so far gives the blocks of one more process |
| KdlPersistence.BlockOpens | src/persistence/kdl_persistence.rs:81 | each process block contains its opening line with the quoted id |
| KdlPersistence.BlocksOpenEach | src/persistence/kdl_persistence.rs:80-106 | the blocks contain the opening line of every process in the list |
| KdlPersistence.KdlTextOpensEach | src/persistence/kdl_persistence.rs:58-109 | the generated file contains an opening line for every process of the configuration |
| KdlPersistence.KdlTextStartsWithMeta | src/persistence/kdl_persistence.rs:58-77 | the generated file starts with the header comment and the meta block |
| KdlPersistence.GenerateKdl | src/persistence/kdl_persistence.rs:58-109 | the text built piece by piece is the header, the meta block and one block per process in list order |
| KdlPersistence.AppendBlocks | src/persistence/kdl_persistence.rs:80-106 | the loop over processes appends exactly one block per process, in order |
| KdlPersistence.AppendMeta | src/persistence/kdl_persistence.rs:66-77 | the version line always, and the schema and time stamp lines only when set |
| KdlPersistence.AppendProcess | src/persistence/kdl_persistence.rs:81-105 | the command line, the argument line only when there are arguments, the working directory only when set, the environment only when not empty, and the auto-start line |
| KdlPersistence.AppendArgs | src/persistence/kdl_persistence.rs:86-88 | every argument, quoted and preceded by a space, in order |
| KdlPersistence.AppendEnv | src/persistence/kdl_persistence.rs:98-100 | one line per variable, in the map's visiting order |
| KdlPersistence.FirstIndex | src/persistence/kdl_persistence.rs:116 | the position of the first entry with the id, and none exactly when no entry has it |
| KdlPersistence.AddedOrUpdated | src/persistence/kdl_persistence.rs:115-120 | the entry is in the result; the first entry with its id is replaced in place, or the entry is appended when none has the id; all other entries are kept |
| KdlPersistence.RemovedShorter | src/persistence/kdl_persistence.rs:132-136 | removing the entries with an id shortens the list exactly when some entry had it |
| KdlPersistence.SavedReadsBack | src/persistence/kdl_persistence.rs:36-55 | with a parser that reads back what is written for plain configurations, a saved plain configuration parses to itself |
| KdlPersistence.UnescapedQuoteCollides | src/persistence/kdl_persistence.rs:86-88 | an argument holding quotes is written as the same text as two plain arguments, so no parser reads back every configuration |
| KdlPersistence.AddedOrUpdatedPlain | src/persistence/kdl_persistence.rs:115-120 | replacing or appending a plain entry keeps a plain list plain |
| KdlPersistence.AddOrUpdateIn | src/persistence/kdl_persistence.rs:116-120 | the search-and-replace loop gives the replaced or extended list |
| KdlPersistence.KdlPersistence.constructor | src/persistence/kdl_persistence.rs:13-16 | a store over a file that exists with some text or does not exist yet |
| KdlPersistence.KdlPersistence.LoadConfig | src/persistence/kdl_persistence.rs:19-33 | the default configuration when the file is missing, the parsed one otherwise, and a fixed message when the text does not parse |
| KdlPersistence.KdlPersistence.GetAllProcesses | src/persistence/kdl_persistence.rs:147-150 | the loaded configuration's processes, or its error; none when the file is missing |
| KdlPersistence.KdlPersistence.SaveConfig | src/persistence/kdl_persistence.rs:36-55 | the file holds the generated text |
| KdlPersistence.KdlPersistence.AddOrUpdateProcess | src/persistence/kdl_persistence.rs:112-127 | a load error is returned and nothing is written; otherwise the saved list is the replaced or extended one with the update time stamped, and, when the parser reads back plain configurations and the loaded configuration, the entry and the time are plain, it reads back holding the entry |
| KdlPersistence.KdlPersistence.RemoveProcess | src/persistence/kdl_persistence.rs:130-144 | a load error is returned and nothing written; otherwise every entry with the id is dropped, and the file is rewritten and true returned only when one was |
| KdlSchema.DefaultConfig | src/persistence/kdl_schema.rs:55-62 | the default configuration has version "1.0.0" and no processes |
| KdlSchema.ToProcessInfo | src/persistence/kdl_schema.rs:83-100 | an entry becomes a NotStarted process with no environment, and an empty working directory reads as none |
| KdlSchema.FromProcessInfo | src/persistence/kdl_schema.rs:67-80 | a process becomes an entry that converts back to the same id, command, arguments and flag, and the same working directory unless that was the empty text |
| KdlSchema.ProcessInfoRoundTrip | src/persistence/kdl_schema.rs:67-100 | a process survives the trip through an entry exactly when it is NotStarted, has no environment and no empty working directory |
| KdlSchema.ConfigRoundTrip | src/persistence/kdl_schema.rs:67-100 | every entry survives the trip through a process unchanged |
| KdlSchema.EmptyCwdLost | src/persistence/kdl_schema.rs:67-100 | an explicitly empty working directory comes back as none |
| Model.NewProcess | src/model.rs:211-231 | a new record's id is the process id in table "process", every given field is kept, and both time stamps are the same instant |
| Model.ThingId | src/model.rs:15-17 | the record id pairs the table name with the process id |
| Model.NewProcessThingId | src/model.rs:211-267 | a new record carries exactly the record id that thing_id computes |
| Model.Validate | src/model.rs:269-277 | valid exactly when process id and command are non-empty; an empty process id is reported first, then an empty command |
| Model.AsWrittenTrailingBackslash | src/model.rs:66-69 | with only quotes escaped, a value ending in a backslash leaves its string unterminated |
| Model.ReadEscapedChar | src/model.rs:66-69 | reading past one escaped character gives that character back |
| Model.QuotedReadsBack | src/model.rs:66-69 | with backslashes and quotes escaped, every value reads back exactly up to its closing quote, and the rest of the query is untouched |
| Model.EscapingsAgree | src/model.rs:66-69 | for a value without backslashes the written escaping and the corrected one agree |
| Model.ValueText | src/model.rs:63-72 | time stamp strings are cast to datetime, other strings quoted and escaped (with the written escaping, quotes only, for `esc == AsWritten`; with backslashes too for `Corrected`), null written as null, and anything else as its JSON text |
| Model.StringValueReadsBack | src/model.rs:63-72 | a string value reads back exactly from its quoted text, with or without the datetime cast, under the corrected escaping or when it holds no backslash; under the written escaping the value `\` never reads back |
| Model.Fields | src/model.rs:61-75 | one "key = value" field per object member, in visiting order, with the chosen escaping |
| Model.SetClause | src/model.rs:57-80 | a parse failure and a value that is not an object are errors with their messages; otherwise the fields joined by commas, with the chosen escaping (the source's is `AsWritten`) |
| Model.SetClauseHasEachField | src/model.rs:57-80 | every field of the parsed object appears in the clause as "key = value", under either escaping |
| Model.SaveQuery | src/model.rs:36-54 | a validation error is returned first; otherwise a CREATE query on the record's table and id with the SET clause under the chosen escaping (the source's is `AsWritten`), or the clause's error |
| Model.UpdateQuery | src/model.rs:83-101 | after validation, an UPDATE query on the record's table and id with the record's JSON as content |
| Model.InvalidProcessNeverQueried | src/model.rs:36-101 | neither query is built for a process without an id or a command |
| WebHandlers.CountWhere | crates/ichimi/src/web/handlers.rs:109-121 | a count of processes never exceeds the number of processes |
| WebHandlers.CountersAddUp | crates/ichimi/src/web/handlers.rs:109-121 | the running, stopped and failed counts add up to the total, a not-started process counting as stopped |
| WebHandlers.DashboardStats | crates/ichimi/src/web/handlers.rs:100-121 | the total is the number of processes, each counter counts its states, auto-start is always zero, and the three counters add up to the total |
| WebHandlers.StateFilterOf | crates/ichimi/src/web/handlers.rs:169-174 | "running", "stopped" and "failed" select their state, and any other text selects all |
| WebHandlers.ListFilter | crates/ichimi/src/web/handlers.rs:167-179 | a filter exists exactly when a state or a name pattern is given, and carries both as given, the state mapped |
| WebHandlers.StreamOf | crates/ichimi/src/web/handlers.rs:314-318 | "stdout" and "stderr" select their stream, and anything else, or nothing, selects both |
| WebHandlers.TagsOf | crates/ichimi/src/web/handlers.rs:451-454 | no tags without a parameter; otherwise one tag per comma-separated piece, without commas and trimmed of white space at both ends |
| WebHandlers.TrimWithin | crates/ichimi/src/web/handlers.rs:453 | trimming a piece adds no character that was not in it |
| WebHandlers.ToFormSettings | crates/ichimi/src/web/handlers.rs:368-373 | the form shows the theme and the restart flag; the interval is the stored one truncated to 32 bits, or 5000 when none is stored |
| WebHandlers.FromFormSettings | crates/ichimi/src/web/handlers.rs:382-390 | the stored settings take theme, flag and interval from the form, with no line limit, no shell and no variables, stamped now |
| WebHandlers.FormSettingsRoundTrip | crates/ichimi/src/web/handlers.rs:360-401 | form settings saved and read back are unchanged |
| WebHandlers.GetSettingsResponse | crates/ichimi/src/web/handlers.rs:360-376 | the stored settings shown in the form, or the form of the default settings when they cannot be read |
| WebHandlers.MergeTemplate | crates/ichimi/src/web/handlers.rs:519-573 | each given field replaces the template's, every other field is kept, ids and creation time never change, and the update time is now; an empty request changes only the update time |
| WebHandlers.MergeNaming | crates/ichimi/src/web/handlers.rs:533-541 | the name, description and category taken from the request where given |
| WebHandlers.MergeLaunch | crates/ichimi/src/web/handlers.rs:542-553 | the command, arguments, environment and working directory taken from the request where given |
| WebHandlers.MergeDefaults | crates/ichimi/src/web/handlers.rs:554-562 | the auto-start default, variables and tags taken from the request where given |
| WebHandlers.HistoryLimit | crates/ichimi/src/web/handlers.rs:775 | the requested limit, or 50 when none is given |
| WebHandlers.ResponseOf | crates/ichimi/src/web/handlers.rs:795-803 | an item's response keeps id, content and file name, and its content type defaults to "text" |
| WebHandlers.SearchClipboard | crates/ichimi/src/web/handlers.rs:768-809 | the results are, one for one and in history order, the responses of the matching items (an order-preserving filter of the history), and the count is their number |
| WebHandlers.SearchClipboardExact | crates/ichimi/src/web/handlers.rs:778-790 | the results are exactly the responses of the items whose content, file name or some tag contains the query; no match gives no results |
| RootWebHandlers.GetStatus | src/web/handlers.rs:35-46 | the status is "running" with zero uptime, the crate's version and the number of processes |
| RootWebHandlers.CreateResponse | src/web/handlers.rs:77-92 | 201 with the created message on success, and 400 with the manager's error otherwise |
| RootWebHandlers.LookupResponse | src/web/handlers.rs:94-103 | 200 with the value when found, and 404 with an empty body otherwise |
| RootWebHandlers.NoContentResponse | src/web/handlers.rs:105-114 | 204 on success, and 400 with the manager's error otherwise |
| RootWebHandlers.StartResponse | src/web/handlers.rs:116-129 | 200 with the started message and the pid on success, and 400 with the manager's error otherwise |
| RootWebHandlers.GracePeriod | src/web/handlers.rs:131-143 | a grace period only when the body is present and gives one |
| RootWebHandlers.StatusClasses | src/web/handlers.rs:77-161 | each handler answers with a success status exactly when the manager succeeded, and every failure is 400 or 404 |
| RootWebHandlers.ListQueryKeeps | src/web/handlers.rs:48-64 | a filter is built only when a state or a pattern is given; no parameters, or an unknown state alone, lists every process; "running" alone lists exactly the running ones; a pattern equal to the id keeps that process |
| RootWebHandlers.LogStreamQuery | src/web/handlers.rs:150-154 | "stdout" and "stderr" pick their stream; any other text, or no parameter, picks both |
| Assets.FirstMatchAt | src/web/assets.rs:18-46 | when entry i is the first suffix the path ends with, the path gets entry i's type |
| Assets.MimeFromPath | src/web/assets.rs:18-46 | the type is plain bytes or the type of a listed suffix that the path ends with |
| Assets.FirstMatchNone | src/web/assets.rs:18-46 | a path ending with none of the suffixes gets the octet-stream type |
| Assets.ListedTypeNotOctetStream | src/web/assets.rs:19-42 | no listed suffix is served as octet-stream |
| Assets.FirstMatchSome | src/web/assets.rs:18-46 | a path ending with some listed suffix never gets the octet-stream type |
| Assets.MimeFromTable | src/web/assets.rs:18-46 | the chain of suffix tests is the table of suffixes tried in order |
| Assets.FontsFromTable | src/web/assets.rs:35-45 | the font suffixes at the end of the chain map to their font types |
| Assets.ListedSuffixDotted | src/web/assets.rs:19-42 | every listed suffix is a dot followed by no other dot |
| Assets.ListedSuffixesDiffer | src/web/assets.rs:19-42 | the listed suffixes are pairwise different |
| Assets.SuffixesDistinct | src/web/assets.rs:19-42 | no listed suffix ends with another, so the order of the tests never hides one |
| Assets.MimeOfListedSuffix | src/web/assets.rs:18-46 | any path ending with a listed suffix gets exactly that suffix's type |
| Assets.OctetStreamExactlyWhenUnlisted | src/web/assets.rs:18-46 | a path is served as octet-stream exactly when it ends with none of the listed suffixes |
| Assets.GetWithMime | src/web/assets.rs:11-15 | the embedded file's bytes with the type its path selects, and nothing when the path is not embedded |
| Assets.OnlyEmbeddedFound | src/web/assets.rs:3-15 | only paths under "static/" or "web-svelte/dist/" are ever found |
| StaticServer.NormalizePath | crates/ichimi/src/web/server.rs:118-124 | the empty path and "/" are the index page, and no normalised path is empty |
| StaticServer.StaticResponse | crates/ichimi/src/web/server.rs:111-142 | 200 with the file and its type exactly when the normalised path is in the web build, and 404 "404 Not Found" otherwise |
| StaticServer.NormalizeDropsOneSlash | crates/ichimi/src/web/server.rs:118-124 | one leading slash is dropped and a path without one is kept |
| StaticServer.RootIsIndex | crates/ichimi/src/web/server.rs:118-124 | the empty path, "/", "/index.html" and "index.html" get the same answer |
| StaticServer.ServedWithListedType | crates/ichimi/src/web/server.rs:111-136 | a found file whose name ends with a listed suffix is served with that suffix's type |
| IchimiCli.DecideStep | crates/ichimi/src/bin/ichimi_server.rs:112-183 | handling the argument at the cursor and moving past it, and past its value for --web-port, is one step of the fold over the flags |
| IchimiCli.ParseArgs | crates/ichimi/src/bin/ichimi_server.rs:100-183 | the index loop computes the fold of the flags over the defaults, and any options it runs with are consistent |
| IchimiCli.HandleArg | crates/ichimi/src/bin/ichimi_server.rs:113-181 | --help and --version stop the loop with their answer; any other argument applies its flag and keeps the options consistent |
| IchimiCli.DecideConsistent | crates/ichimi/src/bin/ichimi_server.rs:141-181 | folding flags that respect the build's features keeps the options consistent |
| IchimiCli.FlagsRespectFeature | crates/ichimi/src/bin/ichimi_server.rs:175-179 | --webdriver is read as a flag only in a build with the webdriver feature |
| IchimiCli.CommandLineConsistent | crates/ichimi/src/bin/ichimi_server.rs:100-183 | the options the command line runs with are always consistent |
| IchimiCli.DecideAppend | crates/ichimi/src/bin/ichimi_server.rs:112-183 | folding two runs of flags is folding the first and then the second, unless the first already stopped |
| IchimiCli.HelpAndVersionStop | crates/ichimi/src/bin/ichimi_server.rs:114-140 | --help or --version anywhere, after flags that did not stop, ends with help or the version whatever follows |
| IchimiCli.LaterOfAppModeAndWebdriverWins | crates/ichimi/src/bin/ichimi_server.rs:172-179 | --app-mode sets app mode, and a later --webdriver sets the driver and clears app mode |
| IchimiCli.LastValidPortWins | crates/ichimi/src/bin/ichimi_server.rs:148-167 | --web-port with a value from 1 to 65535 sets the port; zero or text that does not parse keeps the earlier port |
| IchimiCli.PortValueIsNotAFlag | crates/ichimi/src/bin/ichimi_server.rs:148-167 | the value after --web-port is consumed even when it looks like --help |
| IchimiCli.LogsToFileExactlyWithoutWeb | crates/ichimi/src/bin/ichimi_server.rs:186-192 | with consistent options, logs go to a file exactly when the web server is off, and the MCP server or the web server always runs |
| RootCli.DecideStep | src/bin/ichimi_server.rs:17-55 | handling the argument at the cursor and moving past it is one step of the fold over the flags |
| RootCli.ParseArgs | src/bin/ichimi_server.rs:9-55 | the index loop computes the fold of the flags over the defaults, and the port it runs with fits 16 bits |
| RootCli.HandleArg | src/bin/ichimi_server.rs:18-54 | --help and --version stop the loop with their answer; any other argument applies its flag, keeping the port within 16 bits |
| RootCli.DecideAppend | src/bin/ichimi_server.rs:17-55 | folding two runs of flags is folding the first and then the second, unless the first already stopped |
| RootCli.LaterOfWebAndNoWebWins | src/bin/ichimi_server.rs:37-42 | the later of --web and --no-web decides whether the web server runs |
| RootCli.LastPortWins | src/bin/ichimi_server.rs:43-48 | --web-port sets the port it parses to, and resets it to 12700 when the value does not parse |
| RootCli.HelpAndVersionStop | src/bin/ichimi_server.rs:19-36 | --help or --version anywhere, after flags that did not stop, ends with help or the version whatever follows |
| RootCli.IsMcp | src/bin/ichimi_server.rs:58 | MCP mode exactly when MCP_SERVER_NAME or CLAUDE_CODE is set |
| RootCli.OpensBrowser | src/bin/ichimi_server.rs:192-213 | the browser opens exactly when the web server runs, auto-open is on and MCP mode is off |
| RootCli.NoOpenOrNoWebLastKeepsBrowserClosed | src/bin/ichimi_server.rs:37-213 | ending the arguments with --no-open or --no-web keeps the browser closed |
| AtomTools.CategoryIgnoresCase | crates/vantage-atom/src/lib.rs:942-948 | the category of a name does not depend on its letter case |
| AtomTools.CategoryOrOther | crates/vantage-atom/src/lib.rs:939-949 | a missing category is Other, and a given one is read by name |
| AtomTools.CategoryNameRoundTrip | crates/vantage-atom/src/lib.rs:942-948 | each category's own name reads back as that category |
| AtomTools.CategorySpellings | crates/vantage-atom/src/lib.rs:942-948 | every name equal, ignoring ASCII case, to a category's stored name or to that name without its underscore reads as that category |
| AtomTools.FromRequest | crates/vantage-atom/src/lib.rs:951-959 | the new template is unsaved and takes name, command, description, working directory and category from the request, with empty lists and map for missing ones |
| AtomTools.CreateTemplate | crates/vantage-atom/src/lib.rs:912-978 | refused without a database; refused when the name is taken; a failing database fails; otherwise the template is stored under a fresh key and confirmed, and the table is unchanged on every refusal |
| AtomTools.CreatedThenNameTaken | crates/vantage-atom/src/lib.rs:929-936 | after a template is created, a second create with the same name is refused |
| AtomTools.ListTemplates | crates/vantage-atom/src/lib.rs:981-1038 | refused without a database; a failing database fails; otherwise the templates of the category when one is given, else those with the tag, else all of them |
| AtomTools.CategoryWinsOverTag | crates/vantage-atom/src/lib.rs:995-1008 | when a category is given, the tag is ignored |
| AtomTools.Select | crates/vantage-atom/src/lib.rs:1041-1095 | the id is used when given, then the name, and neither selects nothing |
| AtomTools.Lookup | crates/vantage-atom/src/lib.rs:1041-1095 | the template found by id or by name, which is in the table |
| AtomTools.GetTemplate | crates/vantage-atom/src/lib.rs:1041-1095 | refused without a database or without id and name; a failing database fails; otherwise the template found is listed, and a missing one is reported |
| AtomTools.IdWinsOverName | crates/vantage-atom/src/lib.rs:1041-1095 | when an id is given, the name is ignored |
| AtomTools.Updated | crates/vantage-atom/src/lib.rs:1098-1178 | each given field replaces the template's, the category read by name; the id, time stamps, use count and author are kept |
| AtomTools.UpdateWithNothingChangesNothing | crates/vantage-atom/src/lib.rs:1098-1178 | an update that gives no field leaves the template as it was |
| AtomTools.UpdatesCompose | crates/vantage-atom/src/lib.rs:1098-1178 | two updates in a row are one update in which the later given fields win |
| AtomTools.UpdateTemplate | crates/vantage-atom/src/lib.rs:1098-1178 | refused without a database; a failing database fails; a missing id is reported; otherwise the updated template is stored and confirmed |
| AtomTools.UpdateTemplateStoresUpdate | crates/vantage-atom/src/lib.rs:1098-1178 | after an update the table holds the updated template under its id and every other key as before |
| AtomTools.AddressOf | crates/vantage-atom/src/lib.rs:1212-1230 | the corrected delete addresses a template by the key of its record id |
| AtomTools.DeleteTemplateWith | crates/vantage-atom/src/lib.rs:1181-1244 | refused without a database or without id and name; a name not found is reported; a confirmed delete needs a working database |
| AtomTools.DeleteTemplateAsWritten | crates/vantage-atom/src/lib.rs:1181-1244 | the tool as written, deleting by the full record id text |
| AtomTools.DeleteTemplate | crates/vantage-atom/src/lib.rs:1181-1244 | the tool with the template addressed by its key |
| AtomTools.RecordTextIsNoKey | crates/vantage-atom/src/lib.rs:1212-1220 | the text of a record id, with its table prefix, is never a key of the table |
| AtomTools.DeleteByNameAsWrittenKeepsTemplate | crates/vantage-atom/src/lib.rs:1193-1230 | deleting by name as written confirms the delete but leaves the table unchanged |
| AtomTools.DeleteByNameRemovesTemplate | crates/vantage-atom/src/lib.rs:1193-1230 | with the key used, deleting by name removes that template and keeps every other key |
| AtomTools.ProcessFrom | crates/vantage-atom/src/lib.rs:1247-1306 | the process takes the template's command and the override arguments, environment and working directory where given; it auto-starts only when asked to |
| AtomTools.Found | crates/vantage-atom/src/lib.rs:1247-1295 | the template found by id or name in a working database, which is in the table |
| AtomTools.FromTemplateWith | crates/vantage-atom/src/lib.rs:1247-1335 | refused without a database or template selector; a process is created exactly when the template is found and the manager accepts it, and confirmed only when the template has an id |
| AtomTools.FromTemplateAsWritten | crates/vantage-atom/src/lib.rs:1247-1335 | the tool as written, counting the use by the full record id text |
| AtomTools.CreateProcessFromTemplate | crates/vantage-atom/src/lib.rs:1247-1335 | the tool with the use counted by the template's key; a confirmation means the process was created under the requested id |
| AtomTools.IncrementFailureOnlyWarns | crates/vantage-atom/src/lib.rs:1321-1323 | a failure to count the use changes neither the reply nor the process created |
| AtomTools.FromTemplateAsWrittenCountsNothing | crates/vantage-atom/src/lib.rs:1308-1323 | as written, a confirmed creation leaves the template's use count unchanged |
| AtomTools.FromTemplateCountsUse | crates/vantage-atom/src/lib.rs:1308-1323 | with the key used, a confirmed creation adds one to the template's use count and keeps every other template |
| TemplateRepository.TemplateRecordText | crates/vantage-persistence/src/db/template_repository.rs:158-169 | the text of a template's record id is "template:" followed by its key |
| TemplateRepository.StripPrefix | crates/vantage-persistence/src/db/template_repository.rs:158-169 | removing a prefix the text starts with leaves the rest, and any other text is kept |
| TemplateRepository.KeyFromRecordText | crates/vantage-persistence/src/db/template_repository.rs:158-169 | the key is recovered from the text of any template record id |
| TemplateRepository.Template.WithDescription | crates/vantage-persistence/src/db/template_repository.rs:102-105 | sets the description and nothing else |
| TemplateRepository.Template.WithCategory | crates/vantage-persistence/src/db/template_repository.rs:107-110 | sets the category and nothing else |
| TemplateRepository.Template.WithTags | crates/vantage-persistence/src/db/template_repository.rs:112-115 | sets the tags and nothing else |
| TemplateRepository.Template.WithArgs | crates/vantage-persistence/src/db/template_repository.rs:117-120 | sets the arguments and nothing else |
| TemplateRepository.Template.WithEnv | crates/vantage-persistence/src/db/template_repository.rs:122-125 | sets the environment and nothing else |
| TemplateRepository.Template.WithCwd | crates/vantage-persistence/src/db/template_repository.rs:127-130 | sets the working directory and nothing else |
| TemplateRepository.New | crates/vantage-persistence/src/db/template_repository.rs:82-99 | a new template has the name and command given, no id, time stamps or author, category Other, no description or working directory, empty lists and map, and a use count of zero |
| TemplateRepository.BuiltTemplate | crates/vantage-persistence/src/db/template_repository.rs:82-130 | a template built from new with builders carries each value given and the defaults for the rest |
| TemplateRepository.LaterBuilderWins | crates/vantage-persistence/src/db/template_repository.rs:102-130 | applying the same builder twice keeps the later value |
| TemplateRepository.KeyIndex | crates/vantage-persistence/src/db/template_repository.rs:158-169 | the position of the first record with the key, or the table's length when none has it |
| TemplateRepository.Get | crates/vantage-persistence/src/db/template_repository.rs:158-169 | a record is found exactly when one has the key, and it is a stored record with that key |
| TemplateRepository.GetFindsStored | crates/vantage-persistence/src/db/template_repository.rs:158-169 | in a table with each key held once, every stored template is found by its key |
| TemplateRepository.NameIndex | crates/vantage-persistence/src/db/template_repository.rs:172-185 | the position of the first record with the name, or the table's length |
| TemplateRepository.GetByName | crates/vantage-persistence/src/db/template_repository.rs:172-185 | none exactly when no record has the name, otherwise a stored record with that name |
| TemplateRepository.ListByCategory | crates/vantage-persistence/src/db/template_repository.rs:201-214 | exactly the records of the category |
| TemplateRepository.SearchByTag | crates/vantage-persistence/src/db/template_repository.rs:217-230 | exactly the records that carry the tag |
| TemplateRepository.Create | crates/vantage-persistence/src/db/template_repository.rs:144-155 | the template is appended under a fresh key, and a table with unique keys keeps them unique |
| TemplateRepository.CreatedIsFound | crates/vantage-persistence/src/db/template_repository.rs:144-185 | a created template is found by its new key, and by its name when no earlier record had that name |
| TemplateRepository.Delete | crates/vantage-persistence/src/db/template_repository.rs:247-257 | exactly the records with another key remain, and nothing changes when no record has the key |
| TemplateRepository.DeleteRemovesOnlyKey | crates/vantage-persistence/src/db/template_repository.rs:247-257 | after a delete the key is not found and every other key is found as before |
| TemplateRepository.Bumped | crates/vantage-persistence/src/db/template_repository.rs:260-272 | the use count goes up by one, the last use is now, and nothing else changes |
| TemplateRepository.IncrementUseCount | crates/vantage-persistence/src/db/template_repository.rs:260-272 | the record with the key is bumped and every other record is unchanged |
| TemplateRepository.IncrementTouchesOnlyKey | crates/vantage-persistence/src/db/template_repository.rs:260-272 | after the increment the key's template is bumped, other keys are as before, and a missing key changes nothing |
| TemplateRepository.Merge | crates/vantage-persistence/src/db/template_repository.rs:233-244 | a merge keeps the stored id, takes every other field from the new template, and keeps stored time stamps the new one lacks |
| TemplateRepository.Update | crates/vantage-persistence/src/db/template_repository.rs:233-244 | succeeds exactly when the key is stored, giving the merged template and a table of the same length |
| TemplateRepository.UpdateReplacesOnlyKey | crates/vantage-persistence/src/db/template_repository.rs:233-244 | after an update the key holds the merged template and every other key is found as before |
| Ci.StatusOf | src/ci/mod.rs:109-114 | "in_progress" and "completed" map to their states, and anything else, or nothing, to Queued |
| Ci.ConclusionOf | src/ci/mod.rs:116-125 | a conclusion exists exactly when the field is a string; unknown strings read as Unknown |
| Ci.TextField | src/ci/mod.rs:129-144 | a text field is read exactly when the run is an object holding a string under that name |
| Ci.TextOr | src/ci/mod.rs:129-144 | the field's text when present, and the default otherwise |
| Ci.IdOf | src/ci/mod.rs:128 | the run id is the unsigned 64-bit databaseId, or 0 when there is none |
| Ci.RunFrom | src/ci/mod.rs:127-145 | each field of a run is read from its JSON name, names default to "Unknown", times and url to the empty text, and no duration is computed |
| Ci.RunFromNothing | src/ci/mod.rs:127-145 | a run without any field reads as id 0, "Unknown" names, Queued, no conclusion and empty texts |
| Ci.StatusTextReadsBack | src/ci/mod.rs:109-114 | every status written by its gh name reads back as itself |
| Ci.ConclusionTextReadsBack | src/ci/mod.rs:116-125 | every conclusion written by its gh name reads back as itself |
| Ci.NamesReadBack | src/ci/mod.rs:128-138 | the id and names of a run written as gh prints it read back unchanged |
| Ci.OutcomeReadsBack | src/ci/mod.rs:109-125 | the status and conclusion of a run written as gh prints it read back unchanged |
| Ci.TimesReadBack | src/ci/mod.rs:141-144 | the times and url of a run written as gh prints it read back unchanged |
| Ci.RunReadsBack | src/ci/mod.rs:106-147 | a run written as gh prints it reads back as itself, with no duration |
| Ci.LatestRuns | src/ci/mod.rs:74-156 | a failed spawn and a failed command are errors with their prefixes; the runs are read exactly when the command succeeded and its output parsed, one run per JSON value |
| Ci.RunDetails | src/ci/mod.rs:159-183 | the command's output exactly when it succeeded, and its error text with the prefix when it failed |
| Ci.FailedLogs | src/ci/mod.rs:186-219 | the output when the command succeeded; a fixed note when it failed because the run is still in progress; otherwise the same error as the details |
| Ci.FailedLogsDifferOnlyInProgress | src/ci/mod.rs:186-219 | the failed logs answer differs from the details answer exactly when the run is still in progress |
| Ci.InsertedLastWins | src/ci/mod.rs:150-153 | after caching a listing, each listed run's id holds the last run listed with it |
| Ci.InsertedElsewhere | src/ci/mod.rs:150-153 | an id not listed keeps its cached run, and no other id is added |
| Ci.InsertedFiled | src/ci/mod.rs:150-153 | caching keeps every run filed under its own id |
| Ci.FindRun | src/ci/mod.rs:244 | the first listed run with the id, and none exactly when no run has it |
| Ci.CompletedRun | src/ci/mod.rs:244-253 | the run found with the id, only when it has completed |
| Ci.TimeoutOf | src/ci/mod.rs:227 | the given timeout, or 600 seconds |
| Ci.PollStep | src/ci/mod.rs:233-257 | past the deadline the wait fails with the timeout message; a failed listing ends it with its error; a completed run with the id ends it; the cache changes only with a successful listing before the deadline |
| Ci.WaitDoneIsCompleted | src/ci/mod.rs:222-258 | a wait that ends well returns a completed run with the id asked for, seen by a poll before the deadline |
| Ci.TimeoutWins | src/ci/mod.rs:236-239 | a poll after the deadline fails the wait whatever gh would say, and caches nothing |
| Ci.CiMonitor.constructor | src/ci/mod.rs:65-71 | a new monitor has an empty cache, the repository given and a poll interval of 30 seconds unless one is given |
| Ci.CiMonitor.Record | src/ci/mod.rs:150-153 | the listed runs are inserted into the cache in order |
| Ci.CiMonitor.GetLatestRuns | src/ci/mod.rs:74-156 | the runs or error of the listing, and the cache updated only on success |
| Ci.CiMonitor.PollOnce | src/ci/mod.rs:233-257 | one poll's step, leaving the cache the step leaves |
| Ci.CiMonitor.WaitForCompletion | src/ci/mod.rs:222-258 | the outcome and cache of polling with the given or default timeout |
| ToolMessages.ManagerFailure | crates/ichimi/src/lib.rs:174-178 | a manager failure becomes a JSON-RPC internal error (-32603) carrying the manager's message unchanged |
| ToolMessages.Echo | crates/ichimi/src/lib.rs:123-131 | the reply starts with "Echo: " and the rest of it is exactly the message |
| ToolMessages.Ping | crates/ichimi/src/lib.rs:133-136 | the health check always answers "pong" |
| ToolMessages.ConfigUpdatedMessage | crates/ichimi/src/lib.rs:469-472 | the message names the process, and ends with the new auto-start value when one was given |
| ToolMessages.ConfigNoteOnlyWithValue | crates/ichimi/src/lib.rs:469-472 | the auto-start note appears if and only if a value was given |
| ToolMessages.FieldAt | crates/ichimi/src/lib.rs:507-522 | the k-th field of the fixed order command, args, env, cwd, auto_start_on_restore has rank k |
| ToolMessages.Names | crates/ichimi/src/lib.rs:507-522 | one printed name per updated field |
| ToolMessages.NamesSnoc | crates/ichimi/src/lib.rs:507-522 | pushing a field appends exactly its name to the list of names |
| ToolMessages.NamesAt | crates/ichimi/src/lib.rs:507-522 | the i-th name is the name of the i-th field |
| ToolMessages.UpdatedFields | crates/ichimi/src/lib.rs:507-522 | the loop collects the names of exactly the fields that were given, in the fixed order |
| ToolMessages.NoteIfGiven | crates/ichimi/src/lib.rs:508-521 | one step pushes a field's name if and only if that field was given |
| ToolMessages.GivenUpToExactly | crates/ichimi/src/lib.rs:507-522 | the fields collected before rank n are exactly the given ones of lower rank, in order |
| ToolMessages.FieldsGivenExactly | crates/ichimi/src/lib.rs:507-528 | the update list holds exactly the given fields, in the fixed order, and is empty exactly when nothing was given |
| ToolMessages.UpdateMessage | crates/ichimi/src/lib.rs:524-528 | "no attributes updated" when the list is empty, otherwise "updated: " and the names joined by ", " |
| ToolMessages.UpdateMessageNamesGivenFields | crates/ichimi/src/lib.rs:507-528 | the message of update_process mentions every field that was given |
| ToolMessages.ExportYamlMessage | crates/ichimi/src/lib.rs:400-404 | the export message says whether only auto-start processes or all processes were written, and names the path |
| ToolMessages.SnapshotCall | crates/ichimi/src/lib.rs:433-439 | a YAML snapshot exports only auto-start processes; a SurrealQL snapshot exports every process |
| ToolMessages.FormatSuggestions | crates/ichimi/src/lib.rs:548-565 | the loop builds the suggestion text: the fixed notice when there are none, otherwise the header and one numbered entry per suggestion |
| ToolMessages.EntriesListEach | crates/ichimi/src/lib.rs:554-563 | entry i+1 with the i-th suggestion's message occurs in the entries text |
| ToolMessages.SuggestionsListEach | crates/ichimi/src/lib.rs:548-565 | a non-empty suggestion text starts with the header and lists every suggestion under its 1-based number |
| ToolMessages.WebConsoleSettings | crates/ichimi/src/lib.rs:840-841 | the port defaults to 12700 and auto-open defaults to true |

## Left out

- Operating-system process control is not modelled: spawning, signals, `child.wait`, the stop grace period, the pipe-reading tasks and the exit-monitor task. A spawn, kill or wait is an outcome parameter, and whether a child handle is held is a field.
- Concurrency is not modelled: locks, `tokio::spawn` loops, the auto-export interval, the event broadcasters and the CI background loop (`start_monitoring`, src/ci/mod.rs:261-307). Every operation is one atomic step.
- `stop_all_processes`, the export and import of snapshot files and the auto-start restore pass of the two registries are left out. They loop over operations that are modelled, plus file I/O.
- `validate_working_directory` (src/security/mod.rs:116-181) needs the filesystem, so its verdict is a parameter of `validate_process_inputs`.
- Regular-expression matching in template validation is a function parameter.
- serde_json, serde_yaml, kdl and facet_kdl parsing and printing are outside this model. A `JsonCodec`, a KDL parser or a YAML printer is a parameter wherever one is needed.
- RFC 3339 formatting and parsing of instants and `Utc::now` are parameters.
- The floating-point confidence of suggestions and its `{:.0}%` formatting are not modelled: a suggestion carries its confidence as text.
- Database engines are not modelled. Each table is a `seq` or `map` keyed by its unique column. The SQLite and SurrealDB statements are modelled on their success path, except where the source turns a failure into a reply; a failure of that kind is a parameter.
- `record_process_start` writing JSON columns is modelled through the codec; a serialisation failure there is not.
- `get_process_stats` (src/persistence/manager.rs:206-225, and its `crates/ichimi` copy) is left out. So are `export_to_file`, `import_from_file` and `export_default` (src/persistence/manager.rs:252-285): they are file I/O around the modelled table.
- The legacy YAML and snapshot methods of the persistence manager (crates/ichimi-persistence/src/persistence/manager.rs:597-646) do nothing and are left out.
- `load_config` failing to read an existing file is not modelled; only its content or its absence is.
- `get_popular` of the template repository (crates/vantage-persistence/src/db/template_repository.rs:275-288) has no caller and is left out. So is its plain table listing.
- In src/model.rs, `from_process_info`, `to_process_info` (234-257), `delete`, `find_by_id`, `find_all`, `find_by`, `count` (104-186) and `define_process_table` (285-297) are left out: they only pass queries to the database. The serialisation failure in `save` and `update` is not modelled.
- `get_cached_runs` of the CI monitor (src/ci/mod.rs:310-313) only reads the cache, which is a field of `Ci.CiMonitor`.
- The `gh` command, decoding its output as UTF-8 and parsing it as JSON are parameters of the CI monitor.
- crates/ichimi/src/web/assets.rs is not part of this model.
- HTTP routing, socket binding and port search, browser launching, logging setup and the clap-based entry points are left out.
- The stdio JSON-RPC test driver of the repository is left out. It only exercises the tools from outside; the tools themselves are modelled.
- TemplateRepository.ListByCategory: states which templates are listed, not the `ORDER BY use_count DESC` order the query asks of the database.
- Ci.CiMonitor.WaitForCompletion: the polling loop runs over a finite sequence of poll results, and when they run out the outcome is "still waiting". The endless loop of the source, which ends only on completion or timeout, is not modelled.
- Ci.Waited: the same finite-sequence bound as `Ci.CiMonitor.WaitForCompletion`.
- StaticServer.StaticResponse: the embedded asset store is a parameter. Content types follow the table of src/web/assets.rs.
- KdlPersistence.KdlPersistence.SaveConfig: the file always takes the new text. The failures of `create_dir_all`, the write of the temporary file and the rename in `save_config` (src/persistence/kdl_persistence.rs:36-55) are not modelled, so `AddOrUpdateProcess` and `RemoveProcess` never fail after a successful load.
- src/persistence/kdl_persistence.rs uses a `ProcessConfig` with an optional path `cwd` and an `env` map. src/persistence/kdl_schema.rs:25-52 declares it with a plain string `cwd` and no `env` field, so the two files do not agree. `KdlPersistence` models the shape kdl_persistence.rs uses; `KdlSchema` models the declared one.
- KdlPersistence.ReadsBack: the outside KDL parser is assumed to read back plain configurations only, and the model does not exhibit such a parser. `generate_kdl` writes quotes, backslashes and line breaks unescaped, so a configuration holding them can be written as the same text as another (`KdlPersistence.UnescapedQuoteCollides`).
- KdlPersistence.SavedReadsBack: holds for plain configurations only, for the reason given for `KdlPersistence.ReadsBack`.
- KdlPersistence.KdlPersistence.AddOrUpdateProcess: the read-back clause needs the loaded configuration, the new entry and the time stamp to be plain, for the reason given for `KdlPersistence.ReadsBack`.
- ProcessTemplates.DebugChar: escapes as Rust's `{:?}` does for ASCII. Non-ASCII characters that `{:?}` writes as `\u{..}` (non-printable and grapheme-extending code points) are written as themselves, because Unicode's tables are not modelled.
- IchimiPersistence.PersistenceManager.SearchProcesses: the term's `to_lowercase` and the database's `string::lowercase` of each argument are one function parameter, taken to agree.
- RootPersistence.PersistenceManager.SearchProcesses: the same single lower-casing parameter as in `IchimiPersistence.PersistenceManager.SearchProcesses`.
- The root command line resets the port to 12700 when `--web-port` has a value that does not parse. The `crates/ichimi` command line keeps the earlier port, although its warning says it uses the default. Each is modelled as its code does it.

## Findings

| source | as written | input that shows it | evidently intended | confidence | as-written member | corrected member |
|---|---|---|---|---|---|---|
| src/model.rs:66-69 | string values are quoted with every `'` escaped as `\'`, but a backslash is left as it is | the one-character string `\` renders as `'\'`, whose closing quote reads as an escaped quote, so the literal never ends | backslashes escaped too, so that every quoted string reads back as itself | high; not executed | Model.AsWrittenTrailingBackslash | Model.QuotedReadsBack |
| src/process/template.rs:130-149 | `instantiate` substitutes arguments, environment values and the directory, but copies the command unchanged | the built-in python-venv template (src/process/template.rs:313) with VENV_PATH given yields the command `{{VENV_PATH}}/bin/python` | the command substituted like the other fields | high; not executed | ProcessTemplates.VenvCommandKeepsPlaceholder | ProcessTemplates.VenvCommandCorrected |
| crates/vantage-atom/src/lib.rs:1212-1230 | delete by name passes the record id's full text `template:<key>` to `delete`, which prefixes the table again | deleting an existing template by its name reports success and the template is still there | the record's key passed, so the template is removed | medium; not executed | AtomTools.DeleteByNameAsWrittenKeepsTemplate | AtomTools.DeleteByNameRemovesTemplate |
| crates/vantage-atom/src/lib.rs:1308-1323 | the use count is incremented on the record id's full text, which names no record | creating a process from a stored template leaves its use count unchanged | the template's use count raised by one | medium; not executed | AtomTools.FromTemplateAsWrittenCountsNothing | AtomTools.FromTemplateCountsUse |
| crates/ichimi-persistence/src/kdl_serde.rs:84-100 | the argument and tag loops call `insert` with one key per element, and `insert` replaces an existing property of that key | a process with arguments ["-m", "http.server"] reads back with arguments ["http.server"] | every argument and tag is written as a property of its own (pushed) and read back in order | high; not executed | KdlSerde.ListsKeepOnlyLast | KdlSerde.PushedNodeRoundTrip |
