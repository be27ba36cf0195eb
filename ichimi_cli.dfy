// The command line of the `crates/ichimi` server binary
// (crates/ichimi/src/bin/ichimi_server.rs): one pass over the arguments
// that sets the run options, stops early for `--help` and `--version`, and
// ignores anything it does not know.
//
// The arguments are read as a sequence of flags (`Flags`, where `--web-port`
// takes the next argument as its value) folded over the default options
// (`Decide`); `ParseArgs` is the source's index loop, proved to compute
// that fold.

module IchimiCli {
  import opened Common

  const DefaultPort := 12700

  datatype Config = Config(
    webEnabled: bool,
    webOnly: bool,
    webPort: nat,
    autoOpen: bool,
    appMode: bool,
    useWebdriver: bool)

  /// MCP only, on the default port, opening a browser in a normal window.
  const Defaults := Config(false, false, DefaultPort, true, false, false)

  datatype Outcome = ShowHelp | ShowVersion | Run(config: Config)

  datatype Flag = Help | Version | Web | WebOnly | WebPort(value: Option<string>) | NoOpen | AppMode | Webdriver | Ignored

  /// The flag a single argument names; `--web-port` is named without its
  /// value, which is the next argument.  `--webdriver` is only known when
  /// the binary is built with WebDriver support.
  function FlagOf(arg: string, webdriver: bool): Flag
  {
    if arg == "--help" || arg == "-h" then Help
    else if arg == "--version" || arg == "-v" then Version
    else if arg == "--web" then Web
    else if arg == "--web-only" then WebOnly
    else if arg == "--web-port" then WebPort(None)
    else if arg == "--no-open" then NoOpen
    else if arg == "--app-mode" then AppMode
    else if webdriver && arg == "--webdriver" then Webdriver
    else Ignored
  }

  /// The flags the arguments from index `i` on are read as: `--web-port`
  /// takes the following argument as its value, and has none when it is
  /// the last argument.
  function Flags(args: seq<string>, i: nat, webdriver: bool): seq<Flag>
    decreases |args| - i
  {
    if i >= |args| then []
    else if FlagOf(args[i], webdriver).WebPort? && i + 1 < |args| then
      [WebPort(Some(args[i + 1]))] + Flags(args, i + 2, webdriver)
    else [FlagOf(args[i], webdriver)] + Flags(args, i + 1, webdriver)
  }

  /// The effect of one flag on the options.  A port is taken only when it
  /// parses as a 16-bit number other than 0; otherwise the port is left as
  /// it was.  WebDriver control and app mode exclude each other.
  function Apply(c: Config, f: Flag): Config
  {
    match f
    case Web => c.(webEnabled := true)
    case WebOnly => c.(webEnabled := true, webOnly := true)
    case WebPort(None) => c
    case WebPort(Some(v)) =>
      var port := ParseUnsigned(v, U16_MAX);
      if port.Some? && port.value > 0 then c.(webPort := port.value) else c
    case NoOpen => c.(autoOpen := false)
    case AppMode => c.(appMode := true)
    case Webdriver => c.(useWebdriver := true, appMode := false)
    case _ => c
  }

  /// The flags folded over `c` from the left; the first `--help` or
  /// `--version` ends the run there.
  function Decide(fs: seq<Flag>, c: Config): Outcome
    decreases |fs|
  {
    if fs == [] then Run(c)
    else if fs[0] == Help then ShowHelp
    else if fs[0] == Version then ShowVersion
    else Decide(fs[1..], Apply(c, fs[0]))
  }

  /// What the command line `args` (the program name first) asks for.
  function CommandLine(args: seq<string>, webdriver: bool): Outcome
  {
    Decide(Flags(args, 1, webdriver), Defaults)
  }

  /// The flag read at index `i`, with its value, and the index reading
  /// goes on from.
  function ReadAt(args: seq<string>, i: nat, webdriver: bool): Flag
    requires i < |args|
  {
    var flag := FlagOf(args[i], webdriver);
    if flag.WebPort? && i + 1 < |args| then WebPort(Some(args[i + 1])) else flag
  }

  function NextAt(args: seq<string>, i: nat, webdriver: bool): nat
    requires i < |args|
  {
    if FlagOf(args[i], webdriver).WebPort? && i + 1 < |args| then i + 2 else i + 1
  }

  /// One step of the fold over the command line.
  lemma DecideStep(args: seq<string>, i: nat, c: Config, webdriver: bool)
    requires i < |args|
    ensures var f := ReadAt(args, i, webdriver);
            Decide(Flags(args, i, webdriver), c) ==
              if f == Help then ShowHelp
              else if f == Version then ShowVersion
              else Decide(Flags(args, NextAt(args, i, webdriver), webdriver), Apply(c, f))
  {
    var rest := Flags(args, NextAt(args, i, webdriver), webdriver);
    assert Flags(args, i, webdriver) == [ReadAt(args, i, webdriver)] + rest;
    assert ([ReadAt(args, i, webdriver)] + rest)[1..] == rest;
  }

  /// The options every run starts from, and keeps: `--web-only` always
  /// brings the web server, the port is a usable 16-bit port, and WebDriver
  /// control only when the binary supports it.
  predicate Consistent(c: Config, webdriver: bool)
  {
    (c.webOnly ==> c.webEnabled) &&
    1 <= c.webPort <= U16_MAX &&
    (c.useWebdriver ==> webdriver)
  }

  /// The argument loop of `main`.
  method ParseArgs(args: seq<string>, webdriver: bool) returns (o: Outcome)
    ensures o == CommandLine(args, webdriver)
    ensures o.Run? ==> Consistent(o.config, webdriver)
  {
    var c := Defaults;
    var i := 1;
    while i < |args|
      invariant 1 <= i
      invariant Decide(Flags(args, 1, webdriver), Defaults) == Decide(Flags(args, i, webdriver), c)
      invariant Consistent(c, webdriver)
      decreases |args| - i
    {
      DecideStep(args, i, c, webdriver);
      var stop;
      stop, c, i := HandleArg(args, i, c, webdriver);
      if stop.Some? {
        return stop.value;
      }
      i := i + 1;
    }
    o := Run(c);
  }

  /// The body of the argument loop: the argument at index `i` either ends
  /// the run or updates the options; `last` is the last argument it used.
  method HandleArg(args: seq<string>, i: nat, c: Config, webdriver: bool)
    returns (stop: Option<Outcome>, c': Config, last: nat)
    requires i < |args|
    ensures ReadAt(args, i, webdriver) == Help ==> stop == Some(ShowHelp)
    ensures ReadAt(args, i, webdriver) == Version ==> stop == Some(ShowVersion)
    ensures ReadAt(args, i, webdriver) != Help && ReadAt(args, i, webdriver) != Version ==>
              stop == None && c' == Apply(c, ReadAt(args, i, webdriver)) && last + 1 == NextAt(args, i, webdriver)
    ensures Consistent(c, webdriver) ==> Consistent(c', webdriver)
  {
    c', last, stop := c, i, None;
    match FlagOf(args[i], webdriver) {
      case Help =>
        stop := Some(ShowHelp);
      case Version =>
        stop := Some(ShowVersion);
      case Web =>
        c' := c.(webEnabled := true);
      case WebOnly =>
        c' := c.(webEnabled := true, webOnly := true);
      case WebPort(_) =>
        if i + 1 < |args| {
          var port := ParseUnsigned(args[i + 1], U16_MAX);
          if port.Some? && port.value > 0 {
            c' := c.(webPort := port.value);
          }
          last := i + 1;
        }
      case NoOpen =>
        c' := c.(autoOpen := false);
      case AppMode =>
        c' := c.(appMode := true);
      case Webdriver =>
        c' := c.(useWebdriver := true, appMode := false);
      case Ignored =>
    }
  }

  /// Every flag keeps the options consistent, so every run is.
  lemma {:induction false} DecideConsistent(fs: seq<Flag>, c: Config, webdriver: bool)
    requires Consistent(c, webdriver)
    requires forall k :: 0 <= k < |fs| ==> fs[k] == Webdriver ==> webdriver
    ensures Decide(fs, c).Run? ==> Consistent(Decide(fs, c).config, webdriver)
    decreases |fs|
  {
    if fs != [] && fs[0] != Help && fs[0] != Version {
      DecideConsistent(fs[1..], Apply(c, fs[0]), webdriver);
    }
  }

  /// `--webdriver` is read as a flag only when the binary supports it.
  lemma {:induction false} FlagsRespectFeature(args: seq<string>, i: nat, webdriver: bool)
    ensures forall k :: 0 <= k < |Flags(args, i, webdriver)| ==> Flags(args, i, webdriver)[k] == Webdriver ==> webdriver
    decreases |args| - i
  {
    if i < |args| {
      FlagsRespectFeature(args, NextAt(args, i, webdriver), webdriver);
      assert Flags(args, i, webdriver) == [ReadAt(args, i, webdriver)] + Flags(args, NextAt(args, i, webdriver), webdriver);
    }
  }

  /// Whatever the arguments, a run gets consistent options.
  lemma CommandLineConsistent(args: seq<string>, webdriver: bool)
    ensures CommandLine(args, webdriver).Run? ==> Consistent(CommandLine(args, webdriver).config, webdriver)
  {
    FlagsRespectFeature(args, 1, webdriver);
    DecideConsistent(Flags(args, 1, webdriver), Defaults, webdriver);
  }

  /// Reading `fs` and then `gs` is reading `gs` from wherever `fs` left the
  /// options, unless `fs` already ended the run.
  lemma {:induction false} DecideAppend(fs: seq<Flag>, gs: seq<Flag>, c: Config)
    ensures Decide(fs + gs, c) == if Decide(fs, c).Run? then Decide(gs, Decide(fs, c).config) else Decide(fs, c)
    decreases |fs|
  {
    if fs != [] {
      assert (fs + gs)[0] == fs[0];
      assert (fs + gs)[1..] == fs[1..] + gs;
      if fs[0] != Help && fs[0] != Version {
        DecideAppend(fs[1..], gs, Apply(c, fs[0]));
      }
    } else {
      assert fs + gs == gs;
    }
  }

  /// Nothing after `--help` or `--version` is looked at.
  lemma HelpAndVersionStop(fs: seq<Flag>, rest: seq<Flag>, c: Config)
    requires Decide(fs, c).Run?
    ensures Decide(fs + [Help] + rest, c) == ShowHelp
    ensures Decide(fs + [Version] + rest, c) == ShowVersion
  {
    AppendRegroup(fs, [Help], rest);
    DecideAppend(fs, [Help] + rest, c);
    AppendRegroup(fs, [Version], rest);
    DecideAppend(fs, [Version] + rest, c);
  }

  /// `--app-mode` and `--webdriver` undo each other: whichever comes later
  /// decides whether the browser opens in app mode.
  lemma LaterOfAppModeAndWebdriverWins(fs: seq<Flag>, c: Config)
    requires Decide(fs, c).Run?
    ensures Decide(fs + [AppMode], c) == Run(Decide(fs, c).config.(appMode := true))
    ensures Decide(fs + [Webdriver], c) == Run(Decide(fs, c).config.(useWebdriver := true, appMode := false))
  {
    DecideAppend(fs, [AppMode], c);
    DecideAppend(fs, [Webdriver], c);
  }

  /// A port given last is the port used when it is valid; a port of 0 or
  /// one that does not parse leaves the previous port in place.
  lemma LastValidPortWins(fs: seq<Flag>, v: string, c: Config)
    requires Decide(fs, c).Run?
    ensures var port := ParseUnsigned(v, U16_MAX);
            var before := Decide(fs, c).config;
            Decide(fs + [WebPort(Some(v))], c) ==
              Run(if port.Some? && port.value > 0 then before.(webPort := port.value) else before)
  {
    DecideAppend(fs, [WebPort(Some(v))], c);
  }

  /// The argument after `--web-port` is its value even when it looks like a
  /// flag, so `--web-port --help` neither shows the help nor changes the port.
  lemma PortValueIsNotAFlag(webdriver: bool)
    ensures CommandLine(["ichimi", "--web-port", "--help"], webdriver) == Run(Defaults)
  {
    var args := ["ichimi", "--web-port", "--help"];
    assert Flags(args, 1, webdriver) == [WebPort(Some("--help"))];
  }

  /// `run_mcp`: the MCP server runs unless `--web-only` was given.
  function RunMcp(c: Config): bool
  {
    !c.webOnly
  }

  /// Logs go to a file when MCP owns standard I/O and no web server runs.
  function LogsToFile(c: Config): bool
  {
    RunMcp(c) && !c.webEnabled
  }

  /// With consistent options, logs go to a file exactly when the web server
  /// is off: `--web-only` never leaves the web server off.
  lemma LogsToFileExactlyWithoutWeb(c: Config, webdriver: bool)
    requires Consistent(c, webdriver)
    ensures LogsToFile(c) <==> !c.webEnabled
    ensures RunMcp(c) || c.webEnabled
  {
  }
}
