// The command line of the root crate's server binary
// (src/bin/ichimi_server.rs): the same one-pass argument loop as the
// `crates/ichimi` binary with a smaller set of flags, and the decision
// whether to open a browser.  As there, the arguments are read as flags
// (`Flags`) folded over the defaults (`Decide`), and `ParseArgs` is the
// index loop proved to compute that fold.

module RootCli {
  import opened Common

  const DefaultPort := 12700

  datatype Config = Config(webEnabled: bool, webPort: nat, autoOpen: bool)

  /// The web server is on when the binary is built with it, on the default
  /// port, opening a browser.
  function Defaults(webFeature: bool): Config
  {
    Config(webFeature, DefaultPort, true)
  }

  datatype Outcome = ShowHelp | ShowVersion | Run(config: Config)

  datatype Flag = Help | Version | Web | NoWeb | WebPort(value: Option<string>) | NoOpen | Ignored

  /// The flag a single argument names; `--web-port` is named without its
  /// value, which is the next argument.
  function FlagOf(arg: string): Flag
  {
    if arg == "--help" || arg == "-h" then Help
    else if arg == "--version" || arg == "-v" then Version
    else if arg == "--web" then Web
    else if arg == "--no-web" then NoWeb
    else if arg == "--web-port" then WebPort(None)
    else if arg == "--no-open" then NoOpen
    else Ignored
  }

  /// The flag read at index `i`, with its value when it is `--web-port`
  /// and another argument follows.
  function ReadAt(args: seq<string>, i: nat): Flag
    requires i < |args|
  {
    var flag := FlagOf(args[i]);
    if flag.WebPort? && i + 1 < |args| then WebPort(Some(args[i + 1])) else flag
  }

  /// The index reading goes on from after index `i`.
  function NextAt(args: seq<string>, i: nat): nat
    requires i < |args|
  {
    if FlagOf(args[i]).WebPort? && i + 1 < |args| then i + 2 else i + 1
  }

  /// The flags the arguments from index `i` on are read as.
  function Flags(args: seq<string>, i: nat): seq<Flag>
    decreases |args| - i
  {
    if i >= |args| then [] else [ReadAt(args, i)] + Flags(args, NextAt(args, i))
  }

  /// The effect of one flag.  A port value that does not parse as a 16-bit
  /// number sets the default port, whatever was set before; 0 is taken.
  function Apply(c: Config, f: Flag): Config
  {
    match f
    case Web => c.(webEnabled := true)
    case NoWeb => c.(webEnabled := false)
    case WebPort(None) => c
    case WebPort(Some(v)) =>
      var port := ParseUnsigned(v, U16_MAX);
      c.(webPort := if port.Some? then port.value else DefaultPort)
    case NoOpen => c.(autoOpen := false)
    case _ => c
  }

  /// The flags folded over `c` from the left; the first `--help` or
  /// `--version` ends the run there.
  function Decide(fs: seq<Flag>, c: Config): Outcome
    decreases |fs|
  {
    if fs == [] then Run(c)
    else if fs[0] == Help then ShowHelp
    else if fs[0] == Version then ShowVersion
    else Decide(fs[1..], Apply(c, fs[0]))
  }

  /// What the command line `args` (the program name first) asks for.
  function CommandLine(args: seq<string>, webFeature: bool): Outcome
  {
    Decide(Flags(args, 1), Defaults(webFeature))
  }

  /// One step of the fold over the command line.
  lemma DecideStep(args: seq<string>, i: nat, c: Config)
    requires i < |args|
    ensures var f := ReadAt(args, i);
            Decide(Flags(args, i), c) ==
              if f == Help then ShowHelp
              else if f == Version then ShowVersion
              else Decide(Flags(args, NextAt(args, i)), Apply(c, f))
  {
    var rest := Flags(args, NextAt(args, i));
    assert ([ReadAt(args, i)] + rest)[1..] == rest;
  }

  /// The argument loop of `main`.
  method ParseArgs(args: seq<string>, webFeature: bool) returns (o: Outcome)
    ensures o == CommandLine(args, webFeature)
    ensures o.Run? ==> o.config.webPort <= U16_MAX
  {
    var c := Defaults(webFeature);
    var i := 1;
    while i < |args|
      invariant 1 <= i
      invariant Decide(Flags(args, 1), Defaults(webFeature)) == Decide(Flags(args, i), c)
      invariant c.webPort <= U16_MAX
      decreases |args| - i
    {
      DecideStep(args, i, c);
      var stop;
      stop, c, i := HandleArg(args, i, c);
      if stop.Some? {
        return stop.value;
      }
      i := i + 1;
    }
    o := Run(c);
  }

  /// The body of the argument loop: the argument at index `i` either ends
  /// the run or updates the options; `last` is the last argument it used.
  method HandleArg(args: seq<string>, i: nat, c: Config)
    returns (stop: Option<Outcome>, c': Config, last: nat)
    requires i < |args|
    ensures ReadAt(args, i) == Help ==> stop == Some(ShowHelp)
    ensures ReadAt(args, i) == Version ==> stop == Some(ShowVersion)
    ensures ReadAt(args, i) != Help && ReadAt(args, i) != Version ==>
              stop == None && c' == Apply(c, ReadAt(args, i)) && last + 1 == NextAt(args, i)
    ensures c.webPort <= U16_MAX ==> c'.webPort <= U16_MAX
  {
    c', last, stop := c, i, None;
    match FlagOf(args[i]) {
      case Help =>
        stop := Some(ShowHelp);
      case Version =>
        stop := Some(ShowVersion);
      case Web =>
        c' := c.(webEnabled := true);
      case NoWeb =>
        c' := c.(webEnabled := false);
      case WebPort(_) =>
        if i + 1 < |args| {
          var port := ParseUnsigned(args[i + 1], U16_MAX);
          c' := c.(webPort := if port.Some? then port.value else DefaultPort);
          last := i + 1;
        }
      case NoOpen =>
        c' := c.(autoOpen := false);
      case Ignored =>
    }
  }

  /// Reading `fs` and then `gs` is reading `gs` from wherever `fs` left the
  /// options, unless `fs` already ended the run.
  lemma {:induction false} DecideAppend(fs: seq<Flag>, gs: seq<Flag>, c: Config)
    ensures Decide(fs + gs, c) == if Decide(fs, c).Run? then Decide(gs, Decide(fs, c).config) else Decide(fs, c)
    decreases |fs|
  {
    if fs != [] {
      assert (fs + gs)[0] == fs[0];
      assert (fs + gs)[1..] == fs[1..] + gs;
      if fs[0] != Help && fs[0] != Version {
        DecideAppend(fs[1..], gs, Apply(c, fs[0]));
      }
    } else {
      assert fs + gs == gs;
    }
  }

  /// `--web` and `--no-web` override each other: the later one decides.
  lemma LaterOfWebAndNoWebWins(fs: seq<Flag>, c: Config)
    requires Decide(fs, c).Run?
    ensures Decide(fs + [Web], c) == Run(Decide(fs, c).config.(webEnabled := true))
    ensures Decide(fs + [NoWeb], c) == Run(Decide(fs, c).config.(webEnabled := false))
  {
    DecideAppend(fs, [Web], c);
    DecideAppend(fs, [NoWeb], c);
  }

  /// A port value given last is used as parsed, 0 included; one that does
  /// not parse brings back the default port rather than the previous one.
  lemma LastPortWins(fs: seq<Flag>, v: string, c: Config)
    requires Decide(fs, c).Run?
    ensures ParseUnsigned(v, U16_MAX).Some? ==>
              Decide(fs + [WebPort(Some(v))], c) ==
                Run(Decide(fs, c).config.(webPort := ParseUnsigned(v, U16_MAX).value))
    ensures ParseUnsigned(v, U16_MAX).None? ==>
              Decide(fs + [WebPort(Some(v))], c) == Run(Decide(fs, c).config.(webPort := DefaultPort))
  {
    DecideAppend(fs, [WebPort(Some(v))], c);
  }

  /// Nothing after `--help` or `--version` is looked at.
  lemma HelpAndVersionStop(fs: seq<Flag>, rest: seq<Flag>, c: Config)
    requires Decide(fs, c).Run?
    ensures Decide(fs + [Help] + rest, c) == ShowHelp
    ensures Decide(fs + [Version] + rest, c) == ShowVersion
  {
    AppendRegroup(fs, [Help], rest);
    DecideAppend(fs, [Help] + rest, c);
    AppendRegroup(fs, [Version], rest);
    DecideAppend(fs, [Version] + rest, c);
  }

  /// Whether the server was started by an MCP client: one of the two
  /// environment variables such clients set is present.
  function IsMcp(env: map<string, string>): (mcp: bool)
    ensures mcp <==> "MCP_SERVER_NAME" in env || "CLAUDE_CODE" in env
  {
    "MCP_SERVER_NAME" in env || "CLAUDE_CODE" in env
  }

  /// The browser is opened only alongside the web server, only when not
  /// turned off, and never under an MCP client.
  function OpensBrowser(c: Config, env: map<string, string>): (opens: bool)
    ensures opens ==> c.webEnabled && c.autoOpen
    ensures opens <==> c.webEnabled && c.autoOpen && "MCP_SERVER_NAME" !in env && "CLAUDE_CODE" !in env
  {
    c.webEnabled && c.autoOpen && !IsMcp(env)
  }

  /// `--no-open` or `--no-web` given last keeps the browser closed whatever
  /// the environment.
  lemma NoOpenOrNoWebLastKeepsBrowserClosed(fs: seq<Flag>, c: Config, env: map<string, string>)
    requires Decide(fs, c).Run?
    ensures Decide(fs + [NoOpen], c).Run? && !OpensBrowser(Decide(fs + [NoOpen], c).config, env)
    ensures Decide(fs + [NoWeb], c).Run? && !OpensBrowser(Decide(fs + [NoWeb], c).config, env)
  {
    DecideAppend(fs, [NoOpen], c);
    DecideAppend(fs, [NoWeb], c);
  }
}
