/** The three subcommand actions and the top-level error handling of the
    galaxy binary. Each action reads its resolved options, selects the log
    level, validates, builds its subsystem's configuration and starts the
    subsystem. The subsystems themselves are not modelled: their calls are
    recorded, in order, as effects, and their results are inputs. */
module Actions {

  import opened Wrappers
  import opened Logging
  import opened GoStrings
  import opened Config
  import opened Commands

  /** A Go `error` value: nil, or an error with its message. */
  datatype Outcome = Ok | Err(message: string)

  /** What the unmodelled subsystems answer: the error of runner.New and
      the errors the three Start methods return. */
  datatype Subsystems = Subsystems(
    runnerNew: Outcome,
    runnerStart: Outcome,
    proxyStart: Outcome,
    serverStart: Outcome)

  /** An observable step of the process: a log line, a logrus.SetLevel call,
      a call into a subsystem, or process termination through os.Exit. */
  datatype Effect =
    | Log(severity: Level, text: string)
    | LevelSet(level: Level)
    | NewRunner(runnerConfig: RunnerConfig)
    | StartRunner
    | NewProxy(addr: string, token: string)
    | StartProxy
    | NewServer(serverConfig: ServerConfig)
    | StartServer
    | Exit(code: int)

  /** Whether `e` is a call into the runner, proxy or server subsystem. */
  predicate IsSubsystemCall(e: Effect)
  {
    e.NewRunner? || e.StartRunner? || e.NewProxy? || e.StartProxy? || e.NewServer? || e.StartServer?
  }

  /** How an action ends: by returning an error value to the caller, or by
      terminating the process itself. */
  datatype Ending = Returned(err: Outcome) | Exited(code: int)

  /** The level in force after an action, what it did, and how it ended. */
  datatype Step = Step(level: Level, effects: seq<Effect>, ending: Ending)

  /** The level in force when the process ends, what it did, and its exit status. */
  datatype Finish = Finish(level: Level, effects: seq<Effect>, exitCode: int)

  const InvalidTokenMessage: string := "invalid token provided"
  const DefaultingText: string := "Defaulting to `info` level"

  function InvalidLevelText(name: string): string
  {
    "Invalid log level (" + name + ") provided"
  }

  function RunnerFailureText(message: string): string
  {
    "Failed to start runner - " + message
  }

  function FatalText(message: string): string
  {
    "Failed to start galaxy: " + message
  }

  // ---------------------------------------------------------------------
  // Token shape

  /** The proxy's token check: splitting on "." must give three pieces. */
  predicate ValidToken(token: string)
  {
    |Split(token, '.')| == 3
  }

  /** A token passes exactly when it holds two dots. */
  lemma ValidTokenDots(token: string)
    ensures ValidToken(token) <==> Count(token, '.') == 2
  {
  }

  /** A token passes exactly when it is three dot-free pieces, empty ones
      included, joined by dots. */
  lemma ValidTokenShape(token: string)
    ensures ValidToken(token) <==>
      exists parts: seq<string> ::
        |parts| == 3 && (forall i :: 0 <= i < 3 ==> '.' !in parts[i]) && Join(parts, '.') == token
  {
    if ValidToken(token) {
      var parts := Split(token, '.');
      JoinSplit(token, '.');
      assert |parts| == 3 && (forall i :: 0 <= i < 3 ==> '.' !in parts[i]) && Join(parts, '.') == token;
    }
    if exists parts: seq<string> ::
        |parts| == 3 && (forall i :: 0 <= i < 3 ==> '.' !in parts[i]) && Join(parts, '.') == token
    {
      var parts: seq<string> :|
        |parts| == 3 && (forall i :: 0 <= i < 3 ==> '.' !in parts[i]) && Join(parts, '.') == token;
      SplitJoin(parts, '.');
    }
  }

  /** Segment contents do not matter, empty segments count, and only the
      number of dots decides. */
  lemma TokenExamples()
    ensures !ValidToken("") && !ValidToken("a.b") && !ValidToken("a.b.c.d")
    ensures ValidToken("a.b.c") && ValidToken("..")
  {
    ValidTokenDots("");
    ValidTokenDots("a.b");
    ValidTokenDots("a.b.c.d");
    ValidTokenDots("a.b.c");
    ValidTokenDots("..");
  }

  // ---------------------------------------------------------------------
  // Log-level selection

  /** The line a logger at level `current` writes for a message, if any. */
  function Emit(severity: Level, text: string, current: Level): seq<Effect>
  {
    if Enabled(severity, current) then [Log(severity, text)] else []
  }

  /** What selecting the level `name` does when `current` is in force: a
      recognised name only sets its level; any other reports the bad value
      at error severity, announces the fallback, and sets Info. */
  function LevelEffects(name: string, current: Level): seq<Effect>
  {
    match ParseLevel(name)
    case Some(l) => [LevelSet(l)]
    case None =>
      Emit(Error, InvalidLevelText(name), current) + Emit(Info, DefaultingText, current) + [LevelSet(Info)]
  }

  /** Level selection never fails: it always ends by setting the level it
      selects, and everything before that is a log line. */
  lemma LevelEffectsShape(name: string, current: Level)
    ensures var t := LevelEffects(name, current);
      && |t| >= 1 && t[|t| - 1] == LevelSet(LevelFor(name))
      && forall i :: 0 <= i < |t| - 1 ==> t[i].Log?
  {
  }

  /** A recognised name sets its level and writes nothing. */
  lemma LevelEffectsRecognised(l: Level, current: Level)
    requires l != Fatal
    ensures LevelEffects(LevelName(l), current) == [LevelSet(l)]
  {
  }

  /** From the level a process starts with, an unrecognised name writes the
      error line and then the notice, and then sets Info. */
  lemma LevelEffectsFallback(name: string)
    requires ParseLevel(name).None?
    ensures LevelEffects(name, InitialLevel) ==
      [Log(Error, InvalidLevelText(name)), Log(Info, DefaultingText), LevelSet(Info)]
  {
  }

  // ---------------------------------------------------------------------
  // Reading options

  function ReadRunnerOptions(c: Context): RunnerOptions
  {
    RunnerOptions(
      String(c, "port"), String(c, "proxy-port"), String(c, "log-level"),
      String(c, "jwt-algo"), String(c, "jwt-secret"), String(c, "jwt-proxy-secret"),
      String(c, "driver"), String(c, "driver-config"), Bool(c, "outside-cluster"))
  }

  function ReadProxyOptions(c: Context): ProxyOptions
  {
    ProxyOptions(String(c, "addr"), String(c, "token"), String(c, "log-level"))
  }

  function ReadServerOptions(c: Context): ServerOptions
  {
    ServerOptions(String(c, "port"), String(c, "log-level"))
  }

  // ---------------------------------------------------------------------
  // What each action does

  function RunnerStep(c: Context, sub: Subsystems, current: Level): Step
  {
    var o := ReadRunnerOptions(c);
    var level := LevelFor(o.logLevel);
    var built := LevelEffects(o.logLevel, current) + [NewRunner(BuildRunnerConfig(o))];
    match sub.runnerNew
    case Err(message) =>
      Step(level, built + Emit(Error, RunnerFailureText(message), level) + [Exit(-1)], Exited(-1))
    case Ok =>
      Step(level, built + [StartRunner], Returned(sub.runnerStart))
  }

  function ProxyStep(c: Context, sub: Subsystems, current: Level): Step
  {
    var o := ReadProxyOptions(c);
    var level := LevelFor(o.logLevel);
    var configured := LevelEffects(o.logLevel, current);
    if !ValidToken(o.token) then
      Step(level, configured, Returned(Err(InvalidTokenMessage)))
    else
      Step(level, configured + [NewProxy(o.addr, o.token), StartProxy], Returned(sub.proxyStart))
  }

  function ServerStep(c: Context, sub: Subsystems, current: Level): Step
  {
    var o := ReadServerOptions(c);
    var level := LevelFor(o.logLevel);
    Step(level, LevelEffects(o.logLevel, current) + [NewServer(BuildServerConfig(o)), StartServer],
         Returned(sub.serverStart))
  }

  function ActionStep(kind: ActionKind, c: Context, sub: Subsystems, current: Level): Step
  {
    match kind
    case RunnerAction => RunnerStep(c, sub, current)
    case ProxyAction => ProxyStep(c, sub, current)
    case ServerAction => ServerStep(c, sub, current)
  }

  /** The whole run of the subcommand `cmd`: its action, then, if the action
      returned an error, the fatal log line and exit status 1. */
  function MainStep(cmd: Command, c: Context, sub: Subsystems, current: Level): Finish
  {
    var s := ActionStep(cmd.action, c, sub, current);
    match s.ending
    case Exited(code) => Finish(s.level, s.effects, code)
    case Returned(Ok) => Finish(s.level, s.effects, 0)
    case Returned(Err(message)) =>
      Finish(s.level, s.effects + Emit(Fatal, FatalText(message), s.level) + [Exit(1)], 1)
  }

  // ---------------------------------------------------------------------
  // Properties of the actions

  /** Every call into a subsystem comes after the log level has been set. */
  predicate LoggingConfiguredFirst(t: seq<Effect>)
  {
    forall i :: 0 <= i < |t| && IsSubsystemCall(t[i]) ==> exists j :: 0 <= j < i && t[j].LevelSet?
  }

  lemma {:induction false} ConfiguredPrefix(pre: seq<Effect>, rest: seq<Effect>)
    requires |pre| >= 1 && pre[|pre| - 1].LevelSet?
    requires forall i :: 0 <= i < |pre| ==> !IsSubsystemCall(pre[i])
    ensures LoggingConfiguredFirst(pre + rest)
  {
    var t := pre + rest;
    forall i | 0 <= i < |t| && IsSubsystemCall(t[i])
      ensures exists j :: 0 <= j < i && t[j].LevelSet?
    {
      assert i >= |pre|;
      assert t[|pre| - 1] == pre[|pre| - 1];
    }
  }

  /** Every action, and so every run, sets the log level before it calls
      into any subsystem, and leaves the selected level in force. */
  lemma ActionsConfigureLoggingFirst(kind: ActionKind, c: Context, sub: Subsystems, current: Level)
    ensures LoggingConfiguredFirst(ActionStep(kind, c, sub, current).effects)
    ensures ActionStep(kind, c, sub, current).level == LevelFor(String(c, "log-level"))
  {
    var name := String(c, "log-level");
    var pre := LevelEffects(name, current);
    LevelEffectsShape(name, current);
    var s := ActionStep(kind, c, sub, current);
    assert s.effects == pre + s.effects[|pre|..];
    ConfiguredPrefix(pre, s.effects[|pre|..]);
  }

  /** The runner subsystem is always created, from the configuration the
      options describe. When creation succeeds the runner is started right
      after it and the action returns what starting returns; when creation
      fails, the failure is logged right after it and the process exits
      with -1. */
  lemma RunnerCreateThenStart(c: Context, sub: Subsystems, current: Level)
    ensures var s := RunnerStep(c, sub, current);
      var created := NewRunner(BuildRunnerConfig(ReadRunnerOptions(c)));
      && (sub.runnerNew.Ok? ==>
            && s.ending == Returned(sub.runnerStart)
            && s.effects[|s.effects| - 2..] == [created, StartRunner])
      && (sub.runnerNew.Err? ==>
            && s.ending == Exited(-1)
            && s.effects[|s.effects| - 3..] ==
                 [created, Log(Error, RunnerFailureText(sub.runnerNew.message)), Exit(-1)])
  {
    var s := RunnerStep(c, sub, current);
    var o := ReadRunnerOptions(c);
    var created := NewRunner(BuildRunnerConfig(o));
    var pre := LevelEffects(o.logLevel, current);
    var tail := if sub.runnerNew.Err?
      then [created, Log(Error, RunnerFailureText(sub.runnerNew.message)), Exit(-1)]
      else [created, StartRunner];
    if sub.runnerNew.Err? {
      assert LevelFor(o.logLevel) != Fatal;
    }
    assert s.effects == pre + tail;
    assert s.effects[|pre|..] == tail;
  }

  /** The runner is started exactly when its creation succeeds, and the
      process exits with -1 exactly when creation fails. */
  lemma RunnerStartedIffCreated(c: Context, sub: Subsystems, current: Level)
    ensures var s := RunnerStep(c, sub, current);
      && NewRunner(BuildRunnerConfig(ReadRunnerOptions(c))) in s.effects
      && (StartRunner in s.effects <==> sub.runnerNew.Ok?)
      && (Exit(-1) in s.effects <==> sub.runnerNew.Err?)
  {
    var s := RunnerStep(c, sub, current);
    var o := ReadRunnerOptions(c);
    var pre := LevelEffects(o.logLevel, current);
    LevelEffectsShape(o.logLevel, current);
    assert s.effects[|pre|] == NewRunner(BuildRunnerConfig(o));
    assert StartRunner !in pre && Exit(-1) !in pre;
  }

  /** The runner's configuration: the runner authentication role, the
      in-cluster setting as the negation of outside-cluster, everything else
      copied from the options. */
  lemma RunnerConfigFromOptions(o: RunnerOptions)
    ensures var cfg := BuildRunnerConfig(o);
      && cfg.auth.mode == RunnerAuth
      && (cfg.driver.isInCluster <==> !o.outsideCluster)
      && cfg.auth.jwtAlgorithm == o.jwtAlgo && cfg.auth.secret == o.jwtSecret
      && cfg.auth.proxySecret == o.jwtProxySecret
      && cfg.driver.driverType == o.driver && cfg.driver.configFilePath == o.driverConfig
      && cfg.port == o.port && cfg.proxyPort == o.proxyPort
  {
  }

  /** A malformed token makes the proxy action return "invalid token
      provided" after the log level has been set, without touching the proxy
      subsystem; a well-formed one creates the proxy from the address and
      token and returns what starting it returns. */
  lemma ProxyTokenGate(c: Context, sub: Subsystems, current: Level)
    ensures var s := ProxyStep(c, sub, current);
      var o := ReadProxyOptions(c);
      && s.level == LevelFor(o.logLevel)
      && (!ValidToken(o.token) ==>
            && s.ending == Returned(Err(InvalidTokenMessage))
            && (forall i :: 0 <= i < |s.effects| ==> !IsSubsystemCall(s.effects[i]))
            && LevelSet(s.level) in s.effects)
      && (ValidToken(o.token) ==>
            && s.ending == Returned(sub.proxyStart)
            && s.effects[|s.effects| - 2..] == [NewProxy(o.addr, o.token), StartProxy])
  {
    var o := ReadProxyOptions(c);
    LevelEffectsShape(o.logLevel, current);
  }

  /** The server is created with the port option unchanged and then started. */
  lemma ServerCreateThenStart(c: Context, sub: Subsystems, current: Level)
    ensures var s := ServerStep(c, sub, current);
      && s.effects[|s.effects| - 2..] == [NewServer(ServerConfig(String(c, "port"))), StartServer]
      && s.ending == Returned(sub.serverStart)
  {
  }

  /** A run exits with status 0 exactly when its action returned no error.
      An action's error is logged as fatal and ends the process with status
      1; a runner whose creation failed has already exited with -1. */
  lemma MainExitStatus(cmd: Command, c: Context, sub: Subsystems, current: Level)
    ensures var s := ActionStep(cmd.action, c, sub, current);
      var f := MainStep(cmd, c, sub, current);
      && (f.exitCode == 0 <==> s.ending == Returned(Ok))
      && (s.ending.Returned? && s.ending.err.Err? ==>
            && f.exitCode == 1
            && f.effects == s.effects + [Log(Fatal, FatalText(s.ending.err.message)), Exit(1)])
      && (s.ending.Exited? ==> f.exitCode == s.ending.code && f.effects == s.effects)
  {
    var s := ActionStep(cmd.action, c, sub, current);
    if s.ending.Exited? {
      assert cmd.action == RunnerAction;
      assert s.ending.code == -1;
    }
  }

  /** Invoking the proxy with its defaults is rejected: the empty default
      token fails the shape check, so the run logs the fatal error and exits
      with status 1 without touching the proxy subsystem. */
  lemma DefaultProxyRejected(sub: Subsystems)
    ensures MainStep(ProxyCommand(), Defaults(ProxyCommand().flags), sub, InitialLevel) ==
      Finish(Info, [LevelSet(Info), Log(Fatal, FatalText(InvalidTokenMessage)), Exit(1)], 1)
  {
    ProxyDefaults();
    TokenExamples();
  }

  /** Running a command with its default options never reports an invalid
      log level: the level is set to Info and nothing else is logged first. */
  lemma DefaultsNeverWarn(cmd: Command, sub: Subsystems, current: Level)
    requires cmd in AppCommands()
    ensures var s := ActionStep(cmd.action, Defaults(cmd.flags), sub, current);
      s.effects[0] == LevelSet(Info) && s.level == Info
  {
    DefaultLogLevelsRecognised(cmd);
  }

  /** The runner started with its defaults gets the stock configuration. */
  lemma DefaultRunnerConfig()
    ensures BuildRunnerConfig(ReadRunnerOptions(Defaults(RunnerCommand().flags))) ==
      RunnerConfig("4050", "4055",
        AuthConfig(RunnerAuth, "hs256", "some-secret", "some-proxy-secret"),
        DriverConfig("istio", "", true))
  {
    RunnerDefaults();
  }

  // ---------------------------------------------------------------------
  // The process

  /** The process-wide logger level and everything the process has done so far. */
  class Process {
    var level: Level
    var trace: seq<Effect>

    constructor ()
      ensures level == InitialLevel && trace == []
    {
      level := InitialLevel;
      trace := [];
    }

    /** Writes a log line if the current level lets it through. */
    method Write(severity: Level, text: string)
      modifies this
      ensures level == old(level)
      ensures trace == old(trace) + Emit(severity, text, old(level))
    {
      if Enabled(severity, level) {
        trace := trace + [Log(severity, text)];
      }
    }

    /** Overwrites the process-wide level from a log-level option value. */
    method SetLogLevel(name: string)
      modifies this
      ensures level == LevelFor(name)
      ensures trace == old(trace) + LevelEffects(name, old(level))
    {
      if name == LevelDebugName {
        level := Debug;
      } else if name == LevelInfoName {
        level := Info;
      } else if name == LevelErrorName {
        level := Error;
      } else {
        Write(Error, InvalidLevelText(name));
        Write(Info, DefaultingText);
        level := Info;
      }
      trace := trace + [LevelSet(level)];
    }

    method ActionRunner(c: Context, sub: Subsystems) returns (r: Ending)
      modifies this
      ensures var s := RunnerStep(c, sub, old(level));
        level == s.level && trace == old(trace) + s.effects && r == s.ending
    {
      var port := String(c, "port");
      var proxyPort := String(c, "proxy-port");
      var logLevel := String(c, "log-level");

      var jwtAlgo := String(c, "jwt-algo");
      var jwtSecret := String(c, "jwt-secret");
      var jwtProxySecret := String(c, "jwt-proxy-secret");

      var driverType := String(c, "driver");
      var driverConfig := String(c, "driver-config");
      var outsideCluster := Bool(c, "outside-cluster");

      SetLogLevel(logLevel);

      var cfg := RunnerConfig(
        port, proxyPort,
        AuthConfig(RunnerAuth, jwtAlgo, jwtSecret, jwtProxySecret),
        DriverConfig(driverType, driverConfig, !outsideCluster));
      trace := trace + [NewRunner(cfg)];
      if sub.runnerNew.Err? {
        Write(Error, RunnerFailureText(sub.runnerNew.message));
        trace := trace + [Exit(-1)];
        return Exited(-1);
      }

      trace := trace + [StartRunner];
      return Returned(sub.runnerStart);
    }

    method ActionProxy(c: Context, sub: Subsystems) returns (r: Ending)
      modifies this
      ensures var s := ProxyStep(c, sub, old(level));
        level == s.level && trace == old(trace) + s.effects && r == s.ending
    {
      var addr := String(c, "addr");
      var token := String(c, "token");
      var logLevel := String(c, "log-level");

      SetLogLevel(logLevel);

      if |Split(token, '.')| != 3 {
        return Returned(Err(InvalidTokenMessage));
      }

      trace := trace + [NewProxy(addr, token), StartProxy];
      return Returned(sub.proxyStart);
    }

    method ActionServer(c: Context, sub: Subsystems) returns (r: Ending)
      modifies this
      ensures var s := ServerStep(c, sub, old(level));
        level == s.level && trace == old(trace) + s.effects && r == s.ending
    {
      var port := String(c, "port");
      var logLevel := String(c, "log-level");

      SetLogLevel(logLevel);

      trace := trace + [NewServer(ServerConfig(port)), StartServer];
      return Returned(sub.serverStart);
    }

    /** Runs the subcommand called `name` and returns the process's exit
        status; an error returned by its action is logged as fatal and ends
        the process with status 1. */
    method Run(name: string, c: Context, sub: Subsystems) returns (code: int)
      requires FindCommand(AppCommands(), name).Some?
      modifies this
      ensures var f := MainStep(FindCommand(AppCommands(), name).value, c, sub, old(level));
        level == f.level && trace == old(trace) + f.effects && code == f.exitCode
    {
      var cmd := FindCommand(AppCommands(), name).value;
      ghost var s := ActionStep(cmd.action, c, sub, level);
      var r: Ending;
      match cmd.action {
        case RunnerAction => r := ActionRunner(c, sub);
        case ProxyAction => r := ActionProxy(c, sub);
        case ServerAction => r := ActionServer(c, sub);
      }
      assert level == s.level && trace == old(trace) + s.effects && r == s.ending;
      match r {
        case Exited(status) =>
          code := status;
        case Returned(Ok) =>
          code := 0;
        case Returned(Err(message)) =>
          Write(Fatal, FatalText(message));
          trace := trace + [Exit(1)];
          code := 1;
      }
    }
  }
}
