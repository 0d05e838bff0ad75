/** The command table of the galaxy binary: its three subcommands, their
    options with environment variables and default values, and the
    resolved option values an action reads. */
module Commands {

  import opened Wrappers
  import opened Logging

  /** An option of a subcommand. A string option without a given default
      defaults to the empty string; a boolean option defaults to false. */
  datatype FlagSpec =
    | StringFlag(name: string, envVar: string, value: string)
    | BoolFlag(name: string, envVar: string)

  /** The action a subcommand is bound to. */
  datatype ActionKind = RunnerAction | ProxyAction | ServerAction

  datatype Command = Command(name: string, flags: seq<FlagSpec>, action: ActionKind)

  function RunnerCommand(): Command
  {
    Command("runner", [
      StringFlag("port", "PORT", "4050"),
      StringFlag("proxy-port", "PROXY_PORT", "4055"),
      StringFlag("log-level", "LOG_LEVEL", LevelInfoName),
      StringFlag("jwt-algo", "JWT_ALGO", "hs256"),
      StringFlag("jwt-secret", "JWT_SECRET", "some-secret"),
      StringFlag("jwt-proxy-secret", "JWT_PROXY_SECRET", "some-proxy-secret"),
      StringFlag("driver", "DRIVER", "istio"),
      StringFlag("driver-config", "DRIVER_CONFIG", ""),
      BoolFlag("outside-cluster", "OUTSIDE_CLUSTER")
    ], RunnerAction)
  }

  function ProxyCommand(): Command
  {
    Command("proxy", [
      StringFlag("addr", "ADDR", "runner.galaxy.svc.cluster.local:4050"),
      StringFlag("token", "TOKEN", ""),
      StringFlag("log-level", "LOG_LEVEL", LevelInfoName)
    ], ProxyAction)
  }

  function ServerCommand(): Command
  {
    Command("server", [
      StringFlag("port", "PORT", "4050"),
      StringFlag("log-level", "LOG_LEVEL", LevelInfoName)
    ], ServerAction)
  }

  /** The application's subcommands, in the order they are registered. */
  function AppCommands(): seq<Command>
  {
    [RunnerCommand(), ProxyCommand(), ServerCommand()]
  }

  /** The first element of `xs` whose name is `name`. */
  function Find<T>(xs: seq<T>, nameOf: T -> string, name: string): (r: Option<T>)
    ensures r.Some? ==> r.value in xs && nameOf(r.value) == name
    ensures r.None? ==> forall i :: 0 <= i < |xs| ==> nameOf(xs[i]) != name
  {
    if |xs| == 0 then None
    else if nameOf(xs[0]) == name then Some(xs[0])
    else Find(xs[1..], nameOf, name)
  }

  /** The command the command line selects by name. */
  function FindCommand(cmds: seq<Command>, name: string): Option<Command>
  {
    Find(cmds, (cmd: Command) => cmd.name, name)
  }

  /** The first option in `flags` called `name`. */
  function FindFlag(flags: seq<FlagSpec>, name: string): Option<FlagSpec>
  {
    Find(flags, (f: FlagSpec) => f.name, name)
  }

  /** A resolved option value. */
  datatype Value = Text(text: string) | Switch(on: bool)

  /** The resolved values of the selected command's options, by option name. */
  type Context = map<string, Value>

  /** The value of a string option, or the empty string when there is none. */
  function String(c: Context, name: string): string
  {
    if name in c && c[name].Text? then c[name].text else ""
  }

  /** The value of a boolean option, or false when there is none. */
  function Bool(c: Context, name: string): bool
  {
    name in c && c[name].Switch? && c[name].on
  }

  function DefaultValue(f: FlagSpec): Value
  {
    match f
    case StringFlag(_, _, v) => Text(v)
    case BoolFlag(_, _) => Switch(false)
  }

  /** The option values in force when neither a flag nor an environment
      variable overrides any option: every option at its default. */
  function Defaults(flags: seq<FlagSpec>): Context
  {
    if |flags| == 0 then map[]
    else Defaults(flags[1..])[flags[0].name := DefaultValue(flags[0])]
  }

  /** An option has a default value exactly when it is declared, and the
      default of its first declaration is the one in force. */
  lemma {:induction false} DefaultsLookup(flags: seq<FlagSpec>, name: string)
    ensures name in Defaults(flags) <==> FindFlag(flags, name).Some?
    ensures name in Defaults(flags) ==> Defaults(flags)[name] == DefaultValue(FindFlag(flags, name).value)
  {
    if |flags| > 0 {
      DefaultsLookup(flags[1..], name);
    }
  }

  /** The environment variable an option of `cmd` is read from, if the option exists. */
  function EnvVarOf(cmd: Command, name: string): Option<string>
  {
    match FindFlag(cmd.flags, name)
    case Some(f) => Some(f.envVar)
    case None => None
  }

  /** No command declares the same option twice. */
  predicate DistinctFlagNames(flags: seq<FlagSpec>)
  {
    forall i, j :: 0 <= i < j < |flags| ==> flags[i].name != flags[j].name
  }

  /** There are exactly three commands, runner, proxy and server, each bound
      to its own action, and the name lookup finds each of them. */
  lemma CommandTable()
    ensures |AppCommands()| == 3
    ensures FindCommand(AppCommands(), "runner") == Some(RunnerCommand())
    ensures FindCommand(AppCommands(), "proxy") == Some(ProxyCommand())
    ensures FindCommand(AppCommands(), "server") == Some(ServerCommand())
    ensures RunnerCommand().action == RunnerAction
    ensures ProxyCommand().action == ProxyAction
    ensures ServerCommand().action == ServerAction
  {
  }

  /** Any other name selects no command. */
  lemma OnlyThreeCommands(name: string)
    requires FindCommand(AppCommands(), name).Some?
    ensures name in {"runner", "proxy", "server"}
  {
  }

  /** Option names are unique within each command. */
  lemma FlagNamesDistinct()
    ensures DistinctFlagNames(RunnerCommand().flags)
    ensures DistinctFlagNames(ProxyCommand().flags)
    ensures DistinctFlagNames(ServerCommand().flags)
  {
  }

  /** Among options with distinct names, each is found by its own name. */
  lemma {:induction false} FindDistinct(flags: seq<FlagSpec>, i: nat)
    requires i < |flags| && DistinctFlagNames(flags)
    ensures FindFlag(flags, flags[i].name) == Some(flags[i])
  {
    if i > 0 {
      assert flags[0].name != flags[i].name;
      assert flags[1..][i - 1] == flags[i];
      FindDistinct(flags[1..], i - 1);
    }
  }

  /** The value an option takes by default is the one its declaration gives. */
  lemma DefaultOfDeclared(flags: seq<FlagSpec>, name: string, f: FlagSpec)
    requires FindFlag(flags, name) == Some(f)
    ensures f.StringFlag? ==> String(Defaults(flags), name) == f.value
    ensures f.BoolFlag? ==> !Bool(Defaults(flags), name)
  {
    DefaultsLookup(flags, name);
  }

  /** Where each runner option is declared. */
  lemma RunnerFlagPositions()
    ensures var flags := RunnerCommand().flags;
      && FindFlag(flags, "port") == Some(flags[0])
      && FindFlag(flags, "proxy-port") == Some(flags[1])
      && FindFlag(flags, "log-level") == Some(flags[2])
      && FindFlag(flags, "jwt-algo") == Some(flags[3])
      && FindFlag(flags, "jwt-secret") == Some(flags[4])
      && FindFlag(flags, "jwt-proxy-secret") == Some(flags[5])
      && FindFlag(flags, "driver") == Some(flags[6])
      && FindFlag(flags, "driver-config") == Some(flags[7])
      && FindFlag(flags, "outside-cluster") == Some(flags[8])
  {
    FlagNamesDistinct();
    var flags := RunnerCommand().flags;
    FindDistinct(flags, 0);
    FindDistinct(flags, 1);
    FindDistinct(flags, 2);
    FindDistinct(flags, 3);
    FindDistinct(flags, 4);
    FindDistinct(flags, 5);
    FindDistinct(flags, 6);
    FindDistinct(flags, 7);
    FindDistinct(flags, 8);
  }

  /** Where each proxy option is declared. */
  lemma ProxyFlagPositions()
    ensures var flags := ProxyCommand().flags;
      && FindFlag(flags, "addr") == Some(flags[0])
      && FindFlag(flags, "token") == Some(flags[1])
      && FindFlag(flags, "log-level") == Some(flags[2])
  {
    FlagNamesDistinct();
    var flags := ProxyCommand().flags;
    FindDistinct(flags, 0);
    FindDistinct(flags, 1);
    FindDistinct(flags, 2);
  }

  /** Where each server option is declared. */
  lemma ServerFlagPositions()
    ensures var flags := ServerCommand().flags;
      && FindFlag(flags, "port") == Some(flags[0])
      && FindFlag(flags, "log-level") == Some(flags[1])
  {
    FlagNamesDistinct();
    var flags := ServerCommand().flags;
    FindDistinct(flags, 0);
    FindDistinct(flags, 1);
  }

  /** The runner command's defaults: ports 4050 and 4055, log level info,
      the hs256 algorithm with the stock secrets, the istio driver without a
      configuration file, and running inside the cluster. */
  lemma RunnerDefaults()
    ensures var c := Defaults(RunnerCommand().flags);
      && String(c, "port") == "4050"
      && String(c, "proxy-port") == "4055"
      && String(c, "log-level") == "info"
      && String(c, "jwt-algo") == "hs256"
      && String(c, "jwt-secret") == "some-secret"
      && String(c, "jwt-proxy-secret") == "some-proxy-secret"
      && String(c, "driver") == "istio"
      && String(c, "driver-config") == ""
      && !Bool(c, "outside-cluster")
  {
    RunnerFlagPositions();
    var flags := RunnerCommand().flags;
    DefaultOfDeclared(flags, "port", flags[0]);
    DefaultOfDeclared(flags, "proxy-port", flags[1]);
    DefaultOfDeclared(flags, "log-level", flags[2]);
    DefaultOfDeclared(flags, "jwt-algo", flags[3]);
    DefaultOfDeclared(flags, "jwt-secret", flags[4]);
    DefaultOfDeclared(flags, "jwt-proxy-secret", flags[5]);
    DefaultOfDeclared(flags, "driver", flags[6]);
    DefaultOfDeclared(flags, "driver-config", flags[7]);
    DefaultOfDeclared(flags, "outside-cluster", flags[8]);
  }

  /** The proxy command's defaults: the in-cluster runner address and an
      empty token. */
  lemma ProxyDefaults()
    ensures var c := Defaults(ProxyCommand().flags);
      && String(c, "addr") == "runner.galaxy.svc.cluster.local:4050"
      && String(c, "token") == ""
      && String(c, "log-level") == "info"
  {
    ProxyFlagPositions();
    var flags := ProxyCommand().flags;
    DefaultOfDeclared(flags, "addr", flags[0]);
    DefaultOfDeclared(flags, "token", flags[1]);
    DefaultOfDeclared(flags, "log-level", flags[2]);
  }

  /** The server command's defaults. */
  lemma ServerDefaults()
    ensures var c := Defaults(ServerCommand().flags);
      && String(c, "port") == "4050"
      && String(c, "log-level") == "info"
  {
    ServerFlagPositions();
    var flags := ServerCommand().flags;
    DefaultOfDeclared(flags, "port", flags[0]);
    DefaultOfDeclared(flags, "log-level", flags[1]);
  }

  /** Every command's default log level is one the level selection
      recognises, and it is Info. */
  lemma DefaultLogLevelsRecognised(cmd: Command)
    requires cmd in AppCommands()
    ensures ParseLevel(String(Defaults(cmd.flags), "log-level")) == Some(Info)
  {
    if cmd == RunnerCommand() {
      RunnerDefaults();
    } else if cmd == ProxyCommand() {
      ProxyDefaults();
    } else {
      ServerDefaults();
    }
    assert String(Defaults(cmd.flags), "log-level") == LevelInfoName;
  }

  /** The environment variables the options are read from; runner and
      server both read their port from PORT, and every command reads its
      log level from LOG_LEVEL. */
  lemma EnvironmentVariables()
    ensures EnvVarOf(RunnerCommand(), "port") == Some("PORT")
    ensures EnvVarOf(RunnerCommand(), "proxy-port") == Some("PROXY_PORT")
    ensures EnvVarOf(RunnerCommand(), "log-level") == Some("LOG_LEVEL")
    ensures EnvVarOf(RunnerCommand(), "jwt-algo") == Some("JWT_ALGO")
    ensures EnvVarOf(RunnerCommand(), "jwt-secret") == Some("JWT_SECRET")
    ensures EnvVarOf(RunnerCommand(), "jwt-proxy-secret") == Some("JWT_PROXY_SECRET")
    ensures EnvVarOf(RunnerCommand(), "driver") == Some("DRIVER")
    ensures EnvVarOf(RunnerCommand(), "driver-config") == Some("DRIVER_CONFIG")
    ensures EnvVarOf(RunnerCommand(), "outside-cluster") == Some("OUTSIDE_CLUSTER")
    ensures EnvVarOf(ProxyCommand(), "addr") == Some("ADDR")
    ensures EnvVarOf(ProxyCommand(), "token") == Some("TOKEN")
    ensures EnvVarOf(ProxyCommand(), "log-level") == Some("LOG_LEVEL")
    ensures EnvVarOf(ServerCommand(), "port") == Some("PORT")
    ensures EnvVarOf(ServerCommand(), "log-level") == Some("LOG_LEVEL")
  {
    RunnerFlagPositions();
    ProxyFlagPositions();
    ServerFlagPositions();
  }
}
