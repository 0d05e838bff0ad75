# galaxy command-line front end, modelled in Dafny

The `galaxy` binary starts one of three subsystems, selected by subcommand:
a **runner** (deployment orchestration), a **proxy** (relays metrics to a
runner, authenticating with a token) or a **server**. This project models
the front end's own decision logic:

- the command table: the three subcommands, their options, the environment
  variables those options are read from, and their default values;
- log-level selection: an exact, case-sensitive match of `debug`, `info`
  and `error`, with a logged fallback to Info for anything else;
- the proxy token shape check, through a model of Go's `strings.Split`;
- the configuration records each action builds from its options;
- the order in which each action sets the log level, validates, creates
  and starts its subsystem, and how errors end the process.

The subsystems are not modelled. Their calls are recorded, in order, in an
effect trace (`NewRunner(cfg)`, `StartRunner`, `NewProxy(addr, token)`,
`StartProxy`, `NewServer(cfg)`, `StartServer`). The same trace records log
lines, `logrus.SetLevel` calls and `Exit(code)`. What a subsystem answers
(the error from `runner.New` and the errors from the three `Start` calls)
is an input, the `Subsystems` record.

Files:

- `GoStrings.dfy`: `Split`, `Count` and `Join` on strings with a
  one-character separator, and their round trips.
- `Logging.dfy`: the logrus severities, which messages a level lets
  through, and recognition of the log-level option value.
- `Config.dfy`: the option records and the `RunnerConfig`, `AuthConfig`,
  `DriverConfig` and `ServerConfig` records the actions build.
- `Commands.dfy`: the command table from `main.go`, resolved option values
  (`Context`), and the defaults.
- `Actions.dfy`: a pure description of each action and of the whole run,
  the lemmas about them, and the `Process` class. `Process` holds the
  process-wide log level and the effect trace. Its methods are the actions
  as the source writes them, and each is proved to do what the pure
  description says.

Two consequences of the code are worth stating:

- Every token is checked, even an empty one. `Split("", ".")` gives one
  piece, so the proxy's default empty token is rejected (actions.go:72).
- Only a failure of `runner.New` ends the process directly, with
  `os.Exit(-1)` (actions.go:54-57). An error from the runner's `Start`
  returns to `main`, like the proxy's and the server's errors, and
  `logrus.Fatalln` ends the process with status 1 (actions.go:59,
  main.go:136-138).

## Model

| member | source | states |
|---|---|---|
| `GoStrings.Split` | actions.go:72 | splitting gives one more piece than there are separators, and no piece contains the separator |
| `GoStrings.JoinSplit` | actions.go:72 | joining the pieces of a split with the separator gives back the original string |
| `GoStrings.SplitJoin` | actions.go:72 | splitting a join of separator-free pieces gives back exactly those pieces |
| `Actions.ValidTokenDots` | actions.go:72 | a token passes the three-segment check if and only if it contains exactly two `.` characters |
| `Actions.ValidTokenShape` | actions.go:72 | a token passes if and only if it is three dot-free segments, possibly empty, joined by `.` |
| `Actions.TokenExamples` | actions.go:72 | `""`, `"a.b"` and `"a.b.c.d"` are rejected; `"a.b.c"` and `".."` are accepted |
| `Logging.ParseLevel` | actions.go:93-106 | a recognised log-level value is the spelling of the level it selects, and never selects Fatal |
| `Logging.ParseLevelName` | main.go:10-14 | each of `debug`, `info`, `error` selects its own level, so parsing inverts naming |
| `Logging.ParseLevelRecognises` | actions.go:94-100 | a value is recognised if and only if it is exactly one of the three spellings |
| `Logging.LevelForFallback` | actions.go:101-104 | every other value leaves Info in force |
| `Logging.ParseLevelCaseSensitive` | actions.go:94-100 | the spellings `"DEBUG"`, `"Info"` and `"ERROR"` are not recognised (the general fact is `Logging.ParseLevelRecognises`) |
| `Logging.EnabledOrder` | actions.go:102-103 | fatal lines are always written; error lines at every selectable level; info lines at Info and Debug; debug lines only at Debug |
| `Actions.LevelEffectsShape` | actions.go:93-106 | level selection always ends by setting the level it selects and never fails; everything before that is a log line |
| `Actions.LevelEffectsRecognised` | actions.go:94-100 | a recognised value sets its level and logs nothing |
| `Actions.LevelEffectsFallback` | actions.go:101-104 | from the starting level, an unrecognised value logs the invalid value at error severity, then the defaulting notice at info severity, then sets Info |
| `Actions.Process.SetLogLevel` | actions.go:93-106 | overwrites the level with the one the value selects and appends exactly the log lines and the level change described above |
| `Actions.Process.ActionRunner` | actions.go:19-60 | reads the runner options, sets the level, creates the runner from the built configuration, then either logs the creation error and exits with -1, or starts the runner and returns its result |
| `Actions.Process.ActionProxy` | actions.go:62-79 | reads the proxy options, sets the level, returns "invalid token provided" for a token that does not split into three pieces, and otherwise creates and starts the proxy and returns its result |
| `Actions.Process.ActionServer` | actions.go:81-91 | reads the server options, sets the level, creates the server on the given port, starts it and returns its result |
| `Actions.Process.Run` | main.go:135-138 | runs the named command's action; an error it returns is logged as fatal and ends the process with status 1 |
| `Actions.ActionsConfigureLoggingFirst` | actions.go:19-91 | in every action, each call into a subsystem comes after the log level has been set, and the selected level stays in force |
| `Actions.RunnerCreateThenStart` | actions.go:39-59 | the runner is created from the configuration the options describe; on success it is started right after creation and the action returns what `Start` returns; on failure the error is logged right after creation and the process exits with -1 |
| `Actions.RunnerStartedIffCreated` | actions.go:39-59 | the runner is always created; it is started if and only if creation succeeds, and the process exits with -1 if and only if creation fails |
| `Actions.RunnerConfigFromOptions` | actions.go:39-53 | the runner configuration uses the runner authentication role; in-cluster is the negation of outside-cluster; the algorithm, secrets, driver, driver config and ports are copied without validation |
| `Config.RunnerConfigRoundTrip` | actions.go:39-53 | the options can be recovered from the runner configuration, apart from the log level, so building the configuration loses nothing |
| `Config.InClusterNegatesOutsideCluster` | actions.go:48-52 | outside-cluster true gives in-cluster false, and false gives true |
| `Config.ServerConfigPort` | actions.go:89 | the server configuration's port is the port option unchanged and does not depend on the log level |
| `Actions.ProxyTokenGate` | actions.go:69-78 | with a malformed token, the level is already set, the action returns "invalid token provided", and no proxy is created or started; with a well-formed token, the proxy is created from the address and token, started, and its result returned |
| `Actions.ServerCreateThenStart` | actions.go:87-90 | the server is created with the port option and then started, and the action returns what `Start` returns |
| `Actions.MainExitStatus` | main.go:136-138 | the exit status is 0 if and only if the action returned no error; a returned error adds a fatal "Failed to start galaxy:" line and `Exit(1)`; a runner whose creation failed has already exited with -1 |
| `Actions.DefaultProxyRejected` | main.go:94-104 | the proxy run with its defaults sets Info, logs the fatal invalid-token error and exits with status 1, and never touches the proxy |
| `Actions.DefaultsNeverWarn` | main.go:43-48 | with default options, every command's first effect is setting Info, so no invalid-level warning is logged |
| `Actions.DefaultRunnerConfig` | main.go:31-86 | the runner with its defaults gets ports 4050 and 4055, hs256 with the stock secrets, the istio driver without a configuration file, and in-cluster true |
| `Commands.CommandTable` | main.go:26-133 | there are exactly three commands, `runner`, `proxy` and `server`, each found by name and bound to its own action |
| `Commands.OnlyThreeCommands` | main.go:26-133 | no other name selects a command |
| `Commands.FlagNamesDistinct` | main.go:30-130 | no command declares the same option twice |
| `Commands.RunnerDefaults` | main.go:31-86 | runner defaults: port 4050, proxy-port 4055, log-level info, jwt-algo hs256, jwt-secret some-secret, jwt-proxy-secret some-proxy-secret, driver istio, driver-config empty, outside-cluster false |
| `Commands.ProxyDefaults` | main.go:94-110 | proxy defaults: addr runner.galaxy.svc.cluster.local:4050, token empty, log-level info |
| `Commands.ServerDefaults` | main.go:118-129 | server defaults: port 4050, log-level info |
| `Commands.DefaultLogLevelsRecognised` | main.go:43-129 | every command's default log level is `info`, which selects Info |
| `Commands.EnvironmentVariables` | main.go:31-129 | each option's environment variable; runner and server both read PORT, and every command reads LOG_LEVEL |
| `Actions.ValidToken` | actions.go:72 | the proxy's token check: splitting on `.` must give exactly three pieces (its meaning is stated by `Actions.ValidTokenDots` and `Actions.ValidTokenShape`) |
| `Config.BuildRunnerConfig` | actions.go:39-53 | the runner configuration literal built from the runner options (its properties are `Config.RunnerConfigRoundTrip`, `Config.InClusterNegatesOutsideCluster` and `Actions.RunnerConfigFromOptions`) |
| `Config.BuildServerConfig` | actions.go:89 | the server configuration literal built from the port option (see `Config.ServerConfigPort`) |
| `Actions.RunnerStep` | actions.go:19-60 | what the runner action does, as a value: the level it leaves, its effects in order, and how it ends (the specification of `Actions.Process.ActionRunner`) |
| `Actions.ProxyStep` | actions.go:62-79 | what the proxy action does, as a value (the specification of `Actions.Process.ActionProxy`) |
| `Actions.ServerStep` | actions.go:81-91 | what the server action does, as a value (the specification of `Actions.Process.ActionServer`) |
| `Actions.MainStep` | main.go:136-138 | the whole run of a command: its action, then for a returned error the fatal line and `Exit(1)` (the specification of `Actions.Process.Run`) |
| `Actions.LevelEffects` | actions.go:93-106 | the effects of level selection from a given current level (the specification of `Actions.Process.SetLogLevel`) |
| `Logging.LevelFor` | actions.go:93-106 | the level selection leaves in force: the named level, or Info |
| `Actions.Process.Write` | actions.go:102-103 | a logrus call at a severity appends the line exactly when the current level lets it through, and leaves the level unchanged; it is also used for actions.go:55 and main.go:137 |
| `Commands.AppCommands` | main.go:26-133 | the registered commands, in order: runner, proxy, server |
| `Commands.RunnerCommand` | main.go:27-89 | the runner command's options, environment variables and defaults |
| `Commands.ProxyCommand` | main.go:90-113 | the proxy command's options, environment variables and defaults |
| `Commands.ServerCommand` | main.go:114-132 | the server command's options, environment variables and defaults |
| `Commands.Find` | main.go:26-133 | the lookup by name behind command and option selection: a result is an element of the list with that name, and no result means no element has it |
| `Commands.FindCommand` | main.go:26-133 | the command the command line selects by name |
| `Commands.Defaults` | main.go:30-130 | the option values in force when nothing overrides them; `Commands.DefaultsLookup` states that each declared option has its declared default |

## Left out

- Argument parsing, help output, unknown commands and the precedence of
  flags over environment variables belong to the command-line library. The
  model takes the resolved option values (`Context`) as input. For the
  defaults it uses every option at its declared value. `Process.Run`
  requires a name from the command table.
- Log formatting and output (`main.go:19-20`) and `app.Name`/`app.Version`
  are plumbing. Log lines are kept as a severity and the message text.
- The runner, proxy, server, auth, driver and model packages are not part
  of this model. A subsystem call is an entry in the trace, and its error
  is an input.
- The process ends through `Exit(code)` entries in the trace. The model
  records -1, the value the runner passes to `os.Exit`; it does not model
  the operating system reducing it to 255. The normal end of `main` with
  status 0 is the exit status `Run` returns, not a trace entry.
- JWT signature and claims checks are not done here. Only the segment
  count is checked.
- Strings are sequences of characters, while Go splits bytes. For the
  ASCII separator `.` both give the same pieces.
- Of logrus's seven levels, the model keeps the four the front end uses:
  Fatal, Error, Info and Debug.
- The auth package's algorithm type is a string in the model. The source
  converts the option to that type without checking it.
