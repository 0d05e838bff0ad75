/** The option values each mode reads and the configuration records it
    builds from them before handing them to its subsystem. */
module Config {

  /** The authentication roles of the auth package; the runner always
      authenticates in the runner role. */
  datatype AuthMode = RunnerAuth | ProxyAuth

  /** Authentication settings. The algorithm name is carried as given:
      nothing at this layer checks it against the known algorithms. */
  datatype AuthConfig = AuthConfig(
    mode: AuthMode,
    jwtAlgorithm: string,
    secret: string,
    proxySecret: string)

  /** Deployment driver settings. */
  datatype DriverConfig = DriverConfig(
    driverType: string,
    configFilePath: string,
    isInCluster: bool)

  datatype RunnerConfig = RunnerConfig(
    port: string,
    proxyPort: string,
    auth: AuthConfig,
    driver: DriverConfig)

  datatype ServerConfig = ServerConfig(port: string)

  /** The resolved values of the runner command's options. */
  datatype RunnerOptions = RunnerOptions(
    port: string,
    proxyPort: string,
    logLevel: string,
    jwtAlgo: string,
    jwtSecret: string,
    jwtProxySecret: string,
    driver: string,
    driverConfig: string,
    outsideCluster: bool)

  /** The resolved values of the proxy command's options. */
  datatype ProxyOptions = ProxyOptions(addr: string, token: string, logLevel: string)

  /** The resolved values of the server command's options. */
  datatype ServerOptions = ServerOptions(port: string, logLevel: string)

  /** The configuration the runner action hands to the runner subsystem. */
  function BuildRunnerConfig(o: RunnerOptions): RunnerConfig
  {
    RunnerConfig(
      o.port,
      o.proxyPort,
      AuthConfig(RunnerAuth, o.jwtAlgo, o.jwtSecret, o.jwtProxySecret),
      DriverConfig(o.driver, o.driverConfig, !o.outsideCluster))
  }

  /** The configuration the server action hands to the server subsystem. */
  function BuildServerConfig(o: ServerOptions): ServerConfig
  {
    ServerConfig(o.port)
  }

  /** The runner options a runner configuration was built from; the log
      level is not part of the configuration and is supplied separately. */
  function RunnerOptionsOf(cfg: RunnerConfig, logLevel: string): RunnerOptions
  {
    RunnerOptions(
      cfg.port, cfg.proxyPort, logLevel,
      cfg.auth.jwtAlgorithm, cfg.auth.secret, cfg.auth.proxySecret,
      cfg.driver.driverType, cfg.driver.configFilePath, !cfg.driver.isInCluster)
  }

  /** Building loses nothing but the log level: the options are recovered
      from the configuration, so distinct options give distinct configurations. */
  lemma RunnerConfigRoundTrip(o: RunnerOptions)
    ensures RunnerOptionsOf(BuildRunnerConfig(o), o.logLevel) == o
  {
  }

  /** The in-cluster setting is the negation of the outside-cluster option,
      for both of its values, whatever the other options are. */
  lemma InClusterNegatesOutsideCluster(o: RunnerOptions)
    ensures BuildRunnerConfig(o.(outsideCluster := true)).driver.isInCluster == false
    ensures BuildRunnerConfig(o.(outsideCluster := false)).driver.isInCluster == true
  {
  }

  /** The server listens on the port option unchanged. */
  lemma ServerConfigPort(o: ServerOptions)
    ensures BuildServerConfig(o).port == o.port
    ensures BuildServerConfig(o) == BuildServerConfig(o.(logLevel := ""))
  {
  }
}
