/**
 * The frontend's environment configuration: each setting is read from a
 * build-time variable when that variable is set to a non-empty value, and
 * otherwise falls back to a default keyed on NODE_ENV or on the resolved
 * environment name. The configuration object resolves everything once, when
 * it is built, and hands out copies.
 *
 * `process.env` is a map from variable names to values; a variable that is
 * absent and one set to "" are both falsy.
 */
module Environment {

  type Env = map<string, string>

  const ApiUrlVar: string := "REACT_APP_API_URL"
  const NodeEnvVar: string := "NODE_ENV"
  const AppEnvVar: string := "REACT_APP_ENV"
  const UseProxyVar: string := "REACT_APP_USE_PROXY"
  const DebugVar: string := "REACT_APP_DEBUG"
  const LogLevelVar: string := "REACT_APP_LOG_LEVEL"
  const HotReloadVar: string := "REACT_APP_ENABLE_HOT_RELOAD"
  const BackendUrlVar: string := "REACT_APP_BACKEND_URL"
  const NginxConfigVar: string := "REACT_APP_NGINX_CONFIG"

  const LocalApiUrl: string := "http://localhost:8080"
  const ProductionApiUrl: string := "https://chatbot-challenge-production-03c8.up.railway.app"
  const Development: string := "development"
  const Production: string := "production"

  /** The variable is set to a non-empty value. */
  predicate IsSet(env: Env, name: string)
  {
    name in env && env[name] != ""
  }

  /** The value of a variable, "" when absent. */
  function Get(env: Env, name: string): string
  {
    if name in env then env[name] else ""
  }

  /** `process.env[name] || fallback` */
  function OrElse(env: Env, name: string, fallback: string): (r: string)
    ensures IsSet(env, name) ==> r == env[name]
    ensures !IsSet(env, name) ==> r == fallback
    ensures fallback != "" ==> r != ""
  {
    if IsSet(env, name) then env[name] else fallback
  }

  /** A boolean override: `process.env[name] === 'true'` when set, else the default. */
  function Flag(env: Env, name: string, fallback: bool): (r: bool)
    ensures IsSet(env, name) ==> (r <==> env[name] == "true")
    ensures !IsSet(env, name) ==> r == fallback
  {
    if IsSet(env, name) then env[name] == "true" else fallback
  }

  /** resolveApiUrl: the override, else the production URL for NODE_ENV "production" and the local one for anything else. */
  function ResolveApiUrl(env: Env): (r: string)
    ensures r != ""
    ensures IsSet(env, ApiUrlVar) ==> r == env[ApiUrlVar]
    ensures !IsSet(env, ApiUrlVar) ==>
      r == if Get(env, NodeEnvVar) == Production then ProductionApiUrl else LocalApiUrl
  {
    if IsSet(env, ApiUrlVar) then env[ApiUrlVar]
    else match Get(env, NodeEnvVar)
      case "development" => LocalApiUrl
      case "production" => ProductionApiUrl
      case _ => LocalApiUrl
  }

  /** resolveEnvironment: REACT_APP_ENV, else NODE_ENV, else "development"; never empty. */
  function ResolveEnvironment(env: Env): (r: string)
    ensures r != ""
    ensures IsSet(env, AppEnvVar) ==> r == env[AppEnvVar]
    ensures !IsSet(env, AppEnvVar) && IsSet(env, NodeEnvVar) ==> r == env[NodeEnvVar]
    ensures !IsSet(env, AppEnvVar) && !IsSet(env, NodeEnvVar) ==> r == Development
  {
    OrElse(env, AppEnvVar, OrElse(env, NodeEnvVar, Development))
  }

  /** resolveUseProxy: the override, else whether NODE_ENV (not the resolved environment) is "development". */
  function ResolveUseProxy(env: Env): (r: bool)
    ensures !IsSet(env, UseProxyVar) ==> (r <==> Get(env, NodeEnvVar) == Development)
    ensures IsSet(env, UseProxyVar) ==> (r <==> env[UseProxyVar] == "true")
  {
    Flag(env, UseProxyVar, Get(env, NodeEnvVar) == Development)
  }

  /** resolveDebug: the override, else whether NODE_ENV (not the resolved environment) is "development". */
  function ResolveDebug(env: Env): (r: bool)
    ensures !IsSet(env, DebugVar) ==> (r <==> Get(env, NodeEnvVar) == Development)
    ensures IsSet(env, DebugVar) ==> (r <==> env[DebugVar] == "true")
  {
    Flag(env, DebugVar, Get(env, NodeEnvVar) == Development)
  }

  /** resolveLogLevel: the override, else "debug" in the development environment and "error" elsewhere. */
  function ResolveLogLevel(env: Env): (r: string)
    ensures r != ""
    ensures IsSet(env, LogLevelVar) ==> r == env[LogLevelVar]
    ensures !IsSet(env, LogLevelVar) ==>
      r == if ResolveEnvironment(env) == Development then "debug" else "error"
  {
    OrElse(env, LogLevelVar, if ResolveEnvironment(env) == Development then "debug" else "error")
  }

  /** resolveEnableHotReload: the override, else whether the resolved environment is "development". */
  function ResolveEnableHotReload(env: Env): (r: bool)
    ensures !IsSet(env, HotReloadVar) ==> (r <==> ResolveEnvironment(env) == Development)
    ensures IsSet(env, HotReloadVar) ==> (r <==> env[HotReloadVar] == "true")
  {
    Flag(env, HotReloadVar, ResolveEnvironment(env) == Development)
  }

  /** resolveBackendUrl: the override, else the API URL; never empty. */
  function ResolveBackendUrl(env: Env): (r: string)
    ensures r != ""
    ensures IsSet(env, BackendUrlVar) ==> r == env[BackendUrlVar]
    ensures !IsSet(env, BackendUrlVar) ==> r == ResolveApiUrl(env)
  {
    OrElse(env, BackendUrlVar, ResolveApiUrl(env))
  }

  /** resolveNginxConfig: the override, else "dev" in the development environment and "prod" elsewhere. */
  function ResolveNginxConfig(env: Env): (r: string)
    ensures r != ""
    ensures IsSet(env, NginxConfigVar) ==> r == env[NginxConfigVar]
    ensures !IsSet(env, NginxConfigVar) ==>
      r == if ResolveEnvironment(env) == Development then "dev" else "prod"
  {
    OrElse(env, NginxConfigVar, if ResolveEnvironment(env) == Development then "dev" else "prod")
  }

  datatype EnvironmentConfig = EnvironmentConfig(
    apiUrl: string,
    environment: string,
    useProxy: bool,
    debug: bool,
    logLevel: string,
    enableHotReload: bool,
    backendUrl: string,
    nginxConfig: string,
    timeout: int,
    retryAttempts: int)

  const Timeout: int := 30000
  const RetryAttempts: int := 3

  /** The record the constructor builds. */
  function BuildConfig(env: Env): (c: EnvironmentConfig)
    ensures c.timeout == Timeout && c.retryAttempts == RetryAttempts
    ensures c.apiUrl != "" && c.environment != "" && c.logLevel != ""
    ensures c.backendUrl != "" && c.nginxConfig != ""
    ensures !IsSet(env, BackendUrlVar) ==> c.backendUrl == c.apiUrl
  {
    EnvironmentConfig(
      ResolveApiUrl(env),
      ResolveEnvironment(env),
      ResolveUseProxy(env),
      ResolveDebug(env),
      ResolveLogLevel(env),
      ResolveEnableHotReload(env),
      ResolveBackendUrl(env),
      ResolveNginxConfig(env),
      Timeout,
      RetryAttempts)
  }

  /** Without overrides, the log level, hot reload and nginx settings all follow the resolved environment. */
  lemma DefaultsFollowEnvironment(env: Env)
    requires !IsSet(env, LogLevelVar) && !IsSet(env, HotReloadVar) && !IsSet(env, NginxConfigVar)
    ensures var c := BuildConfig(env);
      if c.environment == Development
      then c.logLevel == "debug" && c.enableHotReload && c.nginxConfig == "dev"
      else c.logLevel == "error" && !c.enableHotReload && c.nginxConfig == "prod"
  {
  }

  /** With nothing set at all, the configuration is the local development one. */
  lemma EmptyEnvironmentIsLocalDevelopment()
    ensures BuildConfig(map[]) ==
      EnvironmentConfig(LocalApiUrl, Development, false, false, "debug", true, LocalApiUrl, "dev", Timeout, RetryAttempts)
  {
  }

  /**
   * Proxy and debug defaults read NODE_ENV while the other defaults read the
   * resolved environment: with REACT_APP_ENV "development" over NODE_ENV
   * "production", hot reload is on and debug is off.
   */
  lemma DebugAndHotReloadDiverge()
    ensures var env := map[AppEnvVar := Development, NodeEnvVar := Production];
      var c := BuildConfig(env);
      c.environment == Development && c.enableHotReload && !c.debug && !c.useProxy
      && c.apiUrl == ProductionApiUrl
  {
    var env := map[AppEnvVar := Development, NodeEnvVar := Production];
    assert !IsSet(env, DebugVar) && !IsSet(env, UseProxyVar) && !IsSet(env, ApiUrlVar);
    assert Get(env, NodeEnvVar) == Production;
  }

  /** The configuration object; it resolves the environment once. */
  class EnvironmentConfiguration {
    var config: EnvironmentConfig

    constructor(env: Env)
      ensures config == BuildConfig(env)
    {
      config := BuildConfig(env);
    }

    /**
     * getConfig: `{ ...this.config }`, a new record with every field copied.
     * It equals the stored one, and being a value, a caller's change to it
     * cannot reach the stored configuration.
     */
    function GetConfig(): (c: EnvironmentConfig)
      reads this
      ensures c == config
    {
      EnvironmentConfig(
        config.apiUrl, config.environment, config.useProxy, config.debug, config.logLevel,
        config.enableHotReload, config.backendUrl, config.nginxConfig, config.timeout, config.retryAttempts)
    }

    function IsProduction(): (r: bool)
      reads this
      ensures r <==> config.environment == Production
    {
      config.environment == Production
    }

    /** isDevelopment; never true together with isProduction. */
    function IsDevelopment(): (r: bool)
      reads this
      ensures r <==> config.environment == Development
      ensures r ==> !IsProduction()
    {
      config.environment == Development
    }
  }
}
