/**
 * The six settings records of config.py and their `from_env` constructors.
 * Each constructor reads its own environment variables, falls back to a
 * literal default when one is unset, and fails (Python's `int()` raising
 * `ValueError`) on the first integer variable, in argument order, that is
 * not a decimal literal.
 */
module Sections {
  import opened Wrappers
  import opened Text
  import opened Environment

  datatype DatabaseConfig = DatabaseConfig(
    host: string, port: int, name: string, user: string, password: string,
    sslMode: string, poolSize: int, maxOverflow: int)

  datatype RedisConfig = RedisConfig(
    host: string, port: int, password: Option<string>, db: int, ssl: bool)

  datatype SecurityConfig = SecurityConfig(
    secretKey: string, jwtSecret: string, bcryptRounds: int,
    sessionTimeout: int, maxLoginAttempts: int, lockoutDuration: int)

  datatype MonitoringConfig = MonitoringConfig(
    prometheusEnabled: bool, metricsPort: int, healthCheckInterval: int,
    logLevel: string, structuredLogging: bool)

  /** `cacheType` is the Python field `type`. */
  datatype CacheConfig = CacheConfig(
    cacheType: string, host: string, port: int, password: Option<string>,
    db: int, defaultTimeout: int, keyPrefix: string)

  datatype AppConfig = AppConfig(
    debug: bool, testing: bool, host: string, port: int, workers: int, timeout: int)

  /** The six nested records a `Config` holds, in the order `Config.__init__` builds them. */
  datatype LoadedSections = LoadedSections(
    database: DatabaseConfig, redis: RedisConfig, security: SecurityConfig,
    monitoring: MonitoringConfig, cache: CacheConfig, app: AppConfig)

  /** True when none of `names` is set in `env`. */
  predicate Unset(env: Env, names: set<string>) {
    forall n :: n in names ==> n !in env
  }

  // ----- Database -----

  const DatabaseVariables: set<string> :=
    {"DB_HOST", "DB_PORT", "DB_NAME", "DB_USER", "DB_PASSWORD", "DB_SSL_MODE",
     "DB_POOL_SIZE", "DB_MAX_OVERFLOW"}

  function DatabaseFromEnv(env: Env): (r: Result<DatabaseConfig, ConfigError>)
    ensures r.Success? <==>
      && IsDecimalLiteral(GetEnv(env, "DB_PORT", "5432"))
      && IsDecimalLiteral(GetEnv(env, "DB_POOL_SIZE", "10"))
      && IsDecimalLiteral(GetEnv(env, "DB_MAX_OVERFLOW", "20"))
    ensures r.Failure? ==>
      r.error.variable in {"DB_PORT", "DB_POOL_SIZE", "DB_MAX_OVERFLOW"} &&
      r.error.variable in env && !IsDecimalLiteral(r.error.literal)
  {
    var port :- IntSetting(env, "DB_PORT", "5432");
    var poolSize :- IntSetting(env, "DB_POOL_SIZE", "10");
    var maxOverflow :- IntSetting(env, "DB_MAX_OVERFLOW", "20");
    Success(DatabaseConfig(
      host := GetEnv(env, "DB_HOST", "localhost"),
      port := port,
      name := GetEnv(env, "DB_NAME", "devops_demo"),
      user := GetEnv(env, "DB_USER", "postgres"),
      password := GetEnv(env, "DB_PASSWORD", ""),
      sslMode := GetEnv(env, "DB_SSL_MODE", "require"),
      poolSize := poolSize,
      maxOverflow := maxOverflow))
  }

  /** The environment that spells out `d`, one variable per field. */
  function DatabaseEnv(d: DatabaseConfig): Env {
    map["DB_HOST" := d.host, "DB_PORT" := IntToString(d.port), "DB_NAME" := d.name,
        "DB_USER" := d.user, "DB_PASSWORD" := d.password, "DB_SSL_MODE" := d.sslMode,
        "DB_POOL_SIZE" := IntToString(d.poolSize), "DB_MAX_OVERFLOW" := IntToString(d.maxOverflow)]
  }

  /** Every database field is read from its own variable and from nothing else. */
  lemma DatabaseRoundTrip(env: Env, d: DatabaseConfig)
    ensures DatabaseFromEnv((env - DatabaseVariables) + DatabaseEnv(d)) == Success(d)
  {
    var e := (env - DatabaseVariables) + DatabaseEnv(d);
    IntSettingRoundTrip(e, "DB_PORT", "5432", d.port);
    IntSettingRoundTrip(e, "DB_POOL_SIZE", "10", d.poolSize);
    IntSettingRoundTrip(e, "DB_MAX_OVERFLOW", "20", d.maxOverflow);
  }

  /** With no database variable set, the literal defaults apply. */
  lemma DatabaseDefaults(env: Env)
    requires Unset(env, DatabaseVariables)
    ensures DatabaseFromEnv(env) ==
      Success(DatabaseConfig("localhost", 5432, "devops_demo", "postgres", "", "require", 10, 20))
  {
    assert NatToString(5432) == "5432" && NatToString(10) == "10" && NatToString(20) == "20";
    IntSettingDefault(env, "DB_PORT", 5432);
    IntSettingDefault(env, "DB_POOL_SIZE", 10);
    IntSettingDefault(env, "DB_MAX_OVERFLOW", 20);
  }

  // ----- Redis -----

  const RedisVariables: set<string> :=
    {"REDIS_HOST", "REDIS_PORT", "REDIS_PASSWORD", "REDIS_DB", "REDIS_SSL"}

  function RedisFromEnv(env: Env): (r: Result<RedisConfig, ConfigError>)
    ensures r.Success? <==>
      && IsDecimalLiteral(GetEnv(env, "REDIS_PORT", "6379"))
      && IsDecimalLiteral(GetEnv(env, "REDIS_DB", "0"))
    ensures r.Failure? ==>
      r.error.variable in {"REDIS_PORT", "REDIS_DB"} &&
      r.error.variable in env && !IsDecimalLiteral(r.error.literal)
    ensures r.Success? ==> (r.value.password.Some? <==> "REDIS_PASSWORD" in env)
  {
    var port :- IntSetting(env, "REDIS_PORT", "6379");
    var db :- IntSetting(env, "REDIS_DB", "0");
    Success(RedisConfig(
      host := GetEnv(env, "REDIS_HOST", "localhost"),
      port := port,
      password := LookupEnv(env, "REDIS_PASSWORD"),
      db := db,
      ssl := BoolSetting(env, "REDIS_SSL", "true")))
  }

  function RedisEnv(r: RedisConfig): Env {
    var e := map["REDIS_HOST" := r.host, "REDIS_PORT" := IntToString(r.port),
                 "REDIS_DB" := IntToString(r.db), "REDIS_SSL" := BoolToString(r.ssl)];
    if r.password.Some? then e["REDIS_PASSWORD" := r.password.value] else e
  }

  lemma RedisRoundTrip(env: Env, r: RedisConfig)
    ensures RedisFromEnv((env - RedisVariables) + RedisEnv(r)) == Success(r)
  {
    var e := (env - RedisVariables) + RedisEnv(r);
    IntSettingRoundTrip(e, "REDIS_PORT", "6379", r.port);
    IntSettingRoundTrip(e, "REDIS_DB", "0", r.db);
    BoolSettingRoundTrip(e, "REDIS_SSL", "true", r.ssl);
  }

  /** Unset, Redis has no password and TLS on. */
  lemma RedisDefaults(env: Env)
    requires Unset(env, RedisVariables)
    ensures RedisFromEnv(env) == Success(RedisConfig("localhost", 6379, None, 0, true))
  {
    assert NatToString(6379) == "6379" && NatToString(0) == "0";
    IntSettingDefault(env, "REDIS_PORT", 6379);
    IntSettingDefault(env, "REDIS_DB", 0);
    assert Lower("true") == "true";
  }

  // ----- Security -----

  const PlaceholderSecretKey := "dev-secret-key-change-in-production"
  const PlaceholderJwtSecret := "jwt-secret-key-change-in-production"

  const SecurityVariables: set<string> :=
    {"SECRET_KEY", "JWT_SECRET", "BCRYPT_ROUNDS", "SESSION_TIMEOUT",
     "MAX_LOGIN_ATTEMPTS", "LOCKOUT_DURATION"}

  function SecurityFromEnv(env: Env): (r: Result<SecurityConfig, ConfigError>)
    ensures r.Success? <==>
      && IsDecimalLiteral(GetEnv(env, "BCRYPT_ROUNDS", "12"))
      && IsDecimalLiteral(GetEnv(env, "SESSION_TIMEOUT", "3600"))
      && IsDecimalLiteral(GetEnv(env, "MAX_LOGIN_ATTEMPTS", "5"))
      && IsDecimalLiteral(GetEnv(env, "LOCKOUT_DURATION", "900"))
    ensures r.Failure? ==>
      r.error.variable in {"BCRYPT_ROUNDS", "SESSION_TIMEOUT", "MAX_LOGIN_ATTEMPTS", "LOCKOUT_DURATION"} &&
      r.error.variable in env && !IsDecimalLiteral(r.error.literal)
  {
    var bcryptRounds :- IntSetting(env, "BCRYPT_ROUNDS", "12");
    var sessionTimeout :- IntSetting(env, "SESSION_TIMEOUT", "3600");
    var maxLoginAttempts :- IntSetting(env, "MAX_LOGIN_ATTEMPTS", "5");
    var lockoutDuration :- IntSetting(env, "LOCKOUT_DURATION", "900");
    Success(SecurityConfig(
      secretKey := GetEnv(env, "SECRET_KEY", PlaceholderSecretKey),
      jwtSecret := GetEnv(env, "JWT_SECRET", PlaceholderJwtSecret),
      bcryptRounds := bcryptRounds,
      sessionTimeout := sessionTimeout,
      maxLoginAttempts := maxLoginAttempts,
      lockoutDuration := lockoutDuration))
  }

  function SecurityEnv(s: SecurityConfig): Env {
    map["SECRET_KEY" := s.secretKey, "JWT_SECRET" := s.jwtSecret,
        "BCRYPT_ROUNDS" := IntToString(s.bcryptRounds),
        "SESSION_TIMEOUT" := IntToString(s.sessionTimeout),
        "MAX_LOGIN_ATTEMPTS" := IntToString(s.maxLoginAttempts),
        "LOCKOUT_DURATION" := IntToString(s.lockoutDuration)]
  }

  lemma SecurityRoundTrip(env: Env, s: SecurityConfig)
    ensures SecurityFromEnv((env - SecurityVariables) + SecurityEnv(s)) == Success(s)
  {
    var e := (env - SecurityVariables) + SecurityEnv(s);
    IntSettingRoundTrip(e, "BCRYPT_ROUNDS", "12", s.bcryptRounds);
    IntSettingRoundTrip(e, "SESSION_TIMEOUT", "3600", s.sessionTimeout);
    IntSettingRoundTrip(e, "MAX_LOGIN_ATTEMPTS", "5", s.maxLoginAttempts);
    IntSettingRoundTrip(e, "LOCKOUT_DURATION", "900", s.lockoutDuration);
  }

  /** Unset, both secrets are their placeholders, which `Validate` rejects. */
  lemma SecurityDefaults(env: Env)
    requires Unset(env, SecurityVariables)
    ensures SecurityFromEnv(env) ==
      Success(SecurityConfig(PlaceholderSecretKey, PlaceholderJwtSecret, 12, 3600, 5, 900))
  {
    assert NatToString(12) == "12" && NatToString(3600) == "3600";
    assert NatToString(5) == "5" && NatToString(900) == "900";
    IntSettingDefault(env, "BCRYPT_ROUNDS", 12);
    IntSettingDefault(env, "SESSION_TIMEOUT", 3600);
    IntSettingDefault(env, "MAX_LOGIN_ATTEMPTS", 5);
    IntSettingDefault(env, "LOCKOUT_DURATION", 900);
  }

  // ----- Monitoring -----

  const MonitoringVariables: set<string> :=
    {"PROMETHEUS_ENABLED", "METRICS_PORT", "HEALTH_CHECK_INTERVAL", "LOG_LEVEL", "STRUCTURED_LOGGING"}

  function MonitoringFromEnv(env: Env): (r: Result<MonitoringConfig, ConfigError>)
    ensures r.Success? <==>
      && IsDecimalLiteral(GetEnv(env, "METRICS_PORT", "9090"))
      && IsDecimalLiteral(GetEnv(env, "HEALTH_CHECK_INTERVAL", "30"))
    ensures r.Failure? ==>
      r.error.variable in {"METRICS_PORT", "HEALTH_CHECK_INTERVAL"} &&
      r.error.variable in env && !IsDecimalLiteral(r.error.literal)
  {
    var metricsPort :- IntSetting(env, "METRICS_PORT", "9090");
    var healthCheckInterval :- IntSetting(env, "HEALTH_CHECK_INTERVAL", "30");
    Success(MonitoringConfig(
      prometheusEnabled := BoolSetting(env, "PROMETHEUS_ENABLED", "true"),
      metricsPort := metricsPort,
      healthCheckInterval := healthCheckInterval,
      logLevel := GetEnv(env, "LOG_LEVEL", "INFO"),
      structuredLogging := BoolSetting(env, "STRUCTURED_LOGGING", "true")))
  }

  function MonitoringEnv(m: MonitoringConfig): Env {
    map["PROMETHEUS_ENABLED" := BoolToString(m.prometheusEnabled),
        "METRICS_PORT" := IntToString(m.metricsPort),
        "HEALTH_CHECK_INTERVAL" := IntToString(m.healthCheckInterval),
        "LOG_LEVEL" := m.logLevel,
        "STRUCTURED_LOGGING" := BoolToString(m.structuredLogging)]
  }

  lemma MonitoringRoundTrip(env: Env, m: MonitoringConfig)
    ensures MonitoringFromEnv((env - MonitoringVariables) + MonitoringEnv(m)) == Success(m)
  {
    var e := (env - MonitoringVariables) + MonitoringEnv(m);
    BoolSettingRoundTrip(e, "PROMETHEUS_ENABLED", "true", m.prometheusEnabled);
    IntSettingRoundTrip(e, "METRICS_PORT", "9090", m.metricsPort);
    IntSettingRoundTrip(e, "HEALTH_CHECK_INTERVAL", "30", m.healthCheckInterval);
    BoolSettingRoundTrip(e, "STRUCTURED_LOGGING", "true", m.structuredLogging);
  }

  lemma MonitoringDefaults(env: Env)
    requires Unset(env, MonitoringVariables)
    ensures MonitoringFromEnv(env) == Success(MonitoringConfig(true, 9090, 30, "INFO", true))
  {
    assert NatToString(9090) == "9090" && NatToString(30) == "30";
    IntSettingDefault(env, "METRICS_PORT", 9090);
    IntSettingDefault(env, "HEALTH_CHECK_INTERVAL", 30);
    assert Lower("true") == "true";
  }

  // ----- Cache -----

  const CacheVariables: set<string> :=
    {"CACHE_TYPE", "CACHE_HOST", "CACHE_PORT", "CACHE_PASSWORD", "CACHE_DB",
     "CACHE_DEFAULT_TIMEOUT", "CACHE_KEY_PREFIX"}

  function CacheFromEnv(env: Env): (r: Result<CacheConfig, ConfigError>)
    ensures r.Success? <==>
      && IsDecimalLiteral(GetEnv(env, "CACHE_PORT", "6379"))
      && IsDecimalLiteral(GetEnv(env, "CACHE_DB", "1"))
      && IsDecimalLiteral(GetEnv(env, "CACHE_DEFAULT_TIMEOUT", "300"))
    ensures r.Failure? ==>
      r.error.variable in {"CACHE_PORT", "CACHE_DB", "CACHE_DEFAULT_TIMEOUT"} &&
      r.error.variable in env && !IsDecimalLiteral(r.error.literal)
    ensures r.Success? ==> (r.value.password.Some? <==> "CACHE_PASSWORD" in env)
  {
    var port :- IntSetting(env, "CACHE_PORT", "6379");
    var db :- IntSetting(env, "CACHE_DB", "1");
    var defaultTimeout :- IntSetting(env, "CACHE_DEFAULT_TIMEOUT", "300");
    Success(CacheConfig(
      cacheType := GetEnv(env, "CACHE_TYPE", "redis"),
      host := GetEnv(env, "CACHE_HOST", "localhost"),
      port := port,
      password := LookupEnv(env, "CACHE_PASSWORD"),
      db := db,
      defaultTimeout := defaultTimeout,
      keyPrefix := GetEnv(env, "CACHE_KEY_PREFIX", "devops_demo:")))
  }

  function CacheEnv(c: CacheConfig): Env {
    var e := map["CACHE_TYPE" := c.cacheType, "CACHE_HOST" := c.host,
                 "CACHE_PORT" := IntToString(c.port), "CACHE_DB" := IntToString(c.db),
                 "CACHE_DEFAULT_TIMEOUT" := IntToString(c.defaultTimeout),
                 "CACHE_KEY_PREFIX" := c.keyPrefix];
    if c.password.Some? then e["CACHE_PASSWORD" := c.password.value] else e
  }

  lemma CacheRoundTrip(env: Env, c: CacheConfig)
    ensures CacheFromEnv((env - CacheVariables) + CacheEnv(c)) == Success(c)
  {
    var e := (env - CacheVariables) + CacheEnv(c);
    IntSettingRoundTrip(e, "CACHE_PORT", "6379", c.port);
    IntSettingRoundTrip(e, "CACHE_DB", "1", c.db);
    IntSettingRoundTrip(e, "CACHE_DEFAULT_TIMEOUT", "300", c.defaultTimeout);
  }

  lemma CacheDefaults(env: Env)
    requires Unset(env, CacheVariables)
    ensures CacheFromEnv(env) ==
      Success(CacheConfig("redis", "localhost", 6379, None, 1, 300, "devops_demo:"))
  {
    assert NatToString(6379) == "6379" && NatToString(1) == "1" && NatToString(300) == "300";
    IntSettingDefault(env, "CACHE_PORT", 6379);
    IntSettingDefault(env, "CACHE_DB", 1);
    IntSettingDefault(env, "CACHE_DEFAULT_TIMEOUT", 300);
  }

  // ----- App -----

  const AppVariables: set<string> := {"DEBUG", "TESTING", "HOST", "PORT", "WORKERS", "TIMEOUT"}

  function AppFromEnv(env: Env): (r: Result<AppConfig, ConfigError>)
    ensures r.Success? <==>
      && IsDecimalLiteral(GetEnv(env, "PORT", "8000"))
      && IsDecimalLiteral(GetEnv(env, "WORKERS", "4"))
      && IsDecimalLiteral(GetEnv(env, "TIMEOUT", "30"))
    ensures r.Failure? ==>
      r.error.variable in {"PORT", "WORKERS", "TIMEOUT"} &&
      r.error.variable in env && !IsDecimalLiteral(r.error.literal)
  {
    var port :- IntSetting(env, "PORT", "8000");
    var workers :- IntSetting(env, "WORKERS", "4");
    var timeout :- IntSetting(env, "TIMEOUT", "30");
    Success(AppConfig(
      debug := BoolSetting(env, "DEBUG", "false"),
      testing := BoolSetting(env, "TESTING", "false"),
      host := GetEnv(env, "HOST", "0.0.0.0"),
      port := port,
      workers := workers,
      timeout := timeout))
  }

  function AppEnv(a: AppConfig): Env {
    map["DEBUG" := BoolToString(a.debug), "TESTING" := BoolToString(a.testing),
        "HOST" := a.host, "PORT" := IntToString(a.port),
        "WORKERS" := IntToString(a.workers), "TIMEOUT" := IntToString(a.timeout)]
  }

  lemma AppRoundTrip(env: Env, a: AppConfig)
    ensures AppFromEnv((env - AppVariables) + AppEnv(a)) == Success(a)
  {
    var e := (env - AppVariables) + AppEnv(a);
    BoolSettingRoundTrip(e, "DEBUG", "false", a.debug);
    BoolSettingRoundTrip(e, "TESTING", "false", a.testing);
    IntSettingRoundTrip(e, "PORT", "8000", a.port);
    IntSettingRoundTrip(e, "WORKERS", "4", a.workers);
    IntSettingRoundTrip(e, "TIMEOUT", "30", a.timeout);
  }

  lemma AppDefaults(env: Env)
    requires Unset(env, AppVariables)
    ensures AppFromEnv(env) == Success(AppConfig(false, false, "0.0.0.0", 8000, 4, 30))
  {
    assert NatToString(8000) == "8000" && NatToString(4) == "4" && NatToString(30) == "30";
    IntSettingDefault(env, "PORT", 8000);
    IntSettingDefault(env, "WORKERS", 4);
    IntSettingDefault(env, "TIMEOUT", 30);
    assert Lower("false")[0] == 'f';
  }

  // ----- All six, in Config.__init__ order -----

  /**
   * The six `from_env` calls of `Config.__init__`, in order: the first one
   * that raises decides the error.
   */
  function LoadSections(env: Env): (r: Result<LoadedSections, ConfigError>)
    ensures r.Success? <==>
      && DatabaseFromEnv(env).Success? && RedisFromEnv(env).Success?
      && SecurityFromEnv(env).Success? && MonitoringFromEnv(env).Success?
      && CacheFromEnv(env).Success? && AppFromEnv(env).Success?
    ensures r.Success? ==> r.value == LoadedSections(
      DatabaseFromEnv(env).value, RedisFromEnv(env).value, SecurityFromEnv(env).value,
      MonitoringFromEnv(env).value, CacheFromEnv(env).value, AppFromEnv(env).value)
    ensures DatabaseFromEnv(env).Failure? ==> r == Failure(DatabaseFromEnv(env).error)
    ensures (DatabaseFromEnv(env).Success? && RedisFromEnv(env).Failure?) ==>
      r == Failure(RedisFromEnv(env).error)
    ensures (DatabaseFromEnv(env).Success? && RedisFromEnv(env).Success?
             && SecurityFromEnv(env).Failure?) ==>
      r == Failure(SecurityFromEnv(env).error)
    ensures (DatabaseFromEnv(env).Success? && RedisFromEnv(env).Success?
             && SecurityFromEnv(env).Success? && MonitoringFromEnv(env).Failure?) ==>
      r == Failure(MonitoringFromEnv(env).error)
    ensures (DatabaseFromEnv(env).Success? && RedisFromEnv(env).Success?
             && SecurityFromEnv(env).Success? && MonitoringFromEnv(env).Success?
             && CacheFromEnv(env).Failure?) ==>
      r == Failure(CacheFromEnv(env).error)
    ensures (DatabaseFromEnv(env).Success? && RedisFromEnv(env).Success?
             && SecurityFromEnv(env).Success? && MonitoringFromEnv(env).Success?
             && CacheFromEnv(env).Success? && AppFromEnv(env).Failure?) ==>
      r == Failure(AppFromEnv(env).error)
  {
    var database :- DatabaseFromEnv(env);
    var redis :- RedisFromEnv(env);
    var security :- SecurityFromEnv(env);
    var monitoring :- MonitoringFromEnv(env);
    var cache :- CacheFromEnv(env);
    var app :- AppFromEnv(env);
    Success(LoadedSections(database, redis, security, monitoring, cache, app))
  }

  /** Every variable any of the six sections reads. */
  const AllVariables: set<string> :=
    DatabaseVariables + RedisVariables + SecurityVariables + MonitoringVariables
    + CacheVariables + AppVariables

  /** With nothing set, loading succeeds and every field takes its literal default. */
  lemma LoadDefaults(env: Env)
    requires Unset(env, AllVariables)
    ensures LoadSections(env) == Success(LoadedSections(
      DatabaseConfig("localhost", 5432, "devops_demo", "postgres", "", "require", 10, 20),
      RedisConfig("localhost", 6379, None, 0, true),
      SecurityConfig(PlaceholderSecretKey, PlaceholderJwtSecret, 12, 3600, 5, 900),
      MonitoringConfig(true, 9090, 30, "INFO", true),
      CacheConfig("redis", "localhost", 6379, None, 1, 300, "devops_demo:"),
      AppConfig(false, false, "0.0.0.0", 8000, 4, 30)))
  {
    DatabaseDefaults(env);
    RedisDefaults(env);
    SecurityDefaults(env);
    MonitoringDefaults(env);
    CacheDefaults(env);
    AppDefaults(env);
  }
}
