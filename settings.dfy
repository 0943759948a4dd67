/**
 * `Config` from config.py: the flat Flask settings derived in `__init__`,
 * the three environment profiles that then overwrite nested fields, the
 * redacting `to_dict`, the `validate` guard chain and the `get_config`
 * factory.
 */
module Settings {
  import opened Wrappers
  import opened Text
  import opened Environment
  import opened Sections

  // ----- Profiles -----

  /** `DevelopmentConfig`, `TestingConfig` and `ProductionConfig`. */
  datatype Profile = Development | Testing | Production

  /** The fields outside a profile's reach are the base values. */
  predicate KeepsUnprofiledFields(s: LoadedSections, r: LoadedSections) {
    && r.redis == s.redis
    && r.app.(debug := s.app.debug, testing := s.app.testing) == s.app
    && r.monitoring.(logLevel := s.monitoring.logLevel) == s.monitoring
    && r.cache.(cacheType := s.cache.cacheType) == s.cache
    && r.database.(name := s.database.name) == s.database
    && r.security.(bcryptRounds := s.security.bcryptRounds) == s.security
  }

  /** What each profile's `__init__` assigns after `super().__init__()`. */
  function Override(p: Profile, s: LoadedSections): (r: LoadedSections)
    ensures r.app.debug == (p == Development)
    ensures r.app.testing == (p == Testing)
    ensures r.monitoring.logLevel == if p == Production then "WARNING" else "DEBUG"
    ensures r.cache.cacheType == if p == Production then "redis" else "simple"
    ensures r.database.name == if p == Testing then "devops_demo_test" else s.database.name
    ensures r.security.bcryptRounds == if p == Production then 14 else s.security.bcryptRounds
    ensures KeepsUnprofiledFields(s, r)
  {
    match p
    case Development =>
      s.(app := s.app.(debug := true, testing := false),
         monitoring := s.monitoring.(logLevel := "DEBUG"),
         cache := s.cache.(cacheType := "simple"))
    case Testing =>
      s.(app := s.app.(debug := false, testing := true),
         monitoring := s.monitoring.(logLevel := "DEBUG"),
         cache := s.cache.(cacheType := "simple"),
         database := s.database.(name := "devops_demo_test"))
    case Production =>
      s.(app := s.app.(debug := false, testing := false),
         monitoring := s.monitoring.(logLevel := "WARNING"),
         cache := s.cache.(cacheType := "redis"),
         security := s.security.(bcryptRounds := 14))
  }

  /** Applying a profile a second time changes nothing. */
  lemma OverrideIdempotent(p: Profile, s: LoadedSections)
    ensures Override(p, Override(p, s)) == Override(p, s)
  {
  }

  // ----- The flat Flask settings of Config.__init__ -----

  datatype EngineOptions = EngineOptions(
    poolSize: int, maxOverflow: int, poolPrePing: bool, poolRecycle: int)

  /**
   * The upper-case attributes `Config.__init__` assigns, in source order:
   * SECRET_KEY, DEBUG, TESTING, the seven CACHE_* settings,
   * SQLALCHEMY_DATABASE_URI, SQLALCHEMY_ENGINE_OPTIONS, the four session
   * settings, LOG_LEVEL, STRUCTURED_LOGGING, PROMETHEUS_ENABLED,
   * METRICS_PORT and HEALTH_CHECK_INTERVAL.
   */
  datatype FlaskSettings = FlaskSettings(
    secretKey: string, debug: bool, testing: bool,
    cacheType: string, cacheRedisHost: string, cacheRedisPort: int,
    cacheRedisPassword: Option<string>, cacheRedisDb: int,
    cacheDefaultTimeout: int, cacheKeyPrefix: string,
    databaseUri: string, engineOptions: EngineOptions,
    sessionCookieSecure: bool, sessionCookieHttpOnly: bool,
    sessionCookieSameSite: string, permanentSessionLifetime: int,
    logLevel: string, structuredLogging: bool,
    prometheusEnabled: bool, metricsPort: int, healthCheckInterval: int)

  const Scheme := "postgresql://"

  /** Everything after the password: `@host:port/name?sslmode=mode`. */
  function HostPart(d: DatabaseConfig): string {
    d.host + ":" + IntToString(d.port) + "/" + d.name + "?sslmode=" + d.sslMode
  }

  /**
   * SQLALCHEMY_DATABASE_URI: the f-string
   * `postgresql://{user}:{password}@{host}:{port}/{name}?sslmode={ssl_mode}`,
   * with nothing percent-encoded.
   */
  function DatabaseUri(d: DatabaseConfig): (uri: string)
    ensures Scheme <= uri
  {
    Scheme + d.user + ":" + d.password + "@" + HostPart(d)
  }

  /** The attributes `Config.__init__` computes from the freshly loaded sections. */
  function FlaskSettingsOf(s: LoadedSections): (f: FlaskSettings)
    ensures f.debug == s.app.debug && f.sessionCookieSecure == !f.debug
    ensures f.secretKey == s.security.secretKey
    ensures f.databaseUri == DatabaseUri(s.database)
  {
    FlaskSettings(
      secretKey := s.security.secretKey,
      debug := s.app.debug,
      testing := s.app.testing,
      cacheType := s.cache.cacheType,
      cacheRedisHost := s.cache.host,
      cacheRedisPort := s.cache.port,
      cacheRedisPassword := s.cache.password,
      cacheRedisDb := s.cache.db,
      cacheDefaultTimeout := s.cache.defaultTimeout,
      cacheKeyPrefix := s.cache.keyPrefix,
      databaseUri := DatabaseUri(s.database),
      engineOptions := EngineOptions(s.database.poolSize, s.database.maxOverflow, true, 300),
      sessionCookieSecure := !s.app.debug,
      sessionCookieHttpOnly := true,
      sessionCookieSameSite := "Lax",
      permanentSessionLifetime := s.security.sessionTimeout,
      logLevel := s.monitoring.logLevel,
      structuredLogging := s.monitoring.structuredLogging,
      prometheusEnabled := s.monitoring.prometheusEnabled,
      metricsPort := s.monitoring.metricsPort,
      healthCheckInterval := s.monitoring.healthCheckInterval)
  }

  // ----- The database URI -----

  /** A character that occurs in neither prefix splits both strings at the same place. */
  lemma {:induction false} SplitAtFirst(c: char, a: string, b: string, a2: string, b2: string)
    requires c !in a && c !in a2
    requires a + [c] + b == a2 + [c] + b2
    ensures a == a2 && b == b2
  {
    var x := a + [c] + b;
    IndexOfAfterPrefix(c, a, b);
    IndexOfAfterPrefix(c, a2, b2);
    assert a == x[..|a|] == a2;
    assert b == x[|a| + 1..] == b2;
  }

  /**
   * When the user name has no ':' and the password no '@', the URI gives
   * both back: two such configurations with one URI share them.
   */
  lemma UriDeterminesCredentials(d1: DatabaseConfig, d2: DatabaseConfig)
    requires ':' !in d1.user && ':' !in d2.user
    requires '@' !in d1.password && '@' !in d2.password
    requires DatabaseUri(d1) == DatabaseUri(d2)
    ensures d1.user == d2.user && d1.password == d2.password
  {
    var u1, u2 := DatabaseUri(d1), DatabaseUri(d2);
    var rest1 := d1.password + "@" + HostPart(d1);
    var rest2 := d2.password + "@" + HostPart(d2);
    assert u1 == Scheme + (d1.user + ":" + rest1);
    assert u2 == Scheme + (d2.user + ":" + rest2);
    assert u1[|Scheme|..] == d1.user + ":" + rest1;
    assert u2[|Scheme|..] == d2.user + ":" + rest2;
    SplitAtFirst(':', d1.user, rest1, d2.user, rest2);
    SplitAtFirst('@', d1.password, HostPart(d1), d2.password, HostPart(d2));
  }

  /**
   * Without percent-encoding an '@' in the password is ambiguous: moving
   * the text after the password's '@' to the front of the host leaves the
   * URI unchanged although the password differs.
   */
  lemma UriAmbiguousWithoutEncoding(d: DatabaseConfig, a: string, b: string)
    ensures var d1 := d.(password := a + "@" + b);
            var d2 := d.(password := a, host := b + "@" + d.host);
            d1.password != d2.password && DatabaseUri(d1) == DatabaseUri(d2)
  {
    var d1 := d.(password := a + "@" + b);
    var d2 := d.(password := a, host := b + "@" + d.host);
    var head := Scheme + d.user + ":";
    assert HostPart(d2) == b + "@" + HostPart(d1);
    assert DatabaseUri(d1) == head + (a + "@" + b) + "@" + HostPart(d1);
    assert DatabaseUri(d2) == head + a + "@" + (b + "@" + HostPart(d1));
    assert |d1.password| > |d2.password|;
  }

  /** Two configurations differing only in the database name have different URIs. */
  lemma UriDeterminesName(d: DatabaseConfig, n1: string, n2: string)
    requires DatabaseUri(d.(name := n1)) == DatabaseUri(d.(name := n2))
    ensures n1 == n2
  {
    var head := Scheme + d.user + ":" + d.password + "@" + d.host + ":" + IntToString(d.port) + "/";
    var tail := "?sslmode=" + d.sslMode;
    var u1, u2 := DatabaseUri(d.(name := n1)), DatabaseUri(d.(name := n2));
    assert u1 == head + n1 + tail;
    assert u2 == head + n2 + tail;
    assert |n1| == |n2|;
    assert n1 == u1[|head|..|head| + |n1|];
    assert n2 == u2[|head|..|head| + |n2|];
  }

  // ----- Stale upper-case attributes -----

  /** The base sections already carry every value the profile would set in a Flask attribute. */
  predicate ProfileAlreadyInEnv(p: Profile, s: LoadedSections) {
    && s.app.debug == (p == Development)
    && s.app.testing == (p == Testing)
    && s.monitoring.logLevel == (if p == Production then "WARNING" else "DEBUG")
    && s.cache.cacheType == (if p == Production then "redis" else "simple")
    && (p == Testing ==> s.database.name == "devops_demo_test")
  }

  /**
   * The Flask attributes are snapshotted before the profile runs. They equal
   * what the profile's own values would give exactly when the environment
   * already held those values.
   */
  lemma SnapshotMatchesProfileIff(p: Profile, s: LoadedSections)
    ensures FlaskSettingsOf(Override(p, s)) == FlaskSettingsOf(s) <==> ProfileAlreadyInEnv(p, s)
  {
    var r := Override(p, s);
    if FlaskSettingsOf(r) == FlaskSettingsOf(s) {
      assert FlaskSettingsOf(r).debug == FlaskSettingsOf(s).debug;
      assert FlaskSettingsOf(r).testing == FlaskSettingsOf(s).testing;
      assert FlaskSettingsOf(r).logLevel == FlaskSettingsOf(s).logLevel;
      assert FlaskSettingsOf(r).cacheType == FlaskSettingsOf(s).cacheType;
      if p == Testing {
        assert r.database == s.database.(name := "devops_demo_test");
        assert DatabaseUri(r.database) == DatabaseUri(s.database);
        assert s.database == s.database.(name := s.database.name);
        UriDeterminesName(s.database, "devops_demo_test", s.database.name);
      }
    }
  }

  /**
   * Production with DEBUG=true in the environment: the profile turns
   * `app.debug` off, but Flask's DEBUG stays on and the session cookie is
   * not marked secure.
   */
  lemma ProductionKeepsEnvDebug(s: LoadedSections)
    requires s.app.debug
    ensures !Override(Production, s).app.debug
    ensures FlaskSettingsOf(s).debug && !FlaskSettingsOf(s).sessionCookieSecure
  {
  }

  /**
   * Testing against an environment naming another database: the profile
   * points `database.name` at devops_demo_test, but the URI Flask is given
   * still names the environment's database.
   */
  lemma TestingUriKeepsEnvDatabase(s: LoadedSections)
    requires s.database.name != "devops_demo_test"
    ensures Override(Testing, s).database.name == "devops_demo_test"
    ensures FlaskSettingsOf(s).databaseUri != DatabaseUri(Override(Testing, s).database)
  {
    var r := Override(Testing, s);
    assert r.database == s.database.(name := "devops_demo_test");
    if FlaskSettingsOf(s).databaseUri == DatabaseUri(r.database) {
      assert s.database == s.database.(name := s.database.name);
      UriDeterminesName(s.database, s.database.name, "devops_demo_test");
    }
  }

  // ----- to_dict -----

  datatype Value = BoolValue(b: bool) | IntValue(i: int) | StrValue(s: string)

  type Dict = map<string, map<string, Value>>

  /** A section that holds none of the keys under which a secret is kept. */
  predicate Redacted(v: map<string, Value>) {
    "password" !in v && "secret_key" !in v && "jwt_secret" !in v
  }

  function AppView(a: AppConfig): (v: map<string, Value>)
    ensures v.Keys == {"debug", "testing", "host", "port", "workers", "timeout"}
    ensures v["debug"] == BoolValue(a.debug) && v["testing"] == BoolValue(a.testing)
    ensures Redacted(v)
  {
    map["debug" := BoolValue(a.debug), "testing" := BoolValue(a.testing),
        "host" := StrValue(a.host), "port" := IntValue(a.port),
        "workers" := IntValue(a.workers), "timeout" := IntValue(a.timeout)]
  }

  /** The database section without the password. */
  function DatabaseView(d: DatabaseConfig): (v: map<string, Value>)
    ensures v.Keys == {"host", "port", "name", "user", "ssl_mode", "pool_size", "max_overflow"}
    ensures v["name"] == StrValue(d.name)
    ensures Redacted(v)
  {
    map["host" := StrValue(d.host), "port" := IntValue(d.port), "name" := StrValue(d.name),
        "user" := StrValue(d.user), "ssl_mode" := StrValue(d.sslMode),
        "pool_size" := IntValue(d.poolSize), "max_overflow" := IntValue(d.maxOverflow)]
  }

  /** The redis section without the password. */
  function RedisView(r: RedisConfig): (v: map<string, Value>)
    ensures v.Keys == {"host", "port", "db", "ssl"}
    ensures Redacted(v)
  {
    map["host" := StrValue(r.host), "port" := IntValue(r.port), "db" := IntValue(r.db),
        "ssl" := BoolValue(r.ssl)]
  }

  /** The cache section without the password. */
  function CacheView(c: CacheConfig): (v: map<string, Value>)
    ensures v.Keys == {"type", "host", "port", "db", "default_timeout", "key_prefix"}
    ensures v["type"] == StrValue(c.cacheType)
    ensures Redacted(v)
  {
    map["type" := StrValue(c.cacheType), "host" := StrValue(c.host), "port" := IntValue(c.port),
        "db" := IntValue(c.db), "default_timeout" := IntValue(c.defaultTimeout),
        "key_prefix" := StrValue(c.keyPrefix)]
  }

  function MonitoringView(m: MonitoringConfig): (v: map<string, Value>)
    ensures v.Keys ==
      {"prometheus_enabled", "metrics_port", "health_check_interval", "log_level", "structured_logging"}
    ensures v["log_level"] == StrValue(m.logLevel)
    ensures Redacted(v)
  {
    map["prometheus_enabled" := BoolValue(m.prometheusEnabled),
        "metrics_port" := IntValue(m.metricsPort),
        "health_check_interval" := IntValue(m.healthCheckInterval),
        "log_level" := StrValue(m.logLevel),
        "structured_logging" := BoolValue(m.structuredLogging)]
  }

  /**
   * `to_dict`: the current nested fields, without the three passwords, the
   * two secrets or any other security setting.
   */
  function ExportView(s: LoadedSections): (d: Dict)
    ensures d.Keys == {"app", "database", "redis", "cache", "monitoring"}
  {
    map["app" := AppView(s.app), "database" := DatabaseView(s.database),
        "redis" := RedisView(s.redis), "cache" := CacheView(s.cache),
        "monitoring" := MonitoringView(s.monitoring)]
  }

  /** Each section of `to_dict` is the view of the matching record. */
  lemma ExportSections(s: LoadedSections)
    ensures ExportView(s)["app"] == AppView(s.app)
    ensures ExportView(s)["database"] == DatabaseView(s.database)
    ensures ExportView(s)["redis"] == RedisView(s.redis)
    ensures ExportView(s)["cache"] == CacheView(s.cache)
    ensures ExportView(s)["monitoring"] == MonitoringView(s.monitoring)
  {
  }

  /** `d[section][key]`, or `None` where Python would raise `KeyError`. */
  function Lookup(d: Dict, section: string, key: string): (v: Option<Value>)
    ensures v.Some? <==> section in d && key in d[section]
  {
    if section in d && key in d[section] then Some(d[section][key]) else None
  }

  /** The exported debug, testing, log level and cache type are the record's current ones. */
  lemma ExportMirrors(s: LoadedSections)
    ensures Lookup(ExportView(s), "app", "debug") == Some(BoolValue(s.app.debug))
    ensures Lookup(ExportView(s), "app", "testing") == Some(BoolValue(s.app.testing))
    ensures Lookup(ExportView(s), "monitoring", "log_level") == Some(StrValue(s.monitoring.logLevel))
    ensures Lookup(ExportView(s), "cache", "type") == Some(StrValue(s.cache.cacheType))
  {
    ExportSections(s);
  }

  /** No section of `to_dict` has a password, secret-key or JWT-secret entry. */
  lemma ExportIsRedacted(s: LoadedSections)
    ensures forall k :: k in ExportView(s) ==> Redacted(ExportView(s)[k])
  {
    ExportSections(s);
  }

  /** Two configurations that differ only in their secrets. */
  predicate SameExceptSecrets(s: LoadedSections, t: LoadedSections) {
    && s.database.(password := t.database.password) == t.database
    && s.redis.(password := t.redis.password) == t.redis
    && s.cache.(password := t.cache.password) == t.cache
    && s.security.(secretKey := t.security.secretKey, jwtSecret := t.security.jwtSecret) == t.security
    && s.monitoring == t.monitoring
    && s.app == t.app
  }

  /** Redaction: no password or secret can influence `to_dict`. */
  lemma ExportIgnoresSecrets(s: LoadedSections, t: LoadedSections)
    requires SameExceptSecrets(s, t)
    ensures ExportView(s) == ExportView(t)
  {
  }

  /** Each view shows every field of its record but the password. */
  lemma AppViewInjective(x: AppConfig, y: AppConfig)
    requires AppView(x) == AppView(y)
    ensures x == y
  {
    var a, b := AppView(x), AppView(y);
    assert a["host"] == b["host"] && a["port"] == b["port"];
    assert a["workers"] == b["workers"] && a["timeout"] == b["timeout"];
  }

  lemma DatabaseViewShowsAllButPassword(x: DatabaseConfig, y: DatabaseConfig)
    requires DatabaseView(x) == DatabaseView(y)
    ensures x.(password := y.password) == y
  {
    var d, e := DatabaseView(x), DatabaseView(y);
    assert d["host"] == e["host"] && d["port"] == e["port"] && d["user"] == e["user"];
    assert d["ssl_mode"] == e["ssl_mode"] && d["pool_size"] == e["pool_size"];
    assert d["max_overflow"] == e["max_overflow"];
  }

  lemma RedisViewShowsAllButPassword(x: RedisConfig, y: RedisConfig)
    requires RedisView(x) == RedisView(y)
    ensures x.(password := y.password) == y
  {
    var r, q := RedisView(x), RedisView(y);
    assert r["host"] == q["host"] && r["port"] == q["port"];
    assert r["db"] == q["db"] && r["ssl"] == q["ssl"];
  }

  lemma CacheViewShowsAllButPassword(x: CacheConfig, y: CacheConfig)
    requires CacheView(x) == CacheView(y)
    ensures x.(password := y.password) == y
  {
    var c, k := CacheView(x), CacheView(y);
    assert c["host"] == k["host"] && c["port"] == k["port"] && c["db"] == k["db"];
    assert c["default_timeout"] == k["default_timeout"] && c["key_prefix"] == k["key_prefix"];
  }

  lemma MonitoringViewInjective(x: MonitoringConfig, y: MonitoringConfig)
    requires MonitoringView(x) == MonitoringView(y)
    ensures x == y
  {
    var m, n := MonitoringView(x), MonitoringView(y);
    assert m["prometheus_enabled"] == n["prometheus_enabled"] && m["metrics_port"] == n["metrics_port"];
    assert m["health_check_interval"] == n["health_check_interval"];
    assert m["structured_logging"] == n["structured_logging"];
  }

  /**
   * The converse of `ExportIgnoresSecrets`: `to_dict` hides nothing but the
   * passwords and the security record, so two configurations with the same
   * export agree on every other field.
   */
  lemma ExportShowsAllButSecrets(s: LoadedSections, t: LoadedSections)
    requires ExportView(s) == ExportView(t)
    ensures s.app == t.app && s.monitoring == t.monitoring
    ensures s.database.(password := t.database.password) == t.database
    ensures s.redis.(password := t.redis.password) == t.redis
    ensures s.cache.(password := t.cache.password) == t.cache
  {
    ExportSections(s);
    ExportSections(t);
    AppViewInjective(s.app, t.app);
    DatabaseViewShowsAllButPassword(s.database, t.database);
    RedisViewShowsAllButPassword(s.redis, t.redis);
    CacheViewShowsAllButPassword(s.cache, t.cache);
    MonitoringViewInjective(s.monitoring, t.monitoring);
  }

  /** Unlike the Flask attributes, `to_dict` shows the profile's values. */
  lemma ExportShowsProfile(p: Profile, s: LoadedSections)
    ensures Lookup(ExportView(Override(p, s)), "app", "debug") == Some(BoolValue(p == Development))
    ensures Lookup(ExportView(Override(p, s)), "app", "testing") == Some(BoolValue(p == Testing))
    ensures Lookup(ExportView(Override(p, s)), "monitoring", "log_level") ==
      Some(StrValue(if p == Production then "WARNING" else "DEBUG"))
    ensures Lookup(ExportView(Override(p, s)), "cache", "type") ==
      Some(StrValue(if p == Production then "redis" else "simple"))
  {
    ExportMirrors(Override(p, s));
  }

  // ----- validate -----

  /** The `ValueError`s `validate` raises and catches, in source order. */
  datatype ValidationError =
    | SecretKeyNotSet
    | JwtSecretNotSet
    | AppPortOutOfRange
    | DatabasePortOutOfRange
    | RedisPortOutOfRange

  /** The setting a validation error is about, as its message names it. */
  function Subject(e: ValidationError): string {
    match e
    case SecretKeyNotSet => "SECRET_KEY"
    case JwtSecretNotSet => "JWT_SECRET"
    case AppPortOutOfRange => "Port"
    case DatabasePortOutOfRange => "Database port"
    case RedisPortOutOfRange => "Redis port"
  }

  /**
   * The message `validate` prints after "Configuration validation failed: ":
   * it names the setting and what is wrong with it.
   */
  function Message(e: ValidationError): (m: string)
    ensures Subject(e) <= m
    ensures |m| > |Subject(e)|
  {
    if e.SecretKeyNotSet? || e.JwtSecretNotSet? then Subject(e) + " must be set and changed from default"
    else Subject(e) + " must be between 1 and 65535"
  }

  /** The printed message tells which check failed. */
  lemma MessageIdentifiesCheck(e1: ValidationError, e2: ValidationError)
    requires Message(e1) == Message(e2)
    ensures e1 == e2
  {
    assert Message(e1)[0] == Subject(e1)[0];
    assert Message(e2)[0] == Subject(e2)[0];
  }

  /** A secret is acceptable when it is non-empty and not its placeholder. */
  predicate SecretAcceptable(secret: string, placeholder: string) {
    secret != "" && secret != placeholder
  }

  predicate PortInRange(port: int) {
    1 <= port <= 65535
  }

  /** The guard chain of `validate`: the first check that fails, or `None`. */
  function FirstFailedCheck(s: LoadedSections): (r: Option<ValidationError>)
    ensures r.None? <==>
      && SecretAcceptable(s.security.secretKey, PlaceholderSecretKey)
      && SecretAcceptable(s.security.jwtSecret, PlaceholderJwtSecret)
      && PortInRange(s.app.port) && PortInRange(s.database.port) && PortInRange(s.redis.port)
    ensures !SecretAcceptable(s.security.secretKey, PlaceholderSecretKey) ==> r == Some(SecretKeyNotSet)
  {
    if !SecretAcceptable(s.security.secretKey, PlaceholderSecretKey) then Some(SecretKeyNotSet)
    else if !SecretAcceptable(s.security.jwtSecret, PlaceholderJwtSecret) then Some(JwtSecretNotSet)
    else if !PortInRange(s.app.port) then Some(AppPortOutOfRange)
    else if !PortInRange(s.database.port) then Some(DatabasePortOutOfRange)
    else if !PortInRange(s.redis.port) then Some(RedisPortOutOfRange)
    else None
  }

  /** Reference definition: every check that fails, in source order. */
  function FailedChecks(s: LoadedSections): seq<ValidationError> {
    (if SecretAcceptable(s.security.secretKey, PlaceholderSecretKey) then [] else [SecretKeyNotSet])
    + (if SecretAcceptable(s.security.jwtSecret, PlaceholderJwtSecret) then [] else [JwtSecretNotSet])
    + (if PortInRange(s.app.port) then [] else [AppPortOutOfRange])
    + (if PortInRange(s.database.port) then [] else [DatabasePortOutOfRange])
    + (if PortInRange(s.redis.port) then [] else [RedisPortOutOfRange])
  }

  /** `validate` reports exactly the first of the failing checks, and passes when none fails. */
  lemma FirstFailedCheckIsFirstOfAll(s: LoadedSections)
    ensures FirstFailedCheck(s) == if FailedChecks(s) == [] then None else Some(FailedChecks(s)[0])
  {
  }

  /** `validate` never looks at the cache port or the metrics port. */
  lemma ValidationIgnoresUncheckedPorts(s: LoadedSections, cachePort: int, metricsPort: int)
    ensures FirstFailedCheck(s.(cache := s.cache.(port := cachePort),
                                monitoring := s.monitoring.(metricsPort := metricsPort)))
         == FirstFailedCheck(s)
  {
  }

  /** No profile touches a secret or a checked port, so profiles never change the verdict. */
  lemma ValidationIgnoresProfile(p: Profile, s: LoadedSections)
    ensures FirstFailedCheck(Override(p, s)) == FirstFailedCheck(s)
  {
  }

  /** With SECRET_KEY unset, a configuration that loads fails validation on it first. */
  lemma UnsetSecretKeyFailsValidation(env: Env)
    requires LoadSections(env).Success? && "SECRET_KEY" !in env
    ensures FirstFailedCheck(LoadSections(env).value) == Some(SecretKeyNotSet)
  {
  }

  // ----- get_config -----

  /** The name `get_config` looks up: the argument, or FLASK_ENV (default "development") when none is given. */
  function ResolveName(env: Env, name: Option<string>): (r: string)
    ensures name.Some? ==> r == name.value
    ensures name.None? && "FLASK_ENV" in env ==> r == env["FLASK_ENV"]
    ensures name.None? && "FLASK_ENV" !in env ==> r == "development"
  {
    if name.Some? then name.value else GetEnv(env, "FLASK_ENV", "development")
  }

  function ProfileName(p: Profile): string {
    match p
    case Development => "development"
    case Testing => "testing"
    case Production => "production"
  }

  /** `configs.get(environment.lower(), DevelopmentConfig)`. */
  function SelectProfile(name: string): (p: Profile)
    ensures p == Testing <==> Lower(name) == "testing"
    ensures p == Production <==> Lower(name) == "production"
    ensures p == Development <==> Lower(name) != "testing" && Lower(name) != "production"
  {
    var key := Lower(name);
    if key == "testing" then Testing
    else if key == "production" then Production
    else Development
  }

  /** Selection ignores case: a name and its lower-case form pick the same profile. */
  lemma SelectProfileIgnoresCase(name: string)
    ensures SelectProfile(Lower(name)) == SelectProfile(name)
  {
    LowerIdempotent(name);
  }

  /** Each profile's own name selects it. */
  lemma SelectProfileName(p: Profile)
    ensures SelectProfile(ProfileName(p)) == p
  {
    match p
    case Development => LowerOfLowercase("development");
    case Testing => LowerOfLowercase("testing");
    case Production => LowerOfLowercase("production");
  }

  /** Unknown names, the empty name included, fall back to development. */
  lemma SelectProfileFallback()
    ensures SelectProfile("") == Development
    ensures SelectProfile("staging") == Development
    ensures SelectProfile("invalid") == Development
  {
    assert Lower("staging")[0] == 's';
    assert Lower("invalid")[0] == 'i';
  }

  /** Upper-case spellings select the same profiles. */
  lemma SelectProfileUpperCase()
    ensures SelectProfile("PRODUCTION") == Production
    ensures SelectProfile("Testing") == Testing
  {
    assert forall i :: 0 <= i < 10 ==> LowerChar("PRODUCTION"[i]) == "production"[i];
    assert forall i :: 0 <= i < 7 ==> LowerChar("Testing"[i]) == "testing"[i];
  }

  /** With no name and no FLASK_ENV, `get_config` builds the development profile. */
  lemma DefaultProfileIsDevelopment(env: Env)
    requires "FLASK_ENV" !in env
    ensures SelectProfile(ResolveName(env, None)) == Development
  {
    SelectProfileName(Development);
  }

  // ----- The Config object -----

  /**
   * A configuration object. The six nested records are the Python
   * dataclass instances (each owned by this object alone); `flask` holds
   * the upper-case attributes, set once by the constructor.
   */
  class Config {
    var database: DatabaseConfig
    var redis: RedisConfig
    var security: SecurityConfig
    var monitoring: MonitoringConfig
    var cache: CacheConfig
    var app: AppConfig
    var flask: FlaskSettings

    function Nested(): LoadedSections
      reads this
    {
      LoadedSections(database, redis, security, monitoring, cache, app)
    }

    /** `Config.__init__` once the six `from_env` calls have returned. */
    constructor (loaded: LoadedSections)
      ensures Nested() == loaded
      ensures flask == FlaskSettingsOf(loaded)
    {
      database := loaded.database;
      redis := loaded.redis;
      security := loaded.security;
      monitoring := loaded.monitoring;
      cache := loaded.cache;
      app := loaded.app;
      flask := FlaskSettingsOf(loaded);
    }

    /** The assignments of a profile subclass's `__init__`, run after `Config.__init__`. */
    method ApplyProfile(p: Profile)
      modifies this
      ensures Nested() == Override(p, old(Nested()))
      ensures flask == old(flask)
    {
      match p
      case Development =>
        app := app.(debug := true);
        app := app.(testing := false);
        monitoring := monitoring.(logLevel := "DEBUG");
        cache := cache.(cacheType := "simple");
      case Testing =>
        app := app.(debug := false);
        app := app.(testing := true);
        monitoring := monitoring.(logLevel := "DEBUG");
        cache := cache.(cacheType := "simple");
        database := database.(name := "devops_demo_test");
      case Production =>
        app := app.(debug := false);
        app := app.(testing := false);
        monitoring := monitoring.(logLevel := "WARNING");
        cache := cache.(cacheType := "redis");
        security := security.(bcryptRounds := 14);
    }

    /** `to_dict`: the five redacted sections of the current nested fields. */
    function ToDict(): (d: Dict)
      reads this
      ensures d.Keys == {"app", "database", "redis", "cache", "monitoring"}
      ensures forall k :: k in d ==> Redacted(d[k])
      ensures Lookup(d, "app", "debug") == Some(BoolValue(app.debug))
    {
      ExportIsRedacted(Nested());
      ExportMirrors(Nested());
      ExportView(Nested())
    }

    /** `validate`: the printed message is `Message` of the first failed check. */
    function Validate(): (ok: bool)
      reads this
      ensures ok <==>
        && SecretAcceptable(security.secretKey, PlaceholderSecretKey)
        && SecretAcceptable(security.jwtSecret, PlaceholderJwtSecret)
        && PortInRange(app.port) && PortInRange(database.port) && PortInRange(redis.port)
    {
      FirstFailedCheck(Nested()).None?
    }
  }

  /**
   * `get_config(name)`: resolve the name, pick the profile, run
   * `Config.__init__` (which raises on a malformed integer) and then the
   * profile's overrides.
   */
  method GetConfig(env: Env, name: Option<string>) returns (r: Result<Config, ConfigError>)
    ensures r.Failure? <==> LoadSections(env).Failure?
    ensures r.Failure? ==> r.error == LoadSections(env).error
    ensures r.Success? ==>
      && fresh(r.value)
      && r.value.Nested() == Override(SelectProfile(ResolveName(env, name)), LoadSections(env).value)
      && r.value.flask == FlaskSettingsOf(LoadSections(env).value)
  {
    var profile := SelectProfile(ResolveName(env, name));
    var loaded := LoadSections(env);
    if loaded.Failure? {
      return Failure(loaded.error);
    }
    var config := new Config(loaded.value);
    config.ApplyProfile(profile);
    return Success(config);
  }
}
