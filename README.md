# Configuration and request metrics of the DevOps demo application

This project is a Dafny model of the decision logic in the demo Flask
application's two Python modules.

- `src/config.py` turns environment variables into six typed settings
  records: database, Redis, security, monitoring, cache and app. `Config`
  combines them, derives the flat upper-case Flask attributes from them
  (`DEBUG`, `CACHE_TYPE`, `SQLALCHEMY_DATABASE_URI`, `SESSION_COOKIE_SECURE`,
  …), exports a redacted dictionary (`to_dict`) and validates secrets and
  ports (`validate`). Three profiles (development, testing, production)
  overwrite some nested fields after `Config.__init__` has run. `get_config`
  picks a profile by name.
- `src/app.py` keeps a window of the last 1000 request durations. It reports
  their count, mean and rate (`MetricsAPI.get`). Its start-up block forces
  debug off in production and chooses the address to bind.

The environment is an immutable `map<string, string>`. A Python exception
raised while the configuration is built (`int()` on a malformed value) is a
`Failure` of a `Result`. `Config` is a class. Its nested records are fields
that `ApplyProfile` reassigns. The upper-case attributes sit in one field,
`flask`, which only the constructor writes. The request window is a class
whose `seq` field `AfterRequest` replaces.

Files, one module each: `wrappers.dfy` (Option, Result), `text.dfy`
(`str.lower`, `int`, `str`), `environment.dfy` (`os.getenv` and the
boolean/integer readers), `sections.dfy` (the six `from_env` constructors),
`settings.dfy` (`Config`, profiles, `to_dict`, `validate`, `get_config`),
`app.dfy` (the window, the metrics report, the start-up guard).

Properties the proofs establish beyond single calls:

- `int(str(i)) == i`. Each settings record round-trips through the
  variables that spell it out, and only those variables matter.
- The upper-case attributes are a snapshot taken before the profile runs.
  They agree with the profile exactly when the environment already held the
  profile's values (`SnapshotMatchesProfileIff`). Two consequences:
  - Production with `DEBUG=true` keeps `Config`'s `DEBUG` attribute on and
    the session cookie not secure.
  - Testing keeps a database URI that names the environment's database, not
    `devops_demo_test`.
- The database URI is not percent-encoded. An `@` in the password makes two
  different configurations produce the same URI. Without `:` in the user
  name and `@` in the password, the URI determines both credentials.
- `to_dict` holds no password or secret entry and does not depend on them.
  It shows every other field of its five sections, including the profile's
  values.
- `validate` reports the first failing check of the full list of failing
  checks. It never looks at the cache or metrics port. Profiles never change
  its verdict.
- The window always holds exactly the last 1000 durations, oldest first. The
  reported mean lies between the smallest and the largest of them.
- The start-up guard compares `FLASK_ENV` case-sensitively, while
  `get_config` lower-cases it. `get_config` would map `Production` to the
  production profile, while the guard leaves a configured debug on.

Where the repository's tests disagree with `src/config.py`, the model
follows the code. `tests/test_config.py` imports `StagingConfig`,
`validate_config` and other names that `src/config.py` does not define. It
expects `get_config` to return a class and malformed integers to fall back
to defaults. In the code, `get_config` returns an instance and `int()`
raises.

## Model

| member | source | states |
|---|---|---|
| `Text.Lower` | src/config.py:58 | `.lower()` keeps the length and lower-cases each character (A-Z to a-z, others kept) |
| `Text.LowerIdempotent` | src/config.py:325 | lower-casing twice equals lower-casing once |
| `Text.ParseInt` | src/config.py:31 | `int()` succeeds exactly on an optional sign followed by at least one digit; the sign decides the sign of the value |
| `Text.IntToString` | src/config.py:182 | `str(i)` is non-empty and starts with '-' exactly for negative `i` |
| `Text.IntToStringRoundTrip` | src/config.py:180-184 | `int(str(i)) == i` for every integer |
| `Text.IntToStringInjective` | src/config.py:182 | distinct ports print differently in the URI |
| `Environment.BoolSetting` | src/config.py:58-146 | `.lower() == 'true'` (lines 58, 98, 102, 145, 146) holds exactly when the value has four characters that lower-case to t, r, u, e |
| `Environment.GetEnv` | src/config.py:30 | `os.getenv(name, default)` is the variable's value when set, else the default |
| `Environment.LookupEnv` | src/config.py:56 | `os.getenv(name)` is `None` exactly when unset |
| `Environment.IntSetting` | src/config.py:31 | an integer setting fails, naming the variable and its text, exactly when the value or default is not a decimal literal |
| `Environment.BoolSettingSpellings` | src/config.py:58 | "True" and "TRUE" read as true; "1", "yes" and "" read as false |
| `Environment.BoolSettingRoundTrip` | src/config.py:98 | the spellings "true"/"false" read back as the boolean |
| `Environment.IntSettingRoundTrip` | src/config.py:31 | an integer written with `str` reads back as itself |
| `Environment.IntSettingDefault` | src/config.py:31 | an unset integer variable reads as its default literal |
| `Sections.DatabaseFromEnv` | src/config.py:26-38 | fails exactly when DB_PORT, DB_POOL_SIZE or DB_MAX_OVERFLOW is malformed; the error names a set, malformed one |
| `Sections.DatabaseRoundTrip` | src/config.py:29-38 | every database field is read from its own variable and nothing else |
| `Sections.DatabaseDefaults` | src/config.py:29-38 | unset variables give localhost:5432/devops_demo, user postgres, empty password, sslmode require, pool 10/20 |
| `Sections.RedisFromEnv` | src/config.py:50-59 | fails exactly when REDIS_PORT or REDIS_DB is malformed; a password exists exactly when REDIS_PASSWORD is set |
| `Sections.RedisRoundTrip` | src/config.py:53-59 | every Redis field is read from its own variable |
| `Sections.RedisDefaults` | src/config.py:53-59 | unset variables give localhost:6379, no password, db 0, ssl on |
| `Sections.SecurityFromEnv` | src/config.py:72-82 | fails exactly when one of the four integer security variables is malformed |
| `Sections.SecurityRoundTrip` | src/config.py:75-82 | every security field is read from its own variable |
| `Sections.SecurityDefaults` | src/config.py:75-82 | unset variables give both placeholder secrets and 12/3600/5/900 |
| `Sections.MonitoringFromEnv` | src/config.py:94-103 | fails exactly when METRICS_PORT or HEALTH_CHECK_INTERVAL is malformed |
| `Sections.MonitoringRoundTrip` | src/config.py:97-103 | every monitoring field is read from its own variable |
| `Sections.MonitoringDefaults` | src/config.py:97-103 | unset variables give prometheus on, 9090, 30, INFO, structured logging on |
| `Sections.CacheFromEnv` | src/config.py:117-128 | fails exactly when CACHE_PORT, CACHE_DB or CACHE_DEFAULT_TIMEOUT is malformed; a password exists exactly when CACHE_PASSWORD is set |
| `Sections.CacheRoundTrip` | src/config.py:120-128 | every cache field is read from its own variable |
| `Sections.CacheDefaults` | src/config.py:120-128 | unset variables give redis at localhost:6379, no password, db 1, 300, prefix devops_demo: |
| `Sections.AppFromEnv` | src/config.py:141-151 | fails exactly when PORT, WORKERS or TIMEOUT is malformed |
| `Sections.AppRoundTrip` | src/config.py:144-151 | every app field is read from its own variable |
| `Sections.AppDefaults` | src/config.py:144-151 | unset variables give debug and testing off, 0.0.0.0:8000, 4 workers, timeout 30 |
| `Sections.LoadSections` | src/config.py:157-163 | loading fails exactly when one of the six sections fails, with the error of the first failing section in database, redis, security, monitoring, cache, app order; on success the six records are the six sections' results |
| `Sections.LoadDefaults` | src/config.py:157-163 | with nothing set, loading succeeds with every literal default |
| `Settings.Override` | src/config.py:278-310 | each profile sets debug, testing, log level, cache type, and (testing) the database name or (production) bcrypt rounds 14; all other fields keep their base values |
| `Settings.OverrideIdempotent` | src/config.py:281-310 | applying a profile twice equals applying it once |
| `Settings.DatabaseUri` | src/config.py:180-184 | the URI starts with `postgresql://` |
| `Settings.FlaskSettingsOf` | src/config.py:165-205 | DEBUG is the loaded app.debug, SESSION_COOKIE_SECURE is its negation, SECRET_KEY is the loaded secret, the URI is built from the loaded database record |
| `Settings.UriDeterminesCredentials` | src/config.py:180-184 | with no ':' in the user and no '@' in the password, equal URIs have equal user and password |
| `Settings.UriAmbiguousWithoutEncoding` | src/config.py:180-184 | for every configuration, password `a@b` with host `h` and password `a` with host `b@h` give one URI |
| `Settings.UriDeterminesName` | src/config.py:180-184 | configurations differing only in database name have different URIs |
| `Settings.SnapshotMatchesProfileIff` | src/config.py:157-310 | the upper-case attributes equal those the profile's values would give if and only if the environment already held those values |
| `Settings.ProductionKeepsEnvDebug` | src/config.py:193-306 | production with DEBUG=true: app.debug is off but Flask DEBUG stays on and the session cookie is not secure |
| `Settings.TestingUriKeepsEnvDatabase` | src/config.py:180-298 | testing: database.name becomes devops_demo_test but the URI keeps the environment's database |
| `Settings.AppView` | src/config.py:210-217 | the app section has exactly the six app keys and mirrors debug and testing |
| `Settings.DatabaseView` | src/config.py:218-226 | the database section has exactly seven keys and no password |
| `Settings.RedisView` | src/config.py:227-232 | the redis section has exactly four keys and no password |
| `Settings.CacheView` | src/config.py:233-240 | the cache section has exactly six keys, no password, and mirrors the cache type |
| `Settings.MonitoringView` | src/config.py:241-247 | the monitoring section has exactly five keys and mirrors the log level |
| `Settings.ExportView` | src/config.py:207-248 | `to_dict` has exactly the app, database, redis, cache and monitoring sections |
| `Settings.ExportSections` | src/config.py:207-248 | each section of `to_dict` is the view of the matching record |
| `Settings.ExportMirrors` | src/config.py:211-245 | the exported debug, testing, log level and cache type are the record's current values |
| `Settings.ExportIsRedacted` | src/config.py:207-248 | no section of `to_dict` has a password, secret_key or jwt_secret entry |
| `Settings.ExportIgnoresSecrets` | src/config.py:207-248 | configurations differing only in passwords and secrets export the same dictionary |
| `Settings.AppViewInjective` | src/config.py:210-217 | the app section shows every app field: equal sections mean equal records |
| `Settings.DatabaseViewShowsAllButPassword` | src/config.py:218-226 | equal database sections mean records that differ at most in the password |
| `Settings.RedisViewShowsAllButPassword` | src/config.py:227-232 | equal redis sections mean records that differ at most in the password |
| `Settings.CacheViewShowsAllButPassword` | src/config.py:233-240 | equal cache sections mean records that differ at most in the password |
| `Settings.MonitoringViewInjective` | src/config.py:241-247 | the monitoring section shows every monitoring field: equal sections mean equal records |
| `Settings.ExportShowsAllButSecrets` | src/config.py:207-248 | the converse of redaction: two configurations with the same `to_dict` agree on every field except the three passwords and the security record |
| `Settings.ExportShowsProfile` | src/config.py:207-310 | after a profile, `to_dict` shows the profile's debug, testing, log level and cache type |
| `Settings.Message` | src/config.py:255-268 | each `ValueError` text starts with the setting it is about (SECRET_KEY, JWT_SECRET, Port, Database port, Redis port), followed by the problem text |
| `Settings.MessageIdentifiesCheck` | src/config.py:255-268 | distinct failed checks print distinct messages |
| `Settings.FirstFailedCheck` | src/config.py:250-274 | passes exactly when both secrets are non-empty and not placeholders and app, database and redis ports are in 1..65535; a bad secret key is reported first |
| `Settings.FirstFailedCheckIsFirstOfAll` | src/config.py:250-274 | the reported failure is the first of all failing checks in source order, and none is reported when none fails |
| `Settings.ValidationIgnoresUncheckedPorts` | src/config.py:260-270 | the cache port and the metrics port never affect validation |
| `Settings.ValidationIgnoresProfile` | src/config.py:250-310 | a profile never changes the validation verdict |
| `Settings.UnsetSecretKeyFailsValidation` | src/config.py:76-255 | with SECRET_KEY unset, validation fails on the secret key |
| `Settings.ResolveName` | src/config.py:314-317 | an explicit name is used as given; otherwise FLASK_ENV, defaulting to "development" |
| `Settings.SelectProfile` | src/config.py:319-325 | testing and production are chosen exactly by their lower-cased names; every other name gives development |
| `Settings.SelectProfileIgnoresCase` | src/config.py:325 | a name and its lower-case form select the same profile |
| `Settings.SelectProfileName` | src/config.py:319-323 | each profile's own name selects it |
| `Settings.SelectProfileFallback` | src/config.py:325 | "", "staging" and "invalid" select development |
| `Settings.SelectProfileUpperCase` | src/config.py:325 | "PRODUCTION" and "Testing" select production and testing |
| `Settings.DefaultProfileIsDevelopment` | src/config.py:316-325 | with no name and no FLASK_ENV, development is chosen |
| `Settings.Config.constructor` | src/config.py:157-205 | the object holds the loaded sections and the upper-case attributes derived from them |
| `Settings.Config.ToDict` | src/config.py:207-248 | the object's `to_dict` has the five sections, none with a password or secret entry, and shows the current debug flag |
| `Settings.Config.Validate` | src/config.py:250-274 | `validate` returns true exactly when both secrets are acceptable and the app, database and redis ports are in 1..65535 |
| `Settings.Config.ApplyProfile` | src/config.py:281-310 | the nested fields become the profile's override of the old ones; the upper-case attributes are unchanged |
| `Settings.GetConfig` | src/config.py:314-326 | fails exactly when loading fails, with the same error; otherwise a fresh object whose nested fields carry the selected profile and whose upper-case attributes are those of the unprofiled load |
| `App.Record` | src/app.py:111-116 | the new duration is last; a window of at most 1000 stays at most 1000; below 1000 nothing is dropped; at 1000 exactly the oldest entry is dropped and order is kept |
| `App.RecordSuffix` | src/app.py:111-116 | one more request turns the last 1000 durations of a history into the last 1000 of the history extended by it |
| `App.WindowKeepsLastDurations` | src/app.py:112-116 | after any run of requests the window is exactly the last 1000 durations in arrival order |
| `App.Summarize` | src/app.py:184-197 | requests_total is the window length; an empty window reports 0 and 0; otherwise mean times count equals the sum and rate times elapsed equals the count; a zero elapsed time with a non-empty window raises |
| `App.Sum` | src/app.py:187 | `sum(request_times)` of non-negative durations is non-negative |
| `App.SumBounds` | src/app.py:187 | a window of `n` durations between `lo` and `hi` sums to between `n * lo` and `n * hi` |
| `App.AverageNonNegative` | src/app.py:187 | durations that are never negative give a reported mean that is never negative |
| `App.AverageWithinBounds` | src/app.py:187 | the reported mean lies between any lower and upper bound of the windowed durations |
| `App.RequestLog.constructor` | src/app.py:91 | the window starts empty |
| `App.RequestLog.AfterRequest` | src/app.py:107-116 | the window becomes `Record` of the old one and keeps at most 1000 entries |
| `App.RequestLog.Get` | src/app.py:184-197 | returns the summary of the current window; requests_total never exceeds 1000 |
| `App.StartupSettings` | src/app.py:252-262 | FLASK_ENV exactly "production" forces debug off, otherwise debug is the configured value; debug binds 127.0.0.1, otherwise the configured HOST or 127.0.0.1; port 8000 |
| `App.StartupGuardIsCaseSensitive` | src/app.py:254 | a comparison of the two functions: `get_config` would map FLASK_ENV "Production" to production, while the guard leaves a configured debug on |

## Left out

- Text.Lower: models `str.lower()` on ASCII letters only; Unicode case mapping is not modelled.
- Text.ParseInt: accepts only an optional sign and ASCII digits; Python's `int()` also allows surrounding whitespace, underscores between digits and non-ASCII digits.
- App.Summarize: computes in exact real arithmetic; floating-point rounding of the sum and the divisions is not modelled.
- The clock: `time.time()` readings are not modelled. `MetricsAPI.get` receives the elapsed seconds as a parameter and `after_request` receives the measured duration.
- Process environment and console output: `os.getenv` reads a map passed in. The message `validate` prints is returned by `Message` instead of printed.
- What `app.config` holds in the `__main__` block is decided by Flask's `from_object`, which is not modelled. The configured `DEBUG` and `HOST` are parameters of `StartupSettings`.
- Exceptions: a `ValueError` from `int()` is a `Failure` naming the variable and its text. Python's message wording is not modelled. In `GetConfig` the failure occurs before any object exists.
- Aliasing: the nested dataclass objects are values owned by one `Config`. Nothing else in the source holds a reference to them.
- Concurrency: `request_times` is shared by all requests of a worker. The model is a sequential sequence of requests.
- Flask plumbing in src/app.py (routes, templates, `jsonify`, error handlers, flask_restx models, flask_caching, Prometheus counters, structlog) is not modelled: it is library code with no decision logic of its own.
- Terraform, Dockerfiles and shell scripts are not modelled; the model covers src/config.py and src/app.py only.
