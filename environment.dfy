/**
 * The process environment as an immutable map, and the three ways
 * config.py reads a variable: as a string with a default, as an optional
 * string, and through `.lower() == 'true'` or `int()`.
 */
module Environment {
  import opened Wrappers
  import opened Text

  type Env = map<string, string>

  /** What makes construction of a configuration raise: `int()` refusing a literal. */
  datatype ConfigError = InvalidInteger(variable: string, literal: string)

  /** `os.getenv(name, default)`. */
  function GetEnv(env: Env, name: string, default: string): (v: string)
    ensures name in env ==> v == env[name]
    ensures name !in env ==> v == default
  {
    if name in env then env[name] else default
  }

  /** `os.getenv(name)` without a default: `None` when unset. */
  function LookupEnv(env: Env, name: string): (v: Option<string>)
    ensures v.Some? <==> name in env
    ensures v.Some? ==> v.value == env[name]
  {
    if name in env then Some(env[name]) else None
  }

  /**
   * `os.getenv(name, default).lower() == 'true'`: true exactly when the value
   * spells "true" in any mix of cases.
   */
  predicate BoolSetting(env: Env, name: string, default: string): (b: bool)
    ensures b <==> var v := GetEnv(env, name, default);
      |v| == 4 && forall i :: 0 <= i < 4 ==> LowerChar(v[i]) == "true"[i]
  {
    Lower(GetEnv(env, name, default)) == "true"
  }

  /** `int(os.getenv(name, default))`, failing where `int()` raises. */
  function IntSetting(env: Env, name: string, default: string): (r: Result<int, ConfigError>)
    ensures r.Success? <==> IsDecimalLiteral(GetEnv(env, name, default))
    ensures r.Success? ==> ParseInt(GetEnv(env, name, default)) == Some(r.value)
    ensures r.Failure? ==> r.error == InvalidInteger(name, GetEnv(env, name, default))
  {
    match ParseInt(GetEnv(env, name, default))
    case Some(n) => Success(n)
    case None => Failure(InvalidInteger(name, GetEnv(env, name, default)))
  }

  /** The spelling of a boolean a variable holds when it is written back out. */
  function BoolToString(b: bool): string {
    if b then "true" else "false"
  }

  /**
   * A boolean setting is true exactly for the case variants of "true":
   * "True" and "TRUE" count, "1", "yes" and the empty string do not.
   */
  lemma BoolSettingSpellings(name: string, default: string)
    ensures BoolSetting(map[name := "True"], name, default)
    ensures BoolSetting(map[name := "TRUE"], name, default)
    ensures !BoolSetting(map[name := "1"], name, default)
    ensures !BoolSetting(map[name := "yes"], name, default)
    ensures !BoolSetting(map[name := ""], name, default)
  {
    assert Lower("True") == "true";
    assert Lower("TRUE") == "true";
  }

  /** Writing a boolean out and reading it back gives it again. */
  lemma BoolSettingRoundTrip(env: Env, name: string, default: string, b: bool)
    requires name in env && env[name] == BoolToString(b)
    ensures BoolSetting(env, name, default) == b
  {
    if !b {
      assert Lower("false")[0] == 'f';
    }
  }

  /** Writing an integer out with `str` and reading it back gives it again. */
  lemma IntSettingRoundTrip(env: Env, name: string, default: string, n: int)
    requires name in env && env[name] == IntToString(n)
    ensures IntSetting(env, name, default) == Success(n)
  {
    IntToStringRoundTrip(n);
  }

  /** An unset integer variable reads as its default literal. */
  lemma IntSettingDefault(env: Env, name: string, n: nat)
    requires name !in env
    ensures IntSetting(env, name, NatToString(n)) == Success(n)
  {
    IntToStringRoundTrip(n);
  }
}
