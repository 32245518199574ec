/**
  Configuration from the process environment (logger/env.go). The
  environment is passed in as a map from variable name to value; a name
  absent from the map is an unset variable, which differs from one set to
  the empty string.
*/
module Env {

  import opened Wrappers
  import opened Ascii
  import opened Levels
  import opened Logging

  type Environment = map<string, string>

  const EnvLogLevel: string := "LOG_LEVEL"
  const EnvLogFormat: string := "LOG_FORMAT"
  const EnvLogCaller: string := "LOG_CALLER"
  const EnvServiceName: string := "SERVICE_NAME"

  /** RFC 3339 with milliseconds, in Go's reference-time layout. */
  const MillisTimeFormat: string := "2006-01-02T15:04:05.000Z07:00"

  /** The spellings GetEnvBool reads as true, once lowered. */
  const TrueSpellings: set<string> := {"true", "yes", "1"}

  /** GetEnvStr: the variable's value whenever it is set, even to "", else the default. */
  function GetEnvStr(env: Environment, key: string, defaultValue: string): (r: string)
    ensures key in env ==> r == env[key]
    ensures key !in env ==> r == defaultValue
  {
    if key in env then env[key] else defaultValue
  }

  /**
    GetEnvBool: when the variable is set, true exactly for "true", "yes" or
    "1" in any case, and false for everything else whatever the default;
    when it is unset, the default.
  */
  function GetEnvBool(env: Environment, key: string, defaultValue: bool): (r: bool)
    ensures key in env ==> (r <==> Lower(env[key]) in TrueSpellings)
    ensures key !in env ==> r == defaultValue
  {
    if key in env then
      var v := Lower(env[key]);
      v == "true" || v == "yes" || v == "1"
    else
      defaultValue
  }

  /** GetEnvBool ignores the case of the value it reads. */
  lemma {:induction false} GetEnvBoolIgnoresCase(env: Environment, key: string, value: string, defaultValue: bool)
    ensures GetEnvBool(env[key := value], key, defaultValue) == GetEnvBool(env[key := Lower(value)], key, defaultValue)
  {
    LowerIdempotent(value);
  }

  /** The Config NewFromEnv hands to New. */
  function ConfigFromEnv(env: Environment): (c: Config)
    ensures c.output == null
    ensures c.withCaller == GetEnvBool(env, EnvLogCaller, true)
    ensures c.timeFormat == MillisTimeFormat
    ensures c.serviceName == GetEnvStr(env, EnvServiceName, "")
  {
    var logLevel := GetEnvStr(env, EnvLogLevel, "info");
    var logFormat := GetEnvStr(env, EnvLogFormat, "json");
    var logCallerEnabled := GetEnvBool(env, EnvLogCaller, true);
    var serviceName := GetEnvStr(env, EnvServiceName, "");
    var parsed := ParseLevel(logLevel);
    var level := if parsed.err.Some? then InfoLevel else parsed.level;
    Config(level, logFormat == "pretty" || logFormat == "console", logCallerEnabled, null, MillisTimeFormat, serviceName)
  }

  /**
    The level comes from LOG_LEVEL when it parses, and is InfoLevel when
    the variable is unset or not a level name.
  */
  lemma EnvLevel(env: Environment)
    ensures EnvLogLevel in env && ParseLevel(env[EnvLogLevel]).err.None? ==>
      ConfigFromEnv(env).level == ParseLevel(env[EnvLogLevel]).level
    ensures EnvLogLevel in env && ParseLevel(env[EnvLogLevel]).err.Some? ==> ConfigFromEnv(env).level == InfoLevel
    ensures EnvLogLevel !in env ==> ConfigFromEnv(env).level == InfoLevel
  {
    LowerIsLower("info");
  }

  /**
    Pretty output exactly when LOG_FORMAT is set to "pretty" or "console",
    compared case-sensitively; unset (read as "json") means structured output.
  */
  lemma EnvPretty(env: Environment)
    ensures ConfigFromEnv(env).pretty <==>
      EnvLogFormat in env && (env[EnvLogFormat] == "pretty" || env[EnvLogFormat] == "console")
  {
  }

  /** The environment of the repository's own test: every variable set. */
  lemma DebugPrettyEnvironment()
    ensures ConfigFromEnv(map[EnvLogLevel := "debug", EnvLogFormat := "pretty", EnvLogCaller := "true",
                              EnvServiceName := "env-service"])
         == Config(DebugLevel, true, true, null, MillisTimeFormat, "env-service")
  {
    LowerIsLower("debug");
    LowerIsLower("true");
  }

  /** NewFromEnv: New over the environment's Config, so an empty SERVICE_NAME becomes the sentinel. */
  method NewFromEnv(env: Environment, stderr: Sink) returns (l: Logger)
    ensures fresh(l) && BuiltFrom(l, ConfigFromEnv(env), stderr)
    ensures l.sink == stderr
    ensures l.serviceName == if EnvServiceName in env && env[EnvServiceName] != "" then env[EnvServiceName] else UnknownService
  {
    l := New(ConfigFromEnv(env), stderr);
  }

  /** InitGlobalFromEnv: the same logger as NewFromEnv. */
  method InitGlobalFromEnv(env: Environment, stderr: Sink) returns (l: Logger)
    ensures fresh(l) && BuiltFrom(l, ConfigFromEnv(env), stderr)
    ensures l.sink == stderr
    ensures l.serviceName == if EnvServiceName in env && env[EnvServiceName] != "" then env[EnvServiceName] else UnknownService
  {
    l := NewFromEnv(env, stderr);
  }
}
