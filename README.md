# easy-logger, modelled in Dafny

A model of the logic that the `logger` package owns itself. The package is a
small facade over zerolog. It has:

- seven ordered severities with a case-insensitive parser and a total `String`;
- a `Config` record with a default and the defaulting `New` applies (a nil
  writer becomes standard error, an empty service name becomes
  `"UNKNOWN-SERVICE"`);
- three ways to assemble a `Config`: a chainable `LoggerBuilder` with
  Development/Production presets, functional options with three preset
  loggers, and derivation from environment variables;
- a `Logger` object with a minimum level, a service name and a baseline
  context. Its `LogBuilder` events accumulate fields and are written to the
  logger's writer when finished, if their level passes the filter.

Encoding is not modelled. A written entry is an abstract `Record`: level,
the `"service"` stamp, the baseline context, the event's fields, whether
caller information is attached, and the message template with its arguments.

Files and modules:

- `wrappers.dfy` (`Wrappers`): `Option`.
- `ascii.dfy` (`Ascii`): ASCII lower/upper case, standing in for `strings.ToLower`.
- `levels.dfy` (`Levels`): `logger/level.go`.
- `logging.dfy` (`Logging`, `LoggingScenarios`): `logger/logger.go`, and
  client methods that combine its contracts as the tests do.
- `builder.dfy` (`Builder`): `logger/builder.go`.
- `options.dfy` (`Options`): `logger/options.go`.
- `env.dfy` (`Env`): `logger/env.go`.

Modelling choices:

- `Level` is a newtype over the `int8` range. The seven named levels take
  zerolog's values, Trace = -1 up to Panic = 5. Any other `int8` is a
  `Level` too, and `ToString` maps it to `"unknown"`.
- `os.Stderr` is a `stderr: Sink` parameter. A `Sink` object stands for an
  `io.Writer`; its `records` field is everything written to it. A nil
  `Output` is a null `Sink?`. Loggers derived with `WithFields` share their
  parent's `Sink`, as they share the Go writer.
- The environment is a `map<string, string>` argument. An absent key is an
  unset variable.
- The baseline context is a `multiset<Field>`. Go map iteration order is
  unspecified, and zerolog keeps duplicate keys instead of overriding them.
- Filtering happens when the event is started. zerolog's level methods
  return a nil event for a level below the minimum, and every later call
  on that event does nothing. So `LogBuilder.enabled` is fixed by
  `NewEvent`, and `Msg` writes exactly when it is set. A `SetLevel` between
  `Info()` and `Msg` does not change that event's fate.
- `Option` is a datatype. It has one variant per constructor in
  `options.go`, plus `Custom(update)` for a function a caller writes against
  the exported `Option` type. `Apply` gives an option's effect.

Behaviours of the code a reader might not expect:

- `WithFields` does not let a new key override a parent key of the same
  name. Both fields stay in the context.
- `New` does not replace an empty `TimeFormat` with a default.
- `ParseLevel`'s error is the text `"invalid log level: "` followed by the
  lower-cased input. It is not a structured `InvalidLevel{input}` value.
- `Msg` always passes the message through `Sprintf`. An empty argument list
  does not mean the template is used verbatim.

## Model

| member | source | states |
|---|---|---|
| `Ascii.Lower` | logger/level.go:33 | lower-casing keeps the length and maps each character through ASCII `LowerChar` |
| `Ascii.LowerIdempotent` | logger/level.go:33 | lower-casing twice equals lower-casing once |
| `Ascii.LowerUpper` | logger/logger_test.go:496-504 | lower-casing the upper-case form of a lower-case string gives the string back |
| `Levels.ToString` | logger/level.go:54-72 | a value is named iff its string is not `"unknown"`; a named level's string is a lower-case name that `ParseLevel` accepts, never `"warning"` |
| `Levels.ParseLevel` | logger/level.go:32-51 | no error iff the lowered input is one of the eight accepted names; on success the level is named and its `ToString` is the lowered input (except the `"warning"` synonym); on failure the level is `InfoLevel` and the error text quotes the lowered input |
| `Levels.SeverityOrder` | logger/level.go:13-28 | Trace < Debug < Info < Warn < Error < Fatal < Panic, and these seven are exactly the named levels |
| `Levels.ParseCaseInsensitive` | logger/level.go:33 | `ParseLevel(s) == ParseLevel(Lower(s))` for every string, error text included |
| `Levels.WarnSynonyms` | logger/level.go:39-40 | `"warn"` and `"warning"` both parse to `WarnLevel` without error |
| `Levels.RoundTrip` | logger/logger_test.go:484-542 | `ParseLevel(ToString(l))` is `l` with no error, for every named level |
| `Levels.UpperCaseParses` | logger/logger_test.go:496-504 | the upper-case spelling of every accepted name parses, to the same result as the lower-case one |
| `Levels.InvalidFallsBack` | logger/level.go:50 | an unrecognised string gives `InfoLevel` and the `"invalid log level: "` error |
| `Levels.LevelNames` | logger/level.go:55-69 | Trace, Debug, Info, Warn, Error, Fatal and Panic are named `"trace"`, `"debug"`, `"info"`, `"warn"`, `"error"`, `"fatal"` and `"panic"` |
| `Levels.ToStringInjective` | logger/level.go:55-69 | distinct named levels have distinct strings |
| `Logging.DefaultConfig` | logger/logger.go:42-51 | Info level, no pretty printing, caller info on, stderr output, RFC 3339 time format, empty service name |
| `Logging.ResolveOutput` | logger/logger.go:55-58 | a nil writer becomes stderr; a non-nil writer is kept |
| `Logging.ResolveServiceName` | logger/logger.go:60-63 | the result is never empty; an empty name becomes `"UNKNOWN-SERVICE"`; a non-empty name is kept verbatim |
| `Logging.EntriesStep` | logger/logger.go:114-116 | each loop step of `WithFields` adds exactly the field for its key |
| `Logging.EntriesCount` | logger/logger.go:112-121 | the fields added by `WithFields` hold each given key once, with its given value, and nothing else |
| `Logging.New` | logger/logger.go:54-94 | the new logger has the config's level, encoding, caller flag and time format; it writes to the resolved writer; its service name and its `"service"` stamp are both the resolved name; its context is empty |
| `Logging.Logger.ServiceName` | logger/logger.go:97-99 | returns the current service name |
| `Logging.Logger.SetServiceName` | logger/logger.go:102-104 | sets the name; the level and the stamp are unchanged |
| `Logging.Logger.SetLevel` | logger/logger.go:124-126 | sets the minimum level; the name is unchanged |
| `Logging.Logger.WithFields` | logger/logger.go:112-121 | returns a fresh logger with the same level, name, stamp, writer and encoding; its context is the parent's plus the given fields; the parent is not modified |
| `Logging.Logger.NewEvent` | logger/logger.go:129-134 | a fresh builder for this logger at the given level, with no fields, enabled iff the level is at or above the current minimum |
| `Logging.Logger.Trace` | logger/logger.go:197-199 | a fresh event at `TraceLevel`, enabled iff Trace ≥ minimum |
| `Logging.Logger.Debug` | logger/logger.go:167-169 | a fresh event at `DebugLevel`, enabled iff Debug ≥ minimum |
| `Logging.Logger.Info` | logger/logger.go:172-174 | a fresh event at `InfoLevel`, enabled iff Info ≥ minimum |
| `Logging.Logger.Warn` | logger/logger.go:177-179 | a fresh event at `WarnLevel`, enabled iff Warn ≥ minimum |
| `Logging.Logger.Error` | logger/logger.go:182-184 | a fresh event at `ErrorLevel`, enabled iff Error ≥ minimum |
| `Logging.Logger.Fatal` | logger/logger.go:187-189 | a fresh event at `FatalLevel`, enabled iff Fatal ≥ minimum |
| `Logging.Logger.Panic` | logger/logger.go:192-194 | a fresh event at `PanicLevel`, enabled iff Panic ≥ minimum |
| `Logging.Logger.TraceMsg` | logger/logger.go:237-239 | writes one field-less Trace record iff Trace ≥ minimum, else nothing |
| `Logging.Logger.DebugMsg` | logger/logger.go:207-209 | writes one field-less Debug record iff Debug ≥ minimum, else nothing |
| `Logging.Logger.InfoMsg` | logger/logger.go:212-214 | writes one field-less Info record iff Info ≥ minimum, else nothing |
| `Logging.Logger.WarnMsg` | logger/logger.go:217-219 | writes one field-less Warn record iff Warn ≥ minimum, else nothing |
| `Logging.Logger.ErrorMsg` | logger/logger.go:222-224 | writes one field-less Error record iff Error ≥ minimum, else nothing |
| `Logging.Logger.FatalMsg` | logger/logger.go:227-229 | writes one field-less Fatal record iff Fatal ≥ minimum, else nothing |
| `Logging.Logger.PanicMsg` | logger/logger.go:232-234 | writes one field-less Panic record iff Panic ≥ minimum, else nothing |
| `Logging.LogBuilder.WithError` | logger/logger.go:137-140 | appends an `"error"` field with the error's text (nothing for a nil error) and returns the same builder |
| `Logging.LogBuilder.AddField` | logger/logger.go:143-146 | appends one field with the given value and returns the same builder |
| `Logging.LogBuilder.Str` | logger/logger.go:149-152 | appends one string field and returns the same builder |
| `Logging.LogBuilder.Int` | logger/logger.go:155-158 | appends one integer field and returns the same builder |
| `Logging.LogBuilder.Bool` | logger/logger.go:161-164 | appends one boolean field and returns the same builder |
| `Logging.LogBuilder.Msg` | logger/logger.go:202-204 | an enabled event appends exactly one record to the writer (stamp, baseline context, all accumulated fields in order, message); a disabled one writes nothing; the builder is spent |
| `LoggingScenarios.DerivedLoggersAreIndependent` | logger/logger.go:117-120 | after `WithFields`, `SetLevel` on the child and `SetServiceName` on the parent each affect only their own logger; both keep the same writer and stamp |
| `LoggingScenarios.RenameKeepsStamp` | logger/logger.go:71 | after `SetServiceName(n)`, `ServiceName()` is n but the next record still carries the construction-time stamp |
| `LoggingScenarios.WarnThresholdScenario` | logger/logger_test.go:45-62 | a logger at `WarnLevel` drops an Info message and writes a Warn message |
| `LoggingScenarios.StructuredFieldsScenario` | logger/logger_test.go:77-90 | `Info().Str("key1", "value1").Int("key2", 42).Bool("key3", true).Msg("structured message")` writes one Info record with the three fields in order, the message and the service stamp |
| `LoggingScenarios.ErrorFieldScenario` | logger/logger_test.go:93-103 | `Error().WithError(err).Str("operation", "test").Msg("error occurred")` writes one Error record whose fields are `"error"` with the error's text, then `"operation"` |
| `Builder.DevelopmentPreset` | logger/builder.go:57-63 | Debug level, pretty on, caller on, RFC 3339 nano time format; output and service name unchanged |
| `Builder.ProductionPreset` | logger/builder.go:66-72 | Info level, pretty off, caller off, RFC 3339 time format; output and service name unchanged |
| `Builder.PresetOverridesEarlierCalls` | logger/builder.go:21-72 | a preset erases earlier setters of its four fields, and erases the other preset |
| `Builder.LoggerBuilder.NewBuilder` | logger/builder.go:14-18 | the builder's config is `DefaultConfig()` |
| `Builder.LoggerBuilder.WithLevel` | logger/builder.go:21-24 | changes only the level and returns the same builder |
| `Builder.LoggerBuilder.WithPrettyPrint` | logger/builder.go:27-30 | changes only the pretty flag and returns the same builder |
| `Builder.LoggerBuilder.WithCaller` | logger/builder.go:33-36 | changes only the caller flag and returns the same builder |
| `Builder.LoggerBuilder.WithOutput` | logger/builder.go:39-42 | changes only the output and returns the same builder |
| `Builder.LoggerBuilder.WithTimeFormat` | logger/builder.go:45-48 | changes only the time format and returns the same builder |
| `Builder.LoggerBuilder.WithServiceName` | logger/builder.go:51-54 | changes only the service name and returns the same builder |
| `Builder.LoggerBuilder.Development` | logger/builder.go:57-63 | applies the Development preset in place and returns the same builder |
| `Builder.LoggerBuilder.Production` | logger/builder.go:66-72 | applies the Production preset in place and returns the same builder |
| `Builder.LoggerBuilder.Build` | logger/builder.go:75-77 | `New` over the current config; the logger's name is the configured name if non-empty, else `"UNKNOWN-SERVICE"` |
| `Builder.LoggerBuilder.BuildAndSetAsDefault` | logger/builder.go:81-84 | the same as `Build` |
| `Builder.ProductionChain` | examples/simple/main.go:62-65 | `Production()` then `WithServiceName(n)`: the preset's level and encoding, with the later name |
| `Builder.SetterAfterPreset` | logger/builder.go:21-63 | `Development()` then `WithLevel(l)`: level l wins over the preset, the preset's other fields stay |
| `Options.WithLevel` | logger/options.go:12-16 | a built-in option that writes the level field and no other |
| `Options.WithPrettyPrint` | logger/options.go:19-23 | a built-in option that writes the pretty field and no other |
| `Options.WithCaller` | logger/options.go:26-30 | a built-in option that writes the caller field and no other |
| `Options.WithOutput` | logger/options.go:33-37 | a built-in option that writes the output field and no other |
| `Options.WithTimeFormat` | logger/options.go:40-44 | a built-in option that writes the time-format field and no other |
| `Options.Apply` | logger/options.go:12-44 | running an option sets the field its constructor names to the constructor's argument; a built-in option leaves every other field as it was |
| `Options.ApplyAll` | logger/options.go:51-53 | the options applied one after another, left to right; built-in options leave the service name as it was |
| `Options.ConstructorEffects` | logger/options.go:12-44 | each constructor's option sets its field to exactly the given value |
| `Options.ApplyFrame` | logger/options.go:12-44 | a built-in option's value for its own field does not depend on the config it is applied to; every other field is left alone |
| `Options.ApplyAllUnfold` | logger/options.go:51-53 | folding three or four options applies them left to right |
| `Options.LastWriterWins` | logger/options.go:47-56 | when `opts[i]` is the last option to write a field and only built-in options follow it, the folded config has `opts[i]`'s value for that field |
| `Options.UnwrittenFieldKept` | logger/options.go:47-56 | a field that no option writes keeps its starting value |
| `Options.ServiceNameUntouched` | logger/options.go:9-56 | built-in options never change the service name |
| `Options.NewWithOptions` | logger/options.go:47-56 | the logger is `New` over `DefaultConfig()` folded with the options left to right; with no options it is `DefaultConfig()` itself; with built-in options the name is `"UNKNOWN-SERVICE"` |
| `Options.PresetConfigs` | logger/options.go:64-100 | `Default()` is `DefaultConfig` with pretty on; `Production()` is `DefaultConfig` with caller off, the same as the builder's Production preset; `Development()` equals the builder's Development preset |
| `Options.Default` | logger/options.go:64-71 | Info, pretty on, caller on, RFC 3339, stderr, `"UNKNOWN-SERVICE"` |
| `Options.Production` | logger/options.go:79-85 | Info, pretty off, caller off, RFC 3339 kept from the default, stderr, `"UNKNOWN-SERVICE"` |
| `Options.Development` | logger/options.go:93-100 | Debug, pretty on, caller on, RFC 3339 nano, stderr, `"UNKNOWN-SERVICE"` |
| `Env.GetEnvStr` | logger/env.go:20-25 | the variable's value whenever it is set, even to the empty string; otherwise the default |
| `Env.GetEnvBool` | logger/env.go:28-34 | when set: true iff the lowered value is `"true"`, `"yes"` or `"1"`, whatever the default; when unset: the default |
| `Env.GetEnvBoolIgnoresCase` | logger/env.go:30 | the boolean read does not depend on the value's case |
| `Env.ConfigFromEnv` | logger/env.go:38-58 | nil output; caller flag from LOG_CALLER defaulting to true; millisecond RFC 3339 layout; service name from SERVICE_NAME, defaulting to empty |
| `Env.EnvLevel` | logger/env.go:39-52 | the level is `ParseLevel(LOG_LEVEL)` when that succeeds, and `InfoLevel` when the variable is unset or invalid |
| `Env.EnvPretty` | logger/env.go:40-53 | pretty iff LOG_FORMAT is set to exactly `"pretty"` or `"console"`; the match is case-sensitive |
| `Env.DebugPrettyEnvironment` | logger/logger_test.go:455-462 | the test's environment gives Debug, pretty, caller on, the millisecond layout and `"env-service"` |
| `Env.NewFromEnv` | logger/env.go:37-63 | `New` over the environment's config: writes to stderr; an empty or unset SERVICE_NAME becomes `"UNKNOWN-SERVICE"` |
| `Env.InitGlobalFromEnv` | logger/env.go:66-69 | the same as `NewFromEnv` |

## Left out

- Encoding: JSON and console rendering, timestamps, caller file and line,
  colours, and the `Formatter`, `JSONFormatter` and `PrettyFormatter` wrappers
  in `logger/formatter.go`. All of this happens inside zerolog. A record is
  abstract, and `pretty` and `timeFormat` are only carried on the logger.
- `Sprintf` interpolation in `Msg`. A record keeps the template and the
  arguments uninterpreted.
- Process termination after a Fatal record and the panic after a Panic
  record. zerolog also exits or panics when such an event is started below
  the minimum level. Neither is modelled: the model only writes or drops the
  record.
- The process-wide `zerolog.TimeFieldFormat` assignment in `New`, and
  zerolog's global level. This package never changes the global level.
- `Logger.With()`, which returns zerolog's own context type.
- Unicode case mapping: `strings.ToLower` is modelled on ASCII letters only.
- `Logging.LogBuilder.WithError`: only the error's text is modelled. A
  non-nil error whose marshalled form is nil is not.
- `Logging.LogBuilder.Int`: Go's `int` is taken to be 64 bits wide.
- Fields added to a disabled event are recorded on the builder, although
  zerolog discards them. The difference is never observable, because a
  disabled event writes nothing.
- Reusing a `LogBuilder` after `Msg` is excluded by `requires !done`, since
  zerolog returns the event to a pool.
- Concurrent use of a shared `Logger`.
- `Options.ServiceNameUntouched`, `Options.NewWithOptions`: "no option sets
  the service name" is proved for the five built-in option constructors.
  A caller-written `Custom` option can set it.
