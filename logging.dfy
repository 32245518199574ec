/**
  The logger itself (logger/logger.go): its configuration record, the
  defaulting that New applies, the Logger object with its minimum level,
  service name and baseline context, and the per-event LogBuilder.

  Rendering is opaque: what reaches the output is an abstract Record
  holding what zerolog would encode (level, the "service" stamp, the
  baseline context, the event's own fields, whether caller information is
  attached, and the message template with its arguments).
*/
module Logging {

  import opened Wrappers
  import opened Levels

  /** The sentinel New substitutes for an empty service name. */
  const UnknownService: string := "UNKNOWN-SERVICE"

  /** Go's time.RFC3339 and time.RFC3339Nano layouts. */
  const RFC3339: string := "2006-01-02T15:04:05Z07:00"
  const RFC3339Nano: string := "2006-01-02T15:04:05.999999999Z07:00"

  /** Go's `int` on a 64-bit platform. */
  newtype Int64 = x: int | -0x8000_0000_0000_0000 <= x < 0x8000_0000_0000_0000

  /** A field value, by the Go type it was added with. */
  datatype Value =
    | Str(s: string)        // Str and string values of AddField/WithFields
    | Int(i: Int64)         // Int and int values
    | Bool(b: bool)         // Bool and bool values
    | ErrorText(text: string)  // the Error() text of a non-nil error
    | Other(repr: string)   // any other dynamic type, in its encoded form

  datatype Field = Field(key: string, value: Value)

  /** One emitted log entry, before encoding. */
  datatype Record = Record(
    level: Level,
    service: string,
    context: multiset<Field>,
    fields: seq<Field>,
    caller: bool,
    template: string,
    args: seq<Value>)

  /** An io.Writer: the records written to it, in order. */
  class Sink {
    var records: seq<Record>

    constructor ()
      ensures records == []
    {
      records := [];
    }
  }

  /** Config; a nil Output is a null Sink. */
  datatype Config = Config(
    level: Level,
    pretty: bool,
    withCaller: bool,
    output: Sink?,
    timeFormat: string,
    serviceName: string)

  /** DefaultConfig; `stderr` stands for os.Stderr. */
  function DefaultConfig(stderr: Sink): (c: Config)
    ensures c.level == InfoLevel && !c.pretty && c.withCaller
    ensures c.output == stderr && c.timeFormat == RFC3339 && c.serviceName == ""
  {
    Config(InfoLevel, false, true, stderr, RFC3339, "")
  }

  /** New's choice of writer: the configured one, or os.Stderr when it is nil. */
  function ResolveOutput(output: Sink?, stderr: Sink): (w: Sink)
    ensures output != null ==> w == output
    ensures output == null ==> w == stderr
  {
    if output == null then stderr else output
  }

  /** New's choice of service name: the configured one, or the sentinel when it is empty. */
  function ResolveServiceName(name: string): (r: string)
    ensures r != ""
    ensures name != "" ==> r == name
    ensures name == "" ==> r == UnknownService
  {
    if name == "" then UnknownService else name
  }

  /** The context fields WithFields adds for the keys `keys` of `fields`, one per key. */
  ghost function Entries(fields: map<string, Value>, keys: set<string>): multiset<Field>
    requires keys <= fields.Keys
  {
    multiset(set k | k in keys :: Field(k, fields[k]))
  }

  /** Adding one more key adds exactly its field. */
  lemma EntriesStep(fields: map<string, Value>, keys: set<string>, k: string)
    requires keys <= fields.Keys && k in fields && k !in keys
    ensures Entries(fields, keys + {k}) == Entries(fields, keys) + multiset{Field(k, fields[k])}
  {
    var s := set j | j in keys :: Field(j, fields[j]);
    var s' := set j | j in keys + {k} :: Field(j, fields[j]);
    assert s' == s + {Field(k, fields[k])};
    assert Field(k, fields[k]) !in s;
  }

  /** Each given key contributes exactly one field, carrying the given value. */
  lemma EntriesCount(fields: map<string, Value>, f: Field)
    ensures Entries(fields, fields.Keys)[f] == if f.key in fields && fields[f.key] == f.value then 1 else 0
  {
  }

  /**
    A Logger. `level` and `serviceName` change in place; `stamp` is the
    "service" value written into the zerolog context when the logger was
    built, which SetServiceName does not touch. `context` holds the
    baseline fields WithFields added; zerolog keeps duplicate keys, so it
    is a multiset. `sink` is the writer every record goes to.
  */
  class Logger {
    var level: Level
    var serviceName: string
    const stamp: string
    const context: multiset<Field>
    const sink: Sink
    const pretty: bool
    const withCaller: bool
    const timeFormat: string

    /** Every logger carries a non-empty service stamp. */
    ghost predicate Valid()
    {
      stamp != ""
    }

    constructor Init(level: Level, serviceName: string, stamp: string, context: multiset<Field>,
                     sink: Sink, pretty: bool, withCaller: bool, timeFormat: string)
      ensures this.level == level && this.serviceName == serviceName && this.stamp == stamp
      ensures this.context == context && this.sink == sink
      ensures this.pretty == pretty && this.withCaller == withCaller && this.timeFormat == timeFormat
    {
      this.level := level;
      this.serviceName := serviceName;
      this.stamp := stamp;
      this.context := context;
      this.sink := sink;
      this.pretty := pretty;
      this.withCaller := withCaller;
      this.timeFormat := timeFormat;
    }

    /** The record this logger writes for an event at `l` with the given fields and message. */
    function Emitted(l: Level, fields: seq<Field>, template: string, args: seq<Value>): Record
    {
      Record(l, stamp, context, fields, withCaller, template, args)
    }

    method ServiceName() returns (name: string)
      ensures name == serviceName
    {
      name := serviceName;
    }

    /** Renames the logger; records keep the stamp fixed at construction. */
    method SetServiceName(name: string)
      modifies this
      ensures serviceName == name && level == old(level)
    {
      serviceName := name;
    }

    /** Replaces the minimum level for events started from now on. */
    method SetLevel(l: Level)
      modifies this
      ensures level == l && serviceName == old(serviceName)
    {
      level := l;
    }

    /**
      A new logger with the same level, service name, stamp, writer and
      encoding, whose context is this one's plus one field per entry of
      `fields`; this logger is left as it was.
    */
    method WithFields(fields: map<string, Value>) returns (child: Logger)
      requires Valid()
      ensures fresh(child) && child.Valid()
      ensures child.level == level && child.serviceName == serviceName && child.stamp == stamp
      ensures child.context == context + Entries(fields, fields.Keys)
      ensures child.sink == sink && child.pretty == pretty
      ensures child.withCaller == withCaller && child.timeFormat == timeFormat
    {
      var ctx := context;
      var rest := fields.Keys;
      ghost var done: set<string> := {};
      while rest != {}
        invariant rest + done == fields.Keys && rest !! done
        invariant ctx == context + Entries(fields, done)
        decreases rest
      {
        var k :| k in rest;
        ctx := ctx + multiset{Field(k, fields[k])};
        EntriesStep(fields, done, k);
        done := done + {k};
        rest := rest - {k};
      }
      child := new Logger.Init(level, serviceName, stamp, ctx, sink, pretty, withCaller, timeFormat);
    }

    /** newLogBuilder over zerolog's event factory: the level test happens here, once. */
    method NewEvent(l: Level) returns (b: LogBuilder)
      ensures fresh(b) && b.logger == this && b.level == l
      ensures b.enabled <==> l >= level
      ensures b.fields == [] && !b.done
    {
      b := new LogBuilder.Init(this, l, l >= level);
    }

    method Trace() returns (b: LogBuilder)
      ensures fresh(b) && b.logger == this && b.level == TraceLevel
      ensures b.enabled <==> TraceLevel >= level
      ensures b.fields == [] && !b.done
    {
      b := NewEvent(TraceLevel);
    }

    method Debug() returns (b: LogBuilder)
      ensures fresh(b) && b.logger == this && b.level == DebugLevel
      ensures b.enabled <==> DebugLevel >= level
      ensures b.fields == [] && !b.done
    {
      b := NewEvent(DebugLevel);
    }

    method Info() returns (b: LogBuilder)
      ensures fresh(b) && b.logger == this && b.level == InfoLevel
      ensures b.enabled <==> InfoLevel >= level
      ensures b.fields == [] && !b.done
    {
      b := NewEvent(InfoLevel);
    }

    method Warn() returns (b: LogBuilder)
      ensures fresh(b) && b.logger == this && b.level == WarnLevel
      ensures b.enabled <==> WarnLevel >= level
      ensures b.fields == [] && !b.done
    {
      b := NewEvent(WarnLevel);
    }

    method Error() returns (b: LogBuilder)
      ensures fresh(b) && b.logger == this && b.level == ErrorLevel
      ensures b.enabled <==> ErrorLevel >= level
      ensures b.fields == [] && !b.done
    {
      b := NewEvent(ErrorLevel);
    }

    method Fatal() returns (b: LogBuilder)
      ensures fresh(b) && b.logger == this && b.level == FatalLevel
      ensures b.enabled <==> FatalLevel >= level
      ensures b.fields == [] && !b.done
    {
      b := NewEvent(FatalLevel);
    }

    method Panic() returns (b: LogBuilder)
      ensures fresh(b) && b.logger == this && b.level == PanicLevel
      ensures b.enabled <==> PanicLevel >= level
      ensures b.fields == [] && !b.done
    {
      b := NewEvent(PanicLevel);
    }

    /** Each XMsg is X() followed by Msg on the fresh builder. */
    method TraceMsg(template: string, args: seq<Value>)
      modifies sink
      ensures sink.records == old(sink.records) + if TraceLevel >= level then [Emitted(TraceLevel, [], template, args)] else []
    {
      var b := Trace();
      b.Msg(template, args);
    }

    method DebugMsg(template: string, args: seq<Value>)
      modifies sink
      ensures sink.records == old(sink.records) + if DebugLevel >= level then [Emitted(DebugLevel, [], template, args)] else []
    {
      var b := Debug();
      b.Msg(template, args);
    }

    method InfoMsg(template: string, args: seq<Value>)
      modifies sink
      ensures sink.records == old(sink.records) + if InfoLevel >= level then [Emitted(InfoLevel, [], template, args)] else []
    {
      var b := Info();
      b.Msg(template, args);
    }

    method WarnMsg(template: string, args: seq<Value>)
      modifies sink
      ensures sink.records == old(sink.records) + if WarnLevel >= level then [Emitted(WarnLevel, [], template, args)] else []
    {
      var b := Warn();
      b.Msg(template, args);
    }

    method ErrorMsg(template: string, args: seq<Value>)
      modifies sink
      ensures sink.records == old(sink.records) + if ErrorLevel >= level then [Emitted(ErrorLevel, [], template, args)] else []
    {
      var b := Error();
      b.Msg(template, args);
    }

    method FatalMsg(template: string, args: seq<Value>)
      modifies sink
      ensures sink.records == old(sink.records) + if FatalLevel >= level then [Emitted(FatalLevel, [], template, args)] else []
    {
      var b := Fatal();
      b.Msg(template, args);
    }

    method PanicMsg(template: string, args: seq<Value>)
      modifies sink
      ensures sink.records == old(sink.records) + if PanicLevel >= level then [Emitted(PanicLevel, [], template, args)] else []
    {
      var b := Panic();
      b.Msg(template, args);
    }
  }

  /**
    A LogBuilder: one event of `logger` at `level`. Whether it will be
    written was decided when it was started (`enabled`); fields accumulate
    in order, and Msg finishes it.
  */
  class LogBuilder {
    const logger: Logger
    const level: Level
    const enabled: bool
    var fields: seq<Field>
    var done: bool

    constructor Init(logger: Logger, level: Level, enabled: bool)
      ensures this.logger == logger && this.level == level && this.enabled == enabled
      ensures fields == [] && !done
    {
      this.logger := logger;
      this.level := level;
      this.enabled := enabled;
      fields := [];
      done := false;
    }

    /** Adds an "error" field holding the error's text; a nil error adds nothing. */
    method WithError(err: Option<string>) returns (b: LogBuilder)
      requires !done
      modifies this
      ensures b == this && !done
      ensures fields == old(fields) + if err.Some? then [Field("error", ErrorText(err.value))] else []
    {
      if err.Some? {
        fields := fields + [Field("error", ErrorText(err.value))];
      }
      b := this;
    }

    method AddField(key: string, value: Value) returns (b: LogBuilder)
      requires !done
      modifies this
      ensures b == this && !done && fields == old(fields) + [Field(key, value)]
    {
      fields := fields + [Field(key, value)];
      b := this;
    }

    method Str(key: string, value: string) returns (b: LogBuilder)
      requires !done
      modifies this
      ensures b == this && !done && fields == old(fields) + [Field(key, Value.Str(value))]
    {
      fields := fields + [Field(key, Value.Str(value))];
      b := this;
    }

    method Int(key: string, value: Int64) returns (b: LogBuilder)
      requires !done
      modifies this
      ensures b == this && !done && fields == old(fields) + [Field(key, Value.Int(value))]
    {
      fields := fields + [Field(key, Value.Int(value))];
      b := this;
    }

    method Bool(key: string, value: bool) returns (b: LogBuilder)
      requires !done
      modifies this
      ensures b == this && !done && fields == old(fields) + [Field(key, Value.Bool(value))]
    {
      fields := fields + [Field(key, Value.Bool(value))];
      b := this;
    }

    /**
      Finishes the event: an enabled event appends its record (stamp,
      baseline context, accumulated fields, message) to the logger's
      writer; a disabled one writes nothing. The builder is spent.
    */
    method Msg(template: string, args: seq<Value>)
      requires !done
      modifies this, logger.sink
      ensures done && fields == old(fields)
      ensures logger.sink.records ==
        old(logger.sink.records) + if enabled then [logger.Emitted(level, fields, template, args)] else []
    {
      if enabled {
        logger.sink.records := logger.sink.records + [logger.Emitted(level, fields, template, args)];
      }
      done := true;
    }
  }

  /** What New promises about the logger it builds from `cfg`. */
  ghost predicate BuiltFrom(l: Logger, cfg: Config, stderr: Sink)
    reads l
  {
    && l.Valid()
    && l.level == cfg.level
    && l.serviceName == ResolveServiceName(cfg.serviceName)
    && l.stamp == l.serviceName
    && l.context == multiset{}
    && l.sink == ResolveOutput(cfg.output, stderr)
    && l.pretty == cfg.pretty
    && l.withCaller == cfg.withCaller
    && l.timeFormat == cfg.timeFormat
  }

  /** New: a nil output becomes os.Stderr, an empty service name the sentinel. */
  method New(cfg: Config, stderr: Sink) returns (l: Logger)
    ensures fresh(l) && BuiltFrom(l, cfg, stderr)
  {
    var output := ResolveOutput(cfg.output, stderr);
    var serviceName := ResolveServiceName(cfg.serviceName);
    l := new Logger.Init(cfg.level, serviceName, serviceName, multiset{}, output, cfg.pretty, cfg.withCaller, cfg.timeFormat);
  }
}

/**
  Client-side consequences of the contracts above, written as the
  repository's tests use the logger.
*/
module LoggingScenarios {

  import opened Wrappers
  import opened Levels
  import opened Logging

  /**
    After WithFields the two loggers are independent: a level change on
    the child and a rename of the parent touch only their own object,
    while both keep writing to the same writer.
  */
  method DerivedLoggersAreIndependent(parent: Logger, fields: map<string, Value>, childLevel: Level, parentName: string)
    returns (child: Logger)
    requires parent.Valid()
    modifies parent
    ensures fresh(child)
    ensures parent.level == old(parent.level) && parent.serviceName == parentName
    ensures child.level == childLevel && child.serviceName == old(parent.serviceName)
    ensures child.context == parent.context + Entries(fields, fields.Keys)
    ensures child.stamp == parent.stamp && child.sink == parent.sink
  {
    child := parent.WithFields(fields);
    child.SetLevel(childLevel);
    parent.SetServiceName(parentName);
  }

  /**
    SetServiceName changes what ServiceName reports but not the "service"
    value on the records written afterwards.
  */
  method RenameKeepsStamp(l: Logger, name: string) returns (reported: string)
    requires l.Valid()
    modifies l, l.sink
    ensures reported == name
    ensures l.sink.records == old(l.sink.records) +
      if InfoLevel >= l.level then [Record(InfoLevel, l.stamp, l.context, [], l.withCaller, "renamed", [])] else []
  {
    l.SetServiceName(name);
    reported := l.ServiceName();
    l.InfoMsg("renamed", []);
  }

  /** A logger at WarnLevel drops an Info message and writes a Warn message. */
  method WarnThresholdScenario(l: Logger)
    requires l.level == WarnLevel
    modifies l.sink
    ensures l.sink.records == old(l.sink.records) + [l.Emitted(WarnLevel, [], "y", [])]
  {
    l.InfoMsg("x", []);
    l.WarnMsg("y", []);
  }

  /**
    Info().Str("key1", "value1").Int("key2", 42).Bool("key3", true).Msg("structured message"):
    one Info record holding the three fields in order, the message and the service stamp.
  */
  method StructuredFieldsScenario(l: Logger)
    requires l.level <= InfoLevel
    modifies l.sink
    ensures l.sink.records == old(l.sink.records) +
      [l.Emitted(InfoLevel, [Field("key1", Value.Str("value1")), Field("key2", Value.Int(42)), Field("key3", Value.Bool(true))],
                 "structured message", [])]
    ensures l.sink.records[|l.sink.records| - 1].service == l.stamp
  {
    var b := l.Info();
    b := b.Str("key1", "value1");
    b := b.Int("key2", 42);
    b := b.Bool("key3", true);
    assert b.fields == [Field("key1", Value.Str("value1")), Field("key2", Value.Int(42)), Field("key3", Value.Bool(true))];
    b.Msg("structured message", []);
  }

  /**
    Error().WithError(err).Str("operation", "test").Msg("error occurred") with a
    non-nil error whose text is "mock error": one Error record whose fields are
    the "error" field and then the "operation" field.
  */
  method ErrorFieldScenario(l: Logger)
    requires l.level <= ErrorLevel
    modifies l.sink
    ensures l.sink.records == old(l.sink.records) +
      [l.Emitted(ErrorLevel, [Field("error", ErrorText("mock error")), Field("operation", Value.Str("test"))],
                 "error occurred", [])]
  {
    var b := l.Error();
    b := b.WithError(Some("mock error"));
    b := b.Str("operation", "test");
    assert b.fields == [Field("error", ErrorText("mock error")), Field("operation", Value.Str("test"))];
    b.Msg("error occurred", []);
  }
}
