/**
  The chainable LoggerBuilder (logger/builder.go). Every setter and preset
  assigns fields of the builder's own Config in place and hands back the
  same builder, so in a chain the last call to touch a field decides it.
*/
module Builder {

  import opened Levels
  import opened Logging

  /** The Config after Development(): four fields set, Output and ServiceName kept. */
  function DevelopmentPreset(c: Config): (r: Config)
    ensures r.level == DebugLevel && r.pretty && r.withCaller && r.timeFormat == RFC3339Nano
    ensures r.output == c.output && r.serviceName == c.serviceName
  {
    c.(level := DebugLevel, pretty := true, withCaller := true, timeFormat := RFC3339Nano)
  }

  /** The Config after Production(): four fields set, Output and ServiceName kept. */
  function ProductionPreset(c: Config): (r: Config)
    ensures r.level == InfoLevel && !r.pretty && !r.withCaller && r.timeFormat == RFC3339
    ensures r.output == c.output && r.serviceName == c.serviceName
  {
    c.(level := InfoLevel, pretty := false, withCaller := false, timeFormat := RFC3339)
  }

  /**
    A preset erases whatever was set before it for the four fields it owns:
    an earlier setter of those fields, or the other preset, leaves no trace.
  */
  lemma PresetOverridesEarlierCalls(c: Config, level: Level, pretty: bool, withCaller: bool, timeFormat: string)
    ensures DevelopmentPreset(c.(level := level, pretty := pretty, withCaller := withCaller, timeFormat := timeFormat))
         == DevelopmentPreset(c)
    ensures ProductionPreset(c.(level := level, pretty := pretty, withCaller := withCaller, timeFormat := timeFormat))
         == ProductionPreset(c)
    ensures DevelopmentPreset(ProductionPreset(c)) == DevelopmentPreset(c)
    ensures ProductionPreset(DevelopmentPreset(c)) == ProductionPreset(c)
  {
  }

  class LoggerBuilder {
    var config: Config

    /** NewBuilder: starts from DefaultConfig; `stderr` stands for os.Stderr. */
    constructor NewBuilder(stderr: Sink)
      ensures config == DefaultConfig(stderr)
    {
      config := DefaultConfig(stderr);
    }

    method WithLevel(level: Level) returns (b: LoggerBuilder)
      modifies this
      ensures b == this && config == old(config).(level := level)
    {
      config := config.(level := level);
      b := this;
    }

    method WithPrettyPrint(enabled: bool) returns (b: LoggerBuilder)
      modifies this
      ensures b == this && config == old(config).(pretty := enabled)
    {
      config := config.(pretty := enabled);
      b := this;
    }

    method WithCaller(enabled: bool) returns (b: LoggerBuilder)
      modifies this
      ensures b == this && config == old(config).(withCaller := enabled)
    {
      config := config.(withCaller := enabled);
      b := this;
    }

    method WithOutput(output: Sink?) returns (b: LoggerBuilder)
      modifies this
      ensures b == this && config == old(config).(output := output)
    {
      config := config.(output := output);
      b := this;
    }

    method WithTimeFormat(format: string) returns (b: LoggerBuilder)
      modifies this
      ensures b == this && config == old(config).(timeFormat := format)
    {
      config := config.(timeFormat := format);
      b := this;
    }

    method WithServiceName(name: string) returns (b: LoggerBuilder)
      modifies this
      ensures b == this && config == old(config).(serviceName := name)
    {
      config := config.(serviceName := name);
      b := this;
    }

    method Development() returns (b: LoggerBuilder)
      modifies this
      ensures b == this && config == DevelopmentPreset(old(config))
    {
      config := config.(level := DebugLevel);
      config := config.(pretty := true);
      config := config.(withCaller := true);
      config := config.(timeFormat := RFC3339Nano);
      b := this;
    }

    method Production() returns (b: LoggerBuilder)
      modifies this
      ensures b == this && config == ProductionPreset(old(config))
    {
      config := config.(level := InfoLevel);
      config := config.(pretty := false);
      config := config.(withCaller := false);
      config := config.(timeFormat := RFC3339);
      b := this;
    }

    /** Build: New over the builder's current Config. */
    method Build(stderr: Sink) returns (l: Logger)
      ensures fresh(l) && BuiltFrom(l, config, stderr)
      ensures l.serviceName == if config.serviceName != "" then config.serviceName else UnknownService
    {
      l := New(config, stderr);
    }

    /** BuildAndSetAsDefault: the same as Build (no global default is installed). */
    method BuildAndSetAsDefault(stderr: Sink) returns (l: Logger)
      ensures fresh(l) && BuiltFrom(l, config, stderr)
      ensures l.serviceName == if config.serviceName != "" then config.serviceName else UnknownService
    {
      l := Build(stderr);
    }
  }

  /**
    NewBuilder().Production().WithServiceName(name).Build(): the preset
    decides level and encoding, the later setter the name.
  */
  method ProductionChain(name: string, stderr: Sink) returns (l: Logger)
    ensures fresh(l)
    ensures l.level == InfoLevel && !l.pretty && !l.withCaller && l.timeFormat == RFC3339
    ensures l.sink == stderr
    ensures l.serviceName == if name != "" then name else UnknownService
  {
    var b := new LoggerBuilder.NewBuilder(stderr);
    b := b.Production();
    b := b.WithServiceName(name);
    l := b.Build(stderr);
  }

  /** A setter after a preset wins over the preset: Development().WithLevel(level) keeps `level`. */
  method SetterAfterPreset(level: Level, stderr: Sink) returns (l: Logger)
    ensures fresh(l)
    ensures l.level == level && l.pretty && l.withCaller && l.timeFormat == RFC3339Nano
  {
    var b := new LoggerBuilder.NewBuilder(stderr);
    b := b.Development();
    b := b.WithLevel(level);
    l := b.Build(stderr);
  }
}
