/**
  Functional options (logger/options.go). Go's Option is a function that
  updates a *Config; here it is a value naming which constructor made it,
  with `Custom` for a function written by the caller, and Apply gives its
  effect on a Config.
*/
module Options {

  import opened Levels
  import opened Logging
  import Builder

  datatype Option =
    | LevelOption(level: Level)
    | PrettyPrintOption(enabled: bool)
    | CallerOption(enabled: bool)
    | OutputOption(output: Sink?)
    | TimeFormatOption(format: string)
    | Custom(update: Config -> Config)

  /** What running the option on a Config does. */
  function Apply(o: Option, c: Config): (r: Config)
    ensures o.LevelOption? ==> r.level == o.level
    ensures o.PrettyPrintOption? ==> r.pretty == o.enabled
    ensures o.CallerOption? ==> r.withCaller == o.enabled
    ensures o.OutputOption? ==> r.output == o.output
    ensures o.TimeFormatOption? ==> r.timeFormat == o.format
    ensures !o.Custom? ==> forall f :: !Writes(o, f) ==> Get(r, f) == Get(c, f)
  {
    match o
    case LevelOption(level) => c.(level := level)
    case PrettyPrintOption(enabled) => c.(pretty := enabled)
    case CallerOption(enabled) => c.(withCaller := enabled)
    case OutputOption(output) => c.(output := output)
    case TimeFormatOption(format) => c.(timeFormat := format)
    case Custom(update) => update(c)
  }

  /** The fold of up to four options, written out. */
  lemma ApplyAllUnfold(c: Config, opts: seq<Option>)
    requires 3 <= |opts| <= 4
    ensures |opts| == 3 ==> ApplyAll(c, opts) == Apply(opts[2], Apply(opts[1], Apply(opts[0], c)))
    ensures |opts| == 4 ==> ApplyAll(c, opts) == Apply(opts[3], Apply(opts[2], Apply(opts[1], Apply(opts[0], c))))
  {
    var p3, p2, p1 := opts[..3], opts[..2], opts[..1];
    assert p3[..2] == p2 && p2[..1] == p1 && p1[..0] == [];
    assert ApplyAll(c, p1) == Apply(opts[0], c);
    assert ApplyAll(c, p2) == Apply(opts[1], Apply(opts[0], c));
    assert ApplyAll(c, p3) == Apply(opts[2], Apply(opts[1], Apply(opts[0], c)));
    if |opts| == 3 {
      assert opts == p3;
    } else {
      assert opts[..3] == p3;
    }
  }

  /** The six fields of a Config, and their values under one type. */
  datatype ConfigField = LevelField | PrettyField | CallerField | OutputField | TimeFormatField | ServiceNameField

  datatype FieldValue = LevelValue(l: Level) | BoolValue(b: bool) | OutputValue(w: Sink?) | StringValue(s: string)

  function Get(c: Config, f: ConfigField): FieldValue
  {
    match f
    case LevelField => LevelValue(c.level)
    case PrettyField => BoolValue(c.pretty)
    case CallerField => BoolValue(c.withCaller)
    case OutputField => OutputValue(c.output)
    case TimeFormatField => StringValue(c.timeFormat)
    case ServiceNameField => StringValue(c.serviceName)
  }

  /** The one field a built-in option writes; no built-in option writes ServiceName. */
  predicate Writes(o: Option, f: ConfigField)
  {
    match o
    case LevelOption(_) => f == LevelField
    case PrettyPrintOption(_) => f == PrettyField
    case CallerOption(_) => f == CallerField
    case OutputOption(_) => f == OutputField
    case TimeFormatOption(_) => f == TimeFormatField
    case Custom(_) => false
  }

  function WithLevel(level: Level): (o: Option)
    ensures !o.Custom? && forall f :: Writes(o, f) <==> f == LevelField
  {
    LevelOption(level)
  }

  function WithPrettyPrint(enabled: bool): (o: Option)
    ensures !o.Custom? && forall f :: Writes(o, f) <==> f == PrettyField
  {
    PrettyPrintOption(enabled)
  }

  function WithCaller(enabled: bool): (o: Option)
    ensures !o.Custom? && forall f :: Writes(o, f) <==> f == CallerField
  {
    CallerOption(enabled)
  }

  function WithOutput(w: Sink?): (o: Option)
    ensures !o.Custom? && forall f :: Writes(o, f) <==> f == OutputField
  {
    OutputOption(w)
  }

  function WithTimeFormat(format: string): (o: Option)
    ensures !o.Custom? && forall f :: Writes(o, f) <==> f == TimeFormatField
  {
    TimeFormatOption(format)
  }

  /** Each constructor's option sets its field to the value it was given. */
  lemma ConstructorEffects(c: Config, level: Level, enabled: bool, w: Sink?, format: string)
    ensures Apply(WithLevel(level), c) == c.(level := level)
    ensures Apply(WithPrettyPrint(enabled), c) == c.(pretty := enabled)
    ensures Apply(WithCaller(enabled), c) == c.(withCaller := enabled)
    ensures Apply(WithOutput(w), c) == c.(output := w)
    ensures Apply(WithTimeFormat(format), c) == c.(timeFormat := format)
  {
  }

  /** The options applied in order, left to right: the last one is applied last. */
  function ApplyAll(c: Config, opts: seq<Option>): (r: Config)
    ensures (forall j :: 0 <= j < |opts| ==> !opts[j].Custom?) ==> r.serviceName == c.serviceName
    decreases |opts|
  {
    if opts == [] then c else Apply(opts[|opts| - 1], ApplyAll(c, opts[..|opts| - 1]))
  }

  /**
    A built-in option changes its own field, to a value that does not depend
    on the Config it is applied to, and leaves every other field alone.
  */
  lemma ApplyFrame(o: Option, c: Config, d: Config, f: ConfigField)
    requires !o.Custom?
    ensures Writes(o, f) ==> Get(Apply(o, c), f) == Get(Apply(o, d), f)
    ensures !Writes(o, f) ==> Get(Apply(o, c), f) == Get(c, f)
  {
  }

  /**
    Last writer wins: when opts[i] is the last option to write field `f`
    and only built-in options follow it, the folded Config holds the value
    opts[i] writes.
  */
  lemma {:induction false} LastWriterWins(c: Config, opts: seq<Option>, f: ConfigField, i: nat)
    requires i < |opts| && Writes(opts[i], f)
    requires forall j :: i < j < |opts| ==> !opts[j].Custom? && !Writes(opts[j], f)
    ensures Get(ApplyAll(c, opts), f) == Get(Apply(opts[i], c), f)
  {
    var n := |opts|;
    var prefix := opts[..n - 1];
    if i == n - 1 {
      ApplyFrame(opts[i], ApplyAll(c, prefix), c, f);
    } else {
      assert prefix[i] == opts[i];
      assert forall j :: i < j < |prefix| ==> prefix[j] == opts[j];
      LastWriterWins(c, prefix, f, i);
      ApplyFrame(opts[n - 1], ApplyAll(c, prefix), c, f);
    }
  }

  /** A field no option writes keeps its starting value (for ServiceName: always, with built-in options). */
  lemma {:induction false} UnwrittenFieldKept(c: Config, opts: seq<Option>, f: ConfigField)
    requires forall j :: 0 <= j < |opts| ==> !opts[j].Custom? && !Writes(opts[j], f)
    ensures Get(ApplyAll(c, opts), f) == Get(c, f)
  {
    if opts != [] {
      var prefix := opts[..|opts| - 1];
      assert forall j :: 0 <= j < |prefix| ==> prefix[j] == opts[j];
      UnwrittenFieldKept(c, prefix, f);
      ApplyFrame(opts[|opts| - 1], ApplyAll(c, prefix), c, f);
    }
  }

  /** Built-in options never touch ServiceName. */
  lemma ServiceNameUntouched(c: Config, opts: seq<Option>)
    requires forall j :: 0 <= j < |opts| ==> !opts[j].Custom?
    ensures ApplyAll(c, opts).serviceName == c.serviceName
  {
    UnwrittenFieldKept(c, opts, ServiceNameField);
  }

  /** NewWithOptions: DefaultConfig, then every option in order, then New. */
  method NewWithOptions(opts: seq<Option>, stderr: Sink) returns (l: Logger)
    ensures fresh(l) && BuiltFrom(l, ApplyAll(DefaultConfig(stderr), opts), stderr)
    ensures opts == [] ==> BuiltFrom(l, DefaultConfig(stderr), stderr)
    ensures (forall j :: 0 <= j < |opts| ==> !opts[j].Custom?) ==> l.serviceName == UnknownService
  {
    var cfg := DefaultConfig(stderr);
    for i := 0 to |opts|
      invariant cfg == ApplyAll(DefaultConfig(stderr), opts[..i])
    {
      assert opts[..i + 1][..i] == opts[..i];
      cfg := Apply(opts[i], cfg);
    }
    assert opts[..|opts|] == opts;
    if forall j :: 0 <= j < |opts| ==> !opts[j].Custom? {
      ServiceNameUntouched(DefaultConfig(stderr), opts);
    }
    l := New(cfg, stderr);
  }

  function DefaultOptions(): seq<Option>
  {
    [WithLevel(InfoLevel), WithPrettyPrint(true), WithCaller(true), WithTimeFormat(RFC3339)]
  }

  function ProductionOptions(): seq<Option>
  {
    [WithLevel(InfoLevel), WithPrettyPrint(false), WithCaller(false)]
  }

  function DevelopmentOptions(): seq<Option>
  {
    [WithLevel(DebugLevel), WithPrettyPrint(true), WithCaller(true), WithTimeFormat(RFC3339Nano)]
  }

  /**
    What the three presets amount to: Default() is DefaultConfig with
    pretty printing on; Production() is DefaultConfig without caller
    information, the same Config as the builder's Production preset; and
    Development() is the builder's Development preset.
  */
  lemma PresetConfigs(stderr: Sink)
    ensures ApplyAll(DefaultConfig(stderr), DefaultOptions()) == DefaultConfig(stderr).(pretty := true)
    ensures ApplyAll(DefaultConfig(stderr), ProductionOptions()) == DefaultConfig(stderr).(withCaller := false)
    ensures ApplyAll(DefaultConfig(stderr), ProductionOptions()) == Builder.ProductionPreset(DefaultConfig(stderr))
    ensures ApplyAll(DefaultConfig(stderr), DevelopmentOptions()) == Builder.DevelopmentPreset(DefaultConfig(stderr))
  {
    var c := DefaultConfig(stderr);
    ApplyAllUnfold(c, [WithLevel(InfoLevel), WithPrettyPrint(true), WithCaller(true), WithTimeFormat(RFC3339)]);
    ApplyAllUnfold(c, [WithLevel(InfoLevel), WithPrettyPrint(false), WithCaller(false)]);
    ApplyAllUnfold(c, [WithLevel(DebugLevel), WithPrettyPrint(true), WithCaller(true), WithTimeFormat(RFC3339Nano)]);
  }

  method Default(stderr: Sink) returns (l: Logger)
    ensures fresh(l) && BuiltFrom(l, DefaultConfig(stderr).(pretty := true), stderr)
    ensures l.level == InfoLevel && l.pretty && l.withCaller && l.timeFormat == RFC3339
    ensures l.sink == stderr && l.serviceName == UnknownService
  {
    PresetConfigs(stderr);
    l := NewWithOptions(DefaultOptions(), stderr);
  }

  method Production(stderr: Sink) returns (l: Logger)
    ensures fresh(l) && BuiltFrom(l, Builder.ProductionPreset(DefaultConfig(stderr)), stderr)
    ensures l.level == InfoLevel && !l.pretty && !l.withCaller && l.timeFormat == RFC3339
    ensures l.sink == stderr && l.serviceName == UnknownService
  {
    PresetConfigs(stderr);
    l := NewWithOptions(ProductionOptions(), stderr);
  }

  method Development(stderr: Sink) returns (l: Logger)
    ensures fresh(l) && BuiltFrom(l, Builder.DevelopmentPreset(DefaultConfig(stderr)), stderr)
    ensures l.level == DebugLevel && l.pretty && l.withCaller && l.timeFormat == RFC3339Nano
    ensures l.sink == stderr && l.serviceName == UnknownService
  {
    PresetConfigs(stderr);
    l := NewWithOptions(DevelopmentOptions(), stderr);
  }
}
