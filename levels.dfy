/**
  Logging severities (logger/level.go). A Level is a signed 8-bit integer;
  the seven named levels take zerolog's values, so their numeric order is
  the severity order Trace < Debug < Info < Warn < Error < Fatal < Panic.
*/
module Levels {

  import opened Wrappers
  import opened Ascii

  /** Go's `type Level int8`. */
  newtype Level = x: int | -128 <= x < 128

  const TraceLevel: Level := -1
  const DebugLevel: Level := 0
  const InfoLevel: Level := 1
  const WarnLevel: Level := 2
  const ErrorLevel: Level := 3
  const FatalLevel: Level := 4
  const PanicLevel: Level := 5

  /** The seven named levels. */
  predicate IsNamed(l: Level) {
    TraceLevel <= l <= PanicLevel
  }

  /** Every spelling ParseLevel accepts once its input has been lowered. */
  const ParseableNames: set<string> :=
    {"trace", "debug", "info", "warn", "warning", "error", "fatal", "panic"}

  /** The result pair of ParseLevel: a level and a nil-able error. */
  datatype Parsed = Parsed(level: Level, err: Option<string>)

  /** Level.String: the lower-case name of a named level, "unknown" for any other value. */
  function ToString(l: Level): (r: string)
    ensures IsNamed(l) <==> r != "unknown"
    ensures IsNamed(l) ==> r in ParseableNames && r != "warning"
    ensures IsLower(r)
  {
    if l == DebugLevel then "debug"
    else if l == InfoLevel then "info"
    else if l == WarnLevel then "warn"
    else if l == ErrorLevel then "error"
    else if l == FatalLevel then "fatal"
    else if l == PanicLevel then "panic"
    else if l == TraceLevel then "trace"
    else "unknown"
  }

  /**
    ParseLevel: lowers its input and matches it against the level names,
    "warn" and "warning" both naming WarnLevel. Anything else yields InfoLevel
    together with an error that quotes the lowered input.
  */
  function ParseLevel(levelStr: string): (r: Parsed)
    ensures r.err.None? <==> Lower(levelStr) in ParseableNames
    ensures r.err.None? ==> IsNamed(r.level)
    ensures r.err.None? && Lower(levelStr) != "warning" ==> ToString(r.level) == Lower(levelStr)
    ensures r.err.Some? ==> r.level == InfoLevel && r.err.value == "invalid log level: " + Lower(levelStr)
  {
    var s := Lower(levelStr);
    if s == "debug" then Parsed(DebugLevel, None)
    else if s == "info" then Parsed(InfoLevel, None)
    else if s == "warn" || s == "warning" then Parsed(WarnLevel, None)
    else if s == "error" then Parsed(ErrorLevel, None)
    else if s == "fatal" then Parsed(FatalLevel, None)
    else if s == "panic" then Parsed(PanicLevel, None)
    else if s == "trace" then Parsed(TraceLevel, None)
    else Parsed(InfoLevel, Some("invalid log level: " + s))
  }

  /** The severity order of the seven named levels. */
  lemma SeverityOrder()
    ensures TraceLevel < DebugLevel < InfoLevel < WarnLevel < ErrorLevel < FatalLevel < PanicLevel
    ensures forall l :: IsNamed(l) <==> l in {TraceLevel, DebugLevel, InfoLevel, WarnLevel, ErrorLevel, FatalLevel, PanicLevel}
  {
  }

  /** The name of each level, as the repository's tests check them pair by pair. */
  lemma LevelNames()
    ensures ToString(TraceLevel) == "trace" && ToString(DebugLevel) == "debug"
    ensures ToString(InfoLevel) == "info" && ToString(WarnLevel) == "warn"
    ensures ToString(ErrorLevel) == "error" && ToString(FatalLevel) == "fatal"
    ensures ToString(PanicLevel) == "panic"
  {
  }

  /** Parsing ignores ASCII case: a string and its lower-case form parse alike, error text included. */
  lemma {:induction false} ParseCaseInsensitive(s: string)
    ensures ParseLevel(s) == ParseLevel(Lower(s))
  {
    LowerIdempotent(s);
  }

  /** "warn" and "warning" are synonyms for WarnLevel. */
  lemma WarnSynonyms()
    ensures ParseLevel("warn") == Parsed(WarnLevel, None)
    ensures ParseLevel("warning") == Parsed(WarnLevel, None)
  {
    LowerIsLower("warn");
    LowerIsLower("warning");
  }

  /** Every named level survives ToString followed by ParseLevel, without error. */
  lemma RoundTrip(l: Level)
    requires IsNamed(l)
    ensures ParseLevel(ToString(l)) == Parsed(l, None)
  {
    LowerIsLower(ToString(l));
  }

  /** The accepted names are lower case already. */
  lemma NamesAreLower(name: string)
    requires name in ParseableNames
    ensures IsLower(name)
  {
  }

  /** The upper-case spelling of every name parses too ("TRACE", "WARNING", ...). */
  lemma {:induction false} UpperCaseParses(name: string)
    requires name in ParseableNames
    ensures ParseLevel(Upper(name)).err.None?
    ensures ParseLevel(Upper(name)) == ParseLevel(name)
  {
    NamesAreLower(name);
    LowerIsLower(name);
    LowerUpper(name);
    ParseCaseInsensitive(Upper(name));
    assert ParseLevel(Upper(name)) == ParseLevel(name);
  }

  /** A string that is no level name fails to parse and falls back to InfoLevel. */
  lemma InvalidFallsBack(s: string)
    requires Lower(s) !in ParseableNames
    ensures ParseLevel(s) == Parsed(InfoLevel, Some("invalid log level: " + Lower(s)))
  {
  }

  /** ToString tells the named levels apart. */
  lemma ToStringInjective(a: Level, b: Level)
    requires IsNamed(a) && IsNamed(b)
    requires ToString(a) == ToString(b)
    ensures a == b
  {
  }
}
