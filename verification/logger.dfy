/** The backend's `LoggerService`: level filtering from `LOG_LEVEL`, the
    one-line format with optional colour codes, scoped loggers whose names
    nest as `parent::child`, metadata merging, and the start/end lines of a
    timed action. Writing to the console is left out: `Write` returns the
    line that would be written, or `None`. The environment, the timestamp
    and the measured duration are parameters. */
module Logger {
  import opened Wrappers
  import opened Text

  datatype Level = Debug | Info | Warn | Error

  /** The level as written in `LOG_LEVEL`. */
  function Name(level: Level): string {
    match level
    case Debug => "debug"
    case Info => "info"
    case Warn => "warn"
    case Error => "error"
  }

  /** `level.toUpperCase()`. */
  function Upper(level: Level): string {
    match level
    case Debug => "DEBUG"
    case Info => "INFO"
    case Warn => "WARN"
    case Error => "ERROR"
  }

  /** Level names are lower-case letters, upper-cased names are capitals,
      and distinct levels have distinct names. */
  lemma NameShape(level: Level)
    ensures |Name(level)| > 0 && forall i :: 0 <= i < |Name(level)| ==> 'a' <= Name(level)[i] <= 'z'
    ensures forall i :: 0 <= i < |Upper(level)| ==> 'A' <= Upper(level)[i] <= 'Z'
    ensures forall other: Level :: Name(other) == Name(level) ==> other == level
  {
    match level
    case Debug =>
      assert Name(Info)[0] != Name(level)[0] && Name(Warn)[0] != Name(level)[0] && Name(Error)[0] != Name(level)[0];
    case Info =>
      assert Name(Debug)[0] != Name(level)[0] && Name(Warn)[0] != Name(level)[0] && Name(Error)[0] != Name(level)[0];
    case Warn =>
      assert Name(Info)[0] != Name(level)[0] && Name(Debug)[0] != Name(level)[0] && Name(Error)[0] != Name(level)[0];
    case Error =>
      assert Name(Info)[0] != Name(level)[0] && Name(Warn)[0] != Name(level)[0] && Name(Debug)[0] != Name(level)[0];
  }

  /** The ANSI colour of each level, and the code that ends it. */
  function Colour(level: Level): string {
    match level
    case Debug => "\U{1B}[36m"
    case Info => "\U{1B}[32m"
    case Warn => "\U{1B}[33m"
    case Error => "\U{1B}[31m"
  }

  const Reset: string := "\U{1B}[0m"

  /** The two environment variables the logger reads. */
  datatype Env = Env(logLevel: Option<string>, nodeEnv: Option<string>)

  // ---------------------------------------------------------------------------
  // isLogLevelEnabled

  /** What JavaScript's `trim()` removes: the white space and line terminator
      characters of ECMAScript. */
  predicate JsSpace(c: char) {
    || c == '\t' || c == '\n' || c == '\U{B}' || c == '\U{C}' || c == '\r' || c == ' '
    || c == '\U{A0}' || c == '\U{1680}' || ('\U{2000}' <= c <= '\U{200A}')
    || c == '\U{2028}' || c == '\U{2029}' || c == '\U{202F}' || c == '\U{205F}'
    || c == '\U{3000}' || c == '\U{FEFF}'
  }

  function TrimStart(s: string): (r: string)
    ensures |r| <= |s| && r == s[|s| - |r|..]
    ensures r == [] || !JsSpace(r[0])
    ensures forall i :: 0 <= i < |s| - |r| ==> JsSpace(s[i])
  {
    if s != [] && JsSpace(s[0]) then TrimStart(s[1..]) else s
  }

  function TrimEnd(s: string): (r: string)
    ensures |r| <= |s| && r == s[..|r|]
    ensures r == [] || !JsSpace(r[|r| - 1])
    ensures forall i :: |r| <= i < |s| ==> JsSpace(s[i])
  {
    if s != [] && JsSpace(s[|s| - 1]) then TrimEnd(s[..|s| - 1]) else s
  }

  /** `s.trim()`. */
  function Trim(s: string): string {
    TrimEnd(TrimStart(s))
  }

  /** The levels `LOG_LEVEL` lists: lower-cased, split at commas, trimmed. */
  function ListedLevels(logLevel: string): (levels: seq<string>)
    ensures |levels| == |Split(Lower(logLevel), ',')|
  {
    var parts := Split(Lower(logLevel), ',');
    seq(|parts|, i requires 0 <= i < |parts| => Trim(parts[i]))
  }

  /** `isLogLevelEnabled`: every level when `LOG_LEVEL` is unset or empty,
      otherwise exactly the levels it lists. */
  predicate IsLogLevelEnabled(env: Env, level: Level) {
    !Truthy(env.logLevel) || Name(level) in ListedLevels(env.logLevel.value)
  }

  /** Lower-casing leaves text without capitals unchanged. */
  lemma LowerFixes(s: string)
    requires forall i :: 0 <= i < |s| ==> !('A' <= s[i] <= 'Z')
    ensures Lower(s) == s
  {
  }

  /** Text that neither starts nor ends with white space trims to itself. */
  lemma TrimKeeps(s: string)
    requires |s| > 0 && !JsSpace(s[0]) && !JsSpace(s[|s| - 1])
    ensures Trim(s) == s
  {
    assert TrimStart(s) == s;
  }

  /** A lower-case word lists just itself. */
  lemma SingleWord(s: string)
    requires |s| > 0 && forall i :: 0 <= i < |s| ==> 'a' <= s[i] <= 'z'
    ensures ListedLevels(s) == [s]
  {
    assert Split(Lower(s), ',') == [s] by {
      LowerFixes(s);
      SplitNoSep(s, ',');
    }
    TrimKeeps(s);
    assert ListedLevels(s)[0] == Trim(s);
  }

  /** `LOG_LEVEL` naming a single level enables that level and no other. */
  lemma SingleLevel(env: Env, named: Level, level: Level)
    requires env.logLevel == Some(Name(named))
    ensures IsLogLevelEnabled(env, level) <==> level == named
  {
    NameShape(named);
    NameShape(level);
    SingleWord(Name(named));
  }

  /** Listing more levels after a comma keeps every level already enabled. */
  lemma ListingMore(env: Env, more: string, level: Level)
    requires Truthy(env.logLevel) && IsLogLevelEnabled(env, level)
    ensures IsLogLevelEnabled(Env(Some(env.logLevel.value + "," + more), env.nodeEnv), level)
  {
    var s := env.logLevel.value;
    var t := s + "," + more;
    assert Lower(t) == Lower(s) + [','] + Lower(more);
    SplitConcat(Lower(s), Lower(more), ',');
    var i :| 0 <= i < |ListedLevels(s)| && ListedLevels(s)[i] == Name(level);
    assert ListedLevels(t)[i] == Name(level);
  }

  // ---------------------------------------------------------------------------
  // write

  /** Metadata objects; values are of any type `V`. */
  type Meta<V> = map<string, V>

  /** One console call: the level picks `console.debug`/`info`/`warn`/`error`,
      and the metadata object is passed after the line when there is one. */
  datatype Line<V> = Line(level: Level, text: string, meta: Option<Meta<V>>)

  predicate ColourEnabled(env: Env) {
    env.nodeEnv != Some("production")
  }

  /** ` (scope)`, or nothing for a missing or empty scope. */
  function ScopePart(scope: Option<string>): string {
    if Truthy(scope) then " (" + scope.value + ")" else ""
  }

  /** `LEVEL [ts] (scope) -> message`, without colour. */
  function PlainLine(level: Level, ts: string, scope: Option<string>, message: string): string {
    Upper(level) + " [" + ts + "]" + ScopePart(scope) + " -> " + message
  }

  /** `write`: nothing for a disabled level; otherwise the line, wrapped in
      the level's colour and the reset code outside production. */
  function Write<V>(env: Env, level: Level, scope: Option<string>, message: string, meta: Option<Meta<V>>, ts: string)
    : (out: Option<Line<V>>)
    ensures out.None? <==> !IsLogLevelEnabled(env, level)
    ensures out.Some? ==> out.value.level == level && out.value.meta == meta
    ensures out.Some? && !ColourEnabled(env) ==> out.value.text == PlainLine(level, ts, scope, message)
    ensures out.Some? && ColourEnabled(env) ==> out.value.text == Colour(level) + PlainLine(level, ts, scope, message) + Reset
  {
    if !IsLogLevelEnabled(env, level) then None
    else if ColourEnabled(env) then Some(Line(level, Colour(level) + PlainLine(level, ts, scope, message) + Reset, meta))
    else Some(Line(level, PlainLine(level, ts, scope, message), meta))
  }

  predicate NoEscape(s: string) {
    forall i :: 0 <= i < |s| ==> s[i] != '\U{1B}'
  }

  lemma NoEscapeConcat(a: string, b: string)
    requires NoEscape(a) && NoEscape(b)
    ensures NoEscape(a + b)
  {
    forall i | 0 <= i < |a + b|
      ensures (a + b)[i] != '\U{1B}'
    {
      if i >= |a| {
        assert (a + b)[i] == b[i - |a|];
      }
    }
  }

  /** In production a line carries no escape character beyond those of its
      timestamp, scope and message. */
  lemma ProductionUncoloured<V>(env: Env, level: Level, scope: Option<string>, message: string, meta: Option<Meta<V>>, ts: string)
    requires !ColourEnabled(env) && IsLogLevelEnabled(env, level)
    requires NoEscape(ts) && NoEscape(message) && (scope.Some? ==> NoEscape(scope.value))
    ensures NoEscape(Write(env, level, scope, message, meta, ts).value.text)
  {
    NameShape(level);
    var open, close, arrow := " [", "]", " -> ";
    assert NoEscape(open) && NoEscape(close) && NoEscape(arrow);
    var part := ScopePart(scope);
    if Truthy(scope) {
      assert NoEscape(" (") && NoEscape(")");
      NoEscapeConcat(" (", scope.value);
      NoEscapeConcat(" (" + scope.value, ")");
    } else {
      assert part == "";
    }
    NoEscapeConcat(Upper(level), open);
    NoEscapeConcat(Upper(level) + open, ts);
    NoEscapeConcat(Upper(level) + open + ts, close);
    NoEscapeConcat(Upper(level) + open + ts + close, part);
    NoEscapeConcat(Upper(level) + open + ts + close + part, arrow);
    NoEscapeConcat(Upper(level) + open + ts + close + part + arrow, message);
  }

  /** Outside production a line starts with an escape code and ends with the
      reset code. */
  lemma DevelopmentColoured<V>(env: Env, level: Level, scope: Option<string>, message: string, meta: Option<Meta<V>>, ts: string)
    requires ColourEnabled(env) && IsLogLevelEnabled(env, level)
    ensures StartsWith(Write(env, level, scope, message, meta, ts).value.text, Colour(level))
    ensures EndsWith(Write(env, level, scope, message, meta, ts).value.text, Reset)
    ensures Write(env, level, scope, message, meta, ts).value.text[0] == '\U{1B}'
  {
    var text := Write(env, level, scope, message, meta, ts).value.text;
    var plain := PlainLine(level, ts, scope, message);
    assert text == Colour(level) + plain + Reset;
    assert text[..|Colour(level)|] == Colour(level);
    assert text[|text| - |Reset|..] == Reset;
  }

  // ---------------------------------------------------------------------------
  // Scoped loggers and metadata

  /** `meta ? { ...defaultMeta, ...meta } : defaultMeta`. */
  function Merge<V>(defaults: Option<Meta<V>>, meta: Option<Meta<V>>): (r: Option<Meta<V>>)
    ensures meta.None? ==> r == defaults
    ensures meta.Some? ==> r.Some?
    ensures meta.Some? ==> r.value.Keys == meta.value.Keys + (if defaults.Some? then defaults.value.Keys else {})
    ensures meta.Some? ==> forall k :: k in meta.value ==> r.value[k] == meta.value[k]
    ensures meta.Some? && defaults.Some? ==>
              forall k :: k in defaults.value && k !in meta.value ==> r.value[k] == defaults.value[k]
  {
    if meta.Some? then Some(defaults.GetOr(map[]) + meta.value) else defaults
  }

  /** Merging in two steps is merging the merged metadata. */
  lemma MergeAssociative<V>(d: Option<Meta<V>>, m1: Option<Meta<V>>, m2: Option<Meta<V>>)
    ensures Merge(Merge(d, m1), m2) == Merge(d, Merge(m1, m2))
  {
    var base := d.GetOr(map[]);
    if m1.Some? && m2.Some? {
      assert Merge(m1, m2) == Some(m1.value + m2.value);
      assert base + m1.value + m2.value == base + (m1.value + m2.value);
    } else if m2.Some? {
      assert Merge(m1, m2) == Some(map[] + m2.value);
      assert map[] + m2.value == m2.value;
    }
  }

  /** What `LoggerService.scoped(scope, defaultMeta)` captures. */
  datatype ScopedLogger<V> = ScopedLogger(scope: string, defaultMeta: Option<Meta<V>>)

  /** `logger.scoped(childScope, meta)`. */
  function Child<V>(logger: ScopedLogger<V>, childScope: string, meta: Option<Meta<V>>): (c: ScopedLogger<V>)
    ensures StartsWith(c.scope, logger.scope) && EndsWith(c.scope, childScope)
    ensures meta.None? ==> c.defaultMeta == logger.defaultMeta
  {
    ScopedLogger(logger.scope + "::" + childScope, Merge(logger.defaultMeta, meta))
  }

  /** Scoping twice is scoping once by `a::b` with the merged metadata. */
  lemma ChildOfChild<V>(logger: ScopedLogger<V>, a: string, m1: Option<Meta<V>>, b: string, m2: Option<Meta<V>>)
    ensures Child(Child(logger, a, m1), b, m2) == Child(logger, a + "::" + b, Merge(m1, m2))
  {
    MergeAssociative(logger.defaultMeta, m1, m2);
    assert logger.scope + "::" + a + "::" + b == logger.scope + "::" + (a + "::" + b);
  }

  /** `logger.debug/info/warn/error(message, meta)`. */
  function Log<V>(logger: ScopedLogger<V>, env: Env, level: Level, message: string, meta: Option<Meta<V>>, ts: string)
    : Option<Line<V>>
  {
    Write(env, level, Some(logger.scope), message, Merge(logger.defaultMeta, meta), ts)
  }

  /** A child logger writes under the joined scope, which is never empty, so
      the scope part is always shown; its call metadata merges over both
      levels of defaults. */
  lemma ChildLog<V>(logger: ScopedLogger<V>, child: string, m1: Option<Meta<V>>, env: Env, level: Level,
                    message: string, m2: Option<Meta<V>>, ts: string)
    requires IsLogLevelEnabled(env, level)
    ensures Log(Child(logger, child, m1), env, level, message, m2, ts)
         == Write(env, level, Some(logger.scope + "::" + child), message, Merge(logger.defaultMeta, Merge(m1, m2)), ts)
    ensures ScopePart(Some(Child(logger, child, m1).scope)) == " (" + logger.scope + "::" + child + ")"
  {
    var c := Child(logger, child, m1);
    assert Merge(c.defaultMeta, m2) == Merge(logger.defaultMeta, Merge(m1, m2)) by {
      MergeAssociative(logger.defaultMeta, m1, m2);
    }
    assert Log(c, env, level, message, m2, ts) == Write(env, level, Some(c.scope), message, Merge(c.defaultMeta, m2), ts);
  }

  // ---------------------------------------------------------------------------
  // start / end / time

  /** The line `Write` returned, if any. */
  function Present<V>(line: Option<Line<V>>): (r: seq<Line<V>>)
    ensures |r| <= 1
  {
    if line.Some? then [line.value] else []
  }

  /** `{ duration_ms, ...meta, ...extraMeta }`. */
  function EndMeta<V>(duration: V, meta: Option<Meta<V>>, extra: Option<Meta<V>>): Meta<V> {
    map["duration_ms" := duration] + meta.GetOr(map[]) + extra.GetOr(map[])
  }

  /** The outcome of `time`: what it returns or rethrows, and the lines it
      logged. */
  datatype Timed<T, V> = Timed(result: Result<T, V>, lines: seq<Line<V>>)

  /** `time(action, fn, meta)`, where `outcome` is what `fn` returned or
      threw: a debug `start:` line, then an info `end:` line carrying the
      duration, and, when `fn` threw, the error under `error`; the outcome
      is passed on unchanged. */
  function Time<T, V>(logger: ScopedLogger<V>, env: Env, action: string, outcome: Result<T, V>, meta: Option<Meta<V>>,
                      duration: V, startTs: string, endTs: string): (r: Timed<T, V>)
    ensures r.result == outcome
    ensures |r.lines| <= 2
    ensures r.lines == [] <==> !IsLogLevelEnabled(env, Debug) && !IsLogLevelEnabled(env, Info)
    ensures forall i :: 0 <= i < |r.lines| ==> r.lines[i].level in {Debug, Info}
    ensures IsLogLevelEnabled(env, Info) ==>
              var last := r.lines[|r.lines| - 1];
              && last.level == Info && last.meta.Some?
              && (outcome.Err? ==> "error" in last.meta.value && last.meta.value["error"] == outcome.error)
              && (outcome.Ok? ==> "duration_ms" in last.meta.value)
  {
    var extra := if outcome.Err? then Some(map["error" := outcome.error]) else None;
    var start := Log(logger, env, Debug, "start:" + action, meta, startTs);
    var end := Log(logger, env, Info, "end:" + action, Some(EndMeta(duration, meta, extra)), endTs);
    Timed(outcome, Present(start) + Present(end))
  }
}
