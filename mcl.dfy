/**
  Macro-controlled logging: the compile-time policy of mcl.h.

  Every decision the header's preprocessor makes is a pure function here:
  the build configuration (DYNAMIC_LOG_LVL, DYNAMIC_LOG_LVL_MIN,
  DYNAMIC_LOG_LVL_MAX and the check that MIN <= MAX), the clamp applied to
  every level stored in a logging system, the three-way choice each
  LOG_<LEVEL> statement makes (compiled out, runtime-checked, hardwired),
  and the stream the default LOG_ACTION writes to.
 */
module Mcl {

  datatype Option<T> = None | Some(value: T)

  // Severity levels; a lower number is more severe.
  const LevelFatal := 0
  const LevelError := 1
  const LevelWarn := 2
  const LevelMsg := 3
  const LevelInfo := 4
  const LevelVerbose := 5
  const LevelDebug := 6
  const LevelTrace := 7
  // Sentinels: as a maximum, LevelNone deletes every statement and
  // LevelAll deletes none.
  const LevelNone := -1
  const LevelAll := 0x7f

  /** The eight levels that have a LOG_<LEVEL> statement. */
  predicate IsSeverity(level: int) {
    LevelFatal <= level <= LevelTrace
  }

  /**
    A build configuration: whether levels can be changed at runtime, and the
    range [min, max] a logging system's level is kept in.
   */
  datatype Config = Config(dynamic: bool, min: int, max: int) {
    /** What the build accepts: a configuration with min > max stops it. */
    predicate Valid() {
      min <= max
    }
  }

  const BuildErrorMessage := "DYNAMIC_LOG_LVL_MIN cannot be greater than DYNAMIC_LOG_LVL_MAX"

  datatype BuildResult = Built(config: Config) | BuildError(message: string)

  /**
    The configuration a build ends up with, given the macros the build
    defines (None for a macro left undefined). Undefined macros take their
    defaults: dynamic levels on, maximum Verbose, minimum Warn. The
    dynamic flag is a C truth value: any non-zero number enables it.
   */
  function Configure(dynamicFlag: Option<int>, min: Option<int>, max: Option<int>): (r: BuildResult)
    ensures r.Built? <==> (if min.Some? then min.value else LevelWarn) <= (if max.Some? then max.value else LevelVerbose)
    ensures r.BuildError? ==> r.message == BuildErrorMessage
    ensures r.Built? ==> r.config.Valid()
    ensures r.Built? ==> (r.config.dynamic <==> dynamicFlag != Some(0))
    ensures r.Built? && min.Some? ==> r.config.min == min.value
    ensures r.Built? && max.Some? ==> r.config.max == max.value
    ensures r.Built? && min.None? ==> r.config.min == LevelWarn
    ensures r.Built? && max.None? ==> r.config.max == LevelVerbose
  {
    var dynamic := match dynamicFlag case None => true case Some(flag) => flag != 0;
    var lo := match min case None => LevelWarn case Some(m) => m;
    var hi := match max case None => LevelVerbose case Some(m) => m;
    if lo > hi then BuildError(BuildErrorMessage) else Built(Config(dynamic, lo, hi))
  }

  /** A build that defines none of the configuration macros. */
  lemma DefaultConfiguration()
    ensures Configure(None, None, None) == Built(Config(true, LevelWarn, LevelVerbose))
  {
  }

  /**
    The clamp applied to every level a logging system stores: the upper bound
    is tested first, then the lower bound.
   */
  function Clamp(c: Config, level: int): (r: int)
    requires c.Valid()
    ensures c.min <= r <= c.max
    ensures c.min <= level <= c.max ==> r == level
    ensures level < c.min ==> r == c.min
    ensures level > c.max ==> r == c.max
  {
    if level > c.max then c.max else if level < c.min then c.min else level
  }

  function Distance(a: int, b: int): nat {
    if a <= b then b - a else a - b
  }

  /** The clamped level is the level of [min, max] nearest to the request. */
  lemma ClampIsNearest(c: Config, level: int)
    requires c.Valid()
    ensures forall other :: c.min <= other <= c.max ==> Distance(Clamp(c, level), level) <= Distance(other, level)
  {
  }

  lemma ClampIdempotent(c: Config, level: int)
    requires c.Valid()
    ensures Clamp(c, Clamp(c, level)) == Clamp(c, level)
  {
  }

  /** Clamping never reverses the order of two requested levels. */
  lemma ClampMonotone(c: Config, a: int, b: int)
    requires c.Valid() && a <= b
    ensures Clamp(c, a) <= Clamp(c, b)
  {
  }

  /** What a LOG_<LEVEL> statement becomes once the preprocessor has run. */
  datatype Tier =
    | CompiledOut  // no code at all
    | Dynamic      // an action guarded by the logging system's stored level
    | Hardwired    // an action with no guard

  /**
    The tier of a statement at the given level: above max it is deleted;
    otherwise it is runtime-checked when dynamic levels are on and the level
    is at least min, and hardwired in every other case. With dynamic levels
    off, every statement at or below max is hardwired, not only those below
    min.
   */
  function TierOf(c: Config, level: int): (t: Tier)
    ensures t == CompiledOut <==> level > c.max
    ensures t == Dynamic <==> c.dynamic && c.min <= level <= c.max
    ensures t == Hardwired <==> level <= c.max && (!c.dynamic || level < c.min)
  {
    if level > c.max then CompiledOut
    else if c.dynamic && c.min <= level then Dynamic
    else Hardwired
  }

  /**
    Whether a statement at the given level reaches its action when the
    logging system's stored level is `stored`.
   */
  function Emits(c: Config, level: int, stored: int): (b: bool)
    ensures b ==> level <= c.max
    ensures level <= c.max && !c.dynamic ==> b
    ensures level < c.min && level <= c.max ==> b
    ensures c.dynamic && c.min <= level <= c.max ==> (b <==> stored >= level)
  {
    match TierOf(c, level)
    case CompiledOut => false
    case Dynamic => stored >= level
    case Hardwired => true
  }

  /** Whether a statement emits depends on the stored level only in the Dynamic tier. */
  lemma OnlyDynamicReadsStoredLevel(c: Config, level: int, s1: int, s2: int)
    requires TierOf(c, level) != Dynamic
    ensures Emits(c, level, s1) == Emits(c, level, s2)
  {
  }

  /**
    Emission is monotone in severity: if a statement emits on a logging
    system, so does every more severe statement on the same system.
   */
  lemma EmitsMonotone(c: Config, level: int, moreSevere: int, stored: int)
    requires moreSevere <= level
    requires Emits(c, level, stored)
    ensures Emits(c, moreSevere, stored)
  {
  }

  /** With max set to LevelAll, no statement is deleted. */
  lemma MaxAllKeepsEveryStatement(c: Config, level: int)
    requires c.max == LevelAll && IsSeverity(level)
    ensures TierOf(c, level) != CompiledOut
  {
  }

  /** With max set to LevelNone, every statement is deleted. */
  lemma MaxNoneDeletesEveryStatement(c: Config, level: int, stored: int)
    requires c.max == LevelNone && IsSeverity(level)
    ensures !Emits(c, level, stored)
  {
  }

  /**
    LevelAll as a requested level: the cell is clamped to max, so every
    statement that is not compiled out emits.
   */
  lemma StoredAllEmitsUpToMax(c: Config, level: int)
    requires c.Valid() && c.max <= LevelAll
    ensures Clamp(c, LevelAll) == c.max
    ensures Emits(c, level, Clamp(c, LevelAll)) <==> level <= c.max
  {
  }

  /**
    LevelNone as a requested level: the cell is clamped to min, not below it,
    so with dynamic levels on a statement at exactly min still emits; only
    the runtime-checked statements above min are silenced.
   */
  lemma StoredNoneKeepsMin(c: Config, level: int)
    requires c.Valid() && LevelNone <= c.min
    ensures Clamp(c, LevelNone) == c.min
    ensures Emits(c, level, Clamp(c, LevelNone)) <==> level <= c.max && (!c.dynamic || level <= c.min)
  {
  }

  // The output streams of the default action.
  datatype Stream = Stderr | Stdout

  /**
    One run of LOG_ACTION: the stream written to and the level. The
    formatted message itself is not modelled.
   */
  datatype Emission = Emission(stream: Stream, level: int)

  /**
    The default LOG_ACTION: Fatal, Error and Warn go to stderr, every other
    level (including values outside the eight levels) to stdout.
   */
  function DefaultAction(level: int): (e: Emission)
    ensures e.level == level
    ensures e.stream == Stderr <==> LevelFatal <= level <= LevelWarn
  {
    if level == LevelFatal || level == LevelError || level == LevelWarn then Emission(Stderr, level)
    else Emission(Stdout, level)
  }
}
