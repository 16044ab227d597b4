/**
  Logging systems: the one mutable cell per system that DEFINE_LOG_SYSTEM
  creates, SET_LOG_SYSTEM_LVL overwrites and GET_LOG_SYSTEM_LVL and every
  runtime-checked LOG_<LEVEL> statement read. Separate systems are separate
  objects.
 */
module LogSystems {
  import opened Mcl

  /**
    The stored level after the given SET requests, starting from the level
    `current`; every request is clamped before it is stored.
   */
  function Replay(c: Config, current: int, requests: seq<int>): (r: int)
    requires c.Valid() && c.min <= current <= c.max
    ensures c.min <= r <= c.max
    ensures requests == [] ==> r == current
    decreases |requests|
  {
    if requests == [] then current else Replay(c, Clamp(c, requests[0]), requests[1..])
  }

  /**
    The level a system defined with `initial` stores after the given SET
    requests.
   */
  function StoredLevel(c: Config, initial: int, requests: seq<int>): (r: int)
    requires c.Valid()
    ensures c.min <= r <= c.max
    ensures requests == [] ==> r == Clamp(c, initial)
  {
    Replay(c, Clamp(c, initial), requests)
  }

  /**
    A SET overwrites: the stored level depends only on the last request (or
    on the initial level when there was none), never on earlier ones.
   */
  lemma {:induction false} LastSetWins(c: Config, current: int, requests: seq<int>)
    requires c.Valid() && c.min <= current <= c.max
    ensures requests != [] ==> Replay(c, current, requests) == Clamp(c, requests[|requests| - 1])
    decreases |requests|
  {
    if |requests| > 1 {
      LastSetWins(c, Clamp(c, requests[0]), requests[1..]);
    }
  }

  /** Replaying one more request extends the history by one SET. */
  lemma {:induction false} ReplayAppend(c: Config, current: int, requests: seq<int>, level: int)
    requires c.Valid() && c.min <= current <= c.max
    ensures Replay(c, current, requests + [level]) == Clamp(c, level)
  {
    LastSetWins(c, current, requests + [level]);
  }

  /**
    One logging system. With dynamic levels on, `lvl` is the system's level
    cell; with them off the build creates no cell, nothing reads `lvl`, and
    the level the system reports is the configured maximum.
   */
  class LogSystem {
    const cfg: Config
    // The level the system was defined with, and the levels passed to SET since.
    ghost const initial: int
    ghost var requests: seq<int>
    var lvl: int

    ghost predicate Valid()
      reads this
    {
      cfg.Valid() && (cfg.dynamic ==> lvl == StoredLevel(cfg, initial, requests))
    }

    /** The level GET reports. */
    function Level(): (r: int)
      reads this
      requires Valid()
      ensures cfg.min <= r <= cfg.max
      ensures !cfg.dynamic ==> r == cfg.max
      ensures cfg.dynamic ==> r == StoredLevel(cfg, initial, requests)
    {
      if cfg.dynamic then lvl else cfg.max
    }

    /** DEFINE_LOG_SYSTEM: the cell starts at the clamped initial level. */
    constructor Define(cfg: Config, initial: int)
      requires cfg.Valid()
      ensures Valid()
      ensures this.cfg == cfg && this.initial == initial && requests == []
      ensures cfg.dynamic ==> lvl == Clamp(cfg, initial)
      ensures Level() == if cfg.dynamic then Clamp(cfg, initial) else cfg.max
    {
      this.cfg := cfg;
      this.initial := initial;
      requests := [];
      if cfg.dynamic {
        lvl := Clamp(cfg, initial);
      }
    }

    /** GET_LOG_SYSTEM_LVL. */
    method Get() returns (level: int)
      requires Valid()
      ensures level == Level()
    {
      if cfg.dynamic {
        level := lvl;
      } else {
        level := cfg.max;
      }
    }

    /**
      SET_LOG_SYSTEM_LVL: stores the clamped level. Out-of-range requests are
      clamped silently. With dynamic levels off it does nothing.
     */
    method Set(level: int)
      requires Valid()
      modifies this
      ensures Valid()
      ensures cfg.dynamic ==> requests == old(requests) + [level] && lvl == Clamp(cfg, level)
      ensures cfg.dynamic ==> Level() == Clamp(cfg, level)
      ensures !cfg.dynamic ==> unchanged(this)
    {
      if cfg.dynamic {
        ReplayAppend(cfg, Clamp(cfg, initial), requests, level);
        lvl := Clamp(cfg, level);
        requests := requests + [level];
      }
    }

    /**
      LOG_<LEVEL> for one of the eight levels: compiled out above max,
      guarded by the stored level in the Dynamic tier, unconditional when
      hardwired. The result is the action taken, if any.
     */
    method Log(level: int) returns (e: Option<Emission>)
      requires Valid() && IsSeverity(level)
      ensures e.Some? <==> Emits(cfg, level, Level())
      ensures e.Some? ==> e.value == DefaultAction(level)
    {
      match TierOf(cfg, level)
      case CompiledOut =>
        e := None;
      case Dynamic =>
        if lvl >= level {
          e := Some(DefaultAction(level));
        } else {
          e := None;
        }
      case Hardwired =>
        e := Some(DefaultAction(level));
    }
  }

  /**
    The default configuration (min Warn, max Verbose) with a system defined
    at Info: Error is always emitted, Debug never, and Verbose only once the
    level has been raised to Verbose. A system defined at Error stores Warn.
   */
  method DefaultConfigurationScenario()
  {
    DefaultConfiguration();
    var c := Configure(None, None, None).config;
    var sys := new LogSystem.Define(c, LevelInfo);
    var e := sys.Log(LevelError);
    assert e == Some(Emission(Stderr, LevelError));
    e := sys.Log(LevelDebug);
    assert e == None;
    e := sys.Log(LevelVerbose);
    assert e == None;
    sys.Set(LevelVerbose);
    e := sys.Log(LevelVerbose);
    assert e == Some(Emission(Stdout, LevelVerbose));
    sys.Set(LevelFatal);
    var level := sys.Get();
    assert level == LevelWarn;
    e := sys.Log(LevelWarn);
    assert e == Some(Emission(Stderr, LevelWarn));
    // Requesting LevelNone still leaves the cell at min (Warn), so Warn is
    // emitted and Msg is not.
    sys.Set(LevelNone);
    e := sys.Log(LevelWarn);
    assert e == Some(Emission(Stderr, LevelWarn));
    e := sys.Log(LevelMsg);
    assert e == None;
    // The header's own usage example defines a system at Error; under the
    // default minimum of Warn the system stores Warn.
    var example := new LogSystem.Define(c, LevelError);
    level := example.Get();
    assert level == LevelWarn;
  }
}
