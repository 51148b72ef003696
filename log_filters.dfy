/** The logging filters of `api/src/commons/logging.py`. */
module LogFilters {
  import opened Py
  import Config

  /** `LevelFilter(low, high)`: keeps the bounds it was given. */
  class LevelFilter {
    const low: int
    const high: int

    constructor (low: int, high: int)
      ensures this.low == low && this.high == high
    {
      this.low, this.high := low, high;
    }

    /** `filter`: a record passes when its level lies in the closed range. */
    predicate Filter(levelno: int)
    {
      low <= levelno <= high
    }
  }

  /** An inverted range lets no record through. */
  lemma EmptyRangeBlocksAll(f: LevelFilter, levelno: int)
    requires f.low > f.high
    ensures !f.Filter(levelno)
  {
  }

  /** The range is inclusive at both ends. */
  lemma RangeInclusive(f: LevelFilter)
    requires f.low <= f.high
    ensures f.Filter(f.low) && f.Filter(f.high)
    ensures !f.Filter(f.low - 1) && !f.Filter(f.high + 1)
  {
  }

  /** `RequireDebugTrue.filter`: the truth of `settings.debug`; a missing
      `debug` setting raises `SettingNotDefinedError`. */
  function RequireDebugTrue(s: Config.Settings): (r: Result<bool>)
    reads s
    ensures r.Ok? <==> s.Contains("debug")
    ensures r.Ok? ==> r.value == s.data["debug"].Truthy()
  {
    match s.GetAttr("debug")
    case Ok(v) => Ok(v.Truthy())
    case Err(e) => Err(e)
  }

  /** `RequireDebugFalse.filter`: the negation of `settings.debug`. */
  function RequireDebugFalse(s: Config.Settings): (r: Result<bool>)
    reads s
    ensures r.Ok? <==> s.Contains("debug")
    ensures r.Ok? ==> r.value == !s.data["debug"].Truthy()
  {
    match s.GetAttr("debug")
    case Ok(v) => Ok(!v.Truthy())
    case Err(e) => Err(e)
  }

  /** With `debug` set, exactly one of the two filters passes a record;
      without it both raise the same error. */
  lemma DebugFiltersComplementary(s: Config.Settings)
    ensures s.Contains("debug") ==>
              RequireDebugTrue(s).Ok? && RequireDebugFalse(s).Ok? &&
              RequireDebugTrue(s).value != RequireDebugFalse(s).value
    ensures !s.Contains("debug") ==>
              RequireDebugTrue(s) == RequireDebugFalse(s) ==
              Err(SettingNotDefinedError(Config.NotDefined("debug")))
  {
  }
}
