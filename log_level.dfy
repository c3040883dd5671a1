/**
 * The severity scale of src/log-level.ts: an integer-backed enum and the
 * partial lookup `getLogLevelName`, which throws on anything outside the enum.
 */
module LogLevels {
  import opened Wrappers

  /** Lowest level; logger.ts calls it `VERBOSE`, the handlers call it `TRACE`. */
  const TRACE: int := 0
  const DEBUG: int := 10
  const INFO: int := 20
  /** Called `WARNING` by logger.ts and the handlers. */
  const WARN: int := 30
  const ERROR: int := 40
  const CRITICAL: int := 50

  /** The values of the enum. */
  predicate IsLevel(level: int) {
    level == TRACE || level == DEBUG || level == INFO ||
    level == WARN || level == ERROR || level == CRITICAL
  }

  /** The `TypeError` thrown for a value outside the enum. */
  datatype LevelError = UnknownLevel(level: int)

  /** `LogLevel[name]`: the enum's member for a key, if there is one. */
  function LevelOf(name: string): (r: Option<int>)
    ensures r.Some? ==> IsLevel(r.value)
  {
    if name == "TRACE" then Some(TRACE)
    else if name == "DEBUG" then Some(DEBUG)
    else if name == "INFO" then Some(INFO)
    else if name == "WARN" then Some(WARN)
    else if name == "ERROR" then Some(ERROR)
    else if name == "CRITICAL" then Some(CRITICAL)
    else None
  }

  /**
   * `getLogLevelName`: the enum key of a level.  It succeeds exactly on the
   * enum's values, and the name it returns is the key that maps back to the
   * level; any other number is an error, never a fallback name.
   */
  function LevelName(level: int): (r: Result<string, LevelError>)
    ensures r.Success? <==> IsLevel(level)
    ensures r.Success? ==> LevelOf(r.value) == Some(level)
    ensures r.Failure? ==> r.error == UnknownLevel(level)
  {
    if level == TRACE then Success("TRACE")
    else if level == DEBUG then Success("DEBUG")
    else if level == INFO then Success("INFO")
    else if level == WARN then Success("WARN")
    else if level == ERROR then Success("ERROR")
    else if level == CRITICAL then Success("CRITICAL")
    else Failure(UnknownLevel(level))
  }

  /**
   * The enum in declaration order: strictly increasing weights, exactly the
   * valid levels, and pairwise distinct names.
   */
  function Levels(): (s: seq<int>)
    ensures forall i, j :: 0 <= i < j < |s| ==> s[i] < s[j]
    ensures forall l :: l in s <==> IsLevel(l)
    ensures forall i, j :: 0 <= i < j < |s| ==> LevelName(s[i]) != LevelName(s[j])
  {
    [TRACE, DEBUG, INFO, WARN, ERROR, CRITICAL]
  }

  /** The names the tests of log-level.ts expect, and the invalid level 100. */
  lemma KnownNames()
    ensures LevelName(DEBUG) == Success("DEBUG")
    ensures LevelName(INFO) == Success("INFO")
    ensures LevelName(WARN) == Success("WARN")
    ensures LevelName(ERROR) == Success("ERROR")
    ensures LevelName(100).Failure?
  {
  }

  /** Distinct valid levels have distinct names. */
  lemma NamesDistinct(a: int, b: int)
    requires IsLevel(a) && IsLevel(b) && a != b
    ensures LevelName(a) != LevelName(b)
  {
    assert LevelOf(LevelName(a).value) == Some(a);
    assert LevelOf(LevelName(b).value) == Some(b);
  }
}
