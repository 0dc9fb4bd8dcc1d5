/**
 * Severity levels of the logger.  Eight integer levels, most severe first,
 * numbered as in section 6.2.1 of RFC 5424 (Emergency = 0 ... Debug = 7).
 * A lower number is a more severe level.
 */
module Levels {

  const Emergency: int := 0  // system is unusable
  const Alert: int := 1      // action must be taken immediately
  const Critical: int := 2   // critical conditions
  const Error: int := 3      // error conditions
  const Warning: int := 4    // warning conditions
  const Notice: int := 5     // normal but significant condition
  const Info: int := 6       // informational messages
  const Debug: int := 7      // debug-level messages

  /** The upper-case name of each level, indexed by the level's number. */
  const LevelNames: seq<string> :=
    ["EMERGENCY", "ALERT", "CRITICAL", "ERROR", "WARNING", "NOTICE", "INFO", "DEBUG"]

  /** One of the eight defined levels. */
  predicate IsLevel(l: int) {
    Emergency <= l <= Debug
  }

  /**
   * The one ordering rule used everywhere: a message at `level` passes a
   * `threshold` when it is at least as severe, i.e. numerically no greater.
   */
  predicate WithinThreshold(level: int, threshold: int) {
    level <= threshold
  }

  /** LogLevel.String: the level's name, or "UNKNOWN" for any other integer. */
  function Name(l: int): (r: string)
    ensures IsLevel(l) ==> r == LevelNames[l]
    ensures r == "UNKNOWN" <==> !IsLevel(l)
  {
    if l == Emergency then "EMERGENCY"
    else if l == Alert then "ALERT"
    else if l == Critical then "CRITICAL"
    else if l == Error then "ERROR"
    else if l == Warning then "WARNING"
    else if l == Notice then "NOTICE"
    else if l == Info then "INFO"
    else if l == Debug then "DEBUG"
    else "UNKNOWN"
  }

  /** Distinct levels have distinct names, so a name identifies its level. */
  lemma NameInjective(a: int, b: int)
    requires IsLevel(a) && IsLevel(b)
    requires Name(a) == Name(b)
    ensures a == b
  {
  }

  /** Every name, including "UNKNOWN", is a non-empty run of upper-case letters. */
  lemma NameIsUpperCase(l: int)
    ensures |Name(l)| > 0
    ensures forall i :: 0 <= i < |Name(l)| ==> 'A' <= Name(l)[i] <= 'Z'
  {
  }
}
