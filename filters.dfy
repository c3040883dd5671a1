/**
 * The level filter of `BaseHandler.handle` in src/handler.ts.  A handler's
 * `level` is either one threshold or an array of accepted levels.
 */
module Filters {
  import opened Wrappers
  import opened LogLevels

  datatype HandlerLevel = Threshold(level: int) | AllowList(levels: seq<int>)

  /**
   * The number JavaScript makes of `this.level` in the comparison
   * `this.level > record.level`.  A number is itself.  An array becomes the
   * number its comma-joined string spells: `[]` is 0, `[x]` is x, and two or
   * more elements give NaN (None).
   */
  function AsNumber(hl: HandlerLevel): Option<int> {
    match hl
    case Threshold(l) => Some(l)
    case AllowList(ls) =>
      if |ls| == 0 then Some(0)
      else if |ls| == 1 then Some(ls[0])
      else None
  }

  /** JavaScript's `a > b`, which is false whenever `a` is NaN. */
  predicate JsGreater(a: Option<int>, b: int) {
    a.Some? && a.value > b
  }

  /**
   * Whether `handle` passes a record of level `recordLevel` on to `log`, as
   * the two guards of handler.ts are written.  A threshold accepts exactly
   * the levels at or above it; an array accepts exactly its members, since
   * the numeric guard never rejects a member.
   */
  predicate Accepts(hl: HandlerLevel, recordLevel: int)
    ensures hl.Threshold? ==> (Accepts(hl, recordLevel) <==> recordLevel >= hl.level)
    ensures hl.AllowList? ==> (Accepts(hl, recordLevel) <==> recordLevel in hl.levels)
  {
    && !(hl.AllowList? && recordLevel !in hl.levels)
    && !JsGreater(AsNumber(hl), recordLevel)
  }

  /** An array is an allow-list and not a range: WARN lies between INFO and CRITICAL and is rejected. */
  lemma AllowListIsNotRange()
    ensures INFO < WARN < CRITICAL
    ensures Accepts(AllowList([INFO, CRITICAL]), INFO)
    ensures Accepts(AllowList([INFO, CRITICAL]), CRITICAL)
    ensures !Accepts(AllowList([INFO, CRITICAL]), WARN)
  {
  }
}
