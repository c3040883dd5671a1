/** The in-memory sink of src/handlers/test-handler.ts. */
module TestHandlers {
  import opened Wrappers
  import opened LogLevels
  import opened LogRecords
  import opened Filters

  /**
   * The level a `TestHandler` gets when none is given: the lowest threshold,
   * so that it accepts a record of every level.
   */
  function DefaultLevel(): (hl: HandlerLevel)
    ensures hl.Threshold? && forall l :: IsLevel(l) ==> hl.level <= l
    ensures forall l :: IsLevel(l) ==> Accepts(hl, l)
  {
    Threshold(TRACE)
  }

  class TestHandler {
    /** The filter given to the constructor; a `readonly` field. */
    const level: HandlerLevel
    /** Every record this handler has accepted, oldest first. */
    var records: seq<LogRecord>

    /** `new TestHandler(level?)`: no records yet, and the default level when none is given. */
    constructor (level: Option<HandlerLevel>)
      ensures this.level == (if level.Some? then level.value else DefaultLevel())
      ensures records == []
    {
      this.level := if level.Some? then level.value else DefaultLevel();
      records := [];
    }

    /** `log`: appends the record at the end and leaves the earlier entries alone. */
    method Log(record: LogRecord)
      modifies this
      ensures records == old(records) + [record]
    {
      records := records + [record];
    }
  }
}
