/**
 * `BaseHandler.handle` of src/handler.ts: the shared filter, then the
 * sink's own `log`.  The sinks are a closed set here: the in-memory sink and
 * the console sink.
 */
module Handlers {
  import opened LogRecords
  import opened Filters
  import opened TestHandlers
  import opened ConsoleHandlers

  /** An `ILogHandler`: one of the concrete sinks. */
  datatype LogHandler = TestSink(test: TestHandler) | ConsoleSink(console: ConsoleHandler)

  /** The handler's `readonly level`. */
  function Level(h: LogHandler): HandlerLevel {
    match h
    case TestSink(t) => t.level
    case ConsoleSink(c) => c.level
  }

  /** The objects `handle` may change: the record list, or the shared console state. */
  function Footprint(h: LogHandler): set<object> {
    match h
    case TestSink(t) => {t}
    case ConsoleSink(c) => {c.shared}
  }

  /** The objects a fan-out over `hs` may change. */
  function Footprints(hs: seq<LogHandler>): set<object> {
    (set j | 0 <= j < |hs| && hs[j].TestSink? :: hs[j].test as object) +
    (set j | 0 <= j < |hs| && hs[j].ConsoleSink? :: hs[j].console.shared as object)
  }

  /** What a sink shows of itself: the record list, or the shared switch and console output. */
  datatype SinkState = Records(records: seq<LogRecord>) | Screen(active: bool, events: seq<ConsoleEvent>)

  function StateOf(h: LogHandler): (st: SinkState)
    reads Footprint(h)
    ensures h.TestSink? <==> st.Records?
  {
    match h
    case TestSink(t) => Records(t.records)
    case ConsoleSink(c) => Screen(c.shared.active, c.shared.events)
  }

  /** Whether two handlers change the same object: the same in-memory sink, or console sinks on one console. */
  predicate Shares(a: LogHandler, b: LogHandler) {
    || (a.TestSink? && b.TestSink? && a.test == b.test)
    || (a.ConsoleSink? && b.ConsoleSink? && a.console.shared == b.console.shared)
  }

  /** The state of a sink shared with `h` after `h` handled `record`. */
  function After(st: SinkState, h: LogHandler, record: LogRecord): SinkState
    requires h.TestSink? <==> st.Records?
  {
    match h
    case TestSink(t) =>
      Records(st.records + (if Accepts(t.level, record.level) then [record] else []))
    case ConsoleSink(c) =>
      Screen(st.active, st.events + (if Accepts(c.level, record.level)
                                     then Emitted(record, st.active, c.shared.isoString)
                                     else []))
  }

  /**
   * `handle`: a record the filter rejects changes nothing; an accepted one is
   * given to the sink's `log` once, unchanged.
   */
  method Handle(h: LogHandler, record: LogRecord)
    modifies Footprint(h)
    ensures h.TestSink? ==>
      h.test.records == old(h.test.records) + (if Accepts(Level(h), record.level) then [record] else [])
    ensures h.ConsoleSink? ==>
      && h.console.shared.active == old(h.console.shared.active)
      && h.console.shared.events == old(h.console.shared.events) +
           (if Accepts(Level(h), record.level)
            then Emitted(record, old(h.console.shared.active), h.console.shared.isoString)
            else [])
    ensures StateOf(h) == After(old(StateOf(h)), h, record)
  {
    if !Accepts(Level(h), record.level) {
      return;
    }
    match h
    case TestSink(t) => t.Log(record);
    case ConsoleSink(c) => c.Log(record);
  }
}
