/**
 * The `Logger` of src/logger.ts: a fixed context, a metadata map replaced on
 * every merge, and an ordered list of handlers that every severity method
 * notifies in insertion order, with a record built for each handler.
 */
module Loggers {
  import opened Wrappers
  import opened LogLevels
  import opened LogRecords
  import opened Filters
  import opened TestHandlers
  import opened ConsoleHandlers
  import opened Handlers

  /** The optional `condition` of `addHandler`: absent, a boolean, or a function returning one. */
  datatype Condition = Absent | Flag(value: bool) | Lazy(f: () -> bool)

  /** Whether `addHandler` adds the handler under `condition`. */
  predicate Holds(condition: Condition) {
    match condition
    case Absent => true
    case Flag(b) => b
    case Lazy(f) => f()
  }

  /** The `string | Error` argument of `error` and `critical`. */
  datatype ErrorArg = Str(s: string) | Err(message: string)

  /** The record message: a string as it is, an `Error` by its `message`. */
  function MessageOf(err: ErrorArg): string {
    match err
    case Str(s) => s
    case Err(m) => m
  }

  /**
   * `{ ...base, ...extra }`: every key of either map, the value from `extra`
   * where both have one, and the old value everywhere else.
   */
  function Merge(base: Metadata, extra: Metadata): (m: Metadata)
    ensures m.Keys == base.Keys + extra.Keys
    ensures forall k :: k in extra ==> m[k] == extra[k]
    ensures forall k :: k in base && k !in extra ==> m[k] == base[k]
  {
    base + extra
  }

  /**
   * The records the in-memory sink `t` receives when `notifyHandlers` walks
   * the first `n` handlers of `hs`: the record built for position k, for each
   * position k < n holding `t` whose filter accepts the level, in list order.
   */
  function Delivered(t: TestHandler, hs: seq<LogHandler>, n: nat, message: string, options: RecordOptions,
                     clock: nat -> Date): seq<LogRecord>
    requires n <= |hs|
  {
    if n == 0 then []
    else
      Delivered(t, hs, n - 1, message, options, clock) +
      (if hs[n - 1] == TestSink(t) && Accepts(t.level, options.level)
       then [NewRecord(message, options, clock(n - 1))]
       else [])
  }

  /**
   * The console events the walk over the first `n` handlers of `hs` prints
   * on the shared state `s`, whose switch stands at `active`: what each
   * accepting console sink on `s` prints, in list order.
   */
  function Printed(s: ConsoleState, active: bool, hs: seq<LogHandler>, n: nat, message: string,
                   options: RecordOptions, clock: nat -> Date): seq<ConsoleEvent>
    requires n <= |hs|
  {
    if n == 0 then []
    else
      Printed(s, active, hs, n - 1, message, options, clock) +
      (if hs[n - 1].ConsoleSink? && hs[n - 1].console.shared == s && Accepts(hs[n - 1].console.level, options.level)
       then Emitted(NewRecord(message, options, clock(n - 1)), active, s.isoString)
       else [])
  }

  /** The state change of one `notifyHandlers` call over `hs`. */
  twostate predicate Fanout(hs: seq<LogHandler>, message: string, options: RecordOptions, clock: nat -> Date)
    reads Footprints(hs)
  {
    && (forall j :: 0 <= j < |hs| && hs[j].TestSink? ==>
          hs[j].test.records == old(hs[j].test.records) + Delivered(hs[j].test, hs, |hs|, message, options, clock))
    && (forall j :: 0 <= j < |hs| && hs[j].ConsoleSink? ==>
          && hs[j].console.shared.active == old(hs[j].console.shared.active)
          && hs[j].console.shared.events ==
             old(hs[j].console.shared.events) +
             Printed(hs[j].console.shared, old(hs[j].console.shared.active), hs, |hs|, message, options, clock))
  }

  /** The state of every sink of `hs`, position by position. */
  function Capture(hs: seq<LogHandler>): (snap: seq<SinkState>)
    reads Footprints(hs)
    ensures |snap| == |hs|
    ensures forall j :: 0 <= j < |hs| ==> snap[j] == StateOf(hs[j])
  {
    seq(|hs|, j requires 0 <= j < |hs| reads Footprints(hs) => StateOf(hs[j]))
  }

  /** `snap` holds one state of the right kind for each handler of `hs`. */
  predicate Matches(hs: seq<LogHandler>, snap: seq<SinkState>) {
    |snap| == |hs| && forall j :: 0 <= j < |hs| ==> (hs[j].TestSink? <==> snap[j].Records?)
  }

  /** The state of the sink at position j once the first `n` handlers were notified, starting from `snap`. */
  function Expected(hs: seq<LogHandler>, snap: seq<SinkState>, j: nat, n: nat, message: string,
                    options: RecordOptions, clock: nat -> Date): SinkState
    requires Matches(hs, snap) && j < |hs| && n <= |hs|
  {
    match hs[j]
    case TestSink(t) =>
      Records(snap[j].records + Delivered(t, hs, n, message, options, clock))
    case ConsoleSink(c) =>
      Screen(snap[j].active, snap[j].events + Printed(c.shared, snap[j].active, hs, n, message, options, clock))
  }

  /** Every sink of `hs` is in the state `Expected` gives after `n` notifications. */
  predicate Progress(hs: seq<LogHandler>, snap: seq<SinkState>, n: nat, message: string,
                     options: RecordOptions, clock: nat -> Date)
    requires Matches(hs, snap) && n <= |hs|
    reads Footprints(hs)
  {
    forall j :: 0 <= j < |hs| ==> StateOf(hs[j]) == Expected(hs, snap, j, n, message, options, clock)
  }

  /**
   * Notifying position i changes the expected state of exactly the sinks
   * that share an object with `hs[i]`, and those as `handle` does.
   */
  lemma ExpectedStep(hs: seq<LogHandler>, snap: seq<SinkState>, j: nat, i: nat, message: string,
                     options: RecordOptions, clock: nat -> Date)
    requires Matches(hs, snap) && j < |hs| && i < |hs|
    ensures Shares(hs[j], hs[i]) ==>
      && (hs[i].TestSink? <==> Expected(hs, snap, j, i, message, options, clock).Records?)
      && Expected(hs, snap, j, i + 1, message, options, clock) ==
         After(Expected(hs, snap, j, i, message, options, clock), hs[i], NewRecord(message, options, clock(i)))
    ensures !Shares(hs[j], hs[i]) ==>
      Expected(hs, snap, j, i + 1, message, options, clock) == Expected(hs, snap, j, i, message, options, clock)
  {
  }

  /**
   * An in-memory sink receives exactly one record for each of the first `n`
   * positions it holds when its filter accepts the level, and none otherwise.
   */
  lemma {:induction false} DeliveredCount(t: TestHandler, hs: seq<LogHandler>, n: nat, message: string,
                                          options: RecordOptions, clock: nat -> Date)
    requires n <= |hs|
    ensures |Delivered(t, hs, n, message, options, clock)| ==
            if Accepts(t.level, options.level) then multiset(hs[..n])[TestSink(t)] else 0
  {
    if n > 0 {
      DeliveredCount(t, hs, n - 1, message, options, clock);
      assert hs[..n] == hs[..n - 1] + [hs[n - 1]];
      assert multiset(hs[..n]) == multiset(hs[..n - 1]) + multiset{hs[n - 1]};
    }
  }

  /** Every delivered record carries the call's level, message, context and metadata. */
  lemma {:induction false} DeliveredStamped(t: TestHandler, hs: seq<LogHandler>, n: nat, message: string,
                                            options: RecordOptions, clock: nat -> Date)
    requires n <= |hs|
    ensures forall r :: r in Delivered(t, hs, n, message, options, clock) ==>
      r.level == options.level && r.msg == message &&
      r.context == options.context && r.metadata == options.metadata
  {
    if n > 0 {
      DeliveredStamped(t, hs, n - 1, message, options, clock);
    }
  }

  /** A sink that holds none of the first `n` positions receives nothing. */
  lemma {:induction false} DeliveredAbsent(t: TestHandler, hs: seq<LogHandler>, n: nat, message: string,
                                           options: RecordOptions, clock: nat -> Date)
    requires n <= |hs|
    requires forall j :: 0 <= j < n ==> hs[j] != TestSink(t)
    ensures Delivered(t, hs, n, message, options, clock) == []
  {
    if n > 0 {
      DeliveredAbsent(t, hs, n - 1, message, options, clock);
    }
  }

  /**
   * A sink attached once, at position k, receives the one record built for
   * position k when it accepts the level, and nothing otherwise.
   */
  lemma {:induction false} DeliveredOnce(t: TestHandler, hs: seq<LogHandler>, message: string,
                                         options: RecordOptions, clock: nat -> Date, k: nat)
    requires k < |hs| && hs[k] == TestSink(t)
    requires forall j :: 0 <= j < |hs| && j != k ==> hs[j] != TestSink(t)
    ensures Delivered(t, hs, |hs|, message, options, clock) ==
            if Accepts(t.level, options.level) then [NewRecord(message, options, clock(k))] else []
  {
    DeliveredAbsent(t, hs, k, message, options, clock);
    DeliveredAbsentAfter(t, hs, k, |hs|, message, options, clock);
  }

  /** Positions after k that do not hold `t` add nothing to what `t` received up to k. */
  lemma {:induction false} DeliveredAbsentAfter(t: TestHandler, hs: seq<LogHandler>, k: nat, n: nat, message: string,
                                                options: RecordOptions, clock: nat -> Date)
    requires k < n <= |hs|
    requires forall j :: k < j < n ==> hs[j] != TestSink(t)
    ensures Delivered(t, hs, n, message, options, clock) == Delivered(t, hs, k + 1, message, options, clock)
  {
    if n > k + 1 {
      DeliveredAbsentAfter(t, hs, k, n - 1, message, options, clock);
    }
  }

  /** While the switch is off, no console sink prints anything. */
  lemma {:induction false} PrintedSilenced(s: ConsoleState, hs: seq<LogHandler>, n: nat, message: string,
                                           options: RecordOptions, clock: nat -> Date)
    requires n <= |hs|
    ensures Printed(s, false, hs, n, message, options, clock) == []
  {
    if n > 0 {
      PrintedSilenced(s, hs, n - 1, message, options, clock);
    }
  }

  /**
   * One pass of the loop of `notifyHandlers`: the record for position i is
   * built and handed to `hs[i]`, which moves every sink one step further.
   */
  method NotifyAt(hs: seq<LogHandler>, ghost snap: seq<SinkState>, i: nat, message: string,
                  options: RecordOptions, clock: nat -> Date)
    requires Matches(hs, snap) && i < |hs|
    requires Progress(hs, snap, i, message, options, clock)
    modifies Footprint(hs[i])
    ensures Progress(hs, snap, i + 1, message, options, clock)
  {
    var record := NewRecord(message, options, clock(i));
    Handle(hs[i], record);
    forall j | 0 <= j < |hs| && Shares(hs[j], hs[i])
      ensures StateOf(hs[j]) == Expected(hs, snap, j, i + 1, message, options, clock)
    {
      ExpectedStep(hs, snap, j, i, message, options, clock);
    }
    forall j | 0 <= j < |hs| && !Shares(hs[j], hs[i])
      ensures StateOf(hs[j]) == Expected(hs, snap, j, i + 1, message, options, clock)
    {
      ExpectedStep(hs, snap, j, i, message, options, clock);
      match hs[j]
      case TestSink(t) =>
        assert t !in Footprint(hs[i]);
        assert t.records == old(t.records);
      case ConsoleSink(c) =>
        assert c.shared !in Footprint(hs[i]);
        assert c.shared.events == old(c.shared.events);
        assert c.shared.active == old(c.shared.active);
    }
  }

  /**
   * The loop of `notifyHandlers` over the handler list `hs`: for each
   * position in order, builds the record for that position and hands it to
   * `handle`.
   */
  method Notify(hs: seq<LogHandler>, message: string, options: RecordOptions, clock: nat -> Date)
    modifies Footprints(hs)
    ensures Fanout(hs, message, options, clock)
  {
    ghost var snap := Capture(hs);
    var i := 0;
    while i < |hs|
      invariant i <= |hs|
      invariant Progress(hs, snap, i, message, options, clock)
    {
      assert Footprint(hs[i]) <= Footprints(hs);
      NotifyAt(hs, snap, i, message, options, clock);
      i := i + 1;
    }
  }

  class Logger {
    /** The `readonly _context`. */
    const context: string
    var metadata: Metadata
    var handlers: seq<LogHandler>

    /** `new Logger(context?)`: context "Default" unless one is given; no metadata, no handlers. */
    constructor (context: Option<string>)
      ensures this.context == (if context.Some? then context.value else "Default")
      ensures metadata == map[] && handlers == []
    {
      this.context := if context.Some? then context.value else "Default";
      metadata := map[];
      handlers := [];
    }

    /**
     * `withContext`: a new logger with the given context and copies of the
     * handler list and metadata; the receiver does not change.
     */
    method WithContext(context: string) returns (scoped: Logger)
      ensures fresh(scoped)
      ensures scoped.context == context
      ensures scoped.handlers == handlers && scoped.metadata == metadata
    {
      scoped := new Logger(Some(context));
      scoped := scoped.AddHandlers(handlers);
      scoped := scoped.AddMetadata(metadata);
      assert scoped.metadata == metadata;
    }

    /** `addMetadata`: the merged map replaces the old one; returns the receiver. */
    method AddMetadata(extra: Metadata) returns (self: Logger)
      modifies this
      ensures self == this
      ensures metadata == Merge(old(metadata), extra)
      ensures handlers == old(handlers)
    {
      metadata := Merge(metadata, extra);
      self := this;
    }

    /** The private `addHandlers`: appends each handler in order; returns the receiver. */
    method AddHandlers(hs: seq<LogHandler>) returns (self: Logger)
      modifies this
      ensures self == this
      ensures handlers == old(handlers) + hs
      ensures metadata == old(metadata)
    {
      for i := 0 to |hs|
        invariant handlers == old(handlers) + hs[..i]
        invariant metadata == old(metadata)
      {
        handlers := handlers + [hs[i]];
      }
      self := this;
    }

    /**
     * `addHandler`: appends the handler at the end when the condition holds,
     * leaves the list alone otherwise, and returns the receiver either way.
     */
    method AddHandler(handler: LogHandler, condition: Condition) returns (self: Logger)
      modifies this
      ensures self == this
      ensures handlers == if Holds(condition) then old(handlers) + [handler] else old(handlers)
      ensures metadata == old(metadata)
    {
      self := this;
      if condition.Flag? && !condition.value {
        return;
      }
      if condition.Lazy? && !condition.f() {
        return;
      }
      handlers := handlers + [handler];
    }

    /**
     * `notifyHandlers`: every handler, in insertion order, gets a record
     * with the level, this logger's context and metadata, and the clock
     * reading for its position.
     */
    method NotifyHandlers(level: int, message: string, clock: nat -> Date)
      modifies Footprints(handlers)
      ensures Fanout(handlers, message, RecordOptions(level, context, metadata), clock)
    {
      Notify(handlers, message, RecordOptions(level, context, metadata), clock);
    }

    /** `verbose`: notifies every handler with a TRACE record. */
    method Verbose(msg: string, clock: nat -> Date)
      modifies Footprints(handlers)
      ensures Fanout(handlers, msg, RecordOptions(TRACE, context, metadata), clock)
    {
      NotifyHandlers(TRACE, msg, clock);
    }

    /** `debug`: notifies every handler with a DEBUG record. */
    method Debug(msg: string, clock: nat -> Date)
      modifies Footprints(handlers)
      ensures Fanout(handlers, msg, RecordOptions(DEBUG, context, metadata), clock)
    {
      NotifyHandlers(DEBUG, msg, clock);
    }

    /** `info`: notifies every handler with an INFO record. */
    method Info(msg: string, clock: nat -> Date)
      modifies Footprints(handlers)
      ensures Fanout(handlers, msg, RecordOptions(INFO, context, metadata), clock)
    {
      NotifyHandlers(INFO, msg, clock);
    }

    /** `warning`: notifies every handler with a WARN record. */
    method Warning(msg: string, clock: nat -> Date)
      modifies Footprints(handlers)
      ensures Fanout(handlers, msg, RecordOptions(WARN, context, metadata), clock)
    {
      NotifyHandlers(WARN, msg, clock);
    }

    /** `error`: notifies every handler with an ERROR record carrying the string or the error's message. */
    method Error(err: ErrorArg, clock: nat -> Date)
      modifies Footprints(handlers)
      ensures Fanout(handlers, MessageOf(err), RecordOptions(ERROR, context, metadata), clock)
    {
      var message := if err.Str? then err.s else err.message;
      NotifyHandlers(ERROR, message, clock);
    }

    /** `critical`: notifies every handler with a CRITICAL record carrying the string or the error's message. */
    method Critical(err: ErrorArg, clock: nat -> Date)
      modifies Footprints(handlers)
      ensures Fanout(handlers, MessageOf(err), RecordOptions(CRITICAL, context, metadata), clock)
    {
      var message := if err.Str? then err.s else err.message;
      NotifyHandlers(CRITICAL, message, clock);
    }
  }
}
