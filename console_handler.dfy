/**
 * The console sink of src/handlers/console-handler.ts.  Every instance
 * shares the static `active` switch and writes to the one global console;
 * both live in a `ConsoleState` object given to each handler.
 */
module ConsoleHandlers {
  import opened Wrappers
  import opened LogLevels
  import opened LogRecords
  import opened Filters

  /** The `console` methods the handler calls. */
  datatype Channel = Trace | Debug | Info | Warn | Error

  /** One call `console.<channel>(line)`. */
  datatype ConsoleEvent = ConsoleEvent(channel: Channel, line: string)

  /** Process-wide state: the static `active` flag and what the console has printed. */
  class ConsoleState {
    var active: bool
    var events: seq<ConsoleEvent>
    /** `Date.prototype.toISOString`, kept abstract. */
    const isoString: Date -> string

    constructor (isoString: Date -> string)
      ensures active && events == [] && this.isoString == isoString
    {
      active := true;
      events := [];
      this.isoString := isoString;
    }

    /** `ConsoleHandler.toggle(active?)`: sets the flag, or negates it when no argument is given. */
    method Toggle(active: Option<bool>)
      modifies this
      ensures this.active == (if active.Some? then active.value else !old(this.active))
      ensures events == old(events)
    {
      this.active := if active.Some? then active.value else !this.active;
    }
  }

  /**
   * The `switch` of `log`: the channel a level is printed on.  Every level of
   * the scale has one, ERROR and CRITICAL share the error channel, and a
   * number outside the scale matches no case and prints nothing.
   */
  function ChannelOf(level: int): (c: Option<Channel>)
    ensures c.Some? <==> IsLevel(level)
    ensures c == Some(Error) <==> (IsLevel(level) && level >= ERROR)
  {
    if level == TRACE then Some(Trace)
    else if level == DEBUG then Some(Debug)
    else if level == INFO then Some(Info)
    else if level == WARN then Some(Warn)
    else if level == ERROR then Some(Error)
    else if level == CRITICAL then Some(Error)
    else None
  }

  /** The channel table pinned down by the handler's tests. */
  lemma ChannelTable()
    ensures ChannelOf(TRACE) == Some(Trace) && ChannelOf(DEBUG) == Some(Debug)
    ensures ChannelOf(INFO) == Some(Info) && ChannelOf(WARN) == Some(Warn)
    ensures ChannelOf(ERROR) == Some(Error) && ChannelOf(CRITICAL) == Some(Error)
  {
  }

  /**
   * `format`: the ISO time, a tab, the context in brackets, a tab, the
   * message.  Stated as the pieces the line splits back into.
   */
  function Format(timestring: string, context: string, msg: string): (line: string)
    ensures |line| == |timestring| + |context| + |msg| + 4
    ensures line[..|timestring|] == timestring
    ensures line[|timestring|..|timestring| + 2] == "\t["
    ensures line[|timestring| + 2..|timestring| + 2 + |context|] == context
    ensures line[|timestring| + 2 + |context|..|timestring| + 4 + |context|] == "]\t"
    ensures line[|timestring| + 4 + |context|..] == msg
  {
    timestring + "\t[" + context + "]\t" + msg
  }

  /**
   * What `log` prints for one record: nothing while the switch is off or
   * when the level has no channel, and otherwise exactly one line.
   */
  function Emitted(record: LogRecord, active: bool, isoString: Date -> string): (e: seq<ConsoleEvent>)
    ensures |e| == (if active && IsLevel(record.level) then 1 else 0)
    ensures forall ev :: ev in e ==> Some(ev.channel) == ChannelOf(record.level)
    ensures forall ev :: ev in e ==> ev.line == Format(isoString(record.date), record.context, record.msg)
  {
    if !active then []
    else
      match ChannelOf(record.level)
      case None => []
      case Some(channel) => [ConsoleEvent(channel, Format(isoString(record.date), record.context, record.msg))]
  }

  class ConsoleHandler {
    const level: HandlerLevel
    /** The state every `ConsoleHandler` shares. */
    const shared: ConsoleState

    constructor (level: HandlerLevel, shared: ConsoleState)
      ensures this.level == level && this.shared == shared
    {
      this.level := level;
      this.shared := shared;
    }

    /** `log`: prints the record's line on its level's channel while the switch is on. */
    method Log(record: LogRecord)
      modifies shared
      ensures shared.active == old(shared.active)
      ensures shared.events == old(shared.events) + Emitted(record, old(shared.active), shared.isoString)
    {
      if !shared.active {
        return;
      }
      var channel := ChannelOf(record.level);
      if channel.Some? {
        var line := Format(shared.isoString(record.date), record.context, record.msg);
        shared.events := shared.events + [ConsoleEvent(channel.value, line)];
      }
    }
  }
}
