# A verified model of the logging library's record dispatch

This project models the core of a small TypeScript logging library in Dafny:
- the severity scale;
- the level filter every handler applies;
- the immutable log record;
- two concrete sinks: an in-memory test handler and a console handler with a process-wide on/off switch;
- the `Logger`, which fans each message out to its handlers in insertion order;
- the string-keyed `LoggerStore`.

The modules follow the source files:

| module | file | form |
|---|---|---|
| `LogLevels` | `log_level.dfy` | functions over `int` levels |
| `LogRecords` | `log_record.dfy` | the record datatype and its construction |
| `Filters` | `filters.dfy` | the threshold/allow-list filter, including the JavaScript comparison of an array with a number |
| `TestHandlers` | `test_handler.dfy` | a class whose `records` sequence `log` appends to |
| `ConsoleHandlers` | `console_handler.dfy` | the shared console state (the static switch and the printed lines), the channel table, the line format and the handler class |
| `Handlers` | `handlers.dfy` | `BaseHandler.handle` over the two sinks |
| `Loggers` | `logger.dfy` | the `Logger` class and the fan-out loop |
| `LoggerStores` | `logger_store.dfy` | the store class |
| `Wrappers` | `wrappers.dfy` | `Option` and `Result` |

Modelling decisions:
- **Levels.** The files come from different versions of the library and name the levels differently. The model uses one scale throughout: TRACE=0, DEBUG=10, INFO=20, WARN=30, ERROR=40, CRITICAL=50.
  - The logger's `VERBOSE` is TRACE, and the handlers' `WARNING` is WARN.
  - Values 10 to 40 and the names come from `src/log-level.ts`. TRACE and CRITICAL are placed so that the order stays strict.
- **Record shape.** `src/log-record.ts` takes `(level, context, msg)`, but `src/logger.ts:117-121` builds records as `(message, {level, context, metadata})`. The model follows the call in the logger.
- **Clock.** The clock is a parameter `clock: nat -> Date`. The record built for the handler at position k is stamped `clock(k)`, because the logger builds a fresh record inside its loop, once per handler.
- **Console output.** The output is a sequence of `(channel, line)` events. It lives in one `ConsoleState` object, together with the static `active` flag. Every `ConsoleHandler` refers to that object, so one toggle silences all of them.

The central property sits on `Logger.NotifyHandlers` and the severity methods: after one call, every handler of the list has received exactly what the fan-out specification `Fanout` says. That means:
- each in-memory sink has the records built for the positions it holds, in list order, appended to what it had;
- each group of console sinks sharing one console has the lines they print, in list order, appended to what was printed, and the switch is unchanged.

Lemmas about `Delivered` and `Printed` turn that into counts, stamps and silence.

## Model

| member | source | states |
|---|---|---|
| LogLevels.LevelName | src/log-level.ts:17-31 | succeeds exactly on the six levels of the scale; the name maps back to the level; any other number fails with `UnknownLevel(level)` instead of a fallback name |
| LogLevels.LevelOf | src/log-level.ts:4-9 | the enum's lookup by key only ever yields a valid level |
| LogLevels.Levels | src/log-level.ts:4-9 | the enum in declaration order has strictly increasing weights, holds exactly the valid levels, and its names are pairwise distinct |
| LogLevels.KnownNames | src/log-level.ts:17-30 | 10, 20, 30, 40 are named "DEBUG", "INFO", "WARN", "ERROR", and 100 is an error |
| LogLevels.NamesDistinct | src/log-level.ts:17-26 | two distinct valid levels never share a name |
| Filters.Accepts | src/handler.ts:26-31 | a threshold accepts exactly the levels at or above it (equal included); an array accepts exactly its members, because the numeric guard never rejects a member |
| Filters.AllowListIsNotRange | src/handler.ts:27-28 | `[INFO, CRITICAL]` accepts INFO and CRITICAL and rejects WARN, which lies between them |
| LogRecords.NewRecord | src/log-record.ts:26-31 | the record's level, context, msg and metadata are the constructor arguments, and its date is the clock reading taken at construction |
| TestHandlers.DefaultLevel | src/handlers/test-handler.ts:13-18 | the default filter is a threshold no higher than any level, so it accepts a record of every level |
| TestHandlers.TestHandler.constructor | src/handlers/test-handler.ts:9-18 | a new handler has no records, and its level is the argument or the default |
| TestHandlers.TestHandler.Log | src/handlers/test-handler.ts:20-22 | the record is appended at the end and the earlier entries are untouched |
| ConsoleHandlers.ConsoleState.constructor | src/handlers/console-handler.ts:10 | the switch starts on and nothing has been printed |
| ConsoleHandlers.ConsoleState.Toggle | src/handlers/console-handler.ts:12-14 | `toggle(b)` sets the switch to b, `toggle()` negates it, and the output is unchanged |
| ConsoleHandlers.ChannelOf | src/handlers/console-handler.ts:19-38 | a level has a channel exactly when it is on the scale, and the error channel belongs to exactly ERROR and CRITICAL |
| ConsoleHandlers.ChannelTable | src/handlers/console-handler.ts:19-38 | TRACE→trace, DEBUG→debug, INFO→info, WARN→warn, ERROR→error, CRITICAL→error |
| ConsoleHandlers.Format | src/handlers/console-handler.ts:41-45 | the line splits back into the ISO time, a tab and bracket, the context, a bracket and tab, and the message |
| ConsoleHandlers.Emitted | src/handlers/console-handler.ts:16-39 | nothing while the switch is off; otherwise exactly one line for a level on the scale, on that level's channel, with the formatted text |
| ConsoleHandlers.ConsoleHandler.constructor | src/handler.ts:22-24 | the handler's level is the constructor argument; the handler is attached to the given console |
| ConsoleHandlers.ConsoleHandler.Log | src/handlers/console-handler.ts:16-39 | the console output grows by exactly what `Emitted` gives for the current switch; the switch does not change |
| Handlers.Handle | src/handler.ts:26-31 | a rejected record changes nothing; an accepted one is passed, unchanged, once to the sink's log (one more record, or that record's console line) |
| Loggers.Merge | src/logger.ts:89-93 | the merged map has the keys of both; a key of the new map takes the new value; every other key keeps the old one |
| Loggers.DeliveredCount | src/logger.ts:114-124 | an in-memory sink receives one record per list position holding it when its filter accepts the level, and none when it does not |
| Loggers.DeliveredStamped | src/logger.ts:114-124 | every delivered record has the call's level, message, and the logger's context and metadata |
| Loggers.DeliveredAbsent | src/logger.ts:114-124 | a sink not in the handler list receives nothing |
| Loggers.DeliveredOnce | src/logger.ts:114-124 | a sink attached once, at position k, receives exactly the record stamped with the clock reading for k, if it accepts the level |
| Loggers.DeliveredAbsentAfter | src/logger.ts:115-123 | positions after the sink's last one add nothing to what it received |
| Loggers.PrintedSilenced | src/handlers/console-handler.ts:10-17 | while the shared switch is off, no console sink on the list prints anything |
| Loggers.NotifyAt | src/logger.ts:116-122 | handling the record for position i moves every sink from the state after i handlers to the state after i+1 |
| Loggers.Notify | src/logger.ts:114-124 | after the loop, every sink of the list is in the state `Fanout` prescribes |
| Loggers.Logger.constructor | src/logger.ts:61-73 | the context is "Default" unless one is given; no metadata, no handlers |
| Loggers.Logger.WithContext | src/logger.ts:83-87 | a fresh logger with the given context, the same handlers in the same order and the same metadata; the receiver is not modified |
| Loggers.Logger.AddMetadata | src/logger.ts:89-93 | the metadata becomes the merge of the old map with the new one; handlers are unchanged; the receiver is returned |
| Loggers.Logger.AddHandlers | src/logger.ts:95-101 | the handlers are appended in order; metadata is unchanged; the receiver is returned |
| Loggers.Logger.AddHandler | src/logger.ts:103-112 | the handler is appended at the end exactly when the condition is absent, true, or a function returning true; otherwise the list is unchanged; the receiver is returned either way |
| Loggers.Logger.NotifyHandlers | src/logger.ts:114-124 | every handler, in insertion order, is handed a record with the given level and message, the logger's context and metadata, and its own clock reading |
| Loggers.Logger.Verbose | src/logger.ts:126-128 | fan-out of a TRACE record |
| Loggers.Logger.Debug | src/logger.ts:130-132 | fan-out of a DEBUG record |
| Loggers.Logger.Info | src/logger.ts:134-136 | fan-out of an INFO record |
| Loggers.Logger.Warning | src/logger.ts:138-140 | fan-out of a WARN record |
| Loggers.Logger.Error | src/logger.ts:142-146 | fan-out of an ERROR record whose message is the string, or the error's `message` |
| Loggers.Logger.Critical | src/logger.ts:148-152 | fan-out of a CRITICAL record whose message is the string, or the error's `message` |
| LoggerStores.LoggerStore.constructor | src/logger-store.ts:7 | the store starts empty |
| LoggerStores.LoggerStore.Get | src/logger-store.ts:10-12 | finds a logger exactly for the stored keys, and it is the stored one |
| LoggerStores.LoggerStore.Add | src/logger-store.ts:14-17 | afterwards the key finds the new logger, replacing any earlier one; every other key finds what it found before |
| LoggerStores.LoggerStore.Remove | src/logger-store.ts:19-28 | answers true exactly when the key was stored; afterwards the key finds nothing; every other key finds what it found before |

## Left out

- The file and stdout handlers (`src/handlers/file-handler.ts`, `src/handlers/stdout-handler.ts`) are left out. They only wrap stream and JSON output and add nothing beyond the shared filter.
- The handler set is closed: a user-defined subclass of `BaseHandler` is not modelled.
- `src/core.ts` and `src/logger-manager.ts` are not part of this model. The first resolves foreign globals. The second is an unused duplicate of the store.
- The examples, the build configuration, the re-exports in `src/index.ts` and the record builder used by the tests are not part of this model.
- `Date` is a clock reading (an `int`), and `toISOString` is an abstract function held by the console state. No calendar arithmetic is modelled.
- The `console.*` calls appear only as appended `(channel, line)` events. The stack trace `console.trace` adds is not modelled.
- Exceptions thrown by a handler, and what they would do to the loop, are not modelled. The source states no policy for them.
- Metadata values are a small closed datatype, not arbitrary JavaScript values. Key order of the merged object is not modelled.
- JavaScript numbers are modelled as unbounded integers: levels are compared exactly, with no floating point.
- `addHandler`'s function condition is assumed to have no side effects and to return the same answer when called; only its result is modelled.
- `addMetadata` builds a new object, so a map read earlier keeps its contents. Maps are values here, so that property holds by construction and has no separate lemma.
- The handler filter and the console channel table are modelled on the scale above. The source reads the names TRACE, VERBOSE, WARNING and CRITICAL from an enum that, in the version of `src/log-level.ts` shown, does not define them.
- The record has no `levelName` and no serialised `message`, and the console line has no `"LEVEL: [context] - message"` form. Those belong to a later version than the code modelled here.
- Level validation is not added anywhere. As in the source, neither the record constructor nor the filter nor the channel table checks that a level is on the scale. An off-scale level simply matches no console channel.
