/**
 * The process-wide table of named loggers. The static `Map` of the source is
 * one shared object here: a `LoggerStore` whose `loggers` field is the map
 * that `add` and `remove` update in place.
 */
module LoggerStores {
  import opened Wrappers
  import opened Loggers

  class LoggerStore {
    var loggers: map<string, Logger>

    /** The store starts out empty. */
    constructor ()
      ensures loggers == map[]
    {
      loggers := map[];
    }

    /** The logger stored under `key`, or `None` when there is none. */
    function Get(key: string): (r: Option<Logger>)
      reads this
      ensures r.Some? <==> key in loggers
      ensures r.Some? ==> r.value == loggers[key]
    {
      if key in loggers then Some(loggers[key]) else None
    }

    /** Stores `logger` under `key`, replacing whatever was stored there. */
    method Add(key: string, logger: Logger)
      modifies this
      ensures loggers == old(loggers)[key := logger]
      ensures Get(key) == Some(logger)
      ensures forall k :: k != key ==> Get(k) == old(Get(k))
    {
      loggers := loggers[key := logger];
    }

    /** Deletes the entry under `key`; the answer says whether there was one. */
    method Remove(key: string) returns (removed: bool)
      modifies this
      ensures removed <==> key in old(loggers)
      ensures loggers == old(loggers) - {key}
      ensures Get(key) == None
      ensures forall k :: k != key ==> Get(k) == old(Get(k))
    {
      removed := key in loggers;
      loggers := loggers - {key};
    }
  }
}
