/**
 * The run's logger as the listener layer uses it: an append-only sequence of
 * error and info entries (`LOGGER.error`, `LOGGER.info`). An entry keeps the
 * `%s` template its text is formatted from and the formatting arguments.
 */
module Logging {

  datatype Level = Error | Info

  /** An entry: its level, the `%s` template of its text and the values
      substituted into the template, in order. */
  datatype LogEntry = LogEntry(level: Level, template: string, args: seq<string>)

  /** The number of entries of the given level. */
  function CountLevel(entries: seq<LogEntry>, level: Level): (n: nat)
    ensures n <= |entries|
  {
    if entries == [] then 0
    else CountLevel(entries[..|entries| - 1], level) + (if entries[|entries| - 1].level == level then 1 else 0)
  }

  /** Counting distributes over appending entries. */
  lemma {:induction false} CountLevelAppend(a: seq<LogEntry>, b: seq<LogEntry>, level: Level)
    ensures CountLevel(a + b, level) == CountLevel(a, level) + CountLevel(b, level)
    decreases |b|
  {
    if b == [] {
      assert a + b == a;
    } else {
      var init := b[..|b| - 1];
      assert (a + b)[..|a + b| - 1] == a + init;
      assert (a + b)[|a + b| - 1] == b[|b| - 1];
      CountLevelAppend(a, init, level);
    }
  }

  class Logger {
    var entries: seq<LogEntry>

    constructor ()
      ensures entries == []
    {
      entries := [];
    }

    /** `LOGGER.error(template % args)`. */
    method LogError(template: string, args: seq<string>)
      modifies this
      ensures entries == old(entries) + [LogEntry(Error, template, args)]
    {
      entries := entries + [LogEntry(Error, template, args)];
    }

    /** `LOGGER.info(template % args)`. */
    method LogInfo(template: string, args: seq<string>)
      modifies this
      ensures entries == old(entries) + [LogEntry(Info, template, args)]
    {
      entries := entries + [LogEntry(Info, template, args)];
    }
  }
}
