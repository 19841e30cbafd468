/**
 * The extension-wide logger: a level threshold and a bounded in-memory
 * buffer of log entries in arrival order. Console output, the
 * `chrome.storage` copy of the level and `exportLogs` are not modelled; the
 * current time is a parameter of `Log`.
 */
module Logging {
  import opened Wrappers
  import Js

  datatype Level = Debug | Info | Warn | Error
  datatype Category = ArticleCategory | Translate | Background | PopupCategory

  /** The level's position in `Object.values(LogLevel)`. */
  function LevelIndex(l: Level): nat
  {
    match l
    case Debug => 0
    case Info => 1
    case Warn => 2
    case Error => 3
  }

  /** `shouldLog(level)` against threshold `threshold`. */
  predicate ShouldLog(level: Level, threshold: Level)
  {
    LevelIndex(level) >= LevelIndex(threshold)
  }

  const MaxLogs: nat := 1000

  datatype LogEntry = LogEntry(level: Level, category: Category, message: string, data: Js.Value, timestamp: int)

  /** The buffer after pushing `e`, dropping the oldest entry when it grows
    * beyond `MaxLogs`. */
  function Append(logs: seq<LogEntry>, e: LogEntry): seq<LogEntry>
  {
    var l := logs + [e];
    if |l| > MaxLogs then l[1..] else l
  }

  /** `log.category === category` for every entry, in order. */
  function Filter(logs: seq<LogEntry>, c: Category): (r: seq<LogEntry>)
    ensures forall i :: 0 <= i < |r| ==> r[i].category == c
    ensures forall e :: e in r <==> e in logs && e.category == c
    ensures |r| <= |logs|
  {
    if logs == [] then []
    else Filter(logs[..|logs| - 1], c) + (if logs[|logs| - 1].category == c then [logs[|logs| - 1]] else [])
  }

  // ---------------------------------------------------------------------------
  // Properties of the buffer

  /** The buffer never exceeds `MaxLogs`; the new entry is the last one; an
    * overflow drops exactly the oldest entry. */
  lemma AppendBounded(logs: seq<LogEntry>, e: LogEntry)
    requires |logs| <= MaxLogs
    ensures |Append(logs, e)| <= MaxLogs
    ensures Append(logs, e)[|Append(logs, e)| - 1] == e
    ensures |logs| < MaxLogs ==> Append(logs, e) == logs + [e]
    ensures |logs| == MaxLogs ==> Append(logs, e) == logs[1..] + [e]
  {
  }

  /** Filtering keeps the order: filtering after a push is the old filter
    * plus the entry when it has that category. */
  lemma FilterSnoc(logs: seq<LogEntry>, e: LogEntry, c: Category)
    ensures Filter(logs + [e], c) == Filter(logs, c) + (if e.category == c then [e] else [])
  {
    assert (logs + [e])[..|logs|] == logs;
  }

  /** Filtering distributes over concatenation. */
  lemma {:induction false} FilterConcat(xs: seq<LogEntry>, ys: seq<LogEntry>, c: Category)
    ensures Filter(xs + ys, c) == Filter(xs, c) + Filter(ys, c)
    decreases |ys|
  {
    if ys == [] {
      assert xs + ys == xs;
    } else {
      var init, last := ys[..|ys| - 1], ys[|ys| - 1];
      assert init + [last] == ys;
      assert xs + ys == (xs + init) + [last];
      var tag := if last.category == c then [last] else [];
      calc {
        Filter(xs + ys, c);
        { FilterSnoc(xs + init, last, c); }
        Filter(xs + init, c) + tag;
        { FilterConcat(xs, init, c); }
        (Filter(xs, c) + Filter(init, c)) + tag;
        Filter(xs, c) + (Filter(init, c) + tag);
        { FilterSnoc(init, last, c); }
        Filter(xs, c) + Filter(ys, c);
      }
    }
  }

  class Logger {
    var logLevel: Level
    var logs: seq<LogEntry>

    ghost predicate Valid()
      reads this
    {
      |logs| <= MaxLogs
    }

    constructor ()
      ensures Valid() && logLevel == Info && logs == []
    {
      logLevel := Info;
      logs := [];
    }

    /** `setLogLevel(level)` */
    method SetLogLevel(level: Level)
      modifies this
      ensures logLevel == level && logs == old(logs)
    {
      logLevel := level;
    }

    /** `clearLogs()` */
    method ClearLogs()
      modifies this
      ensures logs == [] && logLevel == old(logLevel)
    {
      logs := [];
    }

    /** `getLogs(category)`: the entries of that category in order, or all
      * entries without one. */
    function GetLogs(category: Option<Category>): (r: seq<LogEntry>)
      reads this
      ensures category.None? ==> r == logs
      ensures category.Some? ==> forall e :: e in r <==> e in logs && e.category == category.value
    {
      if category.Some? then Filter(logs, category.value) else logs
    }

    /** `log(level, message, options)`: `timestamp` is `options.timestamp`
      * (`None` when absent) and `now` is `Date.now()`. */
    method Log(level: Level, message: string, category: Category, data: Js.Value, timestamp: Option<int>, now: int)
      requires Valid()
      modifies this
      ensures Valid() && logLevel == old(logLevel)
      ensures !ShouldLog(level, logLevel) ==> logs == old(logs)
      ensures ShouldLog(level, logLevel) ==>
        logs == Append(old(logs), LogEntry(level, category, message, data,
                                           if timestamp.Some? && timestamp.value != 0 then timestamp.value else now))
    {
      if !ShouldLog(level, logLevel) {
        return;
      }
      var entry := LogEntry(level, category, message, data,
                            if timestamp.Some? && timestamp.value != 0 then timestamp.value else now);
      logs := logs + [entry];
      if |logs| > MaxLogs {
        logs := logs[1..];
      }
    }
  }

  /** With the default threshold debug entries are dropped and the others
    * kept. */
  lemma DefaultThreshold(level: Level)
    ensures ShouldLog(level, Info) <==> level != Debug
  {
  }

  /** An entry that passes a threshold passes every lower one. */
  lemma ThresholdMonotone(level: Level, lower: Level, higher: Level)
    requires LevelIndex(lower) <= LevelIndex(higher)
    ensures ShouldLog(level, higher) ==> ShouldLog(level, lower)
  {
  }
}
