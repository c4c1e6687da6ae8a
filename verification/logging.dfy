/** Structured logging: the per-name logger registry, the handler list each
    logger keeps (file, console and at most one critical-notification
    handler), the critical handler's emit decision, the search filter over the
    lines of a log file and the selection of old backup files to delete. File
    contents, the file system and the clock are inputs here. */
module StructuredLogging {
  import opened Collections

  // ---------------------------------------------------------------------------
  // Text helpers
  // ---------------------------------------------------------------------------

  /** str.lower, on ASCII letters. */
  function ToLower(s: string): (r: string)
    ensures |r| == |s|
    ensures forall i :: 0 <= i < |s| ==> r[i] == if 'A' <= s[i] <= 'Z' then (s[i] as int + 32) as char else s[i]
  {
    seq(|s|, i requires 0 <= i < |s| => if 'A' <= s[i] <= 'Z' then (s[i] as int + 32) as char else s[i])
  }

  /** str.upper, on ASCII letters. */
  function ToUpper(s: string): (r: string)
    ensures |r| == |s|
    ensures forall i :: 0 <= i < |s| ==> r[i] == if 'a' <= s[i] <= 'z' then (s[i] as int - 32) as char else s[i]
  {
    seq(|s|, i requires 0 <= i < |s| => if 'a' <= s[i] <= 'z' then (s[i] as int - 32) as char else s[i])
  }

  /** Python's `sub in s`. */
  predicate Contains(s: string, sub: string)
  {
    exists i :: 0 <= i <= |s| && sub <= s[i..]
  }

  // ---------------------------------------------------------------------------
  // Configuration, levels and handlers
  // ---------------------------------------------------------------------------

  datatype LogConfig = LogConfig(
    logLevel: string,
    logFile: string,
    maxLogSizeMb: int,
    backupLogCount: int,
    enableConsole: bool,
    enableJson: bool,
    logToDatabase: bool,
    criticalNotification: bool)

  const DefaultLogConfig := LogConfig("INFO", "hub_data/powertrader.log", 10, 5, true, true, false, true)

  const CRITICAL := 50

  /** `getattr(logging, name, logging.INFO)` for the level names the logging
      module defines; any other name gives INFO (20). */
  function LevelNumber(name: string): (n: int)
    ensures name == "CRITICAL" ==> n == CRITICAL
    ensures n in {0, 10, 20, 30, 40, 50}
  {
    if name == "CRITICAL" || name == "FATAL" then 50
    else if name == "ERROR" then 40
    else if name == "WARNING" || name == "WARN" then 30
    else if name == "INFO" then 20
    else if name == "DEBUG" then 10
    else if name == "NOTSET" then 0
    else 20
  }

  /** The level names are ordered by severity, and a name the logging module
      does not define gives INFO. */
  lemma LevelOrder(name: string)
    ensures LevelNumber("NOTSET") < LevelNumber("DEBUG") < LevelNumber("INFO")
      < LevelNumber("WARNING") < LevelNumber("ERROR") < LevelNumber("CRITICAL")
    ensures LevelNumber("WARN") == LevelNumber("WARNING") && LevelNumber("FATAL") == LevelNumber("CRITICAL")
    ensures name !in {"CRITICAL", "FATAL", "ERROR", "WARNING", "WARN", "INFO", "DEBUG", "NOTSET"}
      ==> LevelNumber(name) == LevelNumber("INFO")
  {
  }

  /** The function a critical handler calls: the logger's own
      _critical_callback, or one supplied by the caller (identified by a number). */
  datatype Callback = DefaultCallback | CustomCallback(id: nat)

  datatype Handler =
    | FileHandler(maxBytes: int, backupCount: int)
    | ConsoleHandler
    | CriticalHandler(callback: Option<Callback>)

  /** _setup_handlers: after clearing, a rotating JSON file handler when JSON
      output is enabled, then a console handler when console output is enabled. */
  function SetupHandlers(config: LogConfig): (hs: seq<Handler>)
    ensures (exists i :: 0 <= i < |hs| && hs[i].FileHandler?) <==> config.enableJson
    ensures ConsoleHandler in hs <==> config.enableConsole
    ensures forall i :: 0 <= i < |hs| && hs[i].FileHandler? ==>
      hs[i] == FileHandler(config.maxLogSizeMb * 1024 * 1024, config.backupLogCount) && i == 0
    ensures |hs| == (if config.enableJson then 1 else 0) + (if config.enableConsole then 1 else 0)
    ensures config.enableConsole ==> hs[|hs| - 1] == ConsoleHandler
    ensures CriticalCount(hs) == 0
  {
    var file := if config.enableJson then [FileHandler(config.maxLogSizeMb * 1024 * 1024, config.backupLogCount)] else [];
    var console := if config.enableConsole then [ConsoleHandler] else [];
    CriticalCountConcat(file, console);
    assert CriticalCount(file) == 0 && CriticalCount(console) == 0;
    assert forall i :: 0 <= i < |file + console| ==> (file + console)[i].FileHandler? == (i < |file|);
    file + console
  }

  /** The number of critical-notification handlers in a handler list. */
  function CriticalCount(hs: seq<Handler>): (n: nat)
    ensures n <= |hs|
  {
    if hs == [] then 0 else (if hs[0].CriticalHandler? then 1 else 0) + CriticalCount(hs[1..])
  }

  lemma {:induction false} CriticalCountConcat(a: seq<Handler>, b: seq<Handler>)
    ensures CriticalCount(a + b) == CriticalCount(a) + CriticalCount(b)
  {
    if a == [] {
      assert a + b == b;
    } else {
      assert (a + b)[1..] == a[1..] + b;
      CriticalCountConcat(a[1..], b);
    }
  }

  lemma {:induction false} NoCriticalCount(hs: seq<Handler>)
    ensures CriticalCount(hs) == 0 <==> forall k :: 0 <= k < |hs| ==> !hs[k].CriticalHandler?
  {
    if hs != [] {
      NoCriticalCount(hs[1..]);
      if !hs[0].CriticalHandler? {
        assert forall k :: 1 <= k < |hs| ==> hs[k] == hs[1..][k - 1];
      }
    }
  }

  /** The position of the first critical handler, if any. */
  function FirstCritical(hs: seq<Handler>): (r: Option<nat>)
    ensures r.Some? ==> r.value < |hs| && hs[r.value].CriticalHandler?
    ensures r.Some? ==> forall k :: 0 <= k < r.value ==> !hs[k].CriticalHandler?
    ensures r.None? <==> forall k :: 0 <= k < |hs| ==> !hs[k].CriticalHandler?
  {
    if hs == [] then None
    else if hs[0].CriticalHandler? then Some(0)
    else match FirstCritical(hs[1..])
      case None => None
      case Some(i) => Some(i + 1)
  }

  /** _remove_critical_handler's effect: the first critical handler found is
      removed, every other handler stays in place. */
  function RemoveFirstCritical(hs: seq<Handler>): (r: seq<Handler>)
    ensures FirstCritical(hs).None? ==> r == hs
    ensures FirstCritical(hs).Some? ==>
      var i := FirstCritical(hs).value;
      && |r| == |hs| - 1
      && (forall k :: 0 <= k < i ==> r[k] == hs[k] && !r[k].CriticalHandler?)
      && (forall k :: i <= k < |r| ==> r[k] == hs[k + 1])
  {
    match FirstCritical(hs)
    case None => hs
    case Some(i) => hs[..i] + hs[i + 1..]
  }

  /** Removing the first critical handler lowers the critical count by one
      when there was one and keeps the list otherwise. */
  lemma RemoveFirstCriticalCount(hs: seq<Handler>)
    ensures CriticalCount(RemoveFirstCritical(hs)) == if CriticalCount(hs) > 0 then CriticalCount(hs) - 1 else 0
    ensures |RemoveFirstCritical(hs)| == if CriticalCount(hs) > 0 then |hs| - 1 else |hs|
  {
    NoCriticalCount(hs);
    match FirstCritical(hs)
    case None =>
    case Some(i) =>
      assert hs == hs[..i] + [hs[i]] + hs[i + 1..];
      CriticalCountConcat(hs[..i] + [hs[i]], hs[i + 1..]);
      CriticalCountConcat(hs[..i], [hs[i]]);
      CriticalCountConcat(hs[..i], hs[i + 1..]);
  }

  // ---------------------------------------------------------------------------
  // CriticalLogHandler.emit
  // ---------------------------------------------------------------------------

  datatype LogRecord = LogRecord(levelno: int, levelname: string, name: string, message: string)

  /** The dictionary handed to the callback (its timestamp is the clock's and is not modelled). */
  datatype CriticalNotice = CriticalNotice(level: string, moduleName: string, message: string)

  /** emit: the callback is invoked, with the record's level name, logger name
      and message, exactly when the record is at least CRITICAL and a callback is set. */
  function Emit(callback: Option<Callback>, record: LogRecord): (r: Option<(Callback, CriticalNotice)>)
    ensures r.Some? <==> record.levelno >= CRITICAL && callback.Some?
    ensures r.Some? ==> r.value == (callback.value, CriticalNotice(record.levelname, record.name, record.message))
  {
    if record.levelno >= CRITICAL && callback.Some? then
      Some((callback.value, CriticalNotice(record.levelname, record.name, record.message)))
    else None
  }

  // ---------------------------------------------------------------------------
  // StructuredLogger
  // ---------------------------------------------------------------------------

  /** `config or LogConfig()`: a given configuration is always truthy. */
  function ConfigOrDefault(config: Option<LogConfig>): (c: LogConfig)
    ensures config.Some? ==> c == config.value
    ensures config.None? ==> c == DefaultLogConfig
  {
    if config.Some? then config.value else DefaultLogConfig
  }

  /** A logger: its name, configuration, level and the handler list of the
      underlying logging.Logger of the same name. */
  class StructuredLogger {
    var name: string
    var config: LogConfig
    var level: int
    var handlers: seq<Handler>

    /** __init__ on a fresh instance. */
    constructor (name: string, config: Option<LogConfig>)
      ensures this.name == name && this.config == ConfigOrDefault(config)
      ensures level == LevelNumber(ToUpper(this.config.logLevel))
      ensures handlers == SetupHandlers(this.config)
    {
      this.name := name;
      this.config := ConfigOrDefault(config);
      level := LevelNumber(ToUpper(ConfigOrDefault(config).logLevel));
      handlers := SetupHandlers(ConfigOrDefault(config));
    }

    /** __init__ run again on an existing instance: name, configuration, level
      and handlers are all set afresh, so a critical handler is dropped. */
    method Reinit(name: string, config: Option<LogConfig>)
      modifies this
      ensures this.name == name && this.config == ConfigOrDefault(config)
      ensures level == LevelNumber(ToUpper(this.config.logLevel))
      ensures handlers == SetupHandlers(this.config)
      ensures CriticalCount(handlers) == 0
    {
      this.name := name;
      this.config := ConfigOrDefault(config);
      level := LevelNumber(ToUpper(ConfigOrDefault(config).logLevel));
      handlers := SetupHandlers(ConfigOrDefault(config));
    }

    /** _remove_critical_handler: scan the handlers in order and remove the
      first critical one. */
    method RemoveCriticalHandler()
      modifies this
      ensures handlers == RemoveFirstCritical(old(handlers))
      ensures name == old(name) && config == old(config) && level == old(level)
    {
      var i := 0;
      while i < |handlers|
        invariant 0 <= i <= |handlers|
        invariant forall k :: 0 <= k < i ==> !handlers[k].CriticalHandler?
      {
        if handlers[i].CriticalHandler? {
          assert FirstCritical(handlers) == Some(i) by {
            FirstCriticalAt(handlers, i);
          }
          handlers := handlers[..i] + handlers[i + 1..];
          return;
        }
        i := i + 1;
      }
    }

    /** enable_critical_notifications: remove the first critical handler, then
      append one calling the given callback or, without one, the logger's own.
      With at most one critical handler before, exactly one is attached after. */
    method EnableCriticalNotifications(callback: Option<Callback>)
      modifies this
      ensures handlers == RemoveFirstCritical(old(handlers))
                          + [CriticalHandler(Some(if callback.Some? then callback.value else DefaultCallback))]
      ensures CriticalCount(old(handlers)) <= 1 ==> CriticalCount(handlers) == 1
      ensures name == old(name) && config == old(config) && level == old(level)
    {
      RemoveCriticalHandler();
      var cb := if callback.Some? then callback.value else DefaultCallback;
      handlers := handlers + [CriticalHandler(Some(cb))];
      RemoveFirstCriticalCount(old(handlers));
      CriticalCountConcat(RemoveFirstCritical(old(handlers)), [CriticalHandler(Some(cb))]);
    }

    /** disable_critical_notifications: with at most one critical handler
      before, none is left after. */
    method DisableCriticalNotifications()
      modifies this
      ensures handlers == RemoveFirstCritical(old(handlers))
      ensures CriticalCount(old(handlers)) <= 1 ==> CriticalCount(handlers) == 0
      ensures name == old(name) && config == old(config) && level == old(level)
    {
      RemoveCriticalHandler();
      RemoveFirstCriticalCount(old(handlers));
    }
  }

  lemma FirstCriticalAt(hs: seq<Handler>, i: nat)
    requires i < |hs| && hs[i].CriticalHandler?
    requires forall k :: 0 <= k < i ==> !hs[k].CriticalHandler?
    ensures FirstCritical(hs) == Some(i)
  {
    var r := FirstCritical(hs);
    assert r.Some?;
  }

  /** The class-level `_instances` dictionary: names in insertion order, each
      mapped to the one logger created for it. */
  class LoggerRegistry {
    var names: seq<string>
    var instances: map<string, StructuredLogger>

    ghost predicate Valid()
      reads this, instances.Values
    {
      && (forall i, j :: 0 <= i < j < |names| ==> names[i] != names[j])
      && (forall n :: n in instances <==> n in names)
      && (forall n :: n in instances ==> instances[n].name == n)
    }

    constructor ()
      ensures Valid() && names == [] && instances == map[]
    {
      names := [];
      instances := map[];
    }

    /** `StructuredLogger(name, config)`: __new__ returns the instance already
      registered under the name, or registers a new one; __init__ then runs on
      it either way. */
    method GetOrCreate(name: string, config: Option<LogConfig>) returns (logger: StructuredLogger)
      requires Valid()
      modifies this, if name in instances then {instances[name]} else {}
      ensures Valid()
      ensures name in old(instances) ==> logger == old(instances[name]) && names == old(names)
      ensures name !in old(instances) ==> fresh(logger) && names == old(names) + [name]
      ensures instances == old(instances)[name := logger]
      ensures logger.name == name && logger.config == ConfigOrDefault(config)
      ensures logger.handlers == SetupHandlers(logger.config) && CriticalCount(logger.handlers) == 0
      ensures logger.level == LevelNumber(ToUpper(logger.config.logLevel))
    {
      if name in instances {
        logger := instances[name];
        logger.Reinit(name, config);
      } else {
        logger := new StructuredLogger(name, config);
        names := names + [name];
        instances := instances[name := logger];
      }
    }

    /** get_all_loggers: every registered name, once each, in registration order. */
    function AllLoggers(): (r: seq<string>)
      requires Valid()
      reads this, instances.Values
      ensures forall n :: n in r <==> n in instances
      ensures forall i, j :: 0 <= i < j < |r| ==> r[i] != r[j]
    {
      names
    }
  }

  // ---------------------------------------------------------------------------
  // search_logs
  // ---------------------------------------------------------------------------

  /** A log entry; the timestamp string is represented by its rank in string order. */
  datatype LogEntry = LogEntry(timestamp: int, level: string, moduleName: string, funcName: string,
                               message: string, extra: Option<string>)

  /** The value under one key of a parsed JSON object: missing, a string, or something else. */
  datatype Field = Absent | Text(s: string) | NonText

  /** One line of the log file after `json.loads(line.strip())`: not JSON
      (skipped), JSON that is not an object, or an object with its set of keys,
      its "level" and "module" values, its `json.dumps` text and the entry
      `LogEntry(**data)` builds when the keys allow it. */
  datatype LogLine =
    | Unparseable
    | NonObject(dumped: string)
    | Object(keys: set<string>, levelField: Field, moduleField: Field, dumped: string, entry: LogEntry)

  const EntryKeys: set<string> := {"timestamp", "level", "module", "function", "message"}

  /** `LogEntry(**data)` succeeds iff every field without a default is given
      and no key is unknown; otherwise it raises TypeError. */
  predicate FitsLogEntry(keys: set<string>)
  {
    EntryKeys <= keys && keys <= EntryKeys + {"extra"}
  }

  /** `LogEntry(**data)` copies the object's "level" and "module" values into
      the entry it builds, so a line whose keys allow the entry carries that
      entry's level and module as text. */
  predicate EntryFromFields(line: LogLine)
  {
    line.Object? && FitsLogEntry(line.keys) ==>
      line.levelField == Text(line.entry.level) && line.moduleField == Text(line.entry.moduleName)
  }

  /** The filter of search_logs as a single predicate: an object whose level
      equals the upper-cased level filter (when one is given), whose module
      contains the module filter ignoring case (when one is given), and whose
      serialised text contains the query ignoring case. An empty filter string
      is falsy, like None. */
  predicate Matches(line: LogLine, query: string, level: string, moduleFilter: string)
    ensures Matches(line, query, level, moduleFilter) ==> line.Object?
    ensures Matches(line, query, level, moduleFilter) && level != "" ==> line.levelField == Text(ToUpper(level))
    ensures Matches(line, query, level, moduleFilter) && moduleFilter != "" ==> line.moduleField.Text?
  {
    && line.Object?
    && (level == "" || line.levelField == Text(ToUpper(level)))
    && (moduleFilter == "" || (line.moduleField.Text? && Contains(ToLower(line.moduleField.s), ToLower(moduleFilter))))
    && Contains(ToLower(line.dumped), ToLower(query))
  }

  /** An empty query is in every serialised line, so with the query ""
      that get_log_entries passes only the level and module filters decide. */
  lemma EmptyQueryMatches(line: LogLine, level: string, moduleFilter: string)
    ensures Matches(line, "", level, moduleFilter) <==>
      && line.Object?
      && (level == "" || line.levelField == Text(ToUpper(level)))
      && (moduleFilter == "" || (line.moduleField.Text? && Contains(ToLower(line.moduleField.s), ToLower(moduleFilter))))
  {
    if line.Object? {
      assert ToLower("") <= ToLower(line.dumped)[0..];
    }
  }

  datatype Step = Skip | Keep(entry: LogEntry) | Abort

  /** One iteration of the search loop: `continue` on a decode error or a
      failed filter, an appended entry, or an exception that ends the scan
      (`.get` or `.lower` on the wrong kind of value, or `LogEntry(**data)`
      raising TypeError). */
  function SearchStep(line: LogLine, query: string, level: string, moduleFilter: string): (r: Step)
    ensures r.Keep? <==> Matches(line, query, level, moduleFilter) && FitsLogEntry(line.keys)
    ensures r.Keep? ==> r.entry == line.entry
    ensures Matches(line, query, level, moduleFilter) && !FitsLogEntry(line.keys) ==> r == Abort
    ensures line.Unparseable? ==> r == Skip
    ensures r == Abort <==>
      // `.get` on a non-object under a filter, or `LogEntry(**data)` on a non-object
      || (line.NonObject? && (level != "" || moduleFilter != "" || Contains(ToLower(line.dumped), ToLower(query))))
      // `.lower()` on a module value that is not a string
      || (line.Object? && (level == "" || line.levelField == Text(ToUpper(level)))
          && moduleFilter != "" && line.moduleField.NonText?)
      // `LogEntry(**data)` with missing or unknown keys
      || (Matches(line, query, level, moduleFilter) && !FitsLogEntry(line.keys))
  {
    match line
    case Unparseable => Skip
    case NonObject(dumped) =>
      if level != "" || moduleFilter != "" then Abort
      else if !Contains(ToLower(dumped), ToLower(query)) then Skip
      else Abort
    case Object(keys, levelField, moduleField, dumped, entry) =>
      if level != "" && levelField != Text(ToUpper(level)) then Skip
      else if moduleFilter != "" && moduleField.NonText? then Abort
      else if moduleFilter != "" && !(moduleField.Text? && Contains(ToLower(moduleField.s), ToLower(moduleFilter))) then
        assert moduleField.Absent? ==> !Contains(ToLower(""), ToLower(moduleFilter));
        Skip
      else if !Contains(ToLower(dumped), ToLower(query)) then Skip
      else if FitsLogEntry(keys) then Keep(entry)
      else Abort
  }

  /** The entries of the lines the filter keeps, in file order, as if no
      line raised. */
  function KeptEntries(lines: seq<LogLine>, query: string, level: string, moduleFilter: string): (r: seq<LogEntry>)
    ensures |r| <= |lines|
  {
    if lines == [] then []
    else
      var previous := KeptEntries(lines[..|lines| - 1], query, level, moduleFilter);
      match SearchStep(lines[|lines| - 1], query, level, moduleFilter)
      case Keep(e) => previous + [e]
      case _ => previous
  }

  /** The index of the first line that raises, or the number of lines when none does. */
  function FirstAbort(lines: seq<LogLine>, query: string, level: string, moduleFilter: string): (n: nat)
    ensures n <= |lines|
    ensures forall j :: 0 <= j < n ==> SearchStep(lines[j], query, level, moduleFilter) != Abort
    ensures n < |lines| ==> SearchStep(lines[n], query, level, moduleFilter) == Abort
  {
    if lines == [] then 0
    else
      var prefix := lines[..|lines| - 1];
      var n := FirstAbort(prefix, query, level, moduleFilter);
      assert forall j :: 0 <= j < |prefix| ==> prefix[j] == lines[j];
      if n < |prefix| || SearchStep(lines[|prefix|], query, level, moduleFilter) == Abort then n
      else |lines|
  }

  /** The kept entries are exactly the entries of the kept lines, one per
      line and in file order: the k-th entry comes from line idx[k], the
      indices increase, and every kept line is among them. */
  lemma {:induction false} KeptIndices(lines: seq<LogLine>, query: string, level: string, moduleFilter: string)
    returns (idx: seq<nat>)
    ensures |idx| == |KeptEntries(lines, query, level, moduleFilter)|
    ensures forall k :: 0 <= k < |idx| ==>
      (idx[k] < |lines| && SearchStep(lines[idx[k]], query, level, moduleFilter) == Keep(KeptEntries(lines, query, level, moduleFilter)[k]))
    ensures forall k, k' :: 0 <= k < k' < |idx| ==> idx[k] < idx[k']
    ensures forall j :: 0 <= j < |lines| && SearchStep(lines[j], query, level, moduleFilter).Keep? ==> j in idx
  {
    if lines == [] {
      idx := [];
    } else {
      var prefix := lines[..|lines| - 1];
      var previous := KeptIndices(prefix, query, level, moduleFilter);
      assert forall j :: 0 <= j < |prefix| ==> prefix[j] == lines[j];
      match SearchStep(lines[|lines| - 1], query, level, moduleFilter)
      case Keep(e) =>
        idx := previous + [|lines| - 1];
      case _ =>
        idx := previous;
    }
  }

  /** The scan over the file's lines: the entries collected and whether an
      exception ended it. It stops at the first line that raises, and
      collects the kept entries of the lines before it, in file order. */
  function Collect(lines: seq<LogLine>, query: string, level: string, moduleFilter: string): (r: (seq<LogEntry>, bool))
    ensures r.1 <==> FirstAbort(lines, query, level, moduleFilter) < |lines|
    ensures r.0 == KeptEntries(lines[..FirstAbort(lines, query, level, moduleFilter)], query, level, moduleFilter)
    ensures |r.0| <= |lines|
  {
    if lines == [] then ([], false)
    else
      var prefix := lines[..|lines| - 1];
      var (found, aborted) := Collect(prefix, query, level, moduleFilter);
      var n := FirstAbort(prefix, query, level, moduleFilter);
      assert lines[..n] == prefix[..n];
      assert lines[..|lines|] == lines;
      if aborted then (found, true)
      else match SearchStep(lines[|lines| - 1], query, level, moduleFilter)
        case Skip => (found, false)
        case Keep(e) => (found + [e], false)
        case Abort => (found, true)
  }

  /** Every collected entry is the entry of a line the filter keeps. */
  lemma CollectedFromKeptLines(lines: seq<LogLine>, query: string, level: string, moduleFilter: string)
    ensures forall e :: e in Collect(lines, query, level, moduleFilter).0 ==>
      exists j :: 0 <= j < |lines| && SearchStep(lines[j], query, level, moduleFilter) == Keep(e)
  {
    var n := FirstAbort(lines, query, level, moduleFilter);
    var kept := KeptEntries(lines[..n], query, level, moduleFilter);
    var idx := KeptIndices(lines[..n], query, level, moduleFilter);
    forall e | e in kept
      ensures exists j :: 0 <= j < |lines| && SearchStep(lines[j], query, level, moduleFilter) == Keep(e)
    {
      var k :| 0 <= k < |kept| && kept[k] == e;
      assert lines[..n][idx[k]] == lines[idx[k]];
    }
  }

  /** Once an exception has ended the scan, later lines change nothing. */
  lemma {:induction false} CollectAfterAbort(lines: seq<LogLine>, rest: seq<LogLine>, query: string, level: string, moduleFilter: string)
    requires Collect(lines, query, level, moduleFilter).1
    ensures Collect(lines + rest, query, level, moduleFilter) == Collect(lines, query, level, moduleFilter)
  {
    if rest != [] {
      var rest' := rest[..|rest| - 1];
      assert (lines + rest)[..|lines + rest| - 1] == lines + rest';
      CollectAfterAbort(lines, rest', query, level, moduleFilter);
    } else {
      assert lines + rest == lines;
    }
  }

  /** search_logs over the file's lines (None when the file does not exist):
      the last 100 entries the scan collected, in file order. */
  function Search(file: Option<seq<LogLine>>, query: string, level: string, moduleFilter: string): (r: seq<LogEntry>)
    ensures |r| <= 100
    ensures file.None? ==> r == []
    ensures file.Some? ==>
      var found := Collect(file.value, query, level, moduleFilter).0;
      |r| == MinInt(100, |found|) && r == found[|found| - |r|..]
    ensures forall e :: e in r ==> exists j :: 0 <= j < |file.value| && SearchStep(file.value[j], query, level, moduleFilter) == Keep(e)
  {
    if file.None? then []
    else
      var found := Collect(file.value, query, level, moduleFilter).0;
      var r := PySliceFrom(found, -100);
      assert forall e :: e in r ==> e in found;
      CollectedFromKeptLines(file.value, query, level, moduleFilter);
      r
  }

  /** An entry whose level and module satisfy the requested filters. */
  predicate PassesFilters(e: LogEntry, level: string, moduleFilter: string)
  {
    && (level != "" ==> e.level == ToUpper(level))
    && (moduleFilter != "" ==> Contains(ToLower(e.moduleName), ToLower(moduleFilter)))
  }

  /** On lines whose entries were built from their fields, every search
      result has the requested level and a module containing the requested
      module text, ignoring case. */
  lemma SearchRespectsFilters(file: Option<seq<LogLine>>, query: string, level: string, moduleFilter: string)
    requires file.Some? ==> forall j :: 0 <= j < |file.value| ==> EntryFromFields(file.value[j])
    ensures forall e :: e in Search(file, query, level, moduleFilter) ==> PassesFilters(e, level, moduleFilter)
  {
    forall e | e in Search(file, query, level, moduleFilter)
      ensures PassesFilters(e, level, moduleFilter)
    {
      var j :| 0 <= j < |file.value| && SearchStep(file.value[j], query, level, moduleFilter) == Keep(e);
      assert EntryFromFields(file.value[j]);
    }
  }

  /** search_logs: read the lines in order, keep the matching entries, stop at
      the first exception, and return the last 100 kept. */
  method SearchLogs(file: Option<seq<LogLine>>, query: string, level: string, moduleFilter: string)
    returns (entries: seq<LogEntry>)
    ensures entries == Search(file, query, level, moduleFilter)
  {
    if file.None? {
      return [];
    }
    var lines := file.value;
    var found: seq<LogEntry> := [];
    var aborted := false;
    var i := 0;
    while i < |lines| && !aborted
      invariant 0 <= i <= |lines|
      invariant (found, aborted) == Collect(lines[..i], query, level, moduleFilter)
      decreases |lines| - i
    {
      assert lines[..i + 1][..i] == lines[..i];
      match SearchStep(lines[i], query, level, moduleFilter) {
        case Skip =>
        case Keep(e) =>
          found := found + [e];
        case Abort =>
          aborted := true;
      }
      i := i + 1;
    }
    if aborted {
      assert lines == lines[..i] + lines[i..];
      CollectAfterAbort(lines[..i], lines[i..], query, level, moduleFilter);
    } else {
      assert lines[..i] == lines;
    }
    entries := PySliceFrom(found, -100);
  }

  /** Every line StructuredFormatter writes carries a "line" key that
      LogEntry does not accept, so a search over a log made only of such lines
      returns nothing: the first matching line raises TypeError and ends it. */
  lemma SearchOfFormatterLog(lines: seq<LogLine>, query: string, level: string, moduleFilter: string)
    requires forall j :: 0 <= j < |lines| ==> lines[j].Object? && "line" in lines[j].keys
    ensures Search(Some(lines), query, level, moduleFilter) == []
  {
    CollectKeepsNothing(lines, query, level, moduleFilter);
  }

  lemma {:induction false} CollectKeepsNothing(lines: seq<LogLine>, query: string, level: string, moduleFilter: string)
    requires forall j :: 0 <= j < |lines| ==> lines[j].Object? && "line" in lines[j].keys
    ensures Collect(lines, query, level, moduleFilter).0 == []
  {
    if lines != [] {
      var prefix := lines[..|lines| - 1];
      CollectKeepsNothing(prefix, query, level, moduleFilter);
      assert !FitsLogEntry(lines[|lines| - 1].keys);
    }
  }

  // ---------------------------------------------------------------------------
  // cleanup_old_logs
  // ---------------------------------------------------------------------------

  /** A backup file `<log name>.*` with its modification time. */
  datatype BackupFile = BackupFile(path: string, mtime: real)

  function Mtime(f: BackupFile): real { f.mtime }

  /** The files cleanup_old_logs deletes: the backups sorted by modification
      time, oldest first, and `[:-backup_log_count]` of them. */
  function FilesToDelete(backups: seq<BackupFile>, backupLogCount: int): (r: seq<BackupFile>)
    ensures |r| <= |backups|
    ensures multiset(r) <= multiset(backups)
  {
    var sorted := SortBy(backups, Mtime);
    var r := PySliceTo(sorted, -backupLogCount);
    assert sorted == r + sorted[|r|..];
    r
  }

  /** The selection keeps the newest backup_log_count files and deletes the
      rest, oldest first, none newer than a kept one. A count of 0 gives the
      slice `[:-0]`, which is empty, so nothing is deleted; a negative count
      deletes that many oldest files instead. */
  lemma FilesToDeleteSelection(backups: seq<BackupFile>, backupLogCount: int)
    ensures var sorted := SortBy(backups, Mtime);
      var r := FilesToDelete(backups, backupLogCount);
      && r == sorted[..|r|]
      && (backupLogCount == 0 ==> r == [])
      && (backupLogCount > 0 ==> |r| == MaxInt(|backups| - backupLogCount, 0))
      && (backupLogCount < 0 ==> |r| == MinInt(-backupLogCount, |backups|))
      && forall i, j :: 0 <= i < |r| <= j < |sorted| ==> r[i].mtime <= sorted[j].mtime
  {
    var sorted := SortBy(backups, Mtime);
    var r := FilesToDelete(backups, backupLogCount);
    forall i, j | 0 <= i < |r| <= j < |sorted|
      ensures r[i].mtime <= sorted[j].mtime
    {
      assert r[i] == sorted[i];
      assert Mtime(sorted[i]) <= Mtime(sorted[j]);
    }
  }

  /** cleanup_old_logs over the backups that exist. `unlinkFailsAt` is the
      position in the deletion list at which `unlink` raises, if any: the
      exception is caught and 0 is returned, though the earlier files are
      already gone. Returns the count reported and the files removed. */
  method CleanupOldLogs(logExists: bool, backups: seq<BackupFile>, backupLogCount: int, unlinkFailsAt: Option<nat>)
    returns (deletedCount: nat, removed: seq<BackupFile>)
    ensures !logExists ==> deletedCount == 0 && removed == []
    ensures logExists ==>
      var toDelete := FilesToDelete(backups, backupLogCount);
      if unlinkFailsAt.Some? && unlinkFailsAt.value < |toDelete| then
        deletedCount == 0 && removed == toDelete[..unlinkFailsAt.value]
      else
        deletedCount == |toDelete| && removed == toDelete
  {
    removed := [];
    if !logExists {
      return 0, [];
    }
    var filesToDelete := FilesToDelete(backups, backupLogCount);
    deletedCount := 0;
    for k := 0 to |filesToDelete|
      invariant deletedCount == k && removed == filesToDelete[..k]
      invariant unlinkFailsAt.Some? ==> k <= unlinkFailsAt.value
    {
      if unlinkFailsAt == Some(k) {
        return 0, removed;
      }
      removed := removed + [filesToDelete[k]];
      deletedCount := deletedCount + 1;
    }
    assert filesToDelete[..|filesToDelete|] == filesToDelete;
  }
}
