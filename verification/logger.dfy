/**
 * The in-memory event log (src/Logger.cpp): a vector of at most MAX_LOG_ENTRIES entries that
 * drops its oldest entry when full, a rotating set of twenty flash slots, and the text
 * renderings used by the summary and the export.
 */
module Logging {
  import opened Common
  import opened Config

  datatype LogLevel = Debug | Info | Warning | Error

  datatype LogEventType =
    | SystemStart | AlarmSet | AlarmTriggered | AlarmStopped | AlarmSnoozed
    | PillBoxOpened | PillBoxClosed | BedtimeReminder | UsbConnected | UsbDisconnected
    | WifiConnected | WifiDisconnected | OtaStart | OtaSuccess | OtaFailed
    | LowBattery | SensorError

  datatype LogEntry = LogEntry(
    timestamp: Millis,
    level: LogLevel,
    eventType: LogEventType,
    message: string,
    data: string)

  function LevelToString(level: LogLevel): (s: string)
    ensures s != "" && s != "UNKNOWN" && '\n' !in s
  {
    match level
    case Debug => "DEBUG"
    case Info => "INFO"
    case Warning => "WARN"
    case Error => "ERROR"
  }

  function EventTypeToString(eventType: LogEventType): (s: string)
    ensures s != "" && s != "UNKNOWN" && '\n' !in s
  {
    match eventType
    case SystemStart => "SYSTEM_START"
    case AlarmSet => "ALARM_SET"
    case AlarmTriggered => "ALARM_TRIGGERED"
    case AlarmStopped => "ALARM_STOPPED"
    case AlarmSnoozed => "ALARM_SNOOZED"
    case PillBoxOpened => "PILL_BOX_OPENED"
    case PillBoxClosed => "PILL_BOX_CLOSED"
    case BedtimeReminder => "BEDTIME_REMINDER"
    case UsbConnected => "USB_CONNECTED"
    case UsbDisconnected => "USB_DISCONNECTED"
    case WifiConnected => "WIFI_CONNECTED"
    case WifiDisconnected => "WIFI_DISCONNECTED"
    case OtaStart => "OTA_START"
    case OtaSuccess => "OTA_SUCCESS"
    case OtaFailed => "OTA_FAILED"
    case LowBattery => "LOW_BATTERY"
    case SensorError => "SENSOR_ERROR"
  }

  /** Distinct levels print differently, so a rendered level identifies the level. */
  lemma LevelToStringInjective(a: LogLevel, b: LogLevel)
    requires LevelToString(a) == LevelToString(b)
    ensures a == b
  {
    assert LevelToString(a)[0] == LevelToString(b)[0];
    if a.Error? || b.Error? {
      assert LevelToString(a)[1] == LevelToString(b)[1];
    }
  }

  /** Distinct event types print differently, so a rendered event name identifies the event type. */
  lemma EventTypeToStringInjective(a: LogEventType, b: LogEventType)
    requires EventTypeToString(a) == EventTypeToString(b)
    ensures a == b
  {
  }

  // ---------------------------------------------------------------------------------------
  // The bounded buffer

  /** The newest `n` entries of `h` in logging order (all of them when there are fewer). */
  function Newest(h: seq<LogEntry>, n: nat): (r: seq<LogEntry>)
    ensures |r| == Min(|h|, n)
    ensures r == h[|h| - |r|..]
  {
    if |h| <= n then h else h[|h| - n..]
  }

  /** The buffer after log() adds `e`: the oldest entry is erased first when the buffer is full. */
  function Appended(buffer: seq<LogEntry>, e: LogEntry): seq<LogEntry>
  {
    if |buffer| >= MaxLogEntries then buffer[1..] + [e] else buffer + [e]
  }

  /**
   * Appending to a buffer that holds the newest MAX_LOG_ENTRIES entries of a history gives the
   * newest MAX_LOG_ENTRIES entries of the extended history: the buffer is a FIFO window, nothing
   * is reordered and only the oldest entry is ever dropped.
   */
  lemma {:induction false} AppendedKeepsNewest(h: seq<LogEntry>, e: LogEntry)
    ensures Appended(Newest(h, MaxLogEntries), e) == Newest(h + [e], MaxLogEntries)
  {
    var n := MaxLogEntries;
    var h' := h + [e];
    if |h| < n {
      assert Newest(h, n) == h;
      assert Newest(h', n) == h';
    } else {
      var w := Newest(h, n);
      assert w == h[|h| - n..];
      assert Newest(h', n) == h'[|h'| - n..];
      assert w[1..] + [e] == h'[|h'| - n..];
    }
  }

  /** Whatever the history, the buffer stays within MAX_LOG_ENTRIES and grows by one until full. */
  lemma AppendedSize(buffer: seq<LogEntry>, e: LogEntry)
    ensures |Appended(buffer, e)| <= if |buffer| >= MaxLogEntries then |buffer| else MaxLogEntries
    ensures |buffer| < MaxLogEntries ==> |Appended(buffer, e)| == |buffer| + 1
    ensures Appended(buffer, e)[|Appended(buffer, e)| - 1] == e
  {
  }

  // ---------------------------------------------------------------------------------------
  // Flash slots

  const FlashSlots: nat := 20

  /** The preferences key written by the `counter`-th flash write: "log_" + counter % 20. */
  function FlashKey(counter: nat): string
  {
    "log_" + DecimalText(counter % FlashSlots)
  }

  /** The flash keys repeat with period 20. */
  lemma FlashKeyPeriodic(counter: nat)
    ensures FlashKey(counter + FlashSlots) == FlashKey(counter)
  {
    assert (counter + FlashSlots) % FlashSlots == counter % FlashSlots;
  }

  /** Writes whose counters differ modulo 20 land on different keys. */
  lemma FlashKeysDistinct(i: nat, j: nat)
    requires i % FlashSlots != j % FlashSlots
    ensures FlashKey(i) != FlashKey(j)
  {
    if FlashKey(i) == FlashKey(j) {
      assert FlashKey(i)[4..] == DecimalText(i % FlashSlots);
      assert FlashKey(j)[4..] == DecimalText(j % FlashSlots);
      DecimalTextInjective(i % FlashSlots, j % FlashSlots);
    }
  }

  /** A key that some flash write can use. */
  ghost predicate IsFlashKey(k: string) {
    exists c: nat :: c < FlashSlots && k == FlashKey(c)
  }

  /** Every write's key is one of the twenty slot keys. */
  lemma FlashKeyIsSlotKey(counter: nat)
    ensures IsFlashKey(FlashKey(counter))
  {
    var c := counter % FlashSlots;
    assert c % FlashSlots == c;
    assert FlashKey(c) == FlashKey(counter);
  }

  /** The keys of the first `n` slots. */
  function SlotKeys(n: nat): (keys: set<string>)
    ensures |keys| <= n
    ensures forall c: nat :: c < n ==> FlashKey(c) in keys
  {
    if n == 0 then {} else SlotKeys(n - 1) + {FlashKey(n - 1)}
  }

  /** However many entries are written, the flash namespace holds at most twenty of them. */
  lemma FlashHoldsAtMostTwenty(flash: map<string, LogEntry>)
    requires forall k :: k in flash ==> IsFlashKey(k)
    ensures |flash.Keys| <= FlashSlots
  {
    var all := SlotKeys(FlashSlots);
    assert flash.Keys <= all by {
      forall k | k in flash ensures k in all {
        var c: nat :| c < FlashSlots && k == FlashKey(c);
      }
    }
    SubsetCardinality(flash.Keys, all);
  }

  lemma SubsetCardinality<T>(a: set<T>, b: set<T>)
    requires a <= b
    ensures |a| <= |b|
  {
    assert b == a + (b - a);
  }

  // ---------------------------------------------------------------------------------------
  // Summary and export

  /** How many entries of `s` have the given level. */
  function CountLevel(s: seq<LogEntry>, level: LogLevel): nat
  {
    if s == [] then 0
    else CountLevel(s[..|s| - 1], level) + (if s[|s| - 1].level == level then 1 else 0)
  }

  /** Every entry has exactly one of the four levels, so the four counts add up to the size. */
  lemma {:induction false} CountsCoverBuffer(s: seq<LogEntry>)
    ensures CountLevel(s, Error) + CountLevel(s, Warning) + CountLevel(s, Info) + CountLevel(s, Debug) == |s|
  {
    if s != [] {
      CountsCoverBuffer(s[..|s| - 1]);
    }
  }

  /** The start of an exported line: "[timestamp] LEVEL EVENT: message". */
  function EntryHead(timestamp: Millis, level: LogLevel, eventType: LogEventType, message: string): (head: string)
    ensures '\n' !in message ==> '\n' !in head
  {
    "[" + DecimalText(timestamp) + "] " + LevelToString(level) + " "
      + EventTypeToString(eventType) + ": " + message
  }

  /** " (data)" when the data is not empty, else nothing. */
  function DataSuffix(data: string): (suffix: string)
    ensures '\n' !in data ==> '\n' !in suffix
  {
    if data != "" then " (" + data + ")" else ""
  }

  /** One exported line: the head, the data suffix and a newline. */
  function EntryLine(e: LogEntry): string
  {
    EntryHead(e.timestamp, e.level, e.eventType, e.message) + DataSuffix(e.data) + "\n"
  }

  /** The text exportLogsToString produces for `s`: the entries' lines in order. */
  function ExportText(s: seq<LogEntry>): string
  {
    if s == [] then "" else ExportText(s[..|s| - 1]) + EntryLine(s[|s| - 1])
  }

  predicate SingleLine(e: LogEntry) {
    '\n' !in e.message && '\n' !in e.data
  }

  function NewlineCount(text: string): nat {
    multiset(text)['\n']
  }

  lemma NoNewline(text: string)
    requires '\n' !in text
    ensures NewlineCount(text) == 0
  {
  }

  lemma NewlineCountConcat(a: string, b: string)
    ensures NewlineCount(a + b) == NewlineCount(a) + NewlineCount(b)
  {
    assert multiset(a + b) == multiset(a) + multiset(b);
  }

  /** Two newline-free parts followed by a newline make exactly one line. */
  lemma OneNewline(head: string, tail: string)
    requires '\n' !in head && '\n' !in tail
    ensures NewlineCount(head + tail + "\n") == 1
    ensures (head + tail + "\n")[|head + tail + "\n"| - 1] == '\n'
  {
    NoNewline(head);
    NoNewline(tail);
    NewlineCountConcat(head, tail);
    NewlineCountConcat(head + tail, "\n");
  }

  /** An entry whose message and data hold no newline renders as exactly one line. */
  lemma EntryLineIsOneLine(e: LogEntry)
    requires SingleLine(e)
    ensures NewlineCount(EntryLine(e)) == 1
    ensures EntryLine(e)[|EntryLine(e)| - 1] == '\n'
  {
    OneNewline(EntryHead(e.timestamp, e.level, e.eventType, e.message), DataSuffix(e.data));
  }

  /**
   * The " (data)" suffix is the only thing the data adds to a line: the line of an entry is the
   * line of the same entry without data, with the suffix inserted before the newline exactly
   * when the data is not empty.
   */
  lemma DataSuffixOnlyWhenPresent(e: LogEntry)
    ensures
      var bare := EntryLine(e.(data := ""));
      && |bare| >= 1 && bare[|bare| - 1] == '\n'
      && (e.data == "" ==> EntryLine(e) == bare)
      && (e.data != "" ==> EntryLine(e) == bare[..|bare| - 1] + (" (" + e.data + ")") + "\n")
  {
    var head := EntryHead(e.timestamp, e.level, e.eventType, e.message);
    assert EntryLine(e.(data := "")) == head + "\n";
    assert (head + "\n")[..|head|] == head;
  }

  /** The export holds one line per buffered entry. */
  lemma {:induction false} ExportHasOneLinePerEntry(s: seq<LogEntry>)
    requires forall i :: 0 <= i < |s| ==> SingleLine(s[i])
    ensures NewlineCount(ExportText(s)) == |s|
  {
    if s != [] {
      ExportHasOneLinePerEntry(s[..|s| - 1]);
      EntryLineIsOneLine(s[|s| - 1]);
    }
  }

  /** Per-level counts of the buffered entries, as getLogsSummary reports them. */
  datatype LogsSummary = LogsSummary(total: nat, errors: nat, warnings: nat, infos: nat, debugs: nat)

  class Logger {
    var buffer: seq<LogEntry>
    var flashLoggingEnabled: bool
    var serialLoggingEnabled: bool
    /** The "logger" preferences namespace: key -> entry written there. */
    var flash: map<string, LogEntry>
    /** The function-static logCounter of writeToFlash. */
    var flashCounter: nat
    /** Whether preferences.begin("logger") has succeeded: only then do writes and clears reach flash. */
    var namespaceOpen: bool
    /** Every entry logged since construction or since the last clearLogs. */
    ghost var history: seq<LogEntry>

    ghost predicate Valid()
      reads this
    {
      && buffer == Newest(history, MaxLogEntries)
      && (forall k :: k in flash ==> IsFlashKey(k))
    }

    constructor ()
      ensures Valid()
      ensures buffer == [] && flash == map[] && flashCounter == 0 && !namespaceOpen
      ensures flashLoggingEnabled && serialLoggingEnabled
    {
      buffer := [];
      flashLoggingEnabled := true;
      serialLoggingEnabled := true;
      flash := map[];
      flashCounter := 0;
      namespaceOpen := false;
      history := [];
      assert Newest([], MaxLogEntries) == [];
    }

    /**
     * begin: with flash logging on, fails and changes nothing when the "logger" namespace
     * cannot be opened, and otherwise opens it; then logs that the logger started, with both
     * flags in the data. With flash logging off the namespace is not opened.
     */
    method Begin(namespaceOpens: bool, now: Millis) returns (ok: bool)
      requires Valid()
      modifies this
      ensures Valid()
      ensures ok <==> !flashLoggingEnabled || namespaceOpens
      ensures namespaceOpen == (old(namespaceOpen) || (flashLoggingEnabled && namespaceOpens))
      ensures !ok ==> buffer == old(buffer) && flash == old(flash) && flashCounter == old(flashCounter)
      ensures ok ==>
        var e := LogEntry(now, Info, SystemStart, "Logger initialized",
          "Flash: " + (if flashLoggingEnabled then "ON" else "OFF")
          + ", Serial: " + (if serialLoggingEnabled then "ON" else "OFF"));
        && buffer == Appended(old(buffer), e)
        && (flashLoggingEnabled ==> flash == old(flash)[FlashKey(old(flashCounter)) := e]
                                    && flashCounter == old(flashCounter) + 1)
        && (!flashLoggingEnabled ==> flash == old(flash) && flashCounter == old(flashCounter))
      ensures flashLoggingEnabled == old(flashLoggingEnabled)
      ensures serialLoggingEnabled == old(serialLoggingEnabled)
    {
      if flashLoggingEnabled {
        if !namespaceOpens {
          return false;
        }
        namespaceOpen := true;
      }
      Log(Info, SystemStart, "Logger initialized",
        "Flash: " + (if flashLoggingEnabled then "ON" else "OFF")
        + ", Serial: " + (if serialLoggingEnabled then "ON" else "OFF"), now);
      ok := true;
    }

    /**
     * writeToFlash: stores the entry under the next rotating key, which reaches flash only when
     * the namespace is open; the counter advances either way.
     */
    method WriteToFlash(e: LogEntry)
      requires Valid()
      modifies this
      ensures Valid()
      ensures namespaceOpen ==> flash == old(flash)[FlashKey(old(flashCounter)) := e]
      ensures !namespaceOpen ==> flash == old(flash)
      ensures flashCounter == old(flashCounter) + 1
      ensures namespaceOpen == old(namespaceOpen)
      ensures buffer == old(buffer) && history == old(history)
      ensures flashLoggingEnabled == old(flashLoggingEnabled)
      ensures serialLoggingEnabled == old(serialLoggingEnabled)
    {
      var key := FlashKey(flashCounter);
      FlashKeyIsSlotKey(flashCounter);
      if namespaceOpen {
        flash := flash[key := e];
      }
      flashCounter := flashCounter + 1;
    }

    /** log(level, eventType, message, data) at tick `now`. */
    method Log(level: LogLevel, eventType: LogEventType, message: string, data: string, now: Millis)
      requires Valid()
      modifies this
      ensures Valid()
      ensures history == old(history) + [LogEntry(now, level, eventType, message, data)]
      ensures buffer == Appended(old(buffer), LogEntry(now, level, eventType, message, data))
      ensures |buffer| <= MaxLogEntries
      ensures flashLoggingEnabled && namespaceOpen ==>
        flash == old(flash)[FlashKey(old(flashCounter)) := LogEntry(now, level, eventType, message, data)]
      ensures !(flashLoggingEnabled && namespaceOpen) ==> flash == old(flash)
      ensures flashLoggingEnabled ==> flashCounter == old(flashCounter) + 1
      ensures !flashLoggingEnabled ==> flashCounter == old(flashCounter)
      ensures namespaceOpen == old(namespaceOpen)
      ensures flashLoggingEnabled == old(flashLoggingEnabled)
      ensures serialLoggingEnabled == old(serialLoggingEnabled)
    {
      var entry := LogEntry(now, level, eventType, message, data);
      AppendedKeepsNewest(history, entry);
      if |buffer| >= MaxLogEntries {
        buffer := buffer[1..];
      }
      buffer := buffer + [entry];
      history := history + [entry];
      if flashLoggingEnabled {
        WriteToFlash(entry);
      }
    }

    /** getRecentLogs(count): the newest `count` entries, oldest first. */
    function RecentLogs(count: nat): (r: seq<LogEntry>)
      reads this
      ensures |r| == Min(count, |buffer|)
      ensures r == buffer[|buffer| - |r|..]
    {
      var start := if |buffer| - count > 0 then |buffer| - count else 0;
      buffer[start..]
    }

    /** clearLogs: empties the buffer (and the flash namespace), then logs that it did so. */
    method ClearLogs(now: Millis)
      requires Valid()
      modifies this
      ensures Valid()
      ensures buffer == [LogEntry(now, Info, SystemStart, "Log buffer cleared", "")]
      ensures history == buffer
      ensures flashLoggingEnabled && namespaceOpen ==> flash == map[FlashKey(old(flashCounter)) := buffer[0]]
      ensures !(flashLoggingEnabled && namespaceOpen) ==> flash == old(flash)
      ensures flashLoggingEnabled ==> flashCounter == old(flashCounter) + 1
      ensures !flashLoggingEnabled ==> flashCounter == old(flashCounter)
      ensures namespaceOpen == old(namespaceOpen)
      ensures flashLoggingEnabled == old(flashLoggingEnabled)
      ensures serialLoggingEnabled == old(serialLoggingEnabled)
    {
      buffer := [];
      history := [];
      if flashLoggingEnabled && namespaceOpen {
        flash := map[];
      }
      Log(Info, SystemStart, "Log buffer cleared", "", now);
    }

    /** enableFlashLogging: sets the flag, then logs the change (to flash only if now enabled). */
    method EnableFlashLogging(enable: bool, now: Millis)
      requires Valid()
      modifies this
      ensures Valid()
      ensures flashLoggingEnabled == enable
      ensures serialLoggingEnabled == old(serialLoggingEnabled)
      ensures buffer == Appended(old(buffer),
        LogEntry(now, Info, SystemStart, "Flash logging", if enable then "enabled" else "disabled"))
      ensures enable && namespaceOpen ==>
        flash == old(flash)[FlashKey(old(flashCounter)) :=
          LogEntry(now, Info, SystemStart, "Flash logging", "enabled")]
      ensures !(enable && namespaceOpen) ==> flash == old(flash)
      ensures enable ==> flashCounter == old(flashCounter) + 1
      ensures !enable ==> flashCounter == old(flashCounter)
      ensures namespaceOpen == old(namespaceOpen)
    {
      flashLoggingEnabled := enable;
      Log(Info, SystemStart, "Flash logging", if enable then "enabled" else "disabled", now);
    }

    /** enableSerialLogging: sets the flag, then logs the change. */
    method EnableSerialLogging(enable: bool, now: Millis)
      requires Valid()
      modifies this
      ensures Valid()
      ensures serialLoggingEnabled == enable
      ensures flashLoggingEnabled == old(flashLoggingEnabled)
      ensures
        var e := LogEntry(now, Info, SystemStart, "Serial logging", if enable then "enabled" else "disabled");
        && buffer == Appended(old(buffer), e)
        && (flashLoggingEnabled && namespaceOpen ==> flash == old(flash)[FlashKey(old(flashCounter)) := e])
        && (!(flashLoggingEnabled && namespaceOpen) ==> flash == old(flash))
        && (flashLoggingEnabled ==> flashCounter == old(flashCounter) + 1)
        && (!flashLoggingEnabled ==> flashCounter == old(flashCounter))
      ensures namespaceOpen == old(namespaceOpen)
    {
      serialLoggingEnabled := enable;
      Log(Info, SystemStart, "Serial logging", if enable then "enabled" else "disabled", now);
    }

    /** getLogsSummary: the counting loop over the buffer. */
    method GetLogsSummary() returns (summary: LogsSummary)
      ensures summary.total == |buffer|
      ensures summary.errors == CountLevel(buffer, Error)
      ensures summary.warnings == CountLevel(buffer, Warning)
      ensures summary.infos == CountLevel(buffer, Info)
      ensures summary.debugs == CountLevel(buffer, Debug)
      ensures summary.errors + summary.warnings + summary.infos + summary.debugs == summary.total
    {
      var errorCount, warningCount, infoCount, debugCount := 0, 0, 0, 0;
      for i := 0 to |buffer|
        invariant errorCount == CountLevel(buffer[..i], Error)
        invariant warningCount == CountLevel(buffer[..i], Warning)
        invariant infoCount == CountLevel(buffer[..i], Info)
        invariant debugCount == CountLevel(buffer[..i], Debug)
      {
        assert buffer[..i + 1][..i] == buffer[..i];
        match buffer[i].level
        case Error => errorCount := errorCount + 1;
        case Warning => warningCount := warningCount + 1;
        case Info => infoCount := infoCount + 1;
        case Debug => debugCount := debugCount + 1;
      }
      assert buffer[..|buffer|] == buffer;
      CountsCoverBuffer(buffer);
      summary := LogsSummary(|buffer|, errorCount, warningCount, infoCount, debugCount);
    }

    /** exportLogsToString: one rendered line per buffered entry, oldest first. */
    method ExportLogsToString() returns (output: string)
      ensures output == ExportText(buffer)
      ensures (forall i :: 0 <= i < |buffer| ==> SingleLine(buffer[i])) ==> NewlineCount(output) == |buffer|
    {
      output := "";
      for i := 0 to |buffer|
        invariant output == ExportText(buffer[..i])
      {
        assert buffer[..i + 1][..i] == buffer[..i];
        output := output + EntryLine(buffer[i]);
      }
      assert buffer[..|buffer|] == buffer;
      if forall i :: 0 <= i < |buffer| ==> SingleLine(buffer[i]) {
        ExportHasOneLinePerEntry(buffer);
      }
    }
  }
}
