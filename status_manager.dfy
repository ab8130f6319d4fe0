/** The app-wide status board (Kotlin `object StatusManager`): a "current
    status" banner and a newest-first log of at most fifty lines, both
    observed by the UI. The wall clock that stamps each line is a
    parameter here. */
module StatusManager {
  import opened Platform

  const MaxLogLines: nat := 50
  const WaitingStatus: string := "Waiting for calls..."

  /** One log line: the timestamp in brackets, a space, the message. */
  function LogEntry(timestamp: string, message: string): string {
    "[" + timestamp + "] " + message
  }

  /** The log after `entry` is added at the front of `log` and, when that
      makes it longer than MaxLogLines, its last (oldest) line is dropped. */
  function Prepended(log: seq<string>, entry: string): (r: seq<string>)
    ensures |r| == if |log| < MaxLogLines then |log| + 1 else |log|
    ensures r[0] == entry
    ensures forall i :: 1 <= i < |r| ==> r[i] == log[i - 1]
  {
    var withEntry := [entry] + log;
    if |withEntry| > MaxLogLines then withEntry[..|withEntry| - 1] else withEntry
  }

  /** A log within the bound stays within it, and a full log loses exactly
      its oldest line while the others keep their order. */
  lemma PrependedBounded(log: seq<string>, entry: string)
    requires |log| <= MaxLogLines
    ensures |Prepended(log, entry)| <= MaxLogLines
    ensures |log| == MaxLogLines ==> Prepended(log, entry) == [entry] + log[..MaxLogLines - 1]
  {
  }

  /** The text of a line added by the log message `message` at `timestamp`:
      the message can be read back after the bracketed timestamp. */
  lemma LogEntryMessage(timestamp: string, message: string)
    ensures LogEntry(timestamp, message)[|timestamp| + 3..] == message
    ensures LogEntry(timestamp, message)[1..|timestamp| + 1] == timestamp
  {
  }

  class StatusManager {
    var currentStatus: string
    var logEntries: seq<string>

    ghost predicate Valid()
      reads this
    {
      |logEntries| <= MaxLogLines
    }

    /** The board as the app starts: waiting, with an empty log. */
    constructor ()
      ensures Valid()
      ensures currentStatus == WaitingStatus && logEntries == []
    {
      currentStatus := WaitingStatus;
      logEntries := [];
    }

    /** Replaces the banner; the log is untouched. */
    method UpdateStatus(status: string)
      modifies this`currentStatus
      ensures currentStatus == status
    {
      currentStatus := status;
    }

    /** Adds one stamped line at the front of the log, dropping the oldest
        line when the log would exceed MaxLogLines. */
    method Log(message: string, timestamp: string)
      requires Valid()
      modifies this`logEntries
      ensures Valid()
      ensures logEntries == Prepended(old(logEntries), LogEntry(timestamp, message))
    {
      var entry := LogEntry(timestamp, message);
      var currentLogs := logEntries;
      currentLogs := [entry] + currentLogs;
      if |currentLogs| > MaxLogLines {
        currentLogs := currentLogs[..|currentLogs| - 1];
      }
      logEntries := currentLogs;
    }

    method CallStarted(number: string, timestamp: string)
      requires Valid()
      modifies this
      ensures Valid()
      ensures currentStatus == "📞 Calling " + number + "..."
      ensures logEntries == Prepended(old(logEntries), LogEntry(timestamp, "Initiating call to " + number))
    {
      UpdateStatus("📞 Calling " + number + "...");
      Log("Initiating call to " + number, timestamp);
    }

    method CallConnected(number: string, timestamp: string)
      requires Valid()
      modifies this
      ensures Valid()
      ensures currentStatus == "✓ Connected to " + number
      ensures logEntries == Prepended(old(logEntries), LogEntry(timestamp, "Call connected to " + number))
    {
      UpdateStatus("✓ Connected to " + number);
      Log("Call connected to " + number, timestamp);
    }

    method WaitingForAnswer(seconds: int, timestamp: string)
      requires Valid()
      modifies this
      ensures Valid()
      ensures currentStatus == "⏳ Waiting " + DecimalString(seconds) + "s for answer..."
      ensures logEntries == Prepended(old(logEntries),
        LogEntry(timestamp, "Waiting " + DecimalString(seconds) + "s for call to be answered"))
    {
      UpdateStatus("⏳ Waiting " + DecimalString(seconds) + "s for answer...");
      Log("Waiting " + DecimalString(seconds) + "s for call to be answered", timestamp);
    }

    method MergingCalls(timestamp: string)
      requires Valid()
      modifies this
      ensures Valid()
      ensures currentStatus == "🔀 Merging calls into conference..."
      ensures logEntries == Prepended(old(logEntries), LogEntry(timestamp, "Attempting to merge calls"))
    {
      UpdateStatus("🔀 Merging calls into conference...");
      Log("Attempting to merge calls", timestamp);
    }

    method ConferenceCreated(timestamp: string)
      requires Valid()
      modifies this
      ensures Valid()
      ensures currentStatus == "✅ Conference active - You are MUTED"
      ensures logEntries == Prepended(old(logEntries),
        LogEntry(timestamp, "✅ Conference created successfully - Microphone muted"))
    {
      UpdateStatus("✅ Conference active - You are MUTED");
      Log("✅ Conference created successfully - Microphone muted", timestamp);
    }

    method CallFailed(reason: string, timestamp: string)
      requires Valid()
      modifies this
      ensures Valid()
      ensures currentStatus == "❌ Call failed: " + reason
      ensures logEntries == Prepended(old(logEntries), LogEntry(timestamp, "Call failed: " + reason))
    {
      UpdateStatus("❌ Call failed: " + reason);
      Log("Call failed: " + reason, timestamp);
    }

    /** Back to the initial banner, with one more log line. */
    method Idle(timestamp: string)
      requires Valid()
      modifies this
      ensures Valid()
      ensures currentStatus == WaitingStatus
      ensures logEntries == Prepended(old(logEntries), LogEntry(timestamp, "Ready for next call"))
    {
      UpdateStatus(WaitingStatus);
      Log("Ready for next call", timestamp);
    }
  }
}
