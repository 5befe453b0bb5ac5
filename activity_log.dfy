/**
 * The exercise activity log: a sequence of entries kept in one browser
 * storage slot, appended to on every logged exercise, read back whole or
 * filtered to one calendar day, and cleared.
 *
 * Timestamps are milliseconds since the epoch. The storage slot holds either
 * text that parses to an array of entries, modelled as the entries
 * themselves, or text that does not, modelled as `Corrupt`.
 */
module ActivityLog {
  import opened Wrappers

  /** What the caller supplies for one completed exercise. */
  datatype Activity = Activity(
    exerciseId: string, exerciseName: string,
    categoryId: string, categoryName: string,
    imageUrl: Option<string>, completed: bool, notes: Option<string>)

  /** A logged activity with the id and timestamp the logger assigned. */
  datatype LogEntry = LogEntry(id: string, timestamp: int, activity: Activity)

  /** The content of the storage slot when it is present. */
  datatype Stored = Corrupt | Saved(entries: seq<LogEntry>)

  /** The storage key the log lives under. */
  const StorageKey: string := "exercise_activity_logs"

  /** One day, in milliseconds. */
  const DayMs: int := 86_400_000

  /** One second, in milliseconds. */
  const SecondMs: int := 1000

  /** The entries read from the slot: a missing or unparsable slot reads as no entries. */
  function ReadLogs(slot: Option<Stored>): (logs: seq<LogEntry>)
    ensures slot == None ==> logs == []
    ensures slot == Some(Corrupt) ==> logs == []
    ensures slot.Some? && slot.value.Saved? ==> logs == slot.value.entries
  {
    match slot
    case None => []
    case Some(Corrupt) => []
    case Some(Saved(entries)) => entries
  }

  // ---------------------------------------------------------------------------
  // Day windows
  // ---------------------------------------------------------------------------

  /** Midnight of the day containing `t`. */
  function StartOfDay(t: int): (s: int)
    ensures s <= t < s + DayMs
    ensures s % DayMs == 0
  {
    t - t % DayMs
  }

  /** Whether `t` lies in the half-open day window starting at `dayStart`. */
  predicate InDay(t: int, dayStart: int)
  {
    dayStart <= t < dayStart + DayMs
  }

  /** The entries of `logs` timestamped in the day starting at `dayStart`, in their order. */
  function LogsInDay(logs: seq<LogEntry>, dayStart: int): (r: seq<LogEntry>)
    ensures |r| <= |logs|
    ensures forall e :: e in r ==> e in logs && InDay(e.timestamp, dayStart)
    ensures forall e :: e in logs && InDay(e.timestamp, dayStart) ==> e in r
    ensures forall e :: multiset(r)[e] == if InDay(e.timestamp, dayStart) then multiset(logs)[e] else 0
  {
    if logs == [] then []
    else
      assert logs == [logs[0]] + logs[1..];
      var rest := LogsInDay(logs[1..], dayStart);
      if InDay(logs[0].timestamp, dayStart) then [logs[0]] + rest else rest
  }

  /** Whether `a` is `b` with some elements left out, the rest kept in order. */
  predicate IsSubsequence<T(==)>(a: seq<T>, b: seq<T>)
    decreases |b|
  {
    || a == []
    || (&& b != []
        && ((a[0] == b[0] && IsSubsequence(a[1..], b[1..])) || IsSubsequence(a, b[1..])))
  }

  /** The day filter keeps the original order: its result is a subsequence of the log. */
  lemma {:induction false} LogsInDayIsSubsequence(logs: seq<LogEntry>, dayStart: int)
    ensures IsSubsequence(LogsInDay(logs, dayStart), logs)
  {
    if logs != [] {
      var rest := LogsInDay(logs[1..], dayStart);
      LogsInDayIsSubsequence(logs[1..], dayStart);
      assert [logs[0]] + logs[1..] == logs;
      if InDay(logs[0].timestamp, dayStart) {
        assert ([logs[0]] + rest)[1..] == rest;
      } else {
        assert IsSubsequence(rest, logs[1..]);
      }
    }
  }

  /**
   * An entry stamped 23:59:59 on a day is reported for that day and not for
   * the next; one stamped 00:00:00 on the next day is reported for the next
   * day and not for the first.
   */
  lemma ConsecutiveDays(date: int, late: LogEntry, early: LogEntry)
    requires late.timestamp == StartOfDay(date) + DayMs - SecondMs
    requires early.timestamp == StartOfDay(date) + DayMs
    ensures LogsInDay([late, early], StartOfDay(date)) == [late]
    ensures LogsInDay([late, early], StartOfDay(date + DayMs)) == [early]
  {
    var d := StartOfDay(date);
    assert StartOfDay(date + DayMs) == d + DayMs by {
      var n := StartOfDay(date + DayMs);
      assert n % DayMs == 0 && (d + DayMs) % DayMs == 0;
      assert d + DayMs - DayMs < n + DayMs && n < d + DayMs + DayMs;
      MultiplesApart(n, d + DayMs);
    }
    assert [late, early][1..] == [early];
    assert [early][1..] == [];
  }

  /** Two multiples of a day less than a day apart are equal. */
  lemma MultiplesApart(a: int, b: int)
    requires a % DayMs == 0 && b % DayMs == 0
    requires b - DayMs < a < b + DayMs
    ensures a == b
  {
    var p, q := a / DayMs, b / DayMs;
    assert a == p * DayMs && b == q * DayMs;
    assert (q - 1) * DayMs < p * DayMs < (q + 1) * DayMs;
  }

  // ---------------------------------------------------------------------------
  // The logger
  // ---------------------------------------------------------------------------

  class ExerciseLogger {
    /** The storage slot under `StorageKey`: absent, unparsable, or the saved entries. */
    var slot: Option<Stored>
    /** The contents of every log file offered for download, oldest first. */
    var downloads: seq<seq<LogEntry>>

    /** The entries the log currently reads as. */
    function Logs(): seq<LogEntry>
      reads this
    {
      ReadLogs(slot)
    }

    /** A logger over a storage slot left by earlier sessions. */
    constructor (slot: Option<Stored>)
      ensures this.slot == slot && downloads == []
    {
      this.slot := slot;
      downloads := [];
    }

    /**
     * Logs `activity` with the generated `id` and the clock reading `now`.
     * `saveFails` stands for the storage write throwing (quota exceeded or
     * storage disabled): the promise then rejects and nothing is saved or
     * downloaded. Otherwise the entry is appended, the whole log is saved,
     * offered for download, and the new entry is returned.
     */
    method LogExerciseActivity(activity: Activity, id: string, now: int, saveFails: bool)
      returns (r: Result<LogEntry>)
      modifies this
      ensures saveFails ==> r.Err? && slot == old(slot) && downloads == old(downloads)
      ensures !saveFails ==>
        && r == Ok(LogEntry(id, now, activity))
        && Logs() == old(Logs()) + [r.value]
        && slot == Some(Saved(Logs()))
        && downloads == old(downloads) + [Logs()]
    {
      var logs := ReadLogs(slot);
      var newEntry := LogEntry(id, now, activity);
      logs := logs + [newEntry];
      if saveFails {
        return Err("storage write failed");
      }
      slot := Some(Saved(logs));
      downloads := downloads + [logs];
      r := Ok(newEntry);
    }

    /** All logged entries. */
    method GetExerciseLogs() returns (logs: seq<LogEntry>)
      ensures logs == Logs()
      ensures slot == None || slot == Some(Corrupt) ==> logs == []
    {
      logs := ReadLogs(slot);
    }

    /** The entries logged on the calendar day containing `date`, in logging order. */
    method GetExerciseLogsByDate(date: int) returns (logs: seq<LogEntry>)
      ensures logs == LogsInDay(Logs(), StartOfDay(date))
      ensures forall e :: e in logs <==> e in Logs() && InDay(e.timestamp, StartOfDay(date))
      ensures IsSubsequence(logs, Logs())
      ensures forall e :: multiset(logs)[e] == if InDay(e.timestamp, StartOfDay(date)) then multiset(Logs())[e] else 0
    {
      var all := ReadLogs(slot);
      var targetDate := StartOfDay(date);
      logs := LogsInDay(all, targetDate);
      LogsInDayIsSubsequence(all, targetDate);
    }

    /** Removes the storage slot: the log reads as empty afterwards. */
    method ClearLogs()
      modifies this
      ensures slot == None && Logs() == []
      ensures downloads == old(downloads)
    {
      slot := None;
    }
  }

  /** A logged entry is read back as the last entry of the whole log, with its fields intact. */
  method LogThenRead(log: ExerciseLogger, activity: Activity, id: string, now: int)
    returns (entry: LogEntry, all: seq<LogEntry>)
    modifies log
    ensures all != [] && all[|all| - 1] == entry
    ensures entry.activity == activity && entry.id == id && entry.timestamp == now
    ensures all[..|all| - 1] == old(log.Logs())
  {
    var r := log.LogExerciseActivity(activity, id, now, false);
    entry := r.value;
    all := log.GetExerciseLogs();
  }
}
