/** The activity log of the Express server: `addLog` appends, and the log
    listing shows only the most recent entries (`logs.slice(-100)`). */
module ActivityLog {

  import opened Values

  /** A log entry as stored and as listed: `{id, timestamp, action, details}`. */
  datatype LogEntry = LogEntry(id: string, timestamp: int, action: string, details: Record)

  /** How many entries the listing shows. */
  const Window: nat := 100

  /** `logs.slice(-100)`: the last min(100, n) entries, in stored order. */
  function Recent(logs: seq<LogEntry>): (r: seq<LogEntry>)
    ensures |r| == if |logs| < Window then |logs| else Window
    ensures r == logs[|logs| - |r|..]
  {
    if |logs| <= Window then logs else logs[|logs| - Window..]
  }

  /** Appending one entry slides the window by one: the new entry is the
      newest shown, and the oldest shown one drops out once the window is full. */
  lemma RecentAfterAppend(logs: seq<LogEntry>, e: LogEntry)
    ensures Recent(logs + [e]) ==
            (if |logs| < Window then Recent(logs) else Recent(logs)[1..]) + [e]
  {
  }
}
