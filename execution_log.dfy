/** The execution history: at most 50 run summaries, oldest first, and the five most
    recent shown in the status reply. */
module ExecutionLog {
  import opened Types

  const MaxEntries: nat := 50

  /** How many entries the status reply shows. */
  const RecentCount: nat := 5

  function Min(a: nat, b: nat): nat {
    if a <= b then a else b
  }

  /** `s.slice(-k)` for k > 0: the last `k` elements, or all of them when fewer. */
  function LastAtMost<T>(s: seq<T>, k: nat): (r: seq<T>)
    requires k > 0
    ensures |r| == Min(k, |s|)
    ensures forall i :: 0 <= i < |r| ==> r[i] == s[|s| - |r| + i]
  {
    if |s| <= k then s else s[|s| - k..]
  }

  /** The log saveExecutionLog stores: the old log with the new entry pushed, then the
      oldest entries spliced off until at most 50 remain. */
  function AppendBounded(log: seq<LogEntry>, entry: LogEntry): seq<LogEntry> {
    LastAtMost(log + [entry], MaxEntries)
  }

  /** The new entry is last, the log holds min(50, n + 1) entries, and those are the
      newest ones in their original order: only the oldest are evicted. */
  lemma AppendBoundedKeepsNewest(log: seq<LogEntry>, entry: LogEntry)
    ensures var r := AppendBounded(log, entry);
      && |r| == Min(MaxEntries, |log| + 1)
      && |r| <= MaxEntries
      && r[|r| - 1] == entry
      && r[..|r| - 1] == log[|log| + 1 - |r|..]
  {
    var r := AppendBounded(log, entry);
    var all := log + [entry];
    assert r[|r| - 1] == all[|all| - 1];
    var kept, dropped := r[..|r| - 1], log[|log| + 1 - |r|..];
    forall i | 0 <= i < |kept| ensures kept[i] == dropped[i] {
      assert r[i] == all[|all| - |r| + i];
    }
  }

  /** A log that has not yet reached the cap loses nothing. */
  lemma AppendBoundedBelowCap(log: seq<LogEntry>, entry: LogEntry)
    requires |log| < MaxEntries
    ensures AppendBounded(log, entry) == log + [entry]
  {
  }

  /** The entries the status reply shows: the last five, or all when fewer. */
  function Recent(log: seq<LogEntry>): seq<LogEntry> {
    LastAtMost(log, RecentCount)
  }
}
