/** The dashboard's rolling activity log: newest entry first, at most five entries. */
module ActivityLog {

  const LogCapacity: nat := 5

  /** One line of the log: the wall-clock time it was written and what was sent. */
  datatype LogEntry = LogEntry(time: string, msg: string)

  /** The entry written when a send fails. */
  const DeliveryFailed := LogEntry("Error", "Delivery Failed")

  function Min(a: int, b: int): int
  {
    if a <= b then a else b
  }

  /** `[entry, ...log].slice(0, 5)`: the new entry goes in front and the oldest falls off. */
  function PushLog(log: seq<LogEntry>, entry: LogEntry): (r: seq<LogEntry>)
    ensures |r| == Min(|log| + 1, LogCapacity)
    ensures r[0] == entry
    ensures forall i :: 1 <= i < |r| ==> r[i] == log[i - 1]
  {
    ([entry] + log)[..Min(|log| + 1, LogCapacity)]
  }

  function Reverse<T>(s: seq<T>): (r: seq<T>)
    ensures |r| == |s|
    ensures forall i :: 0 <= i < |s| ==> r[i] == s[|s| - 1 - i]
  {
    if s == [] then [] else [s[|s| - 1]] + Reverse(s[..|s| - 1])
  }

  /** The log after the given entries were pushed onto `log`, oldest entry first. */
  function LogAfter(log: seq<LogEntry>, entries: seq<LogEntry>): seq<LogEntry>
  {
    if entries == [] then log
    else PushLog(LogAfter(log, entries[..|entries| - 1]), entries[|entries| - 1])
  }

  /** However many entries are pushed, the log is the newest five of everything ever
      pushed (and of what it held before), newest first. */
  lemma {:induction false} LogHoldsNewestFive(log: seq<LogEntry>, entries: seq<LogEntry>)
    requires |log| <= LogCapacity
    ensures LogAfter(log, entries) == (Reverse(entries) + log)[..Min(|entries| + |log|, LogCapacity)]
  {
    if entries != [] {
      var n := |entries|;
      var e, earlier := entries[n - 1], entries[..n - 1];
      LogHoldsNewestFive(log, earlier);
      var all := Reverse(earlier) + log;
      var prev := all[..Min(|all|, LogCapacity)];
      assert Reverse(entries) + log == [e] + all;
      var r := LogAfter(log, entries);
      assert r == PushLog(prev, e);
      assert |r| == Min(|all| + 1, LogCapacity);
      forall i | 0 <= i < |r| ensures r[i] == ([e] + all)[i] {
        if i > 0 { assert r[i] == prev[i - 1]; }
      }
    }
  }
}
