/** The direct client's health monitor: a periodic check that derives a
    health flag from the broker connection and notifies listeners only when
    the flag changes, and a window of the ten most recent latencies. The
    check interval is a timer; each firing is an explicit step. */
module HealthMonitor {
  import opened Wrappers

  const MaxLatencyHistory: nat := 10

  /** `healthy` starts true; `running` is whether the check interval is set. */
  datatype Monitor = Monitor(healthy: bool, history: seq<int>, running: bool)

  const Initial := Monitor(true, [], false)

  /** `start`: clears any running interval and sets a new one. */
  function Start(m: Monitor): (r: Monitor)
    ensures r.running && r.healthy == m.healthy && r.history == m.history
  {
    m.(running := true)
  }

  /** `stop`: clears the interval; the flag and the history stay. */
  function Stop(m: Monitor): (r: Monitor)
    ensures !r.running && r.healthy == m.healthy && r.history == m.history
  {
    m.(running := false)
  }

  /** The outcome of one firing of the check interval: the monitor after it,
      and `Some(flag)` when the listeners were called with `flag`. */
  datatype Check = Check(monitor: Monitor, notified: Option<bool>)

  /** `performHealthCheck` against a client that reports `connected` and
      `reconnecting`. The interval fires only while it is set. */
  function PerformHealthCheck(m: Monitor, connected: bool, reconnecting: bool): (r: Check)
    ensures !m.running ==> r == Check(m, None)
    ensures m.running ==> r.monitor.healthy == (connected && !reconnecting)
    ensures r.notified.Some? <==> r.monitor.healthy != m.healthy
    ensures r.notified.Some? ==> r.notified.value == r.monitor.healthy
    ensures r.monitor.history == m.history && r.monitor.running == m.running
  {
    if !m.running then Check(m, None)
    else
      var healthy := connected && !reconnecting;
      Check(m.(healthy := healthy), if healthy != m.healthy then Some(healthy) else None)
  }

  /** A second check that sees the same connection notifies nobody. */
  lemma RepeatedCheckIsSilent(m: Monitor, connected: bool, reconnecting: bool)
    ensures PerformHealthCheck(PerformHealthCheck(m, connected, reconnecting).monitor, connected, reconnecting).notified.None?
  {
  }

  /** `recordLatency`: appends, then drops the oldest entry once the window
      holds more than ten. */
  function RecordLatency(m: Monitor, latency: int): (r: Monitor)
    ensures |m.history| <= MaxLatencyHistory ==> |r.history| <= MaxLatencyHistory
    ensures r.history != [] && r.history[|r.history| - 1] == latency
    ensures |r.history| == if |m.history| < MaxLatencyHistory then |m.history| + 1 else |m.history|
    ensures var all := m.history + [latency]; r.history == all[|all| - |r.history|..]
    ensures r.healthy == m.healthy && r.running == m.running
  {
    var all := m.history + [latency];
    if |all| > MaxLatencyHistory then m.(history := all[1..]) else m.(history := all)
  }

  /** The monitor after recording each of `ls` in turn. */
  function RecordAll(m: Monitor, ls: seq<int>): Monitor
    decreases |ls|
  {
    if ls == [] then m else RecordAll(RecordLatency(m, ls[0]), ls[1..])
  }

  /** The last `n` elements of `s` (all of them when `s` is shorter). */
  function LastN(s: seq<int>, n: nat): seq<int> {
    if |s| <= n then s else s[|s| - n..]
  }

  /** From an empty window, the history is always the ten most recent
      latencies recorded (all of them while there are fewer). */
  lemma {:induction false} HistoryKeepsMostRecent(m: Monitor, ls: seq<int>)
    requires |m.history| <= MaxLatencyHistory
    ensures RecordAll(m, ls).history == LastN(m.history + ls, MaxLatencyHistory)
    decreases |ls|
  {
    if ls != [] {
      var m' := RecordLatency(m, ls[0]);
      var all := m.history + [ls[0]];
      calc {
        RecordAll(m, ls).history;
        RecordAll(m', ls[1..]).history;
        { HistoryKeepsMostRecent(m', ls[1..]); }
        LastN(m'.history + ls[1..], MaxLatencyHistory);
        { RecordIsLastN(m, ls[0]); }
        LastN(LastN(all, MaxLatencyHistory) + ls[1..], MaxLatencyHistory);
        { LastNAppend(all, ls[1..]); }
        LastN(all + ls[1..], MaxLatencyHistory);
        { assert m.history + ls == all + ls[1..]; }
        LastN(m.history + ls, MaxLatencyHistory);
      }
    }
  }

  /** One recording keeps the last ten of the window and the new latency. */
  lemma RecordIsLastN(m: Monitor, latency: int)
    requires |m.history| <= MaxLatencyHistory
    ensures RecordLatency(m, latency).history == LastN(m.history + [latency], MaxLatencyHistory)
  {
    var all := m.history + [latency];
    if |all| > MaxLatencyHistory {
      assert |all| - MaxLatencyHistory == 1;
    }
  }

  lemma LastNAppend(a: seq<int>, b: seq<int>)
    ensures LastN(LastN(a, MaxLatencyHistory) + b, MaxLatencyHistory) == LastN(a + b, MaxLatencyHistory)
  {
    var n := MaxLatencyHistory;
    if |a| > n {
      var a' := a[|a| - n..];
      if |a' + b| > n {
        assert (a' + b)[|a' + b| - n..] == (a + b)[|a + b| - n..];
      } else {
        assert a' + b == (a + b)[|a + b| - n..];
      }
    }
  }

  function Sum(s: seq<int>): int {
    if s == [] then 0 else Sum(s[..|s| - 1]) + s[|s| - 1]
  }

  /** `getAverageLatency`: 0 for an empty window, otherwise the arithmetic
      mean of the window. */
  function AverageLatency(m: Monitor): (r: real)
    ensures m.history == [] ==> r == 0.0
    ensures m.history != [] ==> r * |m.history| as real == Sum(m.history) as real
  {
    if |m.history| == 0 then 0.0 else Sum(m.history) as real / |m.history| as real
  }

  /** The mean lies between the smallest and the largest latency held. */
  lemma AverageWithinBounds(m: Monitor, lo: int, hi: int)
    requires m.history != []
    requires forall i | 0 <= i < |m.history| :: lo <= m.history[i] <= hi
    ensures lo as real <= AverageLatency(m) <= hi as real
  {
    SumBounds(m.history, lo, hi);
  }

  lemma {:induction false} SumBounds(s: seq<int>, lo: int, hi: int)
    requires forall i | 0 <= i < |s| :: lo <= s[i] <= hi
    ensures lo * |s| <= Sum(s) <= hi * |s|
  {
    if s != [] {
      SumBounds(s[..|s| - 1], lo, hi);
    }
  }
}
