/** The HTTP fallback client's own decision logic: connection-quality
    grading from request statistics, the status-poll scheduler with its
    coalescing flags, and the diff between a polled status and the last one
    seen. The timer, the page's visibility and the proxy's answers are
    parameters. */
module HttpFallback {
  import opened Wrappers
  import opened Text
  import opened StatusParser

  // ---------------------------------------------------------- statistics

  /** Request statistics; `avgResponse` is the running mean of the response
      times of successful requests. */
  datatype Stats = Stats(total: nat, successful: nat, failed: nat, avgResponse: real)

  const NoStats := Stats(0, 0, 0, 0.0)

  /** `updateConnectionStats` (with `updateAverageResponseTime`) for one
      finished request. */
  function RecordRequest(s: Stats, success: bool, responseTime: real): (r: Stats)
    ensures r.total == s.total + 1
    ensures success ==> r.successful == s.successful + 1 && r.failed == s.failed
    ensures !success ==> r == s.(total := s.total + 1, failed := s.failed + 1)
    ensures success ==> Weighted(r) == Weighted(s) + responseTime
  {
    if !success then s.(total := s.total + 1, failed := s.failed + 1)
    else
      var n := s.successful + 1;
      var avg := if n == 1 then responseTime else (s.avgResponse * (n - 1) as real + responseTime) / n as real;
      Stats(s.total + 1, n, s.failed, avg)
  }

  function RecordAllRequests(s: Stats, reqs: seq<(bool, real)>): Stats
    decreases |reqs|
  {
    if reqs == [] then s else RecordAllRequests(RecordRequest(s, reqs[0].0, reqs[0].1), reqs[1..])
  }

  /** Total response time of the successful requests among `reqs`. */
  function SuccessTime(reqs: seq<(bool, real)>): real
    decreases |reqs|
  {
    if reqs == [] then 0.0 else (if reqs[0].0 then reqs[0].1 else 0.0) + SuccessTime(reqs[1..])
  }

  function SuccessCount(reqs: seq<(bool, real)>): nat
    decreases |reqs|
  {
    if reqs == [] then 0 else (if reqs[0].0 then 1 else 0) + SuccessCount(reqs[1..])
  }

  /** The running mean times the number of successful requests: the total
      response time the statistics account for. */
  function Weighted(s: Stats): real {
    s.avgResponse * s.successful as real
  }

  /** The counters count the requests recorded. */
  lemma {:induction false} CountersCount(s: Stats, reqs: seq<(bool, real)>)
    ensures var r := RecordAllRequests(s, reqs);
            && r.total == s.total + |reqs|
            && r.successful == s.successful + SuccessCount(reqs)
            && r.failed == s.failed + |reqs| - SuccessCount(reqs)
    decreases |reqs|
  {
    if reqs != [] {
      CountersCount(RecordRequest(s, reqs[0].0, reqs[0].1), reqs[1..]);
    }
  }

  /** The running mean stays the arithmetic mean of the successful
      requests' response times: mean times count is their sum. */
  lemma {:induction false} RunningMeanIsMean(s: Stats, reqs: seq<(bool, real)>)
    ensures Weighted(RecordAllRequests(s, reqs)) == Weighted(s) + SuccessTime(reqs)
    decreases |reqs|
  {
    if reqs != [] {
      var s' := RecordRequest(s, reqs[0].0, reqs[0].1);
      calc {
        Weighted(RecordAllRequests(s, reqs));
        Weighted(RecordAllRequests(s', reqs[1..]));
        { RunningMeanIsMean(s', reqs[1..]); }
        Weighted(s') + SuccessTime(reqs[1..]);
        { WeightedStep(s, reqs[0].0, reqs[0].1); }
        Weighted(s) + (if reqs[0].0 then reqs[0].1 else 0.0) + SuccessTime(reqs[1..]);
        Weighted(s) + SuccessTime(reqs);
      }
    }
  }

  /** One request adds its response time to the weighted total when it
      succeeded and nothing otherwise. */
  lemma WeightedStep(s: Stats, success: bool, t: real)
    ensures Weighted(RecordRequest(s, success, t)) == Weighted(s) + (if success then t else 0.0)
  {
    if !success {
      assert RecordRequest(s, success, t).avgResponse == s.avgResponse;
    }
  }

  // ------------------------------------------------------------- quality

  /** The share of successful requests, 0 before any request. */
  function SuccessRate(s: Stats): real {
    if s.total > 0 then s.successful as real / s.total as real else 0.0
  }

  /** `updateConnectionQuality`. The thresholds are compared on whole
      numbers: `successful / total >= 0.95` is `100 * successful >= 95 *
      total`. */
  function QualityOf(s: Stats): (q: Quality)
    ensures q == Excellent <==> SuccessRate(s) >= 0.95 && s.avgResponse < 1000.0
    ensures q == Good <==> !(SuccessRate(s) >= 0.95 && s.avgResponse < 1000.0)
                           && SuccessRate(s) >= 0.85 && s.avgResponse < 3000.0
    ensures q == Poor <==> !(SuccessRate(s) >= 0.95 && s.avgResponse < 1000.0)
                           && !(SuccessRate(s) >= 0.85 && s.avgResponse < 3000.0)
                           && SuccessRate(s) >= 0.7
    ensures q == QualityDisconnected <==> SuccessRate(s) < 0.7 && (SuccessRate(s) < 0.85 || s.avgResponse >= 3000.0)
                                          && (SuccessRate(s) < 0.95 || s.avgResponse >= 1000.0)
  {
    RateThresholds(s);
    var t := s.total;
    var k := s.successful;
    if t > 0 && 100 * k >= 95 * t && s.avgResponse < 1000.0 then Excellent
    else if t > 0 && 100 * k >= 85 * t && s.avgResponse < 3000.0 then Good
    else if t > 0 && 10 * k >= 7 * t then Poor
    else QualityDisconnected
  }

  lemma RateThresholds(s: Stats)
    ensures SuccessRate(s) >= 0.95 <==> s.total > 0 && 100 * s.successful >= 95 * s.total
    ensures SuccessRate(s) >= 0.85 <==> s.total > 0 && 100 * s.successful >= 85 * s.total
    ensures SuccessRate(s) >= 0.7 <==> s.total > 0 && 10 * s.successful >= 7 * s.total
  {
    if s.total > 0 {
      var t := s.total as real;
      var k := s.successful as real;
      QuotientAtLeast(k, t, 0.95);
      QuotientAtLeast(k, t, 0.85);
      QuotientAtLeast(k, t, 0.7);
    }
  }

  lemma QuotientAtLeast(k: real, t: real, c: real)
    requires t > 0.0
    ensures k / t >= c <==> k >= c * t
  {
    var q := k / t;
    assert q * t == k;
    if q >= c {
      assert (q - c) * t >= 0.0;
    } else {
      assert (c - q) * t > 0.0;
    }
  }

  /** Before any request the quality is "disconnected". */
  lemma NoRequestsMeansDisconnected(avg: real)
    ensures QualityOf(Stats(0, 0, 0, avg)) == QualityDisconnected
  {
  }

  // ---------------------------------------------------------- scheduling

  const BasePollInterval: int := 7000
  const HiddenPollInterval: int := 20000
  const ImmediatePollDelay: int := 100

  /** The scheduler's flags: whether polling is on, the pending timer's delay
      (if a timer is set), whether a poll request is in flight, whether
      another poll was asked for meanwhile, and whether the visibility
      listener is attached. */
  datatype Poller = Poller(shouldPoll: bool, timer: Option<int>, inFlight: bool, pending: bool, listening: bool)

  const Stopped := Poller(false, None, false, false, false)

  /** `getCurrentPollInterval`: slower while the page is hidden. */
  function CurrentPollInterval(hidden: bool): (d: int)
    ensures d == if hidden then HiddenPollInterval else BasePollInterval
  {
    if hidden then HiddenPollInterval else BasePollInterval
  }

  /** `scheduleStatusPoll(customDelay)`: nothing while polling is off;
      otherwise the pending timer is replaced by one that fires after the
      custom delay, or after the current poll interval when none is given,
      never after a negative delay. */
  function Schedule(p: Poller, custom: Option<int>, hidden: bool): (r: Poller)
    ensures !p.shouldPoll ==> r == p
    ensures p.shouldPoll && custom.Some? ==> r.timer == Some(if custom.value < 0 then 0 else custom.value)
    ensures p.shouldPoll && custom.None? ==> r.timer == Some(if hidden then 20000 else 7000)
    ensures r.shouldPoll == p.shouldPoll && r.inFlight == p.inFlight && r.pending == p.pending && r.listening == p.listening
  {
    if !p.shouldPoll then p
    else
      var delay := custom.GetOr(CurrentPollInterval(hidden));
      p.(timer := Some(if delay < 0 then 0 else delay))
  }

  /** `startStatusPolling`. */
  function StartPolling(p: Poller, hidden: bool): (r: Poller)
    ensures r.shouldPoll && r.listening
    ensures r.timer == Some(CurrentPollInterval(hidden))
  {
    Schedule(p.(shouldPoll := true, listening := true), None, hidden)
  }

  /** `stopStatusPolling`: the timer is cleared and both flags drop. */
  function StopPolling(p: Poller): (r: Poller)
    ensures !r.shouldPoll && r.timer.None? && !r.inFlight && !r.pending && !r.listening
  {
    Stopped
  }

  /** The visibility handler: a hidden page is polled again in 20 s, a page
      that became visible at once. */
  function VisibilityChanged(p: Poller, hidden: bool): (r: Poller)
    ensures !(p.shouldPoll && p.listening) ==> r == p
    ensures p.shouldPoll && p.listening ==> r.timer == Some(if hidden then HiddenPollInterval else 0)
  {
    if !(p.shouldPoll && p.listening) then p
    else Schedule(p, Some(if hidden then HiddenPollInterval else 0), hidden)
  }

  /** The first half of `pollStatus`, run when the timer fires. */
  datatype Begin = Begin(poller: Poller, requested: bool)

  function TimerFires(p: Poller): (r: Begin)
    ensures r.requested <==> p.timer.Some? && p.shouldPoll && !p.inFlight
    ensures p.timer.Some? && p.shouldPoll && p.inFlight ==> r.poller.pending && r.poller.inFlight
    ensures r.requested ==> r.poller.inFlight && !r.poller.pending
    ensures r.poller.timer.None? && r.poller.shouldPoll == p.shouldPoll
  {
    if p.timer.None? then Begin(p, false)
    else
      var q := p.(timer := None);
      if !q.shouldPoll then Begin(q, false)
      else if q.inFlight then Begin(q.(pending := true), false)
      else Begin(q.(inFlight := true, pending := false), true)
  }

  /** The `finally` block of `pollStatus`, as written: the in-flight flag is
      cleared and only a poll asked for meanwhile is rescheduled (in 100 ms).
      Nothing else re-arms the timer. */
  function PollEndAsWritten(p: Poller, hidden: bool): (r: Poller)
    ensures !r.inFlight && r.pending == p.pending && r.shouldPoll == p.shouldPoll
    ensures p.pending && p.shouldPoll ==> r.timer == Some(ImmediatePollDelay)
    ensures !(p.pending && p.shouldPoll) ==> r.timer == p.timer
  {
    var q := p.(inFlight := false);
    if q.pending && q.shouldPoll then Schedule(q, Some(ImmediatePollDelay), hidden) else q
  }

  /** After the first poll of a freshly started poller completes, no timer
      is set and no poll is in flight, so no further request is ever issued
      until the page's visibility changes. */
  lemma AsWrittenPollingStalls(hidden: bool)
    ensures var started := StartPolling(Stopped, hidden);
            var begun := TimerFires(started);
            var ended := PollEndAsWritten(begun.poller, hidden);
            && begun.requested
            && ended.shouldPoll && ended.timer.None? && !ended.inFlight
            && !TimerFires(ended).requested
  {
  }

  /** The `finally` block as evidently intended: a poll asked for meanwhile
      is rescheduled in 100 ms, and otherwise the next regular poll is
      scheduled at the current interval. */
  function PollEnd(p: Poller, hidden: bool): (r: Poller)
    ensures !r.inFlight && r.pending == p.pending && r.shouldPoll == p.shouldPoll
    ensures p.pending && p.shouldPoll ==> r.timer == Some(ImmediatePollDelay)
    ensures !p.pending && p.shouldPoll ==> r.timer == Some(CurrentPollInterval(hidden))
    ensures !p.shouldPoll ==> r.timer == p.timer
  {
    var q := p.(inFlight := false);
    if q.pending && q.shouldPoll then Schedule(q, Some(ImmediatePollDelay), hidden)
    else if q.shouldPoll then Schedule(q, None, hidden)
    else q
  }

  /** With the intended `finally`, a running poller always has its next
      poll scheduled once a poll completes, so polling never stalls. */
  lemma PollingKeepsGoing(p: Poller, hidden: bool)
    requires p.shouldPoll && p.timer.Some? && !p.inFlight
    ensures TimerFires(p).requested
    ensures PollEnd(TimerFires(p).poller, hidden).timer.Some?
    ensures !PollEnd(TimerFires(p).poller, hidden).inFlight
  {
  }

  /** A timer that fires while a poll is in flight issues no request; when
      the running poll completes, one immediate poll follows. */
  lemma InFlightPollsCoalesce(p: Poller, hidden: bool)
    requires p.shouldPoll && p.inFlight && p.timer.Some?
    ensures !TimerFires(p).requested
    ensures PollEnd(TimerFires(p).poller, hidden).timer == Some(ImmediatePollDelay)
    ensures PollEndAsWritten(TimerFires(p).poller, hidden).timer == Some(ImmediatePollDelay)
  {
  }

  // ------------------------------------------------------------- diffing

  /** The proxy's last message on each subscribed topic, when it has one. */
  datatype Messages = Messages(gate: Option<string>, garage: Option<string>, log: Option<string>)

  /** A poll answer: the proxy's connection flag and its messages, if any. */
  datatype Response = Response(connected: bool, messages: Option<Messages>)

  /** The part of the status record that polling maintains. */
  datatype HttpStatus = HttpStatus(
    connected: bool, gate: GateState, garage: GarageState,
    rawGate: Option<string>, rawGarage: Option<string>)

  const InitialStatus := HttpStatus(false, GateUnknown, GarageUnknown, None, None)

  /** A message that JavaScript treats as true: present and non-empty. */
  predicate Truthy(m: Option<string>) {
    m.Some? && m.value != ""
  }

  /** What a successful poll leaves behind: the status, the last log message
      seen, whether status listeners are notified, and the log entry id
      forwarded to log listeners, if any. */
  datatype Applied = Applied(status: HttpStatus, lastLog: Option<string>, notify: bool, logEntry: Option<string>)

  /** The body of `pollStatus` after a successful request. */
  function ApplyPoll(st: HttpStatus, lastLog: Option<string>, resp: Response): (r: Applied)
    ensures r.status.connected == resp.connected
    ensures r.notify <==> r.status.connected != st.connected || r.status.gate != st.gate || r.status.garage != st.garage
    ensures resp.messages.Some? && Truthy(resp.messages.value.gate) ==>
              r.status.gate == ParseGate(resp.messages.value.gate.value)
    ensures !(resp.messages.Some? && Truthy(resp.messages.value.gate)) ==> r.status.gate == st.gate
    ensures resp.messages.Some? && Truthy(resp.messages.value.garage) ==>
              r.status.garage == ParseGarage(resp.messages.value.garage.value)
    ensures !(resp.messages.Some? && Truthy(resp.messages.value.garage)) ==> r.status.garage == st.garage
    ensures resp.messages.Some? ==>
              r.status.rawGate == resp.messages.value.gate && r.status.rawGarage == resp.messages.value.garage
    ensures resp.messages.None? ==> r.status.rawGate == st.rawGate && r.status.rawGarage == st.rawGarage
    ensures r.logEntry.Some? <==>
              resp.messages.Some? && Truthy(resp.messages.value.log) && lastLog != resp.messages.value.log
    ensures r.logEntry.Some? ==> r.logEntry.value == Trim(resp.messages.value.log.value) && r.lastLog == resp.messages.value.log
    ensures r.logEntry.None? ==> r.lastLog == lastLog
  {
    match resp.messages
    case None => Applied(st.(connected := resp.connected), lastLog, st.connected != resp.connected, None)
    case Some(m) =>
      var gate := if Truthy(m.gate) then ParseGate(m.gate.value) else st.gate;
      var garage := if Truthy(m.garage) then ParseGarage(m.garage.value) else st.garage;
      var isNew := Truthy(m.log) && lastLog != m.log;
      var status := HttpStatus(resp.connected, gate, garage, m.gate, m.garage);
      Applied(status, if isNew then m.log else lastLog,
              st.connected != resp.connected || gate != st.gate || garage != st.garage,
              if isNew then Some(Trim(m.log.value)) else None)
  }

  /** Polling the same answer again notifies nobody and forwards no log. */
  lemma RepeatedPollIsSilent(st: HttpStatus, lastLog: Option<string>, resp: Response)
    ensures var once := ApplyPoll(st, lastLog, resp);
            var twice := ApplyPoll(once.status, once.lastLog, resp);
            !twice.notify && twice.logEntry.None? && twice.status == once.status
  {
  }

  /** A failed poll marks the status disconnected and notifies listeners only
      when it was connected before. */
  function ApplyPollFailure(st: HttpStatus, lastLog: Option<string>): (r: Applied)
    ensures !r.status.connected && r.logEntry.None? && r.lastLog == lastLog
    ensures r.notify <==> st.connected
    ensures r.status.gate == st.gate && r.status.garage == st.garage
  {
    Applied(st.(connected := false), lastLog, st.connected, None)
  }
}
