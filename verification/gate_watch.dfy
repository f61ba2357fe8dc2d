/** The open-confirmation check that follows a gate command on a closed
    gate: for a few seconds the status is probed every half second, and the
    check ends as soon as the gate reads as opening. On the dashboard a check
    that runs out publishes the gate command again and arms a fresh
    ten-second check, which can run out in turn; on the status tracker it
    raises a retry flag instead. Each `Probe` is one firing of the 500 ms
    interval and each `CheckTick` one firing of the dashboard's one-second
    interval. */
module GateWatch {
  import opened Wrappers
  import opened StatusParser
  import opened GateTests
  import opened GateSignals
  import opened GateAutomaton

  /** `openCheckEnabled`, `openCheckCountdown` (s), and the probing effect's
      count of probes so far and its budget `maxChecks`. */
  datatype OpenCheck = OpenCheck(enabled: bool, countdown: int, probes: nat, maxProbes: int)

  const Disarmed := OpenCheck(false, 0, 0, 0)

  /** The length of every check the dashboard arms. */
  const OpenCheckSeconds := 10

  /** A check armed for `seconds`, with a budget of `ceil(seconds / 0.5)`
      probes, which is twice the whole number of seconds. */
  function Arm(seconds: int): (k: OpenCheck)
    ensures k.enabled && k.countdown == seconds && k.probes == 0
    ensures k.maxProbes * 5 == seconds * 10
  {
    OpenCheck(true, seconds, 0, 2 * seconds)
  }

  /** The probing effect runs while the check is enabled with time left. */
  predicate Watching(k: OpenCheck) {
    k.enabled && k.countdown > 0
  }

  datatype ProbeOutcome = NoProbe | StillWaiting | SawOpening | GaveUp

  predicate Ends(o: ProbeOutcome) {
    o == SawOpening || o == GaveUp
  }

  /** One half-second probe of the status `g`. */
  function Probe(k: OpenCheck, g: GateState): (OpenCheck, ProbeOutcome) {
    if !Watching(k) then (k, NoProbe)
    else if g == GateOpening then (Disarmed, SawOpening)
    else if k.probes + 1 >= k.maxProbes then (Disarmed, GaveUp)
    else (k.(probes := k.probes + 1), StillWaiting)
  }

  /** The probe's opening test reads exactly the opening state on the
      parser's labels. */
  lemma ProbeReading(g: GateState)
    ensures OpeningTest(GateLabel(g)) <==> g == GateOpening
  {
    OpeningTestOnLabels(g);
  }

  /** The dashboard's one-second tick of the check. Every change of the
      countdown restarts the probing effect, so the probe count starts over
      with a budget for the seconds left. */
  function CheckTick(k: OpenCheck): OpenCheck {
    if !Watching(k) then k
    else if k.countdown <= 1 then Disarmed
    else Arm(k.countdown - 1)
  }

  /** One second of the dashboard's check on a status `g`: two probes, then
      the tick, unless a probe ends the check. Both intervals start together
      and the probe at the full second is due at the same moment as the
      tick; this fixes the order in which that probe runs first. Were the
      tick's restart of the effect to come first, that probe would be
      cancelled: every second would then see one probe, and the last second
      would end the check without giving up. */
  function DashboardSecond(k: OpenCheck, g: GateState): (OpenCheck, ProbeOutcome) {
    var (k1, o1) := Probe(k, g);
    if Ends(o1) then (k1, o1)
    else
      var (k2, o2) := Probe(k1, g);
      if Ends(o2) then (k2, o2) else (CheckTick(k2), o2)
  }

  /** The dashboard's check over successive seconds, with the status seen in
      each, up to the second that ends it. */
  function DashboardWatch(k: OpenCheck, seconds: seq<GateState>): (OpenCheck, ProbeOutcome)
    decreases |seconds|
  {
    if seconds == [] then (k, StillWaiting)
    else
      var (k1, o) := DashboardSecond(k, seconds[0]);
      if Ends(o) then (k1, o) else DashboardWatch(k1, seconds[1..])
  }

  /** The tracker's check, probe by probe; the tracker has no tick, so the
      budget fixed when it was armed is the one that runs out. */
  function TrackerWatch(k: OpenCheck, probes: seq<GateState>): (OpenCheck, ProbeOutcome)
    decreases |probes|
  {
    if probes == [] then (k, StillWaiting)
    else
      var (k1, o) := Probe(k, probes[0]);
      if o != StillWaiting then (k1, o) else TrackerWatch(k1, probes[1..])
  }

  /** None of the first `n` statuses reads as opening. */
  predicate NoOpeningWithin(ss: seq<GateState>, n: int) {
    forall i | 0 <= i < |ss| && i < n :: ss[i] != GateOpening
  }

  lemma NoOpeningShift(ss: seq<GateState>, n: int)
    requires ss != []
    ensures NoOpeningWithin(ss, n) <==> (n <= 0 || ss[0] != GateOpening) && NoOpeningWithin(ss[1..], n - 1)
  {
    if n > 0 && ss[0] != GateOpening && NoOpeningWithin(ss[1..], n - 1) {
      forall i | 0 < i < |ss| && i < n
        ensures ss[i] != GateOpening
      {
        assert ss[1..][i - 1] == ss[i];
      }
    }
    if NoOpeningWithin(ss, n) {
      forall i | 0 <= i < |ss[1..]| && i < n - 1
        ensures ss[1..][i] != GateOpening
      {
        assert ss[1..][i] == ss[i + 1];
      }
    }
  }

  /** A dashboard check armed for `c` seconds ends with the gate seen
      opening if it reads opening within the `c` seconds; otherwise it gives
      up exactly at the end of the `c`-th second, and until then it is still
      watching, with the seconds left on its countdown. */
  lemma {:induction false} DashboardWatchOutcome(c: int, ss: seq<GateState>)
    requires c >= 1
    ensures !NoOpeningWithin(ss, c) ==> DashboardWatch(Arm(c), ss) == (Disarmed, SawOpening)
    ensures NoOpeningWithin(ss, c) && |ss| >= c ==> DashboardWatch(Arm(c), ss) == (Disarmed, GaveUp)
    ensures NoOpeningWithin(ss, c) && |ss| < c ==> DashboardWatch(Arm(c), ss) == (Arm(c - |ss|), StillWaiting)
    decreases c
  {
    if ss != [] {
      NoOpeningShift(ss, c);
      var g := ss[0];
      if g == GateOpening {
        assert DashboardSecond(Arm(c), g) == (Disarmed, SawOpening);
      } else if c == 1 {
        assert Probe(Arm(1), g) == (OpenCheck(true, 1, 1, 2), StillWaiting);
        assert DashboardSecond(Arm(1), g) == (Disarmed, GaveUp);
      } else {
        assert Probe(Arm(c), g) == (OpenCheck(true, c, 1, 2 * c), StillWaiting);
        assert Probe(OpenCheck(true, c, 1, 2 * c), g) == (OpenCheck(true, c, 2, 2 * c), StillWaiting);
        assert DashboardSecond(Arm(c), g) == (Arm(c - 1), StillWaiting);
        DashboardWatchOutcome(c - 1, ss[1..]);
      }
    }
  }

  /** A tracker check with budget left ends with the gate seen opening if it
      reads opening within the remaining probes; otherwise it gives up at the
      last probe of its budget and is still watching before that. */
  lemma {:induction false} TrackerWatchOutcome(k: OpenCheck, ps: seq<GateState>)
    requires Watching(k) && k.probes < k.maxProbes
    ensures var left := k.maxProbes - k.probes;
      !NoOpeningWithin(ps, left) ==> TrackerWatch(k, ps) == (Disarmed, SawOpening)
    ensures var left := k.maxProbes - k.probes;
      NoOpeningWithin(ps, left) && |ps| >= left ==> TrackerWatch(k, ps) == (Disarmed, GaveUp)
    ensures var left := k.maxProbes - k.probes;
      NoOpeningWithin(ps, left) && |ps| < left ==> TrackerWatch(k, ps) == (k.(probes := k.probes + |ps|), StillWaiting)
    decreases k.maxProbes - k.probes
  {
    if ps != [] {
      var left := k.maxProbes - k.probes;
      NoOpeningShift(ps, left);
      if ps[0] != GateOpening && k.probes + 1 < k.maxProbes {
        var k1 := k.(probes := k.probes + 1);
        TrackerWatchOutcome(k1, ps[1..]);
        assert k1.(probes := k1.probes + |ps[1..]|) == k.(probes := k.probes + |ps|);
      }
    }
  }

  /** The tracker's retry flag after a check ends: it is raised by giving up,
      and no command is published. */
  function TrackerRetry(retry: bool, o: ProbeOutcome): bool {
    retry || o == GaveUp
  }

  /** A tracker check armed for `c` seconds gives up after `2c` probes
      without the gate reading opening, which raises the retry flag. */
  lemma TrackerGivesUp(c: int, ps: seq<GateState>, retry: bool)
    requires c >= 1 && |ps| >= 2 * c && NoOpeningWithin(ps, 2 * c)
    ensures TrackerWatch(Arm(c), ps) == (Disarmed, GaveUp)
    ensures TrackerRetry(retry, TrackerWatch(Arm(c), ps).1)
  {
    TrackerWatchOutcome(Arm(c), ps);
  }

  // ------------------------------------------------------------ dashboard

  datatype DashboardState = DashboardState(timer: Timer, check: OpenCheck)

  /** The dashboard's status effect: a closing gate with a check enabled
      only cancels the check (the effect returns early); any other status
      goes to the timer. */
  function DashboardOnStatus(d: DashboardState, g: GateState, limit: int, now: int): DashboardState {
    if g == GateClosing && d.check.enabled then d.(check := Disarmed)
    else d.(timer := OnStatus(RulesOf(Dashboard), d.timer, g, limit, now))
  }

  /** A closing gate first cancels an enabled check and leaves the timer as
      it was; the next closing status clears the timer. */
  lemma ClosingCancelsCheckFirst(d: DashboardState, limit: int, now: int, later: int)
    requires d.check.enabled && Valid(RulesOf(Dashboard), d.timer)
    ensures var d1 := DashboardOnStatus(d, GateClosing, limit, now);
      d1.check == Disarmed && d1.timer == d.timer
      && DashboardOnStatus(d1, GateClosing, limit, later) == DashboardState(Idle, Disarmed)
  {
  }

  /** Without an enabled check the dashboard's status effect is the timer's. */
  lemma DashboardStatusIsTimerStatus(d: DashboardState, g: GateState, limit: int, now: int)
    requires !d.check.enabled
    ensures DashboardOnStatus(d, g, limit, now) == DashboardState(OnStatus(RulesOf(Dashboard), d.timer, g, limit, now), d.check)
  {
  }

  /** What a gate command does: whether it publishes and the check it arms
      afterwards, if any. */
  datatype CommandReply = CommandReply(publishes: bool, arms: Option<OpenCheck>)

  /** The dashboard's gate button: with a user it publishes the gate command,
      and arms a ten-second check once the command has gone out, but only if
      the status read closed when the button was pressed. */
  function DashboardGateCommand(hasUser: bool, status: string, publishOk: bool): CommandReply {
    if !hasUser then CommandReply(false, None)
    else CommandReply(true, if publishOk && CommandSeesClosed(status) then Some(Arm(OpenCheckSeconds)) else None)
  }

  /** On the parser's labels, the button arms a check exactly when it
      publishes successfully while the gate is closed. */
  lemma DashboardCommandArmsOnClosed(hasUser: bool, g: GateState, publishOk: bool)
    ensures DashboardGateCommand(hasUser, GateLabel(g), publishOk).publishes <==> hasUser
    ensures DashboardGateCommand(hasUser, GateLabel(g), publishOk).arms.Some?
        <==> hasUser && publishOk && g == GateClosed
  {
    CommandSeesClosedOnLabels(g);
  }

  /** What the dashboard does when a check ends: giving up publishes the gate
      command again (when it knows who the user is) and, once that has gone
      out, arms a new ten-second check; seeing the gate open does nothing
      more. */
  function DashboardFollowUp(o: ProbeOutcome, hasIdentity: bool, publishOk: bool): CommandReply {
    if o != GaveUp || !hasIdentity then CommandReply(false, None)
    else CommandReply(true, if publishOk then Some(Arm(OpenCheckSeconds)) else None)
  }

  /** Ten seconds without the gate reading opening after a command end the
      check; the dashboard then publishes the command again (given an
      identity) and, once that has gone out, watches for ten more seconds. A
      gate seen opening in that time publishes nothing. */
  lemma DashboardRepublishesOnTimeout(ss: seq<GateState>, hasIdentity: bool, publishOk: bool)
    ensures var (k, o) := DashboardWatch(Arm(OpenCheckSeconds), ss);
      NoOpeningWithin(ss, 10) && |ss| >= 10 ==>
        k == Disarmed && DashboardFollowUp(o, hasIdentity, publishOk)
          == CommandReply(hasIdentity, if hasIdentity && publishOk then Some(Arm(10)) else None)
    ensures var (k, o) := DashboardWatch(Arm(OpenCheckSeconds), ss);
      !NoOpeningWithin(ss, 10) ==> k == Disarmed && !DashboardFollowUp(o, hasIdentity, publishOk).publishes
  {
    DashboardWatchOutcome(OpenCheckSeconds, ss);
  }

  /** Successive checks from `k`, as written: `rounds[i]` holds the
      statuses seen, one per second, during the `i`-th check. Every check
      that gives up may republish and arm the next. The result counts the
      republished commands. */
  function Republishes(k: OpenCheck, rounds: seq<seq<GateState>>, hasIdentity: bool, publishOk: bool): (n: nat)
    ensures n <= |rounds|
    decreases |rounds|
  {
    if rounds == [] then 0
    else
      var reply := DashboardFollowUp(DashboardWatch(k, rounds[0]).1, hasIdentity, publishOk);
      (if reply.publishes then 1 else 0)
      + (match reply.arms
         case Some(next) => Republishes(next, rounds[1..], hasIdentity, publishOk)
         case None => 0)
  }

  /** A round of ten seconds without the gate reading opening. */
  predicate Unanswered(ss: seq<GateState>) {
    |ss| >= OpenCheckSeconds && NoOpeningWithin(ss, OpenCheckSeconds)
  }

  /** As written, the republished command's check republishes in its turn:
      while the gate never reads opening, `n` rounds republish the command
      `n` times, with no bound. Two such rounds already send a third gate
      command, where the messages announce only a second attempt. */
  lemma {:induction false} DashboardRepublishesEveryRound(rounds: seq<seq<GateState>>)
    requires forall i | 0 <= i < |rounds| :: Unanswered(rounds[i])
    ensures Republishes(Arm(OpenCheckSeconds), rounds, true, true) == |rounds|
    decreases |rounds|
  {
    if rounds != [] {
      DashboardWatchOutcome(OpenCheckSeconds, rounds[0]);
      DashboardRepublishesEveryRound(rounds[1..]);
    }
  }

  /** The follow-up the messages describe: only the first check's give-up
      republishes, and the check it arms is the last. */
  function DashboardFollowUpOnce(o: ProbeOutcome, hasIdentity: bool, publishOk: bool, retried: bool): CommandReply {
    if retried then CommandReply(false, None) else DashboardFollowUp(o, hasIdentity, publishOk)
  }

  /** Successive checks with that follow-up; `retried` says whether the
      running check was armed by a republish. */
  function RepublishesOnce(k: OpenCheck, retried: bool, rounds: seq<seq<GateState>>, hasIdentity: bool, publishOk: bool): nat
    decreases |rounds|
  {
    if rounds == [] then 0
    else
      var reply := DashboardFollowUpOnce(DashboardWatch(k, rounds[0]).1, hasIdentity, publishOk, retried);
      (if reply.publishes then 1 else 0)
      + (match reply.arms
         case Some(next) => RepublishesOnce(next, true, rounds[1..], hasIdentity, publishOk)
         case None => 0)
  }

  /** Corrected: however many checks run out, at most one command is
      republished, and exactly one whenever the first check runs out
      unanswered and the dashboard knows the user. */
  lemma CorrectedDashboardRetriesOnce(rounds: seq<seq<GateState>>, hasIdentity: bool, publishOk: bool)
    ensures RepublishesOnce(Arm(OpenCheckSeconds), false, rounds, hasIdentity, publishOk) <= 1
    ensures rounds != [] && Unanswered(rounds[0]) && hasIdentity ==>
              RepublishesOnce(Arm(OpenCheckSeconds), false, rounds, hasIdentity, publishOk) == 1
  {
    if rounds != [] {
      DashboardWatchOutcome(OpenCheckSeconds, rounds[0]);
      var reply := DashboardFollowUpOnce(DashboardWatch(Arm(OpenCheckSeconds), rounds[0]).1, hasIdentity, publishOk, false);
      if reply.arms.Some? {
        var rest := rounds[1..];
        assert RepublishesOnce(reply.arms.value, true, rest, hasIdentity, publishOk) == 0;
      }
    }
  }
}
