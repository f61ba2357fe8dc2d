/** The client-side gate timer. When the gate reads open, a countdown starts
    from the auto-close limit; when it runs out, the screen switches to
    showing how long the gate has been open; a closed (and, on some screens,
    a closing) gate clears everything. The dashboard, the gate-logic hook,
    the gate control card and the status tracker each carry a copy of this
    logic with small differences, captured here by `Rules`. Timers are
    explicit steps: `SecondPassed` is one firing of the one-second
    intervals, and `now` is the wall clock in milliseconds. */
module GateAutomaton {
  import opened Wrappers
  import opened StatusParser
  import opened GateTests
  import opened GateSignals

  // -------------------------------------------------------------- screens

  datatype Screen = Dashboard | GateLogicHook | GateCard | StatusTracker

  /** How a screen's copy of the timer differs from the others. */
  datatype Rules = Rules(
    stopsOnClosing: bool,     // its stop test also accepts the closing state
    guarded: bool,            // it starts only without an open time or a duration display,
                              // and a stop also ends the duration display
    ownTick: bool,            // it runs the one-second countdown tick itself
    tickWhilePositive: bool,  // that tick runs only while the countdown is positive
    keepsAfterLimit: bool)    // it counts seconds past the limit and restores a saved opening time

  function RulesOf(s: Screen): Rules {
    match s
    case Dashboard => Rules(true, true, true, false, true)
    case GateLogicHook => Rules(true, false, false, false, false)
    case GateCard => Rules(false, false, true, true, false)
    case StatusTracker => Rules(false, false, true, true, false)
  }

  /** A screen that counts past the limit also guards its start, so the count
      is never carried into a new countdown. */
  predicate Consistent(r: Rules) {
    r.keepsAfterLimit ==> r.guarded
  }

  /** The gate card with the dashboard's guards: the corrected card. */
  const CorrectedCardRules := Rules(false, true, true, true, false)

  // --------------------------------------------------------------- limits

  const DefaultLimit := 250

  /** JavaScript's `stored || fallback` on a numeric setting: a missing value
      or 0 gives the fallback. */
  function OrDefault(stored: Option<int>, fallback: int): int {
    if stored.Some? && stored.value != 0 then stored.value else fallback
  }

  /** The limit each screen counts down from. The dashboard keeps the limit it
      holds (0 until settings arrive) unless a non-zero setting comes in; the
      hook and the card fall back to 250; the tracker always uses 250. */
  function LimitOf(s: Screen, stored: Option<int>, held: int): int {
    match s
    case Dashboard => if stored.Some? && stored.value != 0 then stored.value else held
    case GateLogicHook => OrDefault(stored, DefaultLimit)
    case GateCard => OrDefault(stored, DefaultLimit)
    case StatusTracker => DefaultLimit
  }

  /** Only the dashboard can count down from 0: every other screen's limit is
      the non-zero setting or 250, and the tracker ignores the setting. */
  lemma LimitSources(s: Screen, stored: Option<int>, held: int)
    ensures s != Dashboard ==> LimitOf(s, stored, held) != 0
    ensures s == StatusTracker ==> LimitOf(s, stored, held) == 250
    ensures s != StatusTracker && stored.Some? && stored.value != 0 ==> LimitOf(s, stored, held) == stored.value
    ensures s == Dashboard ==> (LimitOf(s, stored, held) == 0 <==> (stored.None? || stored.value == 0) && held == 0)
  {
  }

  // ------------------------------------------------------------- readings

  /** Whether the gate reads as open; every screen uses the same test. */
  predicate ReadsOpen(g: GateState) {
    g == GateOpen
  }

  /** Whether the gate reads as stopping the timer under `r`. */
  predicate ReadsStop(r: Rules, g: GateState) {
    g == GateClosed || (r.stopsOnClosing && g == GateClosing)
  }

  /** Each screen's stop test, on the status text as it writes it. */
  predicate StopTest(s: Screen, status: string) {
    match s
    case Dashboard => ClosedTest(status) || DashboardClosingTest(status)
    case GateLogicHook => ClosedTest(status) || HookClosingTest(status)
    case GateCard => CardStopTest(status)
    case StatusTracker => CardStopTest(status)
  }

  /** On the parser's labels, the open test reads exactly the open state. */
  lemma OpenReading(g: GateState)
    ensures OpenTest(GateLabel(g)) <==> ReadsOpen(g)
  {
    OpenTestOnLabels(g);
  }

  /** On the parser's labels, the dashboard and the hook stop on the closed
      and the closing states, the card and the tracker on the closed state
      only, because "Zavírá se..." does not contain "zavírání". */
  lemma StopReading(s: Screen, g: GateState)
    ensures StopTest(s, GateLabel(g)) <==> ReadsStop(RulesOf(s), g)
    ensures StopTest(s, GateLabel(g)) <==> g == GateClosed || (g == GateClosing && (s == Dashboard || s == GateLogicHook))
  {
    ClosedTestOnLabels(g);
    match s
    case Dashboard => DashboardClosingTestOnLabels(g);
    case GateLogicHook => HookClosingTestOnLabels(g);
    case GateCard => CardStopTestOnLabels(g);
    case StatusTracker => CardStopTestOnLabels(g);
  }

  // ---------------------------------------------------------------- timer

  /** The timer's fields: `autoCloseEnabled`, `autoCloseCountdown` (s),
      `gateOpenTime` (ms, 0 for none), `showOpenDuration` and
      `timeAfterLimit` (s, the dashboard's only). */
  datatype Timer = Timer(enabled: bool, countdown: int, openTime: int, showOpen: bool, afterLimit: int)

  const Idle := Timer(false, 0, 0, false, 0)

  /** What every reachable timer satisfies: at most one phase at a time, an
      opening time exactly while a phase runs, no countdown left in the
      duration phase, and seconds past the limit only while they are shown on
      a screen that counts them. */
  predicate Valid(r: Rules, t: Timer) {
    && !(t.enabled && t.showOpen)
    && (t.showOpen ==> t.countdown == 0)
    && (t.enabled || t.showOpen ==> t.openTime > 0)
    && (!t.enabled && !t.showOpen ==> t.countdown == 0 && t.openTime == 0)
    && t.afterLimit >= 0
    && (!t.showOpen || !r.keepsAfterLimit ==> t.afterLimit == 0)
  }

  predicate Starts(r: Rules, t: Timer, g: GateState) {
    ReadsOpen(g) && !t.enabled && (r.guarded ==> !t.showOpen && t.openTime == 0)
  }

  predicate Stops(r: Rules, t: Timer, g: GateState) {
    ReadsStop(r, g) && (t.enabled || (r.guarded && t.showOpen))
  }

  /** The status effect: an open gate starts the countdown from `limit` at
      `now`; a stopping status clears the timer; otherwise nothing changes. */
  function OnStatus(r: Rules, t: Timer, g: GateState, limit: int, now: int): Timer {
    if Starts(r, t, g) then Timer(true, limit, now, false, t.afterLimit)
    else if Stops(r, t, g) then Idle
    else t
  }

  /** One second: the countdown tick where the screen runs one (at the last
      second it switches to the duration phase), else the dashboard's count
      of seconds past the limit. */
  function Tick(r: Rules, t: Timer): Timer {
    if r.ownTick && t.enabled && (!r.tickWhilePositive || t.countdown > 0) then
      if t.countdown <= 1 then t.(enabled := false, countdown := 0, showOpen := true, afterLimit := 0)
      else t.(countdown := t.countdown - 1)
    else if r.keepsAfterLimit && t.showOpen then t.(afterLimit := t.afterLimit + 1)
    else t
  }

  /** Whole seconds from `from` to `to` (ms), rounded down. */
  function ElapsedSeconds(from: int, to: int): (e: int)
    ensures e * 1000 <= to - from < e * 1000 + 1000
  {
    (to - from) / 1000
  }

  /** The dashboard's reload: a saved opening time re-enters the countdown
      with the seconds left, or the duration phase with the seconds past the
      limit. */
  function Restore(r: Rules, t: Timer, saved: int, now: int, limit: int): Timer {
    if !r.keepsAfterLimit || saved <= 0 then t
    else
      var elapsed := ElapsedSeconds(saved, now);
      if elapsed < limit then Timer(true, limit - elapsed, saved, false, 0)
      else Timer(false, 0, saved, true, elapsed - limit)
  }

  datatype Event = StatusSeen(g: GateState, now: int) | SecondPassed | Reloaded(saved: int, now: int)

  function Step(r: Rules, limit: int, t: Timer, e: Event): Timer {
    match e
    case StatusSeen(g, now) => OnStatus(r, t, g, limit, now)
    case SecondPassed => Tick(r, t)
    case Reloaded(saved, now) => Restore(r, t, saved, now, limit)
  }

  function Run(r: Rules, limit: int, t: Timer, es: seq<Event>): Timer
    decreases |es|
  {
    if es == [] then t else Run(r, limit, Step(r, limit, t, es[0]), es[1..])
  }

  function Ticks(r: Rules, t: Timer, n: nat): Timer
    decreases n
  {
    if n == 0 then t else Ticks(r, Tick(r, t), n - 1)
  }

  /** The clock is positive whenever a status is seen. */
  predicate ClockRunning(es: seq<Event>) {
    forall i | 0 <= i < |es| :: es[i].StatusSeen? ==> es[i].now > 0
  }

  // ----------------------------------------------------- the status effect

  /** The countdown starts only on an open gate, from the limit, at the
      current time, and with the duration display off. */
  lemma StartsOnlyWhenOpen(r: Rules, t: Timer, g: GateState, limit: int, now: int)
    requires Valid(r, t)
    ensures var u := OnStatus(r, t, g, limit, now);
      u.enabled && !t.enabled ==> g == GateOpen && u.countdown == limit && u.openTime == now && !u.showOpen
    ensures var u := OnStatus(r, t, g, limit, now);
      g == GateOpen && !t.enabled && !t.showOpen ==> u.enabled && u.countdown == limit && u.openTime == now
  {
  }

  /** A closed gate clears the whole timer on a guarded screen, and on any
      screen while no duration is displayed. */
  lemma ClosedClears(r: Rules, t: Timer, limit: int, now: int)
    requires Valid(r, t)
    requires r.guarded || !t.showOpen
    ensures OnStatus(r, t, GateClosed, limit, now) == Idle
  {
  }

  /** A closing gate clears the dashboard's and the hook's timer, and leaves
      the card's and the tracker's running. */
  lemma ClosingClears(s: Screen, t: Timer, limit: int, now: int)
    requires Valid(RulesOf(s), t)
    ensures s == Dashboard ==> OnStatus(RulesOf(s), t, GateClosing, limit, now) == Idle
    ensures s == GateLogicHook && !t.showOpen ==> OnStatus(RulesOf(s), t, GateClosing, limit, now) == Idle
    ensures s == GateCard || s == StatusTracker ==> OnStatus(RulesOf(s), t, GateClosing, limit, now) == t
  {
  }

  /** A running countdown is not restarted by the gate reading open again. */
  lemma OpenKeepsCountdown(r: Rules, t: Timer, limit: int, now: int)
    requires t.enabled
    ensures OnStatus(r, t, GateOpen, limit, now) == t
  {
  }

  // ------------------------------------------------------------ invariant

  lemma StepPreservesValid(r: Rules, limit: int, t: Timer, e: Event)
    requires Consistent(r) && Valid(r, t)
    requires e.StatusSeen? ==> e.now > 0
    ensures Valid(r, Step(r, limit, t, e))
  {
    match e
    case StatusSeen(g, now) =>
    case SecondPassed =>
    case Reloaded(saved, now) =>
      if r.keepsAfterLimit && saved > 0 {
        var elapsed := ElapsedSeconds(saved, now);
        assert elapsed >= limit ==> elapsed - limit >= 0;
      }
  }

  /** Every run from a valid timer ends in a valid timer. */
  lemma {:induction false} RunPreservesValid(r: Rules, limit: int, t: Timer, es: seq<Event>)
    requires Consistent(r) && Valid(r, t) && ClockRunning(es)
    ensures Valid(r, Run(r, limit, t, es))
    decreases |es|
  {
    if es != [] {
      StepPreservesValid(r, limit, t, es[0]);
      assert ClockRunning(es[1..]) by {
        forall i | 0 <= i < |es[1..]|
          ensures es[1..][i].StatusSeen? ==> es[1..][i].now > 0
        {
          assert es[1..][i] == es[i + 1];
        }
      }
      RunPreservesValid(r, limit, Step(r, limit, t, es[0]), es[1..]);
    }
  }

  /** Every screen's rules keep the invariant, and it holds at the start. */
  lemma ScreensConsistent(s: Screen)
    ensures Consistent(RulesOf(s)) && Consistent(CorrectedCardRules)
    ensures Valid(RulesOf(s), Idle)
  {
  }

  // ---------------------------------------------------------------- ticks

  lemma {:induction false} TicksAdd(r: Rules, t: Timer, a: nat, b: nat)
    ensures Ticks(r, t, a + b) == Ticks(r, Ticks(r, t, a), b)
    decreases a
  {
    if a > 0 {
      TicksAdd(r, Tick(r, t), a - 1, b);
    }
  }

  /** A running countdown of `c` seconds shows `c - n` after `n < c` seconds
      and, after exactly `c` seconds, has switched to the duration phase with
      nothing past the limit yet. */
  lemma {:induction false} CountdownRunsOut(r: Rules, t: Timer, n: nat)
    requires r.ownTick && t.enabled && !t.showOpen && 1 <= t.countdown && n <= t.countdown
    ensures n < t.countdown ==> Ticks(r, t, n) == t.(countdown := t.countdown - n)
    ensures n == t.countdown ==> Ticks(r, t, n) == t.(enabled := false, countdown := 0, showOpen := true, afterLimit := 0)
    decreases n
  {
    if n > 0 {
      var u := Tick(r, t);
      if t.countdown == 1 {
        assert Ticks(r, t, n) == Ticks(r, u, 0);
      } else {
        assert u == t.(countdown := t.countdown - 1);
        CountdownRunsOut(r, u, n - 1);
      }
    }
  }

  /** In the duration phase, the dashboard counts one second past the limit
      per second. */
  lemma {:induction false} DurationCounts(r: Rules, t: Timer, n: nat)
    requires r.keepsAfterLimit && !t.enabled && t.showOpen
    ensures Ticks(r, t, n) == t.(afterLimit := t.afterLimit + n)
    decreases n
  {
    if n > 0 {
      assert Tick(r, t) == t.(afterLimit := t.afterLimit + 1);
      DurationCounts(r, Tick(r, t), n - 1);
    }
  }

  // --------------------------------------------------------------- reload

  /** A reload splits the elapsed time between the phases: the seconds left
      and the seconds elapsed add up to the limit (at least one second is
      left), or the limit and the seconds past it add up to the elapsed
      time. */
  lemma RestoreSplitsElapsed(t: Timer, saved: int, now: int, limit: int)
    requires saved > 0
    ensures var u := Restore(RulesOf(Dashboard), t, saved, now, limit);
      var elapsed := ElapsedSeconds(saved, now);
      && u.openTime == saved
      && (elapsed < limit ==> u.enabled && !u.showOpen && u.countdown >= 1 && u.countdown + elapsed == limit)
      && (elapsed >= limit ==> !u.enabled && u.showOpen && u.afterLimit >= 0 && limit + u.afterLimit == elapsed)
  {
  }

  /** Without a saved opening time a reload changes nothing. */
  lemma RestoreNeedsSavedTime(r: Rules, t: Timer, saved: int, now: int, limit: int)
    requires saved <= 0 || !r.keepsAfterLimit
    ensures Restore(r, t, saved, now, limit) == t
  {
  }

  /** A reload `n` seconds (and less than one more) after the gate opened
      shows what an uninterrupted dashboard would show: the countdown started
      at the opening time followed by `n` one-second steps. */
  lemma RestoreMatchesLiveRun(t: Timer, saved: int, now: int, limit: int, n: nat)
    requires saved > 0 && limit >= 1
    requires saved + 1000 * n <= now < saved + 1000 * n + 1000
    ensures Restore(RulesOf(Dashboard), t, saved, now, limit)
         == Ticks(RulesOf(Dashboard), OnStatus(RulesOf(Dashboard), Idle, GateOpen, limit, saved), n)
  {
    var d := RulesOf(Dashboard);
    var start := Timer(true, limit, saved, false, 0);
    assert OnStatus(d, Idle, GateOpen, limit, saved) == start;
    var e := ElapsedSeconds(saved, now);
    assert e == n by {
      assert e * 1000 <= 1000 * n + 999 && 1000 * n <= e * 1000 + 999;
    }
    if n < limit {
      CountdownRunsOut(d, start, n);
    } else {
      CountdownRunsOut(d, start, limit);
      TicksAdd(d, start, limit, n - limit);
      DurationCounts(d, Ticks(d, start, limit), n - limit);
    }
  }

  // ---------------------------------------------- the card's phase handling

  /** As written, the card and the tracker start a new countdown as soon as
      the old one runs out while the gate is still open: the duration phase
      lasts no longer than the next status effect. */
  lemma CardRestartsAfterExpiry(s: Screen, t: Timer, limit: int, later: int)
    requires s == GateCard || s == StatusTracker
    requires t.enabled && t.countdown == 1 && !t.showOpen
    ensures Tick(RulesOf(s), t).showOpen
    ensures OnStatus(RulesOf(s), Tick(RulesOf(s), t), GateOpen, limit, later) == Timer(true, limit, later, false, 0)
  {
  }

  /** As written, the card and the tracker keep showing the open duration
      after the gate reads closed, when the countdown ran out while the gate
      was closing: the stop is guarded by the countdown alone. */
  lemma CardShowsDurationWhenClosed(s: Screen, limit: int, openedAt: int, later: int)
    requires s == GateCard || s == StatusTracker
    requires limit >= 1 && openedAt > 0
    ensures var r := RulesOf(s);
      var u := Run(r, limit, Idle, [StatusSeen(GateOpen, openedAt), StatusSeen(GateClosing, openedAt)]);
      Ticks(r, u, limit).showOpen
      && OnStatus(r, Ticks(r, u, limit), GateClosed, limit, later) == Ticks(r, u, limit)
  {
    var r := RulesOf(s);
    var es := [StatusSeen(GateOpen, openedAt), StatusSeen(GateClosing, openedAt)];
    var u := Timer(true, limit, openedAt, false, 0);
    assert Run(r, limit, Idle, es) == Run(r, limit, u, es[1..]);
    assert Run(r, limit, u, es[1..]) == Run(r, limit, u, []);
    CountdownRunsOut(r, u, limit);
  }

  /** On a guarded screen (the dashboard and the corrected card) the
      duration phase survives an open status and ends on a closed one. */
  lemma GuardedDurationPersists(r: Rules, t: Timer, limit: int, now: int)
    requires r.guarded && Valid(r, t) && t.showOpen
    ensures OnStatus(r, t, GateOpen, limit, now) == t
    ensures OnStatus(r, t, GateClosed, limit, now) == Idle
  {
  }

  /** The corrected card, after its countdown runs out with the gate open,
      stays in the duration phase while the gate stays open. */
  lemma CorrectedCardKeepsDuration(t: Timer, limit: int, later: int)
    requires Valid(CorrectedCardRules, t) && t.enabled && t.countdown == 1
    ensures var u := Tick(CorrectedCardRules, t);
      u.showOpen && OnStatus(CorrectedCardRules, u, GateOpen, limit, later) == u
  {
  }

  // -------------------------------------------------------------- the hook

  /** The hook never ticks: along any run its countdown stays at the limit
      or 0 and it never shows the open duration itself. */
  lemma {:induction false} HookNeverCounts(limit: int, t: Timer, es: seq<Event>)
    requires !t.showOpen && (t.countdown == 0 || t.countdown == limit)
    ensures var u := Run(RulesOf(GateLogicHook), limit, t, es);
      !u.showOpen && (u.countdown == 0 || u.countdown == limit)
    decreases |es|
  {
    if es != [] {
      HookNeverCounts(limit, Step(RulesOf(GateLogicHook), limit, t, es[0]), es[1..]);
    }
  }
}
