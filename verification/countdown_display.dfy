/** The stand-alone countdown display: it mirrors the timer another screen
    broadcasts in a `gateSync` event, runs its own one-second countdown tick
    and clock refresh, and renders the countdown or the open duration. A
    field the event lacks reads as `undefined`, here `None`. */
module CountdownDisplay {
  import opened Wrappers
  import Text
  import Formatters
  import GateAutomaton

  /** The display's state; `currentTime` is `None` while `undefined`. */
  datatype Display = Display(enabled: bool, countdown: int, openTime: int, showOpen: bool, currentTime: Option<int>)

  /** A `gateSync` payload: the sender's timer fields, its timestamp and,
      when the sender includes one, a current time. */
  datatype SyncData = SyncData(
    enabled: bool, countdown: int, openTime: int, showOpen: bool, afterLimit: int,
    timestamp: int, currentTime: Option<int>)

  /** What the dashboard broadcasts after a change of its timer: the timer's
      fields and the time, but no current time. */
  function DashboardSync(t: GateAutomaton.Timer, now: int): SyncData {
    SyncData(t.enabled, t.countdown, t.openTime, t.showOpen, t.afterLimit, now, None)
  }

  /** What the status tracker broadcasts when it starts a countdown: it does
      include the current time. */
  function TrackerStartSync(limit: int, now: int): SyncData {
    SyncData(true, limit, now, false, 0, now, Some(now))
  }

  /** The event handler as written: every displayed field is overwritten
      with the event's, a missing current time included. */
  function ApplySync(d: Display, e: SyncData): Display {
    Display(e.enabled, e.countdown, e.openTime, e.showOpen, e.currentTime)
  }

  /** The handler with a missing current time taken from the event's
      timestamp. */
  function ApplySyncCorrected(d: Display, e: SyncData): Display {
    Display(e.enabled, e.countdown, e.openTime, e.showOpen,
            if e.currentTime.Some? then e.currentTime else Some(e.timestamp))
  }

  /** The display's own countdown tick: only while enabled with time left;
      the last second switches to the open duration. */
  function Tick(d: Display): Display {
    if d.enabled && d.countdown > 0 then
      if d.countdown <= 1 then d.(enabled := false, countdown := 0, showOpen := true)
      else d.(countdown := d.countdown - 1)
    else d
  }

  /** The clock refresh: while the open duration shows with an opening time,
      the current time is read every second. */
  function ClockTick(d: Display, now: int): Display {
    if d.showOpen && d.openTime > 0 then d.(currentTime := Some(now)) else d
  }

  /** The display renders at all only in one of the two phases. */
  predicate Visible(d: Display) {
    d.enabled || d.showOpen
  }

  predicate CountdownShown(d: Display) {
    Visible(d) && d.enabled && d.countdown > 0
  }

  predicate DurationShown(d: Display) {
    Visible(d) && d.showOpen && d.openTime > 0
  }

  function CountdownText(d: Display): string {
    Formatters.FormatClock(d.countdown)
  }

  /** The open-duration text: empty without an opening time; with an
      undefined current time every field is NaN, no branch's test holds and
      the text is "NaNs". */
  function DurationText(d: Display): string {
    if d.openTime == 0 then ""
    else match d.currentTime
      case None => "NaNs"
      case Some(c) => Formatters.FormatOpenDuration(d.openTime, c)
  }

  /** The display's timer fields, as the shared timer record. */
  function TimerOf(d: Display): GateAutomaton.Timer {
    GateAutomaton.Timer(d.enabled, d.countdown, d.openTime, d.showOpen, 0)
  }

  /** After an event the display holds the sender's timer whatever it held
      before, and it renders exactly when the sender's timer is in a phase. */
  lemma SyncMirrorsSender(d: Display, d2: Display, t: GateAutomaton.Timer, now: int)
    ensures ApplySync(d, DashboardSync(t, now)) == ApplySync(d2, DashboardSync(t, now))
    ensures TimerOf(ApplySync(d, DashboardSync(t, now))) == t.(afterLimit := 0)
    ensures Visible(ApplySync(d, DashboardSync(t, now))) <==> t.enabled || t.showOpen
  {
  }

  /** The display's tick is the gate card's tick on the timer fields, and it
      leaves the clock alone. */
  lemma TickMatchesCard(d: Display)
    ensures TimerOf(Tick(d)) == GateAutomaton.Tick(GateAutomaton.RulesOf(GateAutomaton.GateCard), TimerOf(d))
    ensures Tick(d).currentTime == d.currentTime
  {
  }

  /** Nothing renders between phases, the two panels never show together,
      and the duration panel of a mirrored valid timer always has an
      opening time. */
  lemma RenderGuard(d: Display, t: GateAutomaton.Timer, now: int)
    ensures !Visible(d) ==> !CountdownShown(d) && !DurationShown(d)
    ensures !(d.enabled && d.showOpen) ==> !(CountdownShown(d) && DurationShown(d))
    ensures GateAutomaton.Valid(GateAutomaton.RulesOf(GateAutomaton.Dashboard), t) && t.showOpen
        ==> DurationShown(ApplySync(d, DashboardSync(t, now)))
  {
  }

  /** The timer the dashboard broadcasts when its countdown runs out: the
      duration phase with the opening time kept. */
  lemma ExpiryTimer(t: GateAutomaton.Timer)
    requires t.enabled && t.countdown <= 1 && t.openTime > 0
    ensures var u := GateAutomaton.Tick(GateAutomaton.RulesOf(GateAutomaton.Dashboard), t);
      !u.enabled && u.showOpen && u.openTime == t.openTime
  {
  }

  /** As written: right after the dashboard's expiry event the display shows
      the open-duration panel with the text "NaNs", until its clock refresh
      reads the time. */
  lemma AsWrittenExpirySyncShowsNaN(d: Display, t: GateAutomaton.Timer, now: int)
    requires t.enabled && t.countdown <= 1 && t.openTime > 0
    ensures var u := GateAutomaton.Tick(GateAutomaton.RulesOf(GateAutomaton.Dashboard), t);
      var shown := ApplySync(d, DashboardSync(u, now));
      DurationShown(shown) && DurationText(shown) == "NaNs"
    ensures var u := GateAutomaton.Tick(GateAutomaton.RulesOf(GateAutomaton.Dashboard), t);
      var shown := ClockTick(ApplySync(d, DashboardSync(u, now)), now);
      DurationText(shown) != "NaNs"
  {
    ExpiryTimer(t);
    var u := GateAutomaton.Tick(GateAutomaton.RulesOf(GateAutomaton.Dashboard), t);
    var shown := ClockTick(ApplySync(d, DashboardSync(u, now)), now);
    assert shown.currentTime == Some(now);
    ClockEndsInDigitOrS(GateAutomaton.ElapsedSeconds(t.openTime, now));
    assert !Text.IsDigit("NaNs"[2]);
  }

  /** The second-to-last character of a clock text is a digit: the tens of
      the seconds, or the last digit before the 's'. */
  lemma ClockEndsInDigitOrS(s: int)
    ensures var r := Formatters.FormatClock(s);
      |r| >= 2 && Text.IsDigit(r[|r| - 2])
  {
    var r := Formatters.FormatClock(s);
    var hours := s / 3600;
    var minutes := Formatters.JsRem(s, 3600) / 60;
    var secs := Formatters.JsRem(s, 60);
    if hours > 0 || minutes > 0 {
      assert r[|r| - 2] == Text.TwoDigits(secs)[0];
    } else {
      var n := Text.IntToString(secs);
      assert r == n + "s";
      IntToStringLastDigit(secs);
      assert r[|r| - 2] == n[|n| - 1];
    }
  }

  /** A rendered integer ends in a digit. */
  lemma IntToStringLastDigit(i: int)
    ensures var r := Text.IntToString(i);
      |r| >= 1 && Text.IsDigit(r[|r| - 1])
  {
    var m: nat := if i < 0 then -i else i;
    var d := Text.NatToString(m);
    assert Text.IsDigit(d[|d| - 1]);
    if i < 0 {
      assert Text.IntToString(i) == "-" + d;
    }
  }

  /** Corrected: after the dashboard's expiry event the display's duration
      reads back as the whole seconds from the opening to the event. */
  lemma CorrectedExpirySyncShowsElapsed(d: Display, t: GateAutomaton.Timer, now: int)
    requires t.enabled && t.countdown <= 1 && t.openTime > 0 && now >= t.openTime
    ensures var u := GateAutomaton.Tick(GateAutomaton.RulesOf(GateAutomaton.Dashboard), t);
      var shown := ApplySyncCorrected(d, DashboardSync(u, now));
      var read := Formatters.ParseClock(DurationText(shown));
      && DurationShown(shown)
      && read.Some? && read.value * 1000 <= now - t.openTime < read.value * 1000 + 1000
  {
    ExpiryTimer(t);
    Formatters.OpenDurationReadsElapsed(t.openTime, now);
  }

  /** The tracker's start event already carries a time, so both handlers
      agree on it and the countdown starts from the limit. */
  lemma TrackerSyncUnaffected(d: Display, limit: int, now: int)
    ensures ApplySync(d, TrackerStartSync(limit, now)) == ApplySyncCorrected(d, TrackerStartSync(limit, now))
    ensures ApplySync(d, TrackerStartSync(limit, now)).countdown == limit
  {
  }
}
