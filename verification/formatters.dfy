/** The clock-style formatters the gate screens share ("H:MM:SS", "M:SS",
    "Ss"), the open-duration and total-open-time displays built on them, the
    connection bar's uptime and latency texts, and a reader for each format
    that recovers the number shown. */
module Formatters {
  import opened Wrappers
  import opened Text
  import opened GateAutomaton

  /** JavaScript's `%` for a positive divisor: the remainder takes the sign
      of the dividend. */
  function JsRem(a: int, b: int): (r: int)
    requires b > 0
    ensures a >= 0 ==> 0 <= r < b
    ensures a < 0 ==> -b < r <= 0
    ensures a >= 0 ==> r == a % b
    ensures a < 0 ==> r == -((-a) % b)
  {
    if a >= 0 then a % b else -((-a) % b)
  }

  // ------------------------------------------------------------- reading

  /** The number of decimal digits at the front of `s`. */
  function DigitRun(s: string): (k: nat)
    ensures k <= |s| && AllDigits(s[..k])
    ensures k < |s| ==> !IsDigit(s[k])
    decreases |s|
  {
    if s == [] || !IsDigit(s[0]) then 0
    else
      var k := 1 + DigitRun(s[1..]);
      assert s[..k] == [s[0]] + s[1..][..k - 1];
      k
  }

  /** Reads a decimal number off the front of `s`, returning it with the
      text that follows; none when `s` does not start with a digit. */
  function ReadNumber(s: string): Option<(nat, string)> {
    var k := DigitRun(s);
    if k == 0 then None else Some((ParseDigits(s[..k]), s[k..]))
  }

  lemma {:induction false} DigitRunOf(d: string, rest: string)
    requires AllDigits(d)
    requires rest == [] || !IsDigit(rest[0])
    ensures DigitRun(d + rest) == |d|
    decreases |d|
  {
    if d == [] {
      assert d + rest == rest;
    } else {
      assert (d + rest)[1..] == d[1..] + rest;
      DigitRunOf(d[1..], rest);
    }
  }

  /** A run of digits followed by a non-digit reads back as its value. */
  lemma ReadNumberOf(d: string, rest: string)
    requires |d| >= 1 && AllDigits(d)
    requires rest == [] || !IsDigit(rest[0])
    ensures ReadNumber(d + rest) == Some((ParseDigits(d), rest))
  {
    DigitRunOf(d, rest);
    assert (d + rest)[..|d|] == d;
    assert (d + rest)[|d|..] == rest;
  }

  /** A rendered number followed by a non-digit reads back as the number. */
  lemma ReadRendered(n: nat, rest: string)
    requires rest == [] || !IsDigit(rest[0])
    ensures ReadNumber(NatToString(n) + rest) == Some((n, rest))
  {
    ReadNumberOf(NatToString(n), rest);
    ParseNatToString(n);
  }

  /** A two-digit field followed by a non-digit reads back as its value. */
  lemma ReadTwoDigits(n: nat, rest: string)
    requires n < 100
    requires rest == [] || !IsDigit(rest[0])
    ensures ReadNumber(TwoDigits(n) + rest) == Some((n, rest))
  {
    ReadNumberOf(TwoDigits(n), rest);
  }

  // -------------------------------------------------------------- clock

  /** The countdown formatter every gate screen carries: hours, minutes and
      seconds taken with floor division and JavaScript's `%`; "H:MM:SS" with
      hours, else "M:SS" with minutes, else the seconds and an "s". */
  function FormatClock(s: int): (r: string)
    ensures |r| >= 2
  {
    var hours := s / 3600;
    var minutes := JsRem(s, 3600) / 60;
    var secs := JsRem(s, 60);
    if hours > 0 then NatToString(hours) + (":" + (TwoDigits(minutes) + (":" + TwoDigits(secs))))
    else if minutes > 0 then NatToString(minutes) + (":" + TwoDigits(secs))
    else IntToString(secs) + "s"
  }

  /** Reads the three clock formats back: "Ns" as N seconds, "M:SS" and
      "H:MM:SS" as the seconds they name. */
  function ParseClock(r: string): Option<nat> {
    match ReadNumber(r)
    case None => None
    case Some((a, r1)) =>
      if r1 == "s" then Some(a)
      else if r1 == [] || r1[0] != ':' then None
      else ParseClockMinutes(a, r1[1..])
  }

  /** The clock text after its first number `a` and a colon. */
  function ParseClockMinutes(a: nat, r: string): Option<nat> {
    match ReadNumber(r)
    case None => None
    case Some((b, r2)) =>
      if r2 == [] then Some(a * 60 + b)
      else if r2[0] != ':' then None
      else ParseClockSeconds(a, b, r2[1..])
  }

  /** The clock text after hours `a`, minutes `b` and a second colon. */
  function ParseClockSeconds(a: nat, b: nat, r: string): Option<nat> {
    match ReadNumber(r)
    case None => None
    case Some((c, r3)) => if r3 == [] then Some(a * 3600 + b * 60 + c) else None
  }

  /** Hours, minutes and seconds put back together give the count. */
  lemma ClockFields(s: nat)
    ensures s / 3600 * 3600 + s % 3600 / 60 * 60 + s % 60 == s
    ensures s % 3600 / 60 < 60
  {
    var h, q := s / 3600, s % 3600;
    assert s == h * 3600 + q;
    var m, c := q / 60, q % 60;
    assert q == m * 60 + c;
    assert s == (h * 60 + m) * 60 + c;
    assert s % 60 == c;
  }

  /** A number and a ':' lead into the minutes field. */
  lemma ClockHead(a: nat, y: string)
    requires |y| >= 1
    ensures ParseClock(NatToString(a) + (":" + y)) == ParseClockMinutes(a, y)
  {
    var rest := ":" + y;
    ReadRendered(a, rest);
    assert rest[1..] == y;
  }

  /** Two digits and a ':' lead into the seconds field. */
  lemma MinutesHead(a: nat, m: nat, y: string)
    requires m < 100 && |y| >= 1
    ensures ParseClockMinutes(a, TwoDigits(m) + (":" + y)) == ParseClockSeconds(a, m, y)
  {
    var rest := ":" + y;
    ReadTwoDigits(m, rest);
    assert rest[1..] == y;
  }

  /** Two digits end the text after the minutes. */
  lemma MinutesLast(a: nat, c: nat)
    requires c < 100
    ensures ParseClockMinutes(a, TwoDigits(c)) == Some(a * 60 + c)
  {
    assert TwoDigits(c) + [] == TwoDigits(c);
    ReadTwoDigits(c, []);
  }

  /** Two digits end the text after the hours and minutes. */
  lemma SecondsLast(a: nat, b: nat, c: nat)
    requires c < 100
    ensures ParseClockSeconds(a, b, TwoDigits(c)) == Some(a * 3600 + b * 60 + c)
  {
    assert TwoDigits(c) + [] == TwoDigits(c);
    ReadTwoDigits(c, []);
  }

  /** The long form "H:MM:SS" reads back as the seconds it names. */
  lemma ReadHoursForm(h: nat, m: nat, c: nat)
    requires m < 60 && c < 60
    ensures ParseClock(NatToString(h) + (":" + (TwoDigits(m) + (":" + TwoDigits(c))))) == Some(h * 3600 + m * 60 + c)
  {
    ClockHead(h, TwoDigits(m) + (":" + TwoDigits(c)));
    MinutesHead(h, m, TwoDigits(c));
    SecondsLast(h, m, c);
  }

  /** The middle form "M:SS" reads back as the seconds it names. */
  lemma ReadMinutesForm(m: nat, c: nat)
    requires c < 60
    ensures ParseClock(NatToString(m) + (":" + TwoDigits(c))) == Some(m * 60 + c)
  {
    ClockHead(m, TwoDigits(c));
    MinutesLast(m, c);
  }

  /** The long form read back, stated for a count known to equal its
      fields. */
  lemma ReadHoursValue(h: nat, m: nat, c: nat, s: nat)
    requires m < 60 && c < 60 && s == h * 3600 + m * 60 + c
    ensures ParseClock(NatToString(h) + (":" + (TwoDigits(m) + (":" + TwoDigits(c))))) == Some(s)
  {
    ReadHoursForm(h, m, c);
  }

  /** The middle form read back, stated for a count known to equal its
      fields. */
  lemma ReadMinutesValue(m: nat, c: nat, s: nat)
    requires c < 60 && s == m * 60 + c
    ensures ParseClock(NatToString(m) + (":" + TwoDigits(c))) == Some(s)
  {
    ReadMinutesForm(m, c);
  }

  /** The short form "Ss" reads back as its seconds. */
  lemma ReadSecondsForm(c: nat)
    ensures ParseClock(NatToString(c) + "s") == Some(c)
  {
    ReadRendered(c, "s");
  }

  /** From an hour on, the clock shows "H:MM:SS" with the count's hours,
      minutes and seconds. */
  lemma ClockHoursText(s: nat) returns (h: nat, m: nat, c: nat)
    requires s >= 3600
    ensures m < 60 && c < 60 && s == h * 3600 + m * 60 + c
    ensures FormatClock(s) == NatToString(h) + (":" + (TwoDigits(m) + (":" + TwoDigits(c))))
  {
    h, m, c := s / 3600, s % 3600 / 60, s % 60;
    ClockFields(s);
  }

  /** From a minute up to an hour, the clock shows "M:SS" with the count's
      minutes and seconds. */
  lemma ClockMinutesText(s: nat) returns (m: nat, c: nat)
    requires 60 <= s < 3600
    ensures c < 60 && s == m * 60 + c
    ensures FormatClock(s) == NatToString(m) + (":" + TwoDigits(c))
  {
    assert s / 3600 == 0 && JsRem(s, 3600) == s && JsRem(s, 60) == s % 60;
    m, c := s / 60, s % 60;
  }

  lemma ClockRoundTripHours(s: nat)
    requires s >= 3600
    ensures ParseClock(FormatClock(s)) == Some(s)
  {
    var h, m, c := ClockHoursText(s);
    ReadHoursValue(h, m, c, s);
  }

  lemma ClockRoundTripMinutes(s: nat)
    requires 60 <= s < 3600
    ensures ParseClock(FormatClock(s)) == Some(s)
  {
    var m, c := ClockMinutesText(s);
    ReadMinutesValue(m, c, s);
  }

  lemma ClockRoundTripSeconds(s: nat)
    requires s < 60
    ensures ParseClock(FormatClock(s)) == Some(s)
  {
    assert FormatClock(s) == NatToString(s) + "s";
    ReadSecondsForm(s);
  }

  /** Every count of seconds the clock formatter shows reads back as
      itself, so no two counts look alike. */
  lemma ClockRoundTrip(s: nat)
    ensures ParseClock(FormatClock(s)) == Some(s)
  {
    if s >= 3600 {
      ClockRoundTripHours(s);
    } else if s >= 60 {
      ClockRoundTripMinutes(s);
    } else {
      ClockRoundTripSeconds(s);
    }
  }

  // ----------------------------------------------------- open durations

  /** The hook's, the card's and the display's open-duration text: empty
      without an opening time, otherwise the whole seconds since it on the
      clock. */
  function FormatOpenDuration(openTime: int, currentTime: int): (r: string)
    ensures r == "" <==> openTime == 0
  {
    if openTime == 0 then "" else FormatClock(ElapsedSeconds(openTime, currentTime))
  }

  /** Once the gate has an opening time in the past, the duration text
      reads back as the whole seconds since that time. */
  lemma OpenDurationReadsElapsed(openTime: int, currentTime: int)
    requires openTime != 0 && currentTime >= openTime
    ensures var shown := ParseClock(FormatOpenDuration(openTime, currentTime));
      shown.Some? && shown.value * 1000 <= currentTime - openTime < shown.value * 1000 + 1000
  {
    ClockRoundTrip(ElapsedSeconds(openTime, currentTime));
  }

  /** The dashboard's total open time: its limit plus the seconds counted
      after the limit, on the clock. */
  function FormatTotalOpenTime(limit: int, afterLimit: int): string {
    FormatClock(limit + afterLimit)
  }

  /** After a reload lands in the open-duration phase, the total the
      dashboard shows reads back as the whole seconds since the gate
      opened. */
  lemma TotalOpenTimeAfterReload(t: Timer, saved: int, now: int, limit: int)
    requires saved > 0 && now >= saved
    ensures var u := Restore(RulesOf(Dashboard), t, saved, now, limit);
      var shown := ParseClock(FormatTotalOpenTime(limit, u.afterLimit));
      u.showOpen ==> shown.Some? && shown.value * 1000 <= now - saved < shown.value * 1000 + 1000
  {
    var u := Restore(RulesOf(Dashboard), t, saved, now, limit);
    RestoreSplitsElapsed(t, saved, now, limit);
    if u.showOpen {
      TotalOpenTimeReadsBack(limit, u.afterLimit);
    }
  }

  /** A non-negative total reads back as the limit plus the seconds after
      it. */
  lemma TotalOpenTimeReadsBack(limit: int, afterLimit: int)
    requires limit + afterLimit >= 0
    ensures ParseClock(FormatTotalOpenTime(limit, afterLimit)) == Some(limit + afterLimit)
  {
    var s := limit + afterLimit;
    assert FormatTotalOpenTime(limit, afterLimit) == FormatClock(s);
    ClockRoundTrip(s);
  }

  // ---------------------------------------------------- connection bar

  /** The connection bar's uptime: "0s" for zero, else "Hh Mm" with hours
      (seconds dropped), "Mm Ss" with minutes, or "Ss". */
  function FormatUptime(uptime: int): (r: string)
    ensures |r| >= 2
  {
    if uptime == 0 then "0s"
    else UptimeText(uptime / 3600, JsRem(uptime, 3600) / 60, JsRem(uptime, 60))
  }

  /** The uptime text for given hours, minutes and seconds. */
  function UptimeText(hours: int, minutes: int, seconds: int): (r: string)
    ensures |r| >= 2
  {
    if hours > 0 then IntToString(hours) + ("h " + (IntToString(minutes) + "m"))
    else if minutes > 0 then IntToString(minutes) + ("m " + (IntToString(seconds) + "s"))
    else IntToString(seconds) + "s"
  }

  /** Reads the three uptime formats back into seconds. */
  function ParseUptime(r: string): Option<nat> {
    match ReadNumber(r)
    case None => None
    case Some((a, r1)) =>
      if r1 == "s" then Some(a)
      else if |r1| < 2 || r1[1] != ' ' then None
      else ParseUptimeSecond(a, r1[0], r1[2..])
  }

  /** The uptime text after its first number `a`, its unit and a space. */
  function ParseUptimeSecond(a: nat, unit: char, r: string): Option<nat> {
    match ReadNumber(r)
    case None => None
    case Some((b, r2)) =>
      if unit == 'h' && r2 == "m" then Some(a * 3600 + b * 60)
      else if unit == 'm' && r2 == "s" then Some(a * 60 + b)
      else None
  }

  /** A number, a unit letter and a space lead into the second number. */
  lemma UptimeHead(a: nat, sep: string, y: string)
    requires |sep| == 2 && !IsDigit(sep[0]) && sep[1] == ' ' && |y| >= 1
    ensures ParseUptime(NatToString(a) + (sep + y)) == ParseUptimeSecond(a, sep[0], y)
  {
    var rest := sep + y;
    ReadRendered(a, rest);
    assert rest[2..] == y;
  }

  /** An uptime rounded down to whole minutes. */
  function WholeMinutes(u: nat): (r: nat)
    ensures r <= u < r + 60 && r % 60 == 0
  {
    u - u % 60
  }

  /** From an hour on, the uptime shows "Hh Mm" with the hours and the
      minutes of the hour begun. */
  lemma UptimeHoursText(u: nat) returns (h: nat, m: nat)
    requires u >= 3600
    ensures h * 3600 + m * 60 == WholeMinutes(u)
    ensures FormatUptime(u) == NatToString(h) + ("h " + (NatToString(m) + "m"))
  {
    h, m := u / 3600, u % 3600 / 60;
    ClockFields(u);
  }

  /** From a minute up to an hour, the uptime shows "Mm Ss". */
  lemma UptimeMinutesText(u: nat) returns (m: nat, c: nat)
    requires 60 <= u < 3600
    ensures u == m * 60 + c
    ensures FormatUptime(u) == NatToString(m) + ("m " + (NatToString(c) + "s"))
  {
    assert u / 3600 == 0 && JsRem(u, 3600) == u && JsRem(u, 60) == u % 60 && u / 60 > 0;
    m, c := u / 60, u % 60;
  }

  /** A second number and its closing unit end the uptime text. */
  lemma UptimeLast(a: nat, unit: char, b: nat, close: string)
    requires close == "m" || close == "s"
    ensures ParseUptimeSecond(a, unit, NatToString(b) + close)
         == if unit == 'h' && close == "m" then Some(a * 3600 + b * 60)
            else if unit == 'm' && close == "s" then Some(a * 60 + b)
            else None
  {
    ReadRendered(b, close);
  }

  /** "Hh Mm" reads back as the seconds of its hours and minutes. */
  lemma UptimeHoursValue(h: nat, m: nat, v: nat)
    requires h * 3600 + m * 60 == v
    ensures ParseUptime(NatToString(h) + ("h " + (NatToString(m) + "m"))) == Some(v)
  {
    assert "h "[0] == 'h' && |NatToString(m) + "m"| >= 1;
    calc {
      ParseUptime(NatToString(h) + ("h " + (NatToString(m) + "m")));
      { UptimeHead(h, "h ", NatToString(m) + "m"); }
      ParseUptimeSecond(h, 'h', NatToString(m) + "m");
      { UptimeLast(h, 'h', m, "m"); }
      Some(h * 3600 + m * 60);
    }
  }

  /** "Mm Ss" reads back as the seconds of its minutes and seconds. */
  lemma UptimeMinutesValue(m: nat, c: nat, v: nat)
    requires v == m * 60 + c
    ensures ParseUptime(NatToString(m) + ("m " + (NatToString(c) + "s"))) == Some(v)
  {
    assert "m "[0] == 'm' && |NatToString(c) + "s"| >= 1;
    calc {
      ParseUptime(NatToString(m) + ("m " + (NatToString(c) + "s")));
      { UptimeHead(m, "m ", NatToString(c) + "s"); }
      ParseUptimeSecond(m, 'm', NatToString(c) + "s");
      { UptimeLast(m, 'm', c, "s"); }
      Some(m * 60 + c);
    }
  }

  lemma UptimeRoundTripHours(u: nat)
    requires u >= 3600
    ensures ParseUptime(FormatUptime(u)) == Some(WholeMinutes(u))
  {
    var h, m := UptimeHoursText(u);
    UptimeHoursValue(h, m, WholeMinutes(u));
  }

  lemma UptimeRoundTripMinutes(u: nat)
    requires 60 <= u < 3600
    ensures ParseUptime(FormatUptime(u)) == Some(u)
  {
    var m, c := UptimeMinutesText(u);
    UptimeMinutesValue(m, c, u);
  }

  lemma UptimeRoundTripSeconds(u: nat)
    requires u < 60
    ensures ParseUptime(FormatUptime(u)) == Some(u)
  {
    if u == 0 {
      assert FormatUptime(u) == NatToString(0) + "s";
    } else {
      assert FormatUptime(u) == UptimeText(0, 0, u);
      assert UptimeText(0, 0, u) == NatToString(u) + "s";
    }
    ReadRendered(u, "s");
  }

  /** The uptime text reads back as the uptime, rounded down to the minute
      once it reaches an hour. */
  lemma UptimeRoundTrip(uptime: nat)
    ensures ParseUptime(FormatUptime(uptime)) == Some(if uptime >= 3600 then WholeMinutes(uptime) else uptime)
  {
    if uptime >= 3600 {
      UptimeRoundTripHours(uptime);
    } else if uptime >= 60 {
      UptimeRoundTripMinutes(uptime);
    } else {
      UptimeRoundTripSeconds(uptime);
    }
  }

  /** The connection bar's latency: "N/A" when missing or zero, otherwise
      the milliseconds and "ms". */
  function FormatLatency(latency: Option<int>): string {
    if latency.None? || latency.value == 0 then "N/A" else IntToString(latency.value) + "ms"
  }

  /** "N/A" appears exactly for a missing or zero latency; a positive one is
      shown as its value followed by "ms". */
  lemma LatencyShown(latency: Option<int>)
    ensures FormatLatency(latency) == "N/A" <==> latency.None? || latency.value == 0
    ensures latency.Some? && latency.value > 0
        ==> ReadNumber(FormatLatency(latency)) == Some((latency.value, "ms"))
  {
    if latency.Some? && latency.value != 0 {
      var r := FormatLatency(latency);
      if latency.value > 0 {
        ReadRendered(latency.value, "ms");
        assert r[|r| - 1] == 's';
      } else {
        assert r[0] == '-';
      }
    }
  }
}
