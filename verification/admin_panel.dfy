/** The admin panel's settings form: the auto-close limit edited as a
    minutes field and a seconds field with a "M:SS" total beside them, the
    retry and open-check delays with their fallbacks, and the role labels.
    A field's text that does not parse as an integer (`parseInt` giving NaN)
    is `None`. */
module AdminPanel {
  import opened Wrappers
  import opened Text
  import Formatters
  import GateAutomaton
  import Permissions

  /** The minutes field shows the whole minutes of the limit, rounded down. */
  function MinutesField(t: int): int {
    t / 60
  }

  /** The seconds field shows JavaScript's `t % 60`, negative for a
      negative limit. */
  function SecondsField(t: int): int {
    Formatters.JsRem(t, 60)
  }

  /** Typing `m` into the minutes field: `m * 60` plus the seconds part of
      the current limit; text that is not a number leaves NaN. */
  function EnterMinutes(t: int, m: Option<int>): Option<int> {
    match m
    case None => None
    case Some(v) => Some(v * 60 + SecondsField(t))
  }

  /** Typing `s` into the seconds field: the current minutes times 60 plus
      `s`. */
  function EnterSeconds(t: int, s: Option<int>): Option<int> {
    match s
    case None => None
    case Some(v) => Some(MinutesField(t) * 60 + v)
  }

  /** The total shown beside the fields: minutes, ':', seconds padded to two
      characters. */
  function TotalLabel(t: int): string {
    IntToString(MinutesField(t)) + (":" + PadStart2(IntToString(SecondsField(t))))
  }

  /** For a limit of zero or more the fields split it into minutes and
      seconds below 60. */
  lemma FieldsSplitLimit(t: int)
    requires t >= 0
    ensures MinutesField(t) >= 0 && 0 <= SecondsField(t) < 60
    ensures MinutesField(t) * 60 + SecondsField(t) == t
  {
  }

  /** Typing a minute count keeps the seconds part and shows the typed
      minutes back; a non-number leaves NaN. */
  lemma EnterMinutesKeepsSeconds(t: int, m: Option<int>)
    requires t >= 0
    requires m.Some? ==> m.value >= 0
    ensures EnterMinutes(t, m).None? <==> m.None?
    ensures m.Some? ==> var u := EnterMinutes(t, m).value;
      MinutesField(u) == m.value && SecondsField(u) == SecondsField(t)
  {
    if m.Some? {
      var u := m.value * 60 + SecondsField(t);
      assert u / 60 == m.value;
      assert u % 60 == SecondsField(t);
    }
  }

  /** Typing a second count keeps the minutes part; a count of 60 or more
      carries whole minutes over, so the seconds field then shows the count
      modulo 60. */
  lemma EnterSecondsKeepsMinutes(t: int, s: Option<int>)
    requires t >= 0
    requires s.Some? ==> s.value >= 0
    ensures EnterSeconds(t, s).None? <==> s.None?
    ensures s.Some? ==> var u := EnterSeconds(t, s).value;
      MinutesField(u) == MinutesField(t) + s.value / 60 && SecondsField(u) == s.value % 60
    ensures s.Some? && s.value < 60 ==> var u := EnterSeconds(t, s).value;
      MinutesField(u) == MinutesField(t) && SecondsField(u) == s.value
  {
    if s.Some? {
      var q := MinutesField(t);
      var v := s.value;
      var u := q * 60 + v;
      assert u == (q + v / 60) * 60 + v % 60;
      assert u / 60 == q + v / 60;
      assert u % 60 == v % 60;
    }
  }

  /** Re-typing what the minutes field shows gives back the limit exactly
      when it is not negative or a whole number of minutes: for any other
      negative limit the rounded-down minutes and the negative remainder
      together lose a minute. */
  lemma ReenterMinutes(t: int)
    ensures EnterMinutes(t, Some(MinutesField(t))) == Some(t) <==> t >= 0 || t % 60 == 0
    ensures t < 0 && t % 60 != 0 ==> EnterMinutes(t, Some(MinutesField(t))) == Some(t - 60)
  {
    var q := t / 60;
    var e := t % 60;
    assert t == q * 60 + e;
    if t < 0 {
      if e == 0 {
        assert -t == (-q) * 60;
        assert (-t) % 60 == 0;
      } else {
        assert -t == (-q - 1) * 60 + (60 - e);
        assert (-t) % 60 == 60 - e;
      }
    }
  }

  /** Re-typing what the seconds field shows gives back the limit on the
      same condition. */
  lemma ReenterSeconds(t: int)
    ensures EnterSeconds(t, Some(SecondsField(t))) == Some(t) <==> t >= 0 || t % 60 == 0
  {
    ReenterMinutes(t);
  }

  /** For a limit of zero or more the total reads back, as a countdown
      clock, as the limit itself. */
  lemma TotalLabelReadsBack(t: int)
    requires t >= 0
    ensures Formatters.ParseClock(TotalLabel(t)) == Some(t)
  {
    var m := t / 60;
    var c := t % 60;
    assert TotalLabel(t) == NatToString(m) + (":" + TwoDigits(c));
    Formatters.ReadMinutesForm(m, c);
  }

  /** `parseInt(value) || fallback` on the retry and open-check fields: a
      non-number or 0 gives the fallback, any other number stays. */
  function SettingField(input: Option<int>, fallback: int): int {
    GateAutomaton.OrDefault(input, fallback)
  }

  /** The retry field falls back to 3 and the open-check field to 10, so
      neither setting is ever stored as 0 from the form. */
  lemma SettingFieldsNeverZero(input: Option<int>)
    ensures SettingField(input, 3) != 0 && SettingField(input, 10) != 0
    ensures input.Some? && input.value != 0 ==> SettingField(input, 3) == input.value && SettingField(input, 10) == input.value
    ensures input.None? || input.value == 0 ==> SettingField(input, 3) == 3 && SettingField(input, 10) == 10
  {
  }

  /** The label shown for a stored role; an unrecognised role shows as
      stored. */
  function RoleLabel(role: string): string {
    if role == "admin" then "👑 Admin"
    else if role == "user" then "👤 Uživatel"
    else if role == "viewer" then "👁️ Divák"
    else role
  }

  /** The three roles get three different labels, none of them the stored
      name; any other string passes through. */
  lemma RoleLabelsDistinct(p: Permissions.Role, q: Permissions.Role, other: string)
    ensures RoleLabel(Permissions.RoleName(p)) != Permissions.RoleName(p)
    ensures RoleLabel(Permissions.RoleName(p)) == RoleLabel(Permissions.RoleName(q)) ==> p == q
    ensures (forall r: Permissions.Role :: other != Permissions.RoleName(r)) ==> RoleLabel(other) == other
  {
    if forall r: Permissions.Role :: other != Permissions.RoleName(r) {
      assert other != Permissions.RoleName(Permissions.Admin);
      assert other != Permissions.RoleName(Permissions.RegularUser);
      assert other != Permissions.RoleName(Permissions.Viewer);
    }
  }
}
