/** The string helpers of the utilities file: truncation, capitalising the
    first letter, the e-mail shape check, the "time ago" text and the
    connection-quality labels. */
module TextHelpers {
  import opened Wrappers
  import opened Text
  import opened StatusParser
  import Formatters

  // ----------------------------------------------------------- truncate

  /** `truncateText`: the text itself when it fits, otherwise its first
      `maxLength - 3` characters (none when that is negative, as
      `substring` clamps) followed by "...". */
  function TruncateText(text: string, maxLength: int): (r: string)
    ensures |text| <= maxLength ==> r == text
    ensures |text| > maxLength ==> 3 <= |r| <= |text| + 3
    ensures |text| > maxLength ==> r[|r| - 3..] == "..." && text[..|r| - 3] == r[..|r| - 3]
    ensures |text| > maxLength && maxLength >= 3 ==> |r| == maxLength
  {
    if |text| <= maxLength then text
    else
      var keep := if maxLength - 3 < 0 then 0 else maxLength - 3;
      var r := text[..keep] + "...";
      assert |r| == keep + 3;
      assert r[keep..] == "..." && r[..keep] == text[..keep];
      r
  }

  /** Truncating twice to the same length of at least three changes nothing
      more. */
  lemma TruncateIdempotent(text: string, maxLength: int)
    requires maxLength >= 3
    ensures TruncateText(TruncateText(text, maxLength), maxLength) == TruncateText(text, maxLength)
  {
  }

  // --------------------------------------------------------- capitalise

  /** `capitalizeFirst`: the first character upper-cased (ASCII letters
      only), the rest as it was; the empty string stays empty. */
  function CapitalizeFirst(text: string): (r: string)
    ensures |r| == |text|
    ensures |text| > 0 ==> r[0] == AsciiUpperChar(text[0]) && r[1..] == text[1..]
  {
    if text == [] then [] else [AsciiUpperChar(text[0])] + text[1..]
  }

  /** Capitalising an already capitalised text changes nothing. */
  lemma CapitalizeIdempotent(text: string)
    ensures CapitalizeFirst(CapitalizeFirst(text)) == CapitalizeFirst(text)
  {
  }

  // -------------------------------------------------------------- email

  /** A character the pattern's `[^\s@]` class admits. */
  predicate EmailChar(c: char) {
    !IsJsSpace(c) && c != '@'
  }

  predicate EmailPart(s: string) {
    |s| > 0 && forall i | 0 <= i < |s| :: EmailChar(s[i])
  }

  /** The pattern `^[^\s@]+@[^\s@]+\.[^\s@]+$`, stated as the split it
      asks for: a local part, '@', a domain part, '.', a last part. */
  ghost predicate EmailShape(s: string) {
    exists i, j | 0 <= i < j < |s| ::
      s[i] == '@' && s[j] == '.' && EmailPart(s[..i]) && EmailPart(s[i + 1..j]) && EmailPart(s[j + 1..])
  }

  /** The position of the first '@' in `s`. */
  function FirstAt(s: string): (k: Option<nat>)
    ensures k.Some? ==> k.value < |s| && s[k.value] == '@' && '@' !in s[..k.value]
    ensures k.None? ==> '@' !in s
    decreases |s|
  {
    if s == [] then None
    else if s[0] == '@' then Some(0)
    else
      match FirstAt(s[1..])
      case None => None
      case Some(k) =>
        assert s[..k + 1] == [s[0]] + s[1..][..k];
        Some(k + 1)
  }

  /** `isValidEmail`: no white space, exactly one '@' with something before
      it, and after it a '.' with at least one character on each side. */
  predicate IsValidEmail(s: string) {
    NoSpaces(s)
    && match FirstAt(s)
       case None => false
       case Some(i) =>
         i > 0 && '@' !in s[i + 1..]
         && exists j | i + 1 < j < |s| - 1 :: s[j] == '.'
  }

  /** What the check accepts matches the pattern. */
  lemma EmailCheckSound(s: string)
    requires IsValidEmail(s)
    ensures EmailShape(s)
  {
    var i := FirstAt(s).value;
    var j :| i + 1 < j < |s| - 1 && s[j] == '.';
    forall k | 0 <= k < i ensures s[k] != '@' {
      assert s[k] == s[..i][k];
    }
    forall k | i + 1 <= k < |s| ensures s[k] != '@' {
      assert s[k] == s[i + 1..][k - i - 1];
    }
    assert EmailPart(s[..i]);
    assert EmailPart(s[i + 1..j]);
    assert EmailPart(s[j + 1..]);
  }

  /** Whatever the pattern matches, the check accepts. */
  lemma EmailCheckComplete(s: string)
    requires EmailShape(s)
    ensures IsValidEmail(s)
  {
    var i, j :| 0 <= i < j < |s| && s[i] == '@' && s[j] == '.'
      && EmailPart(s[..i]) && EmailPart(s[i + 1..j]) && EmailPart(s[j + 1..]);
    forall k | 0 <= k < |s| ensures !IsJsSpace(s[k]) && (s[k] == '@' ==> k == i) {
      if k < i {
        assert s[k] == s[..i][k];
      } else if i < k < j {
        assert s[k] == s[i + 1..j][k - i - 1];
      } else if j < k {
        assert s[k] == s[j + 1..][k - j - 1];
      }
    }
    var f := FirstAt(s);
    assert s[i] in s;
    assert f == Some(i);
    assert '@' !in s[i + 1..];
  }

  /** The check accepts exactly the strings the pattern matches. */
  lemma EmailCheckMatchesPattern(s: string)
    ensures IsValidEmail(s) <==> EmailShape(s)
  {
    if IsValidEmail(s) {
      EmailCheckSound(s);
    }
    if EmailShape(s) {
      EmailCheckComplete(s);
    }
  }

  // ------------------------------------------------------- time ago

  datatype Unit = Minutes | Hours | Days

  function UnitWord(u: Unit, n: nat): string {
    match u
    case Minutes => if n > 1 then " minutoumi" else " minutou"
    case Hours => if n > 1 then " hodinoumi" else " hodinou"
    case Days => if n > 1 then " dnemi" else " dnem"
  }

  const JustNow := "právě teď"
  const Ago := "před "

  /** `getRelativeTime` with the clock passed in: whole seconds since
      `past` (milliseconds), under a minute "právě teď", then whole
      minutes, hours or days. */
  function RelativeTime(past: int, now: int): string {
    var seconds := (now - past) / 1000;
    if seconds < 60 then JustNow
    else
      var minutes := seconds / 60;
      if minutes < 60 then Ago + (NatToString(minutes) + UnitWord(Minutes, minutes))
      else
        var hours := minutes / 60;
        if hours < 24 then Ago + (NatToString(hours) + UnitWord(Hours, hours))
        else
          var days := hours / 24;
          Ago + (NatToString(days) + UnitWord(Days, days))
  }

  function UnitSeconds(u: Unit): nat {
    match u
    case Minutes => 60
    case Hours => 3600
    case Days => 86400
  }

  /** Reads "před N <unit>" back into the count and the unit. */
  function ReadRelative(r: string): Option<(nat, Unit)> {
    if |r| < 5 || r[..5] != Ago then None
    else match Formatters.ReadNumber(r[5..])
      case None => None
      case Some((n, rest)) => UnitNamed(n, rest)
  }

  /** The unit whose word, for count `n`, is `w`. */
  function UnitNamed(n: nat, w: string): Option<(nat, Unit)> {
    if w == UnitWord(Minutes, n) then Some((n, Minutes))
    else if w == UnitWord(Hours, n) then Some((n, Hours))
    else if w == UnitWord(Days, n) then Some((n, Days))
    else None
  }

  lemma UnitNamedWord(n: nat, u: Unit)
    ensures UnitNamed(n, UnitWord(u, n)) == Some((n, u))
  {
    match u
    case Minutes =>
    case Hours =>
      assert UnitWord(Hours, n)[1] != UnitWord(Minutes, n)[1];
    case Days =>
      assert UnitWord(Days, n)[1] != UnitWord(Minutes, n)[1];
      assert UnitWord(Days, n)[1] != UnitWord(Hours, n)[1];
  }

  lemma RelativeStep(r: string, n: nat, rest: string)
    requires |r| >= 5 && r[..5] == Ago
    requires Formatters.ReadNumber(r[5..]) == Some((n, rest))
    ensures ReadRelative(r) == UnitNamed(n, rest)
  {
  }

  lemma ReadAgo(n: nat, u: Unit)
    ensures ReadRelative(Ago + (NatToString(n) + UnitWord(u, n))) == Some((n, u))
  {
    var w := UnitWord(u, n);
    var r := Ago + (NatToString(n) + w);
    assert r[..5] == Ago;
    assert r[5..] == NatToString(n) + w;
    Formatters.ReadRendered(n, w);
    RelativeStep(r, n, w);
    UnitNamedWord(n, u);
  }

  /** Under a minute the text is "právě teď"; otherwise it names the
      largest unit that fits (minutes below an hour, hours below a day,
      else days) and the count of whole units elapsed. */
  lemma RelativeTimeBuckets(past: int, now: int)
    ensures var s := (now - past) / 1000;
      && (RelativeTime(past, now) == JustNow <==> s < 60)
      && (s >= 60 ==>
            var read := ReadRelative(RelativeTime(past, now));
            && read.Some?
            && (read.value.1 == Minutes <==> s < 3600)
            && (read.value.1 == Hours <==> 3600 <= s < 86400)
            && read.value.0 * UnitSeconds(read.value.1) <= s < (read.value.0 + 1) * UnitSeconds(read.value.1))
  {
    var s := (now - past) / 1000;
    if s >= 60 {
      var r := RelativeTime(past, now);
      var m := s / 60;
      var h := m / 60;
      var d := h / 24;
      UnitDivisions(s);
      if m < 60 {
        assert r == Ago + (NatToString(m) + UnitWord(Minutes, m));
        ReadAgo(m, Minutes);
        assert (m + 1) * UnitSeconds(Minutes) == m * 60 + 60;
      } else if h < 24 {
        assert r == Ago + (NatToString(h) + UnitWord(Hours, h));
        ReadAgo(h, Hours);
        assert (h + 1) * UnitSeconds(Hours) == h * 3600 + 3600;
      } else {
        assert r == Ago + (NatToString(d) + UnitWord(Days, d));
        ReadAgo(d, Days);
        assert (d + 1) * UnitSeconds(Days) == d * 86400 + 86400;
      }
      assert r != JustNow by {
        assert r[..5] == Ago;
      }
    }
  }

  /** Minutes, hours and days taken by successive floor divisions are the
      whole units in `s` seconds. */
  lemma UnitDivisions(s: int)
    requires s >= 0
    ensures s / 60 / 60 == s / 3600 && s / 60 / 60 / 24 == s / 86400
    ensures s / 60 * 60 <= s < s / 60 * 60 + 60
    ensures s / 3600 * 3600 <= s < s / 3600 * 3600 + 3600
    ensures s / 86400 * 86400 <= s < s / 86400 * 86400 + 86400
  {
    var m := s / 60;
    var h := m / 60;
    assert s == h * 3600 + (m % 60) * 60 + s % 60;
    var d := h / 24;
    assert s == d * 86400 + (h % 24) * 3600 + (m % 60) * 60 + s % 60;
  }

  // ----------------------------------------------------- quality labels

  /** The key the status object carries for each quality level. */
  function QualityKey(q: Quality): string {
    match q
    case Excellent => "excellent"
    case Good => "good"
    case Poor => "poor"
    case QualityDisconnected => "disconnected"
  }

  /** `getConnectionQualityText`. */
  function QualityText(key: string): string {
    if key == "excellent" then "Vynikající"
    else if key == "good" then "Dobrá"
    else if key == "poor" then "Špatná"
    else if key == "disconnected" then "Odpojeno"
    else "Neznámá"
  }

  /** `getConnectionQualityColor`. */
  function QualityColor(key: string): string {
    if key == "excellent" then "#22c55e"
    else if key == "good" then "#3b82f6"
    else if key == "poor" then "#f59e0b"
    else if key == "disconnected" then "#ef4444"
    else "#6b7280"
  }

  /** Every quality the client reports has its own text and colour, none of
      them the fallback; any other key gets the fallback pair. */
  lemma QualityLabelsDistinct(p: Quality, q: Quality, key: string)
    ensures QualityText(QualityKey(q)) != "Neznámá" && QualityColor(QualityKey(q)) != "#6b7280"
    ensures QualityText(QualityKey(p)) == QualityText(QualityKey(q)) ==> p == q
    ensures QualityColor(QualityKey(p)) == QualityColor(QualityKey(q)) ==> p == q
    ensures (forall k: Quality :: key != QualityKey(k))
        ==> QualityText(key) == "Neznámá" && QualityColor(key) == "#6b7280"
  {
    if forall k: Quality :: key != QualityKey(k) {
      assert key != QualityKey(Excellent) && key != QualityKey(Good);
      assert key != QualityKey(Poor) && key != QualityKey(QualityDisconnected);
    }
  }
}
