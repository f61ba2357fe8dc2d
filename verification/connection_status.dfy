/** The connection-status bar: the badge colour for the reported quality,
    the connection and quality words, the latency colour, and the success
    rate of connection attempts. Uptime and latency texts come from the
    formatters. */
module ConnectionStatus {
  import opened Wrappers
  import opened Text
  import opened StatusParser
  import TextHelpers

  /** The badge's background class for a quality key. */
  function ConnectionColor(quality: string): string {
    if quality == "excellent" then "bg-green-500"
    else if quality == "good" then "bg-blue-500"
    else if quality == "poor" then "bg-yellow-500"
    else if quality == "disconnected" then "bg-red-500"
    else "bg-gray-500"
  }

  /** Each reported quality gets its own badge colour, none of them gray;
      any other key is gray. */
  lemma ConnectionColorsDistinct(p: Quality, q: Quality, key: string)
    ensures ConnectionColor(TextHelpers.QualityKey(q)) != "bg-gray-500"
    ensures ConnectionColor(TextHelpers.QualityKey(p)) == ConnectionColor(TextHelpers.QualityKey(q)) ==> p == q
    ensures (forall k: Quality :: key != TextHelpers.QualityKey(k)) ==> ConnectionColor(key) == "bg-gray-500"
  {
    if forall k: Quality :: key != TextHelpers.QualityKey(k) {
      assert key != TextHelpers.QualityKey(Excellent) && key != TextHelpers.QualityKey(Good);
      assert key != TextHelpers.QualityKey(Poor) && key != TextHelpers.QualityKey(QualityDisconnected);
    }
  }

  /** The bar's own quality word, chosen inline: its last case covers every
      key other than the first three. */
  function QualityWord(quality: string): string {
    if quality == "excellent" then "Vynikající"
    else if quality == "good" then "Dobrá"
    else if quality == "poor" then "Špatná"
    else "Odpojeno"
  }

  /** On the four reported qualities the bar's word is the utilities' text;
      on any other key the bar says "Odpojeno" where the utilities say
      "Neznámá". */
  lemma QualityWordMatchesHelpers(q: Quality, key: string)
    ensures QualityWord(TextHelpers.QualityKey(q)) == TextHelpers.QualityText(TextHelpers.QualityKey(q))
    ensures (forall k: Quality :: key != TextHelpers.QualityKey(k))
        ==> QualityWord(key) == "Odpojeno" && TextHelpers.QualityText(key) == "Neznámá"
  {
    if forall k: Quality :: key != TextHelpers.QualityKey(k) {
      assert key != TextHelpers.QualityKey(Excellent) && key != TextHelpers.QualityKey(Good);
      assert key != TextHelpers.QualityKey(Poor) && key != TextHelpers.QualityKey(QualityDisconnected);
    }
  }

  /** The connection word: connecting wins over the connected flag. */
  function ConnectionWord(isConnecting: bool, isConnected: bool): string {
    if isConnecting then "Připojuji..." else if isConnected then "Připojeno" else "Odpojeno"
  }

  lemma ConnectionWordCases(isConnecting: bool, isConnected: bool)
    ensures ConnectionWord(isConnecting, isConnected) == "Připojuji..." <==> isConnecting
    ensures ConnectionWord(isConnecting, isConnected) == "Připojeno" <==> !isConnecting && isConnected
    ensures ConnectionWord(isConnecting, isConnected) == "Odpojeno" <==> !isConnecting && !isConnected
  {
  }

  /** The transport line under the word. */
  function ConnectionTypeWord(connectionType: ConnectionType): string {
    if connectionType == Direct then "Direct MQTT" else "HTTP Proxy"
  }

  /** The latency is shown only while connected and when a non-zero latency
      is known. */
  predicate LatencyShown(isConnected: bool, latency: Option<int>) {
    isConnected && latency.Some? && latency.value != 0
  }

  /** The latency's text class: below 100 ms green, below 500 ms yellow,
      else red. */
  function LatencyClass(latency: int): string {
    if latency < 100 then "text-green-600"
    else if latency < 500 then "text-yellow-600"
    else "text-red-600"
  }

  /** The latency classes split the range at 100 and 500, and a larger
      latency never gets a better class. */
  lemma LatencyClassBands(a: int, b: int)
    ensures LatencyClass(a) == "text-green-600" <==> a < 100
    ensures LatencyClass(a) == "text-yellow-600" <==> 100 <= a < 500
    ensures LatencyClass(a) == "text-red-600" <==> a >= 500
    ensures a <= b && LatencyClass(a) == "text-red-600" ==> LatencyClass(b) == "text-red-600"
    ensures a <= b && LatencyClass(b) == "text-green-600" ==> LatencyClass(a) == "text-green-600"
  {
  }

  /** The success percentage of `attempts` connection attempts of which
      `successful` succeeded, rounded half up. */
  function SuccessPercent(successful: nat, attempts: nat): (p: int)
    requires attempts > 0
    ensures 2 * attempts * p - attempts <= 200 * successful < 2 * attempts * p + attempts
  {
    var p := (200 * successful + attempts) / (2 * attempts);
    assert 2 * attempts * p <= 200 * successful + attempts < 2 * attempts * p + 2 * attempts;
    p
  }

  /** The success-rate text: the percentage when there was an attempt,
      "N/A" before any. */
  function SuccessRateText(successful: nat, attempts: nat): string {
    if attempts > 0 then IntToString(SuccessPercent(successful, attempts)) + "%" else "N/A"
  }

  /** "N/A" exactly before the first attempt; afterwards the percentage is
      100 when every attempt succeeded and 0 when none did. */
  lemma SuccessRateShown(successful: nat, attempts: nat)
    ensures SuccessRateText(successful, attempts) == "N/A" <==> attempts == 0
    ensures attempts > 0 && successful == attempts ==> SuccessPercent(successful, attempts) == 100
    ensures attempts > 0 && successful == 0 ==> SuccessPercent(successful, attempts) == 0
  {
    if attempts > 0 {
      PercentTextNotNA(SuccessPercent(successful, attempts));
      if successful == attempts {
        AllSucceeded(attempts, SuccessPercent(successful, attempts));
      }
      if successful == 0 {
        PercentPinned(attempts, SuccessPercent(successful, attempts));
      }
    }
  }

  /** A rendered percentage ends in '%', so it is never "N/A". */
  lemma PercentTextNotNA(p: int)
    ensures IntToString(p) + "%" != "N/A"
  {
    var t := IntToString(p) + "%";
    assert t[|t| - 1] == '%';
  }

  /** With every attempt successful the rounded percentage is 100. */
  lemma AllSucceeded(a: int, p: int)
    requires a > 0 && 2 * a * p - a <= 200 * a < 2 * a * p + a
    ensures p == 100
  {
    var k := 2 * a;
    assert k * p - a <= k * 100 < k * p + a;
    if p > 100 {
      ScaleStep(k, 100, p);
    } else if p < 100 {
      ScaleStep(k, p, 100);
    }
  }

  /** With all attempts failed the rounded percentage is zero. */
  lemma PercentPinned(a: int, d: int)
    requires a > 0 && -a <= 2 * a * d < a
    ensures d == 0
  {
    var k := 2 * a;
    if d > 0 {
      ScaleStep(k, 0, d);
    } else if d < 0 {
      ScaleStep(k, d, 0);
    }
  }

  /** Scaling by a positive factor keeps a strict order at least one factor
      apart. */
  lemma ScaleStep(k: int, x: int, y: int)
    requires k > 0 && x < y
    ensures k * x + k <= k * y
  {
    var e := y - x - 1;
    assert k * y == k * x + k + k * e;
    assert k * e >= 0;
  }
}
