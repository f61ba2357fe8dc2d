/** The colour helpers: reading "#rrggbb" (the '#' optional, either case)
    into three components and writing three components back, with
    JavaScript's 32-bit shifts and base-16 rendering spelled out. */
module Colors {
  import opened Wrappers
  import opened Text

  datatype Rgb = Rgb(r: int, g: int, b: int)

  predicate IsHexDigit(c: char) {
    '0' <= c <= '9' || 'a' <= c <= 'f' || 'A' <= c <= 'F'
  }

  predicate AllHex(s: string) {
    forall i | 0 <= i < |s| :: IsHexDigit(s[i])
  }

  function HexValue(c: char): (v: nat)
    requires IsHexDigit(c)
    ensures v < 16
  {
    if '0' <= c <= '9' then c as int - '0' as int
    else if 'a' <= c <= 'f' then c as int - 'a' as int + 10
    else c as int - 'A' as int + 10
  }

  /** The lower-case digit base-16 rendering uses for `d`. */
  function HexDigit(d: nat): (c: char)
    requires d < 16
    ensures IsHexDigit(c) && HexValue(c) == d && !('A' <= c <= 'F')
  {
    if d < 10 then ('0' as int + d) as char else ('a' as int + d - 10) as char
  }

  /** Two hex digits read as one byte, as `parseInt(pair, 16)` does. */
  function HexPair(hi: char, lo: char): (v: nat)
    requires IsHexDigit(hi) && IsHexDigit(lo)
    ensures v < 256
  {
    HexValue(hi) * 16 + HexValue(lo)
  }

  /** The digits `hexToRgb` reads: `hex` without a leading '#' when it has
      seven characters and starts with one. */
  function HexBody(hex: string): string {
    if |hex| == 7 && hex[0] == '#' then hex[1..] else hex
  }

  /** `hexToRgb`: an optional '#' and exactly six hex digits in either case
      give the three bytes; anything else gives nothing. */
  function HexToRgb(hex: string): (c: Option<Rgb>)
    ensures c.Some? <==> |HexBody(hex)| == 6 && AllHex(HexBody(hex))
    ensures c.Some? ==> 0 <= c.value.r < 256 && 0 <= c.value.g < 256 && 0 <= c.value.b < 256
  {
    var d := HexBody(hex);
    if |d| == 6 && AllHex(d) then Some(Rgb(HexPair(d[0], d[1]), HexPair(d[2], d[3]), HexPair(d[4], d[5])))
    else None
  }

  /** Base-16 rendering of a non-negative integer, lower case. */
  function ToHex(n: nat): (s: string)
    ensures |s| >= 1
    decreases n
  {
    if n < 16 then [HexDigit(n)] else ToHex(n / 16) + [HexDigit(n % 16)]
  }

  /** `Number.prototype.toString(16)` on an integer. */
  function JsHex(n: int): (s: string)
    ensures |s| >= 1
  {
    if n < 0 then "-" + ToHex(-n) else ToHex(n)
  }

  /** JavaScript's ToInt32 on an integer value: wrap into [-2^31, 2^31). */
  function ToInt32(x: int): (y: int)
    ensures -0x8000_0000 <= y < 0x8000_0000
    ensures -0x8000_0000 <= x < 0x8000_0000 ==> y == x
  {
    (x + 0x8000_0000) % 0x1_0000_0000 - 0x8000_0000
  }

  /** `x << k` for a shift count below 32. */
  function ShiftLeft(x: int, k: nat): int
    requires k < 32
  {
    ToInt32(ToInt32(x) * Pow2(k))
  }

  function Pow2(k: nat): (p: nat)
    ensures p >= 1
  {
    if k == 0 then 1 else 2 * Pow2(k - 1)
  }

  /** `rgbToHex`: "#" and the base-16 rendering of 2^24 + (r << 16) +
      (g << 8) + b with its first character dropped. */
  function RgbToHex(r: int, g: int, b: int): string {
    "#" + JsHex(0x100_0000 + ShiftLeft(r, 16) + ShiftLeft(g, 8) + b)[1..]
  }

  /** One more base-16 digit appended to a number of at least one digit. */
  lemma ToHexStep(n: nat, d: nat)
    requires n >= 1 && d < 16
    ensures ToHex(n * 16 + d) == ToHex(n) + [HexDigit(d)]
  {
    assert (n * 16 + d) / 16 == n;
    assert (n * 16 + d) % 16 == d;
  }

  /** The six digits the writer emits for three bytes. */
  function ByteDigits(r: nat, g: nat, b: nat): (s: string)
    requires r < 256 && g < 256 && b < 256
    ensures |s| == 6
  {
    [HexDigit(r / 16), HexDigit(r % 16), HexDigit(g / 16), HexDigit(g % 16), HexDigit(b / 16), HexDigit(b % 16)]
  }

  lemma ShiftsInRange(r: nat, g: nat)
    requires r < 256 && g < 256
    ensures ShiftLeft(r, 16) == r * 65536
    ensures ShiftLeft(g, 8) == g * 256
  {
    assert Pow2(8) == 256 by {
      assert Pow2(4) == 16;
    }
    assert Pow2(16) == 65536 by {
      assert Pow2(8) == 256 by {
        assert Pow2(4) == 16;
      }
      assert Pow2(12) == 4096;
    }
  }

  /** For bytes, the rendered sum is "1" followed by two digits per byte. */
  lemma RenderedSum(r: nat, g: nat, b: nat)
    requires r < 256 && g < 256 && b < 256
    ensures ToHex(0x100_0000 + r * 65536 + g * 256 + b) == "1" + ByteDigits(r, g, b)
  {
    var t2 := (256 + r) * 256 + g;
    assert t2 * 256 + b == 0x100_0000 + r * 65536 + g * 256 + b;
    RenderedTwoBytes(r, g);
    ToHexByte(t2, b);
  }

  lemma RenderedOneByte(r: nat)
    requires r < 256
    ensures ToHex(256 + r) == "1" + [HexDigit(r / 16), HexDigit(r % 16)]
  {
    ToHexByte(1, r);
  }

  lemma RenderedTwoBytes(r: nat, g: nat)
    requires r < 256 && g < 256
    ensures ToHex((256 + r) * 256 + g)
         == "1" + [HexDigit(r / 16), HexDigit(r % 16), HexDigit(g / 16), HexDigit(g % 16)]
  {
    RenderedOneByte(r);
    ToHexByte(256 + r, g);
  }

  /** One more byte appended to a number of at least one digit adds its two
      base-16 digits. */
  lemma ToHexByte(n: nat, x: nat)
    requires n >= 1 && x < 256
    ensures ToHex(n * 256 + x) == ToHex(n) + [HexDigit(x / 16), HexDigit(x % 16)]
  {
    var m := n * 16 + x / 16;
    assert m * 16 + x % 16 == n * 256 + x;
    ToHexStep(n, x / 16);
    ToHexStep(m, x % 16);
  }

  /** For components in 0..255 the writer gives '#' and six lower-case hex
      digits, two per component. */
  lemma RgbToHexOfBytes(r: nat, g: nat, b: nat)
    requires r < 256 && g < 256 && b < 256
    ensures RgbToHex(r, g, b) == "#" + ByteDigits(r, g, b)
  {
    ShiftsInRange(r, g);
    RenderedSum(r, g, b);
    assert ("1" + ByteDigits(r, g, b))[1..] == ByteDigits(r, g, b);
  }

  /** Writing three bytes and reading the text back gives the bytes. */
  lemma RgbRoundTrip(r: nat, g: nat, b: nat)
    requires r < 256 && g < 256 && b < 256
    ensures HexToRgb(RgbToHex(r, g, b)) == Some(Rgb(r, g, b))
    ensures |RgbToHex(r, g, b)| == 7
  {
    RgbToHexOfBytes(r, g, b);
    var s := RgbToHex(r, g, b);
    var d := ByteDigits(r, g, b);
    assert HexBody(s) == d;
    assert AllHex(d);
    PairOfByte(r);
    PairOfByte(g);
    PairOfByte(b);
  }

  /** A byte's two written digits read back as the byte. */
  lemma PairOfByte(x: nat)
    requires x < 256
    ensures HexPair(HexDigit(x / 16), HexDigit(x % 16)) == x
  {
  }

  /** The digit written for a digit's value is its lower-case form. */
  lemma HexDigitOfValue(c: char)
    requires IsHexDigit(c)
    ensures HexDigit(HexValue(c)) == AsciiLowerChar(c)
  {
  }

  /** A byte read from two digits splits back into those digits' values. */
  lemma PairDigits(hi: char, lo: char)
    requires IsHexDigit(hi) && IsHexDigit(lo)
    ensures HexPair(hi, lo) / 16 == HexValue(hi) && HexPair(hi, lo) % 16 == HexValue(lo)
  {
  }

  /** Reading a colour and writing it back gives '#' and the digits read,
      lower-cased. */
  lemma HexRoundTrip(hex: string)
    requires HexToRgb(hex).Some?
    ensures var c := HexToRgb(hex).value; RgbToHex(c.r, c.g, c.b) == "#" + AsciiLower(HexBody(hex))
  {
    var d := HexBody(hex);
    var c := HexToRgb(hex).value;
    RgbToHexOfBytes(c.r, c.g, c.b);
    PairDigits(d[0], d[1]);
    PairDigits(d[2], d[3]);
    PairDigits(d[4], d[5]);
    HexDigitOfValue(d[0]);
    HexDigitOfValue(d[1]);
    HexDigitOfValue(d[2]);
    HexDigitOfValue(d[3]);
    HexDigitOfValue(d[4]);
    HexDigitOfValue(d[5]);
    var w := ByteDigits(c.r, c.g, c.b);
    var l := AsciiLower(d);
    assert w[0] == l[0] && w[1] == l[1] && w[2] == l[2];
    assert w[3] == l[3] && w[4] == l[4] && w[5] == l[5];
    assert w == l;
  }
}
