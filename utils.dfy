/**
 * The pure helpers of js/utils.js: inclusive random integers, clamping,
 * the two timer formats and the ship's position on the map.
 *
 * `Math.random()` is not called here: every helper that needs it takes the
 * drawn value `draw`, a real in [0, 1), as a parameter.
 */
module Utils {

  /** A point on the map overlay or the ship trail. */
  datatype Point = Point(x: real, y: real)

  // ---------------------------------------------------------------
  // randRange
  // ---------------------------------------------------------------

  /** For 0 <= draw < 1 and n >= 1, draw * n lies in [0, n). */
  lemma ScaledDrawBelow(draw: real, n: int)
    requires 0.0 <= draw < 1.0 && n >= 1
    ensures 0.0 <= draw * n as real < n as real
  {
    assert (1.0 - draw) * n as real > 0.0;
  }

  /** `randRange(min, max)`: floor(draw * (max - min + 1)) + min, an integer of [min, max]. */
  function RandRange(min: int, max: int, draw: real): (v: int)
    requires 0.0 <= draw < 1.0
    ensures min <= max ==> min <= v <= max
  {
    if min <= max then ScaledDrawBelow(draw, max - min + 1); (draw * (max - min + 1) as real).Floor + min
    else (draw * (max - min + 1) as real).Floor + min
  }

  /** Every integer of [min, max] is produced by some draw, so no value of the range is missed. */
  lemma RandRangeReaches(min: int, max: int, v: int)
    requires min <= v <= max
    ensures var draw := (v - min) as real / (max - min + 1) as real;
            0.0 <= draw < 1.0 && RandRange(min, max, draw) == v
  {
    var n := (max - min + 1) as real;
    var draw := (v - min) as real / n;
    assert draw * n == (v - min) as real;
  }

  // ---------------------------------------------------------------
  // clamp
  // ---------------------------------------------------------------

  /** `clamp(value, min, max)` = max(min, min(max, value)). */
  function Clamp(value: int, min: int, max: int): (r: int)
    ensures min <= max ==> min <= r <= max
    ensures min <= value <= max ==> r == value
    ensures value < min ==> r == min
    ensures min <= max < value ==> r == max
  {
    var upper := if max < value then max else value;
    if min > upper then min else upper
  }

  /** Clamping twice changes nothing more than clamping once. */
  lemma ClampIdempotent(value: int, min: int, max: int)
    requires min <= max
    ensures Clamp(Clamp(value, min, max), min, max) == Clamp(value, min, max)
  {
  }

  // ---------------------------------------------------------------
  // Decimal text (the `${n}` and `String(n)` conversions)
  // ---------------------------------------------------------------

  predicate IsDigit(c: char) { '0' <= c <= '9' }

  predicate AllDigits(s: string) { forall i :: 0 <= i < |s| ==> IsDigit(s[i]) }

  function DigitChar(d: int): (c: char)
    requires 0 <= d < 10
    ensures IsDigit(c) && c as int - '0' as int == d
  {
    (d + '0' as int) as char
  }

  /** The number a string of decimal digits denotes (the reference reading of the conversions below). */
  function DecimalValue(s: string): nat
    requires AllDigits(s)
  {
    if |s| == 0 then 0
    else DecimalValue(s[..|s| - 1]) * 10 + (s[|s| - 1] as int - '0' as int)
  }

  /** The decimal text of a non-negative integer, without leading zeros. */
  function NatToDecimal(n: nat): (s: string)
    ensures 1 <= |s| && AllDigits(s)
    ensures n < 10 ==> |s| == 1
    ensures n < 100 ==> |s| <= 2
    ensures |s| > 1 ==> s[0] != '0'
    ensures n >= 1 ==> s[0] != '0'
  {
    if n < 10 then [DigitChar(n)]
    else NatToDecimal(n / 10) + [DigitChar(n % 10)]
  }

  /** Reading the decimal text back gives the number. */
  lemma {:induction false} DecimalRoundTrip(n: nat)
    ensures DecimalValue(NatToDecimal(n)) == n
  {
    if n >= 10 {
      var s := NatToDecimal(n);
      assert s[..|s| - 1] == NatToDecimal(n / 10);
      DecimalRoundTrip(n / 10);
    }
  }

  /** `padStart(width, c)`: prefix `c` until the text is at least `width` long. */
  function PadStart(s: string, width: nat, c: char): (r: string)
    ensures |r| == if |s| >= width then |s| else width
    ensures r[|r| - |s|..] == s
    ensures forall i :: 0 <= i < |r| - |s| ==> r[i] == c
    decreases width - |s|
  {
    if |s| >= width then s else PadStart([c] + s, width, c)
  }

  /** A leading zero does not change the value of a digit string. */
  lemma {:induction false} LeadingZero(s: string)
    requires AllDigits(s)
    ensures AllDigits(['0'] + s) && DecimalValue(['0'] + s) == DecimalValue(s)
  {
    if |s| > 0 {
      var t := ['0'] + s;
      assert t[..|t| - 1] == ['0'] + s[..|s| - 1];
      LeadingZero(s[..|s| - 1]);
    }
  }

  /** Padding with zeros keeps the text a digit string of the same value. */
  lemma {:induction false} ZeroPadKeepsValue(s: string, width: nat)
    requires AllDigits(s)
    ensures AllDigits(PadStart(s, width, '0'))
    ensures DecimalValue(PadStart(s, width, '0')) == DecimalValue(s)
    decreases width - |s|
  {
    if |s| < width {
      LeadingZero(s);
      ZeroPadKeepsValue(['0'] + s, width);
    }
  }

  // ---------------------------------------------------------------
  // formatTime and formatMapTime
  // ---------------------------------------------------------------

  /**
   * `formatTime(seconds)`: "READY" when nothing is left, otherwise the seconds
   * in decimal without leading zeros, followed by "s".
   */
  function FormatTime(seconds: int): (r: string)
    ensures seconds <= 0 ==> r == "READY"
    ensures seconds > 0 ==>
      && |r| >= 2 && r[|r| - 1] == 's'
      && AllDigits(r[..|r| - 1]) && DecimalValue(r[..|r| - 1]) == seconds
      && r[0] != '0'
  {
    if seconds <= 0 then "READY"
    else
      var digits := NatToDecimal(seconds);
      DecimalRoundTrip(seconds);
      assert (digits + "s")[..|digits|] == digits;
      digits + "s"
  }

  /** `String(n).padStart(2, '0')` */
  function TwoDigits(n: nat): (r: string)
    ensures AllDigits(r) && |r| >= 2 && DecimalValue(r) == n
    ensures n < 100 ==> |r| == 2
    ensures |r| > 2 ==> r[0] != '0'
  {
    DecimalRoundTrip(n);
    ZeroPadKeepsValue(NatToDecimal(n), 2);
    PadStart(NatToDecimal(n), 2, '0')
  }

  /**
   * `formatMapTime(seconds)`: negative input counts as zero; the result is the
   * minutes (no leading zero beyond two digits), a colon and exactly two digits
   * of seconds below 60, and it reads back as the (non-negative) input.
   */
  function FormatMapTime(seconds: int): (r: string)
    ensures seconds < 0 ==> r == "00:00"
    ensures |r| >= 5 && r[|r| - 3] == ':'
    ensures AllDigits(r[..|r| - 3]) && AllDigits(r[|r| - 2..])
    ensures DecimalValue(r[|r| - 2..]) < 60
    ensures |r| > 5 ==> r[0] != '0'
    ensures 60 * DecimalValue(r[..|r| - 3]) + DecimalValue(r[|r| - 2..])
            == if seconds < 0 then 0 else seconds
  {
    if seconds < 0 then
      ClockParts("00", "00");
      assert DecimalValue("00") == DecimalValue("0") * 10;
      "00:00"
    else
      var minutes, rest := TwoDigits(seconds / 60), TwoDigits(seconds % 60);
      ClockParts(minutes, rest);
      minutes + ":" + rest
  }

  /** Where the two halves of a clock text "M...M:SS" sit. */
  lemma ClockParts(minutes: string, rest: string)
    requires |rest| == 2
    ensures var r := minutes + ":" + rest;
            r[..|r| - 3] == minutes && r[|r| - 3] == ':' && r[|r| - 2..] == rest
            && (|minutes| > 0 ==> r[0] == minutes[0])
  {
  }

  /**
   * Below 100 minutes the map clock is exactly "MM:SS" with SS below 60, and
   * 60 * MM + SS gives the seconds back (so the text is fixed by the seconds).
   */
  lemma MapTimeRoundTrip(seconds: int)
    requires 0 <= seconds < 6000
    ensures var r := FormatMapTime(seconds);
            && |r| == 5 && r[2] == ':'
            && AllDigits(r[..2]) && AllDigits(r[3..])
            && DecimalValue(r[3..]) < 60
            && 60 * DecimalValue(r[..2]) + DecimalValue(r[3..]) == seconds
  {
    var r := FormatMapTime(seconds);
    var minutes, rest := TwoDigits(seconds / 60), TwoDigits(seconds % 60);
    assert r == minutes + ":" + rest;
    assert |r| == 5;
    assert r[..|r| - 3] == r[..2] && r[|r| - 2..] == r[3..];
  }

  // ---------------------------------------------------------------
  // getShipMapPosition
  // ---------------------------------------------------------------

  predicate Between(v: real, a: real, b: real) {
    (a <= v <= b) || (b <= v <= a)
  }

  /** `getShipMapPosition(ratio, start, end)`: linear interpolation from `start` to `end`. */
  function ShipMapPosition(ratio: real, start: Point, end: Point): (p: Point)
    ensures ratio == 0.0 ==> p == start
    ensures ratio == 1.0 ==> p == end
  {
    Point(start.x + (end.x - start.x) * ratio, start.y + (end.y - start.y) * ratio)
  }

  /** For a progress ratio in [0, 1] the ship lies on the segment between the two nodes. */
  lemma ShipStaysOnSegment(ratio: real, start: Point, end: Point)
    requires 0.0 <= ratio <= 1.0
    ensures var p := ShipMapPosition(ratio, start, end);
            Between(p.x, start.x, end.x) && Between(p.y, start.y, end.y)
  {
    InterpolationBetween(start.x, end.x, ratio);
    InterpolationBetween(start.y, end.y, ratio);
  }

  lemma InterpolationBetween(a: real, b: real, t: real)
    requires 0.0 <= t <= 1.0
    ensures Between(a + (b - a) * t, a, b)
  {
    var d := b - a;
    var k := d * t;
    if d >= 0.0 {
      assert d * (1.0 - t) >= 0.0;
      assert 0.0 <= k <= d;
    } else {
      assert (-d) * (1.0 - t) >= 0.0;
      assert (-d) * t >= 0.0;
      assert d <= k <= 0.0;
    }
  }
}
