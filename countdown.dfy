/**
 * The launch countdown (src/components/landing/Countdown.tsx): the split of the
 * time left into days, hours, minutes and seconds, the two-digit display of
 * each unit, and the component state refreshed every second.
 *
 * Instants are integer milliseconds since the epoch; the clock reading `now`
 * is a parameter.
 */
module CountdownSection {

  /** 2026-03-01T00:00:00 read as UTC, in milliseconds since the epoch. */
  const LaunchMs: int := 1772323200000

  datatype TimeLeft = TimeLeft(days: int, hours: int, minutes: int, seconds: int)

  const Zero := TimeLeft(0, 0, 0, 0)

  /** Whole seconds a `TimeLeft` stands for. */
  function TotalSeconds(t: TimeLeft): int {
    t.days * 86400 + t.hours * 3600 + t.minutes * 60 + t.seconds
  }

  /** Rounding toward zero: the truncated quotient inside JavaScript's `%` operator. */
  function Trunc(x: real): (t: int)
    ensures x >= 0.0 ==> t >= 0 && t as real <= x < t as real + 1.0
    ensures x < 0.0 ==> t <= 0 && t as real - 1.0 < x <= t as real
  {
    if x >= 0.0 then x.Floor else -((-x).Floor)
  }

  /** JavaScript's `x % m` on numbers: the remainder of truncating division, with the sign of `x`. */
  function JsRem(x: real, m: real): (r: real)
    requires m != 0.0
    ensures x >= 0.0 && m > 0.0 ==> 0.0 <= r < m
  {
    var t := Trunc(x / m);
    if x >= 0.0 && m > 0.0 then
      RemainderBounds(x, m, t as real);
      x - m * t as real
    else
      x - m * t as real
  }

  /** If `a` is the whole part of `x / m`, then `x - m * a` lies in `[0, m)`. */
  lemma RemainderBounds(x: real, m: real, a: real)
    requires m > 0.0 && a <= x / m < a + 1.0
    ensures 0.0 <= x - m * a < m
  {
    var y := x / m;
    var b := a + 1.0;
    assert a <= y < b;
    assert x == y * m;
    assert a * m <= x by { ScaleUp(a, y, m); }
    assert x < b * m by { ScaleUpStrict(y, b, m); }
    assert b * m == a * m + m;
  }

  /** Multiplying both sides of `a <= b` by a positive `c`. */
  lemma ScaleUp(a: real, b: real, c: real)
    requires c > 0.0 && a <= b
    ensures a * c <= b * c
  {
  }

  /** Multiplying both sides of `a < b` by a positive `c`. */
  lemma ScaleUpStrict(a: real, b: real, c: real)
    requires c > 0.0 && a < b
    ensures a * c < b * c
  {
  }

  /**
   * `calculateTimeLeft`, with the source's own arithmetic: real division,
   * JavaScript remainder and `Math.floor`. A difference that is not positive
   * gives all zeros; otherwise every unit is in range and together they make
   * up the whole seconds left.
   */
  function CalculateTimeLeft(launch: int, now: int): (t: TimeLeft)
    ensures launch - now <= 0 ==> t == Zero
    ensures t.days >= 0
    ensures 0 <= t.hours < 24 && 0 <= t.minutes < 60 && 0 <= t.seconds < 60
    ensures launch - now > 0 ==> TotalSeconds(t) == (launch - now) / 1000
  {
    var difference := launch - now;
    if difference <= 0 then Zero
    else
      var d := difference as real;
      CalculateTimeLeftIsIntegral(difference);
      RecomposeSeconds(difference);
      TimeLeft(
        (d / (1000.0 * 60.0 * 60.0 * 24.0)).Floor,
        JsRem(d / (1000.0 * 60.0 * 60.0), 24.0).Floor,
        JsRem(d / 1000.0 / 60.0, 60.0).Floor,
        JsRem(d / 1000.0, 60.0).Floor)
  }

  /** The integer reference: each unit by integer division and remainder of the millisecond difference. */
  function Split(d: nat): TimeLeft {
    TimeLeft(d / 86400000, (d / 3600000) % 24, (d / 60000) % 60, (d / 1000) % 60)
  }

  /** Flooring a quotient of non-negative reals is integer division of the floor. */
  lemma FloorOfQuotient(x: real, m: int)
    requires x >= 0.0 && m > 0
    ensures (x / m as real).Floor == x.Floor / m
  {
    var n := x.Floor;
    var q := n / m;
    var r := n % m;
    assert n == q * m + r && 0 <= r < m;
    var mr := m as real;
    assert (q * m) as real == q as real * mr;
    assert q as real * mr <= x < (q + 1) as real * mr;
    var y := x / mr;
    assert y * mr == x;
    ScaleLe(q as real, y, mr);
    ScaleLt(y, (q + 1) as real, mr);
  }

  /** Dividing both sides of `a * c <= b * c` by a positive `c`. */
  lemma ScaleLe(a: real, b: real, c: real)
    requires c > 0.0 && a * c <= b * c
    ensures a <= b
  {
  }

  /** Dividing both sides of `a * c < b * c` by a positive `c`. */
  lemma ScaleLt(a: real, b: real, c: real)
    requires c > 0.0 && a * c < b * c
    ensures a < b
  {
  }

  /** Flooring a JavaScript remainder of a non-negative real is the integer remainder of the floor. */
  lemma FloorOfRem(x: real, m: int)
    requires x >= 0.0 && m > 0
    ensures JsRem(x, m as real).Floor == x.Floor % m
  {
    FloorOfQuotient(x, m);
    var q := x.Floor / m;
    assert Trunc(x / m as real) == q;
    assert (q * m) as real == q as real * m as real;
    assert JsRem(x, m as real) == x - (q * m) as real;
  }

  /** Flooring a non-negative integer divided by a positive constant is integer division. */
  lemma FloorOfIntQuotient(d: int, k: int)
    requires d >= 0 && k > 0
    ensures (d as real / k as real).Floor == d / k
  {
    FloorOfQuotient(d as real, k);
  }

  /** For a positive difference, the source's real arithmetic gives exactly the integer split. */
  lemma CalculateTimeLeftIsIntegral(d: int)
    requires d > 0
    ensures var x := d as real;
      && (x / (1000.0 * 60.0 * 60.0 * 24.0)).Floor == Split(d).days
      && JsRem(x / (1000.0 * 60.0 * 60.0), 24.0).Floor == Split(d).hours
      && JsRem(x / 1000.0 / 60.0, 60.0).Floor == Split(d).minutes
      && JsRem(x / 1000.0, 60.0).Floor == Split(d).seconds
  {
    var x := d as real;
    FloorOfIntQuotient(d, 86400000);
    assert 1000.0 * 60.0 * 60.0 * 24.0 == 86400000 as real;
    FloorOfIntQuotient(d, 3600000);
    FloorOfRem(x / 3600000.0, 24);
    assert 1000.0 * 60.0 * 60.0 == 3600000 as real;
    assert x / 1000.0 / 60.0 == x / 60000.0;
    FloorOfIntQuotient(d, 60000);
    FloorOfRem(x / 60000.0, 60);
    FloorOfIntQuotient(d, 1000);
    FloorOfRem(x / 1000.0, 60);
  }

  /** The integer split recomposes to the whole seconds of the difference. */
  lemma RecomposeSeconds(d: nat)
    ensures TotalSeconds(Split(d)) == d / 1000
  {
    var s := d / 1000;
    var m := s / 60;
    var h := m / 60;
    assert d / 60000 == m;
    assert d / 3600000 == h;
    assert d / 86400000 == h / 24;
    assert s == 60 * m + s % 60;
    assert m == 60 * h + m % 60;
    assert h == 24 * (h / 24) + h % 24;
  }

  /** A later clock reading never shows more time left. */
  lemma {:induction false} LaterNowNeverMoreTime(launch: int, now: int, later: int)
    requires now <= later
    ensures TotalSeconds(CalculateTimeLeft(launch, later)) <= TotalSeconds(CalculateTimeLeft(launch, now))
  {
    var d, d' := launch - now, launch - later;
    if d' > 0 {
      assert d' / 1000 <= d / 1000;
    }
  }

  // ---------------------------------------------------------------------------
  // Display: String(value).padStart(2, "0")
  // ---------------------------------------------------------------------------

  function DigitChar(k: int): char
    requires 0 <= k < 10
  {
    "0123456789"[k]
  }

  /** `String(n)` for an integer: its decimal digits, after a minus sign when negative. */
  function DecimalString(n: int): (s: string)
    decreases if n < 0 then -n + 1 else n
    ensures |s| >= 1
    ensures s[0] == '-' <==> n < 0
  {
    if n < 0 then "-" + DecimalString(-n)
    else if n < 10 then [DigitChar(n)]
    else DecimalString(n / 10) + [DigitChar(n % 10)]
  }

  /** `s.padStart(2, "0")`: zeros in front until the string is two characters long. */
  function PadStart2(s: string): (r: string)
    decreases 2 - |s|
    ensures |s| >= 2 ==> r == s
    ensures |s| == 1 ==> r == "0" + s
    ensures |s| == 0 ==> r == "00"
  {
    if |s| >= 2 then s else PadStart2("0" + s)
  }

  /** What a `CountdownUnit` shows for `value`. */
  function UnitText(value: int): (s: string)
    ensures |DecimalString(value)| >= 2 ==> s == DecimalString(value)
    ensures |DecimalString(value)| < 2 ==> s == "0" + DecimalString(value)
  {
    PadStart2(DecimalString(value))
  }

  /**
   * The unit text is never shorter than two characters: a single digit gets a
   * leading "0", a value of 10 or more is shown as it is, and reading the text
   * back as digits gives the value.
   */
  lemma UnitTextShape(value: int)
    ensures |UnitText(value)| >= 2
    ensures 0 <= value < 10 ==> UnitText(value) == ['0', DigitChar(value)]
    ensures value >= 10 ==> UnitText(value) == DecimalString(value)
    ensures value >= 0 ==> DigitsValue(UnitText(value)) == value
    ensures 0 <= value < 100 ==> |UnitText(value)| == 2
    ensures value >= 0 ==> AllDigits(UnitText(value))
    ensures value >= 10 ==> UnitText(value)[0] != '0'
  {
    DecimalStringLength(value);
    if value >= 10 {
      DecimalStringLength(value / 10);
    }
    if value >= 0 {
      DecimalStringDigits(value);
      DecimalStringRoundTrip(value);
      if value < 10 {
        LeadingZeroValue([DigitChar(value)]);
      }
    }
  }

  /** Every character is a decimal digit. */
  predicate AllDigits(s: string) {
    forall k :: 0 <= k < |s| ==> '0' <= s[k] <= '9'
  }

  /** `String(n)` of a non-negative `n` is all digits, with no leading '0' unless `n` is 0. */
  lemma {:induction false} DecimalStringDigits(n: nat)
    ensures AllDigits(DecimalString(n))
    ensures n >= 1 ==> DecimalString(n)[0] != '0'
  {
    if n >= 10 {
      DecimalStringDigits(n / 10);
    }
  }

  /** The value of a string of decimal digits; any other character reads as 0. */
  function DigitsValue(s: string): nat {
    if s == [] then 0
    else
      var c := s[|s| - 1];
      DigitsValue(s[..|s| - 1]) * 10 + (if '0' <= c <= '9' then (c - '0') as int else 0)
  }

  /** `String(n)` has at least two characters exactly when `n` has two or more digits or a sign. */
  lemma {:induction false} DecimalStringLength(n: int)
    decreases if n < 0 then -n + 1 else n
    ensures |DecimalString(n)| >= 1
    ensures 0 <= n < 10 <==> |DecimalString(n)| == 1
  {
    if n < 0 {
      DecimalStringLength(-n);
    } else if n >= 10 {
      DecimalStringLength(n / 10);
    }
  }

  /** `String(n)` of a non-negative `n` is a digit string that reads back as `n`. */
  lemma {:induction false} DecimalStringRoundTrip(n: nat)
    ensures AllDigits(DecimalString(n))
    ensures DigitsValue(DecimalString(n)) == n
  {
    DecimalStringDigits(n);
    if n < 10 {
      assert DecimalString(n)[..0] == [];
    } else {
      var s := DecimalString(n);
      assert s[..|s| - 1] == DecimalString(n / 10);
      DecimalStringRoundTrip(n / 10);
    }
  }

  /** A leading '0' does not change a digit string's value. */
  lemma {:induction false} LeadingZeroValue(s: string)
    ensures DigitsValue("0" + s) == DigitsValue(s)
    decreases |s|
  {
    if s != [] {
      var t := "0" + s;
      assert t[..|t| - 1] == "0" + s[..|s| - 1];
      assert t[|t| - 1] == s[|s| - 1];
      LeadingZeroValue(s[..|s| - 1]);
    } else {
      assert ("0" + s)[..0] == [];
    }
  }

  // ---------------------------------------------------------------------------
  // The component: `timeLeft` state overwritten by a 1 s interval
  // ---------------------------------------------------------------------------

  class Countdown {
    const launch: int
    var timeLeft: TimeLeft

    /** Every unit shown is non-negative, and hours, minutes and seconds are within their clock range. */
    ghost predicate Valid()
      reads this
    {
      timeLeft.days >= 0 && 0 <= timeLeft.hours < 24
      && 0 <= timeLeft.minutes < 60 && 0 <= timeLeft.seconds < 60
    }

    /** First render: `useState(calculateTimeLeft())` at the mount instant. */
    constructor (now: int)
      ensures Valid()
      ensures launch == LaunchMs
      ensures timeLeft == CalculateTimeLeft(LaunchMs, now)
    {
      launch := LaunchMs;
      timeLeft := CalculateTimeLeft(LaunchMs, now);
    }

    /** One firing of the 1000 ms interval at clock reading `now`. */
    method Tick(now: int)
      modifies this
      ensures Valid()
      ensures timeLeft == CalculateTimeLeft(launch, now)
    {
      timeLeft := CalculateTimeLeft(launch, now);
    }

    /**
     * The four unit texts shown, in order days, hours, minutes, seconds: each
     * is all decimal digits and reads back as its unit, the days take at least
     * two characters (exactly two below 100, with no leading '0' from 10
     * on) and the other three exactly two.
     */
    function Shown(): (texts: seq<string>)
      requires Valid()
      reads this
      ensures |texts| == 4
      ensures DigitsValue(texts[0]) == timeLeft.days && DigitsValue(texts[1]) == timeLeft.hours
      ensures DigitsValue(texts[2]) == timeLeft.minutes && DigitsValue(texts[3]) == timeLeft.seconds
      ensures |texts[0]| >= 2 && |texts[1]| == 2 && |texts[2]| == 2 && |texts[3]| == 2
      ensures AllDigits(texts[0]) && AllDigits(texts[1]) && AllDigits(texts[2]) && AllDigits(texts[3])
      ensures timeLeft.days >= 10 ==> texts[0][0] != '0'
      ensures timeLeft.days < 100 ==> |texts[0]| == 2
    {
      UnitTextShape(timeLeft.days);
      UnitTextShape(timeLeft.hours);
      UnitTextShape(timeLeft.minutes);
      UnitTextShape(timeLeft.seconds);
      [UnitText(timeLeft.days), UnitText(timeLeft.hours),
       UnitText(timeLeft.minutes), UnitText(timeLeft.seconds)]
    }
  }
}
