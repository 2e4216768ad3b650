/** Pure arithmetic helpers of the mining code: the 24-hour active-mining cap,
    the experience curve and the `hh:mm:ss` clock rendering. */
module MiningUtils {
  import opened Text

  /** The cap on cumulative active-mining seconds (24 hours). */
  const MAX_MINING_TIME: int := 86400

  /** 1.5 raised to a natural power. */
  function PowNat(n: nat): (r: real)
    ensures r >= 1.0
    ensures n > 0 ==> r >= 1.5
  {
    if n == 0 then 1.0 else 1.5 * PowNat(n - 1)
  }

  /** `Math.pow(1.5, e)` for an integral exponent, negative ones included. */
  function Pow15(e: int): (r: real)
    ensures r > 0.0
    ensures e >= 0 ==> r >= 1.0
  {
    if e >= 0 then PowNat(e) else 1.0 / PowNat(-e)
  }

  /** Experience needed to leave `level`: floor(100 * 1.5^(level - 1)). */
  function CalculateExpRequired(level: int): int
  {
    (100.0 * Pow15(level - 1)).Floor
  }

  lemma ExpRequiredAtLevelOne()
    ensures CalculateExpRequired(1) == 100
  {
  }

  lemma ExpRequiredAtLeastBase(level: int)
    requires level >= 1
    ensures CalculateExpRequired(level) >= 100
  {
  }

  /** Each level needs strictly more experience than the one before it. */
  lemma ExpRequiredStep(level: int)
    requires level >= 1
    ensures CalculateExpRequired(level) < CalculateExpRequired(level + 1)
  {
    var p := PowNat(level - 1);
    assert Pow15(level) == 1.5 * p;
    // the next threshold exceeds the current one by 50 * p >= 50 before flooring
    assert 100.0 * p + 1.0 <= 100.0 * (1.5 * p);
  }

  lemma {:induction false} ExpRequiredStrictlyIncreasing(a: int, b: int)
    requires 1 <= a < b
    ensures CalculateExpRequired(a) < CalculateExpRequired(b)
    decreases b - a
  {
    ExpRequiredStep(b - 1);
    if a < b - 1 {
      ExpRequiredStrictlyIncreasing(a, b - 1);
    }
  }

  /** JavaScript's `%` on numbers: the remainder takes the sign of the dividend,
      is smaller than `m` in size, and the dividend minus it is a whole
      multiple of `m` (the truncated quotient). */
  function JsRem(x: real, m: real): (r: real)
    requires m > 0.0
    ensures x >= 0.0 ==> 0.0 <= r < m
    ensures x < 0.0 ==> -m < r <= 0.0
    ensures ((x - r) / m).Floor as real == (x - r) / m
  {
    var q := x / m;
    var t := if q >= 0.0 then q.Floor else -((-q).Floor);
    TruncBounds(x, m, q, t as real);
    assert (m * t as real) / m == t as real;
    x - m * t as real
  }

  lemma TruncBounds(x: real, m: real, q: real, t: real)
    requires m > 0.0 && q == x / m
    requires q >= 0.0 ==> t <= q < t + 1.0
    requires q < 0.0 ==> t - 1.0 < q <= t
    ensures x >= 0.0 ==> 0.0 <= x - m * t < m
    ensures x < 0.0 ==> -m < x - m * t <= 0.0
  {
    assert m * q == x;
    var lo := m * (q - t);
    var hi := m * (t + 1.0 - q);
    assert lo == x - m * t;
    assert hi == m - (x - m * t);
    if x >= 0.0 {
      assert q >= 0.0 by {
        if q < 0.0 { MulSign(m, -q); }
      }
      MulSign(m, q - t);
      MulSign(m, t + 1.0 - q);
    } else {
      assert q < 0.0 by {
        if q >= 0.0 { MulSign(m, q); }
      }
      MulSign(m, t - q);
      MulSign(m, q - t + 1.0);
      assert m * (t - q) == -lo;
      assert m * (q - t + 1.0) == lo + m;
      assert t - 1.0 < q;
      assert q - t + 1.0 > 0.0;
      assert lo + m > 0.0;
    }
  }

  /** The three numeric fields `formatTime` renders. */
  datatype Clock = Clock(hours: int, minutes: int, secs: int)

  function ClockOf(seconds: real): Clock
  {
    Clock((seconds / 3600.0).Floor,
          (JsRem(seconds, 3600.0) / 60.0).Floor,
          JsRem(seconds, 60.0).Floor)
  }

  /** One rendered field: decimal, zero-padded to at least two characters. */
  function Field(n: int): string
  {
    PadStart(IntToString(n), 2, '0')
  }

  /** `formatTime`: seconds rendered as `hh:mm:ss`. */
  function FormatTime(seconds: real): string
  {
    var c := ClockOf(seconds);
    Field(c.hours) + ":" + Field(c.minutes) + ":" + Field(c.secs)
  }

  /** For non-negative input the fields are a proper clock reading of the
      whole seconds: minutes and seconds in 0..59, summing back to floor(seconds). */
  lemma ClockOfDecomposes(seconds: real)
    requires seconds >= 0.0
    ensures 0 <= ClockOf(seconds).minutes < 60
    ensures 0 <= ClockOf(seconds).secs < 60
    ensures ClockOf(seconds).hours >= 0
    ensures ClockOf(seconds).hours * 3600 + ClockOf(seconds).minutes * 60
            + ClockOf(seconds).secs == seconds.Floor
  {
    var f := seconds.Floor;
    var h := (seconds / 3600.0).Floor;
    FloorDivConst(seconds, 3600);
    assert h == f / 3600;
    var r := JsRem(seconds, 3600.0);
    assert r == seconds - 3600.0 * h as real;
    assert r.Floor == f - 3600 * h;
    FloorDivConst(r, 60);
    var m := (r / 60.0).Floor;
    assert m == (f - 3600 * h) / 60;
    var q := (seconds / 60.0).Floor;
    FloorDivConst(seconds, 60);
    assert JsRem(seconds, 60.0) == seconds - 60.0 * q as real;
    var s := JsRem(seconds, 60.0).Floor;
    assert s == f - 60 * q;
    assert q == f / 60;
    DivMod3600(f);
  }

  /** floor(x / k) == floor(x) div k for x >= 0 and a positive integer k. */
  lemma FloorDivConst(x: real, k: int)
    requires x >= 0.0 && k > 0
    ensures (x / k as real).Floor == x.Floor / k
  {
    var f := x.Floor;
    var q := f / k;
    var rem := f % k;
    assert f == q * k + rem && 0 <= rem < k;
    assert q as real * k as real <= x;
    assert x < (q + 1) as real * k as real by {
      assert (f + 1) as real > x;
      assert f + 1 <= (q + 1) * k;
    }
    assert q as real <= x / k as real < (q + 1) as real by {
      DivBounds(x, k as real, q as real);
    }
  }

  lemma MulSign(m: real, a: real)
    requires m > 0.0
    ensures a >= 0.0 <==> m * a >= 0.0
    ensures a > 0.0 <==> m * a > 0.0
  {
  }

  lemma DivBounds(x: real, k: real, q: real)
    requires k > 0.0 && q * k <= x < (q + 1.0) * k
    ensures q <= x / k < q + 1.0
  {
    var d := x / k;
    assert k * (d - q) == x - q * k;
    assert k * (q + 1.0 - d) == (q + 1.0) * k - x;
    MulSign(k, d - q);
    MulSign(k, q + 1.0 - d);
  }

  lemma DivMod3600(f: int)
    requires f >= 0
    ensures (f / 3600) * 3600 + ((f - 3600 * (f / 3600)) / 60) * 60 + (f - 60 * (f / 60)) == f
  {
    var h := f / 3600;
    var r := f - 3600 * h;
    assert 0 <= r < 3600;
    var m := r / 60;
    assert f / 60 == 60 * h + m;
  }

  /** The rendering is three non-empty decimal fields separated by `:`, each
      at least two characters wide and reading back as its clock field; the
      minutes and seconds fields are exactly two characters, and so is the
      hours field below 100 hours. */
  lemma FormatTimeShape(seconds: real)
    requires seconds >= 0.0
    ensures var c := ClockOf(seconds);
      FormatTime(seconds) == Field(c.hours) + ":" + Field(c.minutes) + ":" + Field(c.secs)
      && |Field(c.hours)| >= 2 && |Field(c.minutes)| == 2 && |Field(c.secs)| == 2
      && (c.hours < 100 ==> |Field(c.hours)| == 2)
      && AllDigits(Field(c.hours)) && AllDigits(Field(c.minutes)) && AllDigits(Field(c.secs))
      && DigitsValue(Field(c.hours)) == c.hours
      && DigitsValue(Field(c.minutes)) == c.minutes
      && DigitsValue(Field(c.secs)) == c.secs
  {
    var c := ClockOf(seconds);
    ClockOfDecomposes(seconds);
    FieldReadsBack(c.hours);
    FieldReadsBack(c.minutes);
    FieldReadsBack(c.secs);
  }

  lemma FieldReadsBack(n: int)
    requires n >= 0
    ensures AllDigits(Field(n)) && DigitsValue(Field(n)) == n
    ensures |Field(n)| >= 2
    ensures n < 100 ==> |Field(n)| == 2
  {
    NatToStringRoundTrip(n);
    ZeroPadValue(IntToString(n), 2);
    if n >= 10 && n < 100 {
      assert NatToString(n) == NatToString(n / 10) + [DigitChar(n % 10)];
    }
  }
}
