/** The `%f` verb of Go's fmt package applied to a non-negative sample rate: the exact value
    rounded to six places after the point, an exact tie going to the even neighbour, printed as
    the integer part in decimal, a '.', and six fraction digits. A rate is modelled by the exact
    real number its float32 denotes. */
module RateFormat {
  import opened Options
  import opened Decimal

  /** `%f` prints six fraction digits. */
  const FractionDigits: nat := 6
  const Scale: nat := 1000000

  function Pow10(k: nat): nat
  {
    if k == 0 then 1 else 10 * Pow10(k - 1)
  }

  /** The integer nearest to x; of two equally near integers, the even one. */
  function RoundHalfEven(x: real): (m: int)
    ensures m as real - 0.5 <= x <= m as real + 0.5
    ensures x == m as real - 0.5 || x == m as real + 0.5 ==> m % 2 == 0
  {
    var f := x.Floor;
    var frac := x - f as real;
    if frac < 0.5 then f
    else if frac > 0.5 then f + 1
    else if f % 2 == 0 then f
    else f + 1
  }

  /** The rate as the whole number of millionths `%f` prints. */
  function Micros(rate: real): (m: nat)
    requires rate >= 0.0
    ensures m as real - 0.5 <= rate * 1000000.0 <= m as real + 0.5
  {
    RoundHalfEven(rate * 1000000.0)
  }

  /** k written with exactly w digits, zero-padded on the left. */
  function PaddedDigits(k: nat, w: nat): (s: string)
    requires k < Pow10(w)
    ensures |s| == w && AllDigits(s)
  {
    if w == 0 then [] else PaddedDigits(k / 10, w - 1) + [DigitChar(k % 10)]
  }

  lemma {:induction false} PaddedDigitsValue(k: nat, w: nat)
    requires k < Pow10(w)
    ensures DigitsValue(PaddedDigits(k, w)) == k
  {
    if w > 0 {
      var s := PaddedDigits(k, w);
      assert s[..|s| - 1] == PaddedDigits(k / 10, w - 1);
      PaddedDigitsValue(k / 10, w - 1);
    }
  }

  /** fmt.Sprintf("%f", rate) for a rate that is not negative. */
  function RenderRate(rate: real): (s: string)
    requires rate >= 0.0
    ensures |s| > FractionDigits + 1 && s[|s| - 7] == '.'
    ensures AllDigits(s[..|s| - 7]) && AllDigits(s[|s| - 6..])
  {
    var m := Micros(rate);
    assert Pow10(FractionDigits) == Scale;
    var whole, frac := NatDigits(m / Scale), PaddedDigits(m % Scale, FractionDigits);
    var s := whole + "." + frac;
    assert s[..|s| - 7] == whole && s[|s| - 6..] == frac;
    s
  }

  /** Reads "<digits>.<six digits>" back as a number of millionths. */
  function ReadFixed(s: string): Option<nat> {
    if |s| > FractionDigits + 1 && s[|s| - 7] == '.'
       && AllDigits(s[..|s| - 7]) && AllDigits(s[|s| - 6..])
    then Some(DigitsValue(s[..|s| - 7]) * Scale + DigitsValue(s[|s| - 6..]))
    else None
  }

  /** The rendered rate has the `%f` shape and reads back as the rate rounded to the nearest
      millionth, so it is within half a millionth of the rate. */
  lemma RenderRateRoundTrip(rate: real)
    requires rate >= 0.0
    ensures ReadFixed(RenderRate(rate)) == Some(Micros(rate))
    ensures Micros(rate) as real - 0.5 <= rate * 1000000.0 <= Micros(rate) as real + 0.5
  {
    var m := Micros(rate);
    assert Pow10(FractionDigits) == Scale;
    var whole, frac := NatDigits(m / Scale), PaddedDigits(m % Scale, FractionDigits);
    var s := RenderRate(rate);
    assert s == whole + "." + frac;
    assert s[..|s| - 7] == whole;
    assert s[|s| - 6..] == frac;
    NatDigitsRoundTrip(m / Scale);
    PaddedDigitsValue(m % Scale, FractionDigits);
  }

  /** A rate below one, the only kind submit renders, prints as "0.dddddd", except that one
      within half a millionth of 1 prints as "1.000000". */
  lemma RenderRateBelowOne(rate: real)
    requires 0.0 <= rate < 1.0
    ensures RenderRate(rate)[..2] == "0." || RenderRate(rate) == "1.000000"
  {
    var m := Micros(rate);
    assert m <= Scale;
    assert Pow10(FractionDigits) == Scale;
    if m < Scale {
      assert NatDigits(m / Scale) == "0";
    } else {
      assert m / Scale == 1 && m % Scale == 0;
      assert PaddedDigits(0, FractionDigits) == "000000";
    }
  }

  /** `%f` of one half. */
  lemma RenderHalf()
    ensures RenderRate(0.5) == "0.500000"
  {
    assert Micros(0.5) == 500000;
    assert NatDigits(0) == "0";
    assert Pow10(6) == 1000000;
    assert PaddedDigits(500000, 6) == "500000";
  }
}
