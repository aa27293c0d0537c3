/** The numeric helpers and constants of the `constants` class: interval tests,
    tolerant equality, clamping, angle wrapping, bit masks and unit conversions. */
module Constants {

  // ---------------------------------------------------------------------------
  // Bit masks (BIT0 .. BIT31 and the byte masks WORD0 .. WORD3)
  // ---------------------------------------------------------------------------

  const BIT0: bv32 := 1 << 0
  const BIT1: bv32 := 1 << 1
  const BIT2: bv32 := 1 << 2
  const BIT3: bv32 := 1 << 3
  const BIT4: bv32 := 1 << 4
  const BIT5: bv32 := 1 << 5
  const BIT6: bv32 := 1 << 6
  const BIT7: bv32 := 1 << 7
  const BIT8: bv32 := 1 << 8
  const BIT9: bv32 := 1 << 9
  const BIT10: bv32 := 1 << 10
  const BIT11: bv32 := 1 << 11
  const BIT12: bv32 := 1 << 12
  const BIT13: bv32 := 1 << 13
  const BIT14: bv32 := 1 << 14
  const BIT15: bv32 := 1 << 15
  const BIT16: bv32 := 1 << 16
  const BIT17: bv32 := 1 << 17
  const BIT18: bv32 := 1 << 18
  const BIT19: bv32 := 1 << 19
  const BIT20: bv32 := 1 << 20
  const BIT21: bv32 := 1 << 21
  const BIT22: bv32 := 1 << 22
  const BIT23: bv32 := 1 << 23
  const BIT24: bv32 := 1 << 24
  const BIT25: bv32 := 1 << 25
  const BIT26: bv32 := 1 << 26
  const BIT27: bv32 := 1 << 27
  const BIT28: bv32 := 1 << 28
  const BIT29: bv32 := 1 << 29
  const BIT30: bv32 := 1 << 30
  const BIT31: bv32 := 1 << 31

  const WORD0: bv32 := BIT0 | BIT1 | BIT2 | BIT3 | BIT4 | BIT5 | BIT6 | BIT7
  const WORD1: bv32 := BIT8 | BIT9 | BIT10 | BIT11 | BIT12 | BIT13 | BIT14 | BIT15
  const WORD2: bv32 := BIT16 | BIT17 | BIT18 | BIT19 | BIT20 | BIT21 | BIT22 | BIT23
  const WORD3: bv32 := BIT24 | BIT25 | BIT26 | BIT27 | BIT28 | BIT29 | BIT30 | BIT31

  /** WORD0 .. WORD3 are the four bytes of the word: pairwise disjoint, covering all 32 bits */
  lemma WordsPartitionTheWord()
    ensures WORD0 == 0x0000_00FF && WORD1 == 0x0000_FF00
    ensures WORD2 == 0x00FF_0000 && WORD3 == 0xFF00_0000
    ensures WORD0 & WORD1 == 0 && WORD0 & WORD2 == 0 && WORD0 & WORD3 == 0
    ensures WORD1 & WORD2 == 0 && WORD1 & WORD3 == 0 && WORD2 & WORD3 == 0
    ensures WORD0 | WORD1 | WORD2 | WORD3 == 0xFFFF_FFFF
  {
  }

  // ---------------------------------------------------------------------------
  // Interval predicates
  // ---------------------------------------------------------------------------

  /** value in [lhs, rhs] */
  predicate InIntervalClosedBoth(lhs: real, rhs: real, value: real) {
    if value >= lhs && value <= rhs then true else false
  }

  /** value in [lhs, rhs) */
  predicate InIntervalClosedLeft(lhs: real, rhs: real, value: real) {
    if value >= lhs && value < rhs then true else false
  }

  /** value in (lhs, rhs] */
  predicate InIntervalClosedRight(lhs: real, rhs: real, value: real) {
    if value > lhs && value <= rhs then true else false
  }

  /** value in (lhs, rhs) */
  predicate InIntervalOpenBoth(lhs: real, rhs: real, value: real) {
    if value > lhs && value < rhs then true else false
  }

  /** each predicate is the interval its name says, and open-both ⊆ half-open ⊆ closed-both */
  lemma IntervalsNest(lhs: real, rhs: real, v: real)
    ensures InIntervalClosedBoth(lhs, rhs, v) <==> lhs <= v <= rhs
    ensures InIntervalClosedLeft(lhs, rhs, v) <==> lhs <= v < rhs
    ensures InIntervalClosedRight(lhs, rhs, v) <==> lhs < v <= rhs
    ensures InIntervalOpenBoth(lhs, rhs, v) <==> lhs < v < rhs
    ensures InIntervalOpenBoth(lhs, rhs, v) ==> InIntervalClosedLeft(lhs, rhs, v) && InIntervalClosedRight(lhs, rhs, v)
    ensures InIntervalClosedLeft(lhs, rhs, v) ==> InIntervalClosedBoth(lhs, rhs, v)
    ensures InIntervalClosedRight(lhs, rhs, v) ==> InIntervalClosedBoth(lhs, rhs, v)
  {
  }

  // ---------------------------------------------------------------------------
  // Tolerant equality and clamping
  // ---------------------------------------------------------------------------

  /** `fabs` */
  function Abs(d: real): (r: real)
    ensures r >= 0.0 && (r == d || r == -d)
  {
    if d < 0.0 then -d else d
  }

  /** the default tolerance of `equals`, written 10E-5 in the source */
  const DefaultEps: real := 0.0001

  /** `equals(lhs, rhs, eps)`: strictly closer than eps */
  predicate Equals(lhs: real, rhs: real, eps: real := DefaultEps) {
    Abs(lhs - rhs) < eps
  }

  /** `equals` is the strict band |lhs - rhs| < eps, symmetric, and reflexive for a positive eps */
  lemma EqualsIsStrictBand(lhs: real, rhs: real, eps: real)
    ensures Equals(lhs, rhs, eps) <==> -eps < lhs - rhs < eps
    ensures Equals(lhs, rhs, eps) <==> Equals(rhs, lhs, eps)
    ensures eps > 0.0 ==> Equals(lhs, lhs, eps)
    ensures !Equals(lhs, lhs + eps, eps)
  {
  }

  /** std::min and std::max as the standard library defines them */
  function Min(a: real, b: real): real { if b < a then b else a }
  function Max(a: real, b: real): real { if a < b then b else a }

  /** `clamp_to_interval(val, left, right)` = max(min(val, right), left) */
  function ClampToInterval(val: real, left: real, right: real): (r: real)
    ensures left <= right ==> left <= r <= right
    ensures left <= right && left <= val <= right ==> r == val
    ensures left <= right && val < left ==> r == left
    ensures left <= right && val > right ==> r == right
    ensures left > right ==> r == left
  {
    Max(Min(val, right), left)
  }

  // ---------------------------------------------------------------------------
  // Mathematical and physical constants
  // ---------------------------------------------------------------------------

  const DegToRad: real := 0.017453292519943295769236907684886
  const RadToDeg: real := 57.295779513082320876798154814105
  const Pi: real := 3.14159265358979323846264338327950288419716939937510582097494459230781640628620899862803482534211706
  const PiOver2: real := Pi / 2.0
  const PiOver4: real := Pi / 4.0
  const PiOver6: real := Pi / 6.0
  const PiTimes2: real := 2.0 * Pi

  const MpsToKmph: real := 3.6
  const KmphToMps: real := 0.277777777778
  const MsToS: real := 1.0 / 1000.0
  const SToMs: real := 1.0 / MsToS
  const MsToNs: real := 1000000.0
  const NsToMs: real := 1.0 / MsToNs

  /** the time conversions are exact reciprocals; the speed ones only approximately */
  lemma UnitConversionsAreReciprocal()
    ensures SToMs * MsToS == 1.0 && SToMs == 1000.0
    ensures NsToMs * MsToNs == 1.0
    ensures MpsToKmph * KmphToMps != 1.0
    ensures Equals(MpsToKmph * KmphToMps, 1.0)
    ensures Equals(DegToRad * RadToDeg, 1.0)
    ensures 0.0 < PiOver6 < PiOver4 < PiOver2 < Pi < PiTimes2
  {
  }

  // ---------------------------------------------------------------------------
  // Angle wrapping
  // ---------------------------------------------------------------------------

  /** C `trunc`: rounds toward zero */
  function Trunc(x: real): (t: int)
    ensures x >= 0.0 ==> t as real <= x < t as real + 1.0
    ensures x < 0.0 ==> t as real - 1.0 < x <= t as real
  {
    if x >= 0.0 then x.Floor else -((-x).Floor)
  }

  /** d is a whole number of periods p */
  predicate IsWholeMultiple(d: real, p: real)
    requires p != 0.0
  {
    (d / p).Floor as real == d / p
  }

  /** C `fmod(a, p)`: a - p * trunc(a / p), which keeps the sign of a */
  function Fmod(a: real, p: real): (r: real)
    requires p > 0.0
    ensures a >= 0.0 ==> 0.0 <= r < p
    ensures a < 0.0 ==> -p < r <= 0.0
    ensures IsWholeMultiple(a - r, p)
  {
    var t := Trunc(a / p);
    FmodBounds(a, p, t);
    a - p * (t as real)
  }

  /** the remainder bound of fmod, from the truncation bound of a / p */
  lemma FmodBounds(a: real, p: real, t: int)
    requires p > 0.0 && t == Trunc(a / p)
    ensures a >= 0.0 ==> 0.0 <= a - p * (t as real) < p
    ensures a < 0.0 ==> -p < a - p * (t as real) <= 0.0
    ensures IsWholeMultiple(p * (t as real), p)
  {
    var q := a / p;
    var tr := t as real;
    var r := a - p * tr;
    assert r == p * (q - tr);
    if a >= 0.0 {
      assert q >= 0.0;
      ScaledFraction(p, q - tr, r);
    } else {
      assert q < 0.0;
      ScaledFraction(p, tr - q, -r);
    }
    MultipleOfPeriod(p, t);
  }

  /** a fraction in [0, 1) of a positive p lies in [0, p) */
  lemma ScaledFraction(p: real, d: real, x: real)
    requires p > 0.0 && 0.0 <= d < 1.0 && x == p * d
    ensures 0.0 <= x < p
  {
    assert p * d < p * 1.0;
  }

  lemma MultipleOfPeriod(p: real, t: int)
    requires p > 0.0
    ensures IsWholeMultiple(p * (t as real), p)
  {
    var pt := p * (t as real);
    assert pt / p == t as real;
  }

  /** the shared shape of `angle0to2Pi` and `angle0to360`: fmod, then lift a negative remainder by one period */
  function WrapAngle(angle: real, period: real): (r: real)
    requires period > 0.0
  {
    var a := Fmod(angle, period);
    if a < 0.0 then a + period else a
  }

  /** the wrapped angle lies in [0, period) and differs from the input by a whole number of periods */
  lemma {:induction false} WrapAngleRangeAndCongruence(angle: real, period: real)
    requires period > 0.0
    ensures 0.0 <= WrapAngle(angle, period) < period
    ensures IsWholeMultiple(WrapAngle(angle, period) - angle, period)
  {
    var a := Fmod(angle, period);
    WholeMultipleNegated(angle - a, period);
    if a < 0.0 {
      assert WrapAngle(angle, period) - angle == period - (angle - a);
    } else {
      assert WrapAngle(angle, period) - angle == -(angle - a);
    }
  }

  /** if d is a whole number of periods, so are -d and p - d */
  lemma WholeMultipleNegated(d: real, p: real)
    requires p > 0.0 && IsWholeMultiple(d, p)
    ensures IsWholeMultiple(-d, p)
    ensures IsWholeMultiple(p - d, p)
  {
    var n := (d / p).Floor;
    assert (-d) / p == -(d / p);
    QuotientOfDifference(p, d);
    assert (-d / p).Floor == -n;
    assert (1.0 - d / p).Floor == 1 - n;
  }

  lemma QuotientOfDifference(p: real, d: real)
    requires p > 0.0
    ensures (p - d) / p == 1.0 - d / p
  {
    assert (p - d) / p == p / p - d / p;
  }

  /** an angle already in [0, period) is returned unchanged, so wrapping is idempotent */
  lemma {:induction false} WrapAngleFixesRange(angle: real, period: real)
    requires period > 0.0
    ensures 0.0 <= angle < period ==> WrapAngle(angle, period) == angle
    ensures WrapAngle(WrapAngle(angle, period), period) == WrapAngle(angle, period)
  {
    WrapAngleRangeAndCongruence(angle, period);
    var w := WrapAngle(angle, period);
    FmodOfRange(w, period);
    if 0.0 <= angle < period {
      FmodOfRange(angle, period);
    }
  }

  /** fmod leaves a value in [0, p) alone */
  lemma FmodOfRange(x: real, p: real)
    requires p > 0.0 && 0.0 <= x < p
    ensures Fmod(x, p) == x
  {
    var q := x / p;
    assert 0.0 <= q < 1.0 by {
      if q >= 1.0 {
        ScaledAtLeastOne(p, q, x);
      }
    }
    assert Trunc(q) == 0;
  }

  lemma ScaledAtLeastOne(p: real, q: real, x: real)
    requires p > 0.0 && q >= 1.0 && x == p * q
    ensures x >= p
  {
    assert p * q >= p * 1.0;
  }

  /** `angle0to2Pi`: over the reals, the angle brought into [0, 2pi) (in double arithmetic a tiny
      negative angle rounds up to 2pi itself) */
  function Angle0To2Pi(angle: real): (r: real)
    ensures 0.0 <= r < PiTimes2
    ensures IsWholeMultiple(r - angle, PiTimes2)
    ensures 0.0 <= angle < PiTimes2 ==> r == angle
  {
    WrapAngleRangeAndCongruence(angle, PiTimes2);
    WrapAngleFixesRange(angle, PiTimes2);
    WrapAngle(angle, PiTimes2)
  }

  /** `angle0to360`: over the reals, the angle brought into [0, 360) (in double arithmetic a tiny
      negative angle rounds up to 360 itself) */
  function Angle0To360(angle: real): (r: real)
    ensures 0.0 <= r < 360.0
    ensures IsWholeMultiple(r - angle, 360.0)
    ensures 0.0 <= angle < 360.0 ==> r == angle
  {
    WrapAngleRangeAndCongruence(angle, 360.0);
    WrapAngleFixesRange(angle, 360.0);
    WrapAngle(angle, 360.0)
  }

  /** both wraps are idempotent */
  lemma {:induction false} AngleWrapsIdempotent(angle: real)
    ensures Angle0To360(Angle0To360(angle)) == Angle0To360(angle)
    ensures Angle0To2Pi(Angle0To2Pi(angle)) == Angle0To2Pi(angle)
  {
    WrapAngleFixesRange(angle, 360.0);
    WrapAngleFixesRange(angle, PiTimes2);
  }
}
