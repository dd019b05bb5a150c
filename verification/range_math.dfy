/**
 * The arithmetic every card shares: `Math.min`, `Math.max`, `Math.abs` on
 * real numbers, and the three-way classification of a value against an
 * ideal interval.
 */
module RangeMath {

  /** `Math.min(a, b)` */
  function Min(a: real, b: real): (r: real)
    ensures r <= a && r <= b
    ensures r == a || r == b
  {
    if a <= b then a else b
  }

  /** `Math.max(a, b)` */
  function Max(a: real, b: real): (r: real)
    ensures r >= a && r >= b
    ensures r == a || r == b
  {
    if a >= b then a else b
  }

  /** `Math.abs(a)` */
  function Abs(a: real): (r: real)
    ensures r >= 0.0
    ensures r == a || r == -a
  {
    if a < 0.0 then -a else a
  }

  /** Below the ideal range, inside it (bounds included), above it. */
  datatype Status = Baixo | Ideal | Alto

  /**
   * The classification every card applies: `v < lo` is decided first, then
   * `v > hi`, otherwise the value is ideal.
   */
  function Classify(v: real, lo: real, hi: real): (s: Status)
    ensures s == Baixo <==> v < lo
    ensures s == Alto <==> lo <= v && hi < v
    ensures s == Ideal <==> lo <= v <= hi
  {
    if v < lo then Baixo
    else if v > hi then Alto
    else Ideal
  }

  /** Dividing by a positive number keeps the order of the dividends. */
  lemma DivMonotone(a: real, b: real, d: real)
    requires a <= b && 0.0 < d
    ensures a / d <= b / d
  {
    assert b / d - a / d == (b - a) / d;
  }

  /** Multiplying by a non-negative number keeps the order. */
  lemma MulMonotone(a: real, b: real, c: real)
    requires a <= b && 0.0 <= c
    ensures a * c <= b * c
  {
    assert b * c - a * c == (b - a) * c;
  }

  /** A fraction `w` of `a` lies between 0 and `a`. */
  lemma FractionBetween(a: real, w: real)
    requires 0.0 <= w <= 1.0
    ensures a >= 0.0 ==> 0.0 <= a * w <= a
    ensures a <= 0.0 ==> a <= a * w <= 0.0
  {
    if a >= 0.0 {
      MulMonotone(0.0, w, a);
      MulMonotone(w, 1.0, a);
      assert a * w == w * a;
    } else {
      MulMonotone(0.0, w, -a);
      MulMonotone(w, 1.0, -a);
      assert a * w == -(w * -a);
    }
  }

  /** Dividing `d * c` by `d` gives back `c`. */
  lemma DivCancel(c: real, d: real)
    requires d != 0.0
    ensures (d * c) / d == c
  {
  }

  /** Multiplying `x / d` back by `d` gives back `x`. */
  lemma DivMulCancel(x: real, d: real)
    requires d != 0.0
    ensures (x / d) * d == x
  {
  }

  /** A part of a positive whole is a fraction in `[0, 1]`. */
  lemma UnitFraction(x: real, d: real)
    requires 0.0 <= x <= d && 0.0 < d
    ensures 0.0 <= x / d <= 1.0
  {
    DivMonotone(0.0, x, d);
    DivMonotone(x, d, d);
  }

  /** Where `x / d` falls relative to 0 and 1, by where `x` falls relative to 0 and `d`. */
  lemma FractionBounds(x: real, d: real)
    requires 0.0 < d
    ensures x <= 0.0 ==> x / d <= 0.0
    ensures x >= d ==> x / d >= 1.0
    ensures 0.0 <= x <= d ==> 0.0 <= x / d <= 1.0
  {
    if x <= 0.0 { DivMonotone(x, 0.0, d); }
    if x >= d { DivMonotone(d, x, d); }
    if 0.0 <= x <= d { UnitFraction(x, d); }
  }

  /** Moving from `hi` towards `lo` by the fraction `t` is the weighted mean of the two. */
  lemma Interpolation(lo: real, hi: real, t: real)
    ensures lo + (hi - lo) * (1.0 - t) == t * lo + (1.0 - t) * hi
  {
    assert (hi - lo) * (1.0 - t) == hi * (1.0 - t) - lo * (1.0 - t);
    assert lo * (1.0 - t) == lo - t * lo;
  }

  /** The interpolation stays between its ends and meets each end at its weight 1. */
  lemma InterpolationBetween(lo: real, hi: real, t: real)
    requires 0.0 <= t <= 1.0
    ensures var s := lo + (hi - lo) * (1.0 - t);
      && Min(lo, hi) <= s <= Max(lo, hi)
      && (t == 0.0 ==> s == hi)
      && (t == 1.0 ==> s == lo)
      && s == t * lo + (1.0 - t) * hi
  {
    var a := hi - lo;
    var w := 1.0 - t;
    FractionBetween(a, w);
    assert lo + a == hi;
    Interpolation(lo, hi, t);
  }

  /** Dividing by a positive number keeps strict order too. */
  lemma DivStrictMonotone(a: real, b: real, d: real)
    requires a < b && 0.0 < d
    ensures a / d < b / d
  {
    assert b / d - a / d == (b - a) / d;
  }
}
