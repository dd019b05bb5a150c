/**
 * The pH card: a 0–14 colour scale with the ideal band drawn on it, a plant
 * marker placed at the reading and scaled by how close the reading is to
 * the ideal band, and a status badge.
 */
module PhCard {

  import opened RangeMath

  const ScaleMin: real := 0.0
  const ScaleMax: real := 14.0

  /**
   * `pct(val, min, max)`: the reading clamped into `[min, max]`, as a
   * percentage of the scale.
   */
  function Pct(val: real, min: real, max: real): (p: real)
    requires min < max
    ensures 0.0 <= p <= 100.0
    ensures val <= min ==> p == 0.0
    ensures val >= max ==> p == 100.0
    ensures min <= val <= max ==> p * (max - min) == (val - min) * 100.0
  {
    var cl := Max(min, Min(max, val));
    FractionBounds(cl - min, max - min);
    DivMulCancel(cl - min, max - min);
    ((cl - min) / (max - min)) * 100.0
  }

  /** `pct` with its default scale 0..14. */
  function PctDefault(val: real): (p: real)
    ensures 0.0 <= p <= 100.0
    ensures val <= ScaleMin ==> p == 0.0
    ensures val >= ScaleMax ==> p == 100.0
  {
    Pct(val, ScaleMin, ScaleMax)
  }

  lemma PctMonotone(v1: real, v2: real, min: real, max: real)
    requires min < max && v1 <= v2
    ensures Pct(v1, min, max) <= Pct(v2, min, max)
  {
    var c1, c2 := Max(min, Min(max, v1)), Max(min, Min(max, v2));
    DivMonotone(c1 - min, c2 - min, max - min);
    MulMonotone((c1 - min) / (max - min), (c2 - min) / (max - min), 100.0);
  }

  /** The distance from the reading to the nearer end of the ideal band (0 inside it). */
  function Delta(value: real, iMin: real, iMax: real): (d: real)
    ensures d >= 0.0
    ensures iMin <= value <= iMax ==> d == 0.0
    ensures iMin <= iMax && !(iMin <= value <= iMax) ==> d > 0.0
  {
    var inside := value >= iMin && value <= iMax;
    if inside then 0.0 else Min(Abs(value - iMin), Abs(value - iMax))
  }

  /** The divisor of `growthFactor`: the widest gap between the band and the scale ends, at least 0.0001. */
  function MaxDist(iMin: real, iMax: real, totalMin: real, totalMax: real): (m: real)
    ensures m >= 0.0001
    ensures m >= iMin - totalMin && m >= totalMax - iMax
  {
    Max(Max(iMin - totalMin, totalMax - iMax), 0.0001)
  }

  /**
   * `growthFactor`: the plant's size, from 0.1 (far from the ideal band) to
   * 0.5 (inside it).
   */
  function GrowthFactor(value: real, iMin: real, iMax: real, totalMin: real, totalMax: real): (g: real)
    ensures 0.1 <= g <= 0.5
    ensures iMin <= value <= iMax ==> g == 0.5
    ensures var delta := Delta(value, iMin, iMax); var maxDist := MaxDist(iMin, iMax, totalMin, totalMax);
      && (delta <= maxDist ==> (g - 0.1) * maxDist == 0.4 * (maxDist - delta))
      && (delta >= maxDist ==> g == 0.1)
  {
    var delta := Delta(value, iMin, iMax);
    var maxDist := MaxDist(iMin, iMax, totalMin, totalMax);
    FractionBounds(delta, maxDist);
    DivMulCancel(delta, maxDist);
    var closeness := Max(0.0, Min(1.0, 1.0 - delta / maxDist));
    assert delta <= maxDist ==> closeness * maxDist == maxDist - delta by {
      if delta <= maxDist {
        assert closeness == 1.0 - delta / maxDist;
        assert (1.0 - delta / maxDist) * maxDist == maxDist - (delta / maxDist) * maxDist;
      }
    }
    assert (closeness * 0.4) * maxDist == 0.4 * (closeness * maxDist);
    0.1 + closeness * 0.4
  }

  /** With a well-formed band the plant is full size exactly when the reading is inside it. */
  lemma GrowthFactorFullIffIdeal(value: real, iMin: real, iMax: real, totalMin: real, totalMax: real)
    requires iMin <= iMax
    ensures GrowthFactor(value, iMin, iMax, totalMin, totalMax) == 0.5 <==> iMin <= value <= iMax
  {
    var delta := Delta(value, iMin, iMax);
    var maxDist := MaxDist(iMin, iMax, totalMin, totalMax);
    if !(iMin <= value <= iMax) {
      assert delta / maxDist > 0.0;
    }
  }

  /** A reading nearer the band never gives a smaller plant. */
  lemma GrowthFactorMonotone(v1: real, v2: real, iMin: real, iMax: real, totalMin: real, totalMax: real)
    requires Delta(v1, iMin, iMax) <= Delta(v2, iMin, iMax)
    ensures GrowthFactor(v1, iMin, iMax, totalMin, totalMax) >= GrowthFactor(v2, iMin, iMax, totalMin, totalMax)
  {
    var maxDist := MaxDist(iMin, iMax, totalMin, totalMax);
    DivMonotone(Delta(v1, iMin, iMax), Delta(v2, iMin, iMax), maxDist);
  }

  datatype BadgeColor = Green | Red | Blue

  /** What the card shows for a reading: status, badge colour and badge label. */
  datatype Badge = Badge(status: Status, color: BadgeColor, text: string)

  /** The status memo and its derived colour and label. */
  function BadgeFor(value: real, idealMin: real, idealMax: real): (b: Badge)
    ensures b.status == Classify(value, idealMin, idealMax)
    ensures b.color == Red && b.text == "Ácido" <==> value < idealMin
    ensures b.color == Blue && b.text == "Alcalino" <==> idealMin <= value && idealMax < value
    ensures b.color == Green && b.text == "Ideal" <==> idealMin <= value <= idealMax
  {
    var status := if value < idealMin then Baixo else if value > idealMax then Alto else Ideal;
    var statusColor := if status == Ideal then Green else if status == Baixo then Red else Blue;
    var statusLabel := if status == Ideal then "Ideal" else if status == Baixo then "Ácido" else "Alcalino";
    Badge(status, statusColor, statusLabel)
  }

  /** The ideal band drawn on the scale: its left edge and width, in percent. */
  function IdealBand(idealMin: real, idealMax: real): (band: (real, real))
    ensures 0.0 <= band.0 <= 100.0
    ensures idealMin <= idealMax ==> 0.0 <= band.1 && band.0 + band.1 <= 100.0
  {
    var band := (PctDefault(idealMin), PctDefault(idealMax) - PctDefault(idealMin));
    if idealMin <= idealMax then PctMonotone(idealMin, idealMax, ScaleMin, ScaleMax); band else band
  }

  /** An ideal reading puts the plant marker inside the drawn band. */
  lemma MarkerInsideBandWhenIdeal(value: real, idealMin: real, idealMax: real)
    requires BadgeFor(value, idealMin, idealMax).status == Ideal
    ensures var band := IdealBand(idealMin, idealMax);
      band.0 <= PctDefault(value) <= band.0 + band.1
  {
    PctMonotone(idealMin, value, ScaleMin, ScaleMax);
    PctMonotone(value, idealMax, ScaleMin, ScaleMax);
  }
}
