/**
 * The nutrient card: a reading on the nutrient's scale `[min, max]`, an
 * ideal range (given, or 25%–50% of the scale by default), a status badge
 * with an advice message, the ideal range passed to the bar strip as
 * fractions of the scale, and a plant marker whose size shrinks with the
 * distance from the ideal range.
 */
module NutrientCard {

  import opened Wrappers
  import opened RangeMath

  /** The card's props; absent ones take the component's defaults. */
  datatype Props = Props(
    name: Option<string>,
    value: Option<real>,
    min: Option<real>,
    max: Option<real>,
    ideal: Option<(real, real)>,
    plantHeightAtIdealRatio: Option<real>,
    plantHeightAtEdgesRatio: Option<real>)

  /** `clamp(n, min, max)` = `Math.min(Math.max(n, min), max)`. */
  function Clamp(n: real, min: real, max: real): (r: real)
    ensures min <= max ==> min <= r <= max
    ensures min <= n <= max ==> r == n
    ensures n <= min && min <= max ==> r == min
    ensures n >= max ==> r == max
  {
    Min(Max(n, min), max)
  }

  /** The evaluated reading: `value` when it is a number, else the scale minimum. */
  function Val(value: Option<real>, min: real): (v: real)
    ensures value.Some? ==> v == value.value
    ensures value.None? ==> v == min
  {
    match value
    case Some(x) => x
    case None => min
  }

  /** `idealSafe`: the given ideal range, or 25%–50% of the scale. */
  function IdealSafe(ideal: Option<(real, real)>, min: real, max: real): (r: (real, real))
    ensures ideal.Some? ==> r == ideal.value
    ensures ideal.None? ==> (r.0 - min) * 4.0 == max - min && (r.1 - min) * 2.0 == max - min
    ensures ideal.None? && min < max ==> min < r.0 < r.1 < max
  {
    match ideal
    case Some(pair) => pair
    case None => (min + (max - min) * 0.25, min + (max - min) * 0.5)
  }

  /** `idealPct`: the ideal range as fractions of the scale, for the bar strip. */
  function IdealPct(idealSafe: (real, real), min: real, max: real): (p: (real, real))
    requires min < max
    ensures min + p.0 * (max - min) == idealSafe.0
    ensures min + p.1 * (max - min) == idealSafe.1
    ensures min <= idealSafe.0 <= idealSafe.1 <= max ==> 0.0 <= p.0 <= p.1 <= 1.0
  {
    var (lo, hi) := idealSafe;
    var width := max - min;
    var p := ((lo - min) / width, (hi - min) / width);
    DivMulCancel(lo - min, width);
    DivMulCancel(hi - min, width);
    if min <= lo <= hi <= max then
      UnitFraction(lo - min, width);
      UnitFraction(hi - min, width);
      DivMonotone(lo - min, hi - min, width);
      p
    else
      p
  }

  /** Without an explicit ideal range the strip's band is always 25%–50% of its width. */
  lemma DefaultIdealPct(min: real, max: real)
    requires min < max
    ensures IdealPct(IdealSafe(None, min, max), min, max) == (0.25, 0.5)
  {
    var s := IdealSafe(None, min, max);
    assert s.0 - min == (max - min) * 0.25;
    assert s.1 - min == (max - min) * 0.5;
    DivCancel(0.25, max - min);
    DivCancel(0.5, max - min);
  }

  datatype BadgeColor = Red | Violet | Green

  /** The badge text for a status. */
  function StatusText(s: Status): string
  {
    match s
    case Baixo => "BAIXO"
    case Alto => "ALTO"
    case Ideal => "IDEAL"
  }

  /**
   * `statusColor`, computed in the card from the same comparisons as the
   * status: red below the ideal minimum, violet above the maximum.
   */
  function StatusColor(val: real, idealSafe: (real, real)): (c: BadgeColor)
    ensures c == Red <==> Classify(val, idealSafe.0, idealSafe.1) == Baixo
    ensures c == Violet <==> Classify(val, idealSafe.0, idealSafe.1) == Alto
    ensures c == Green <==> Classify(val, idealSafe.0, idealSafe.1) == Ideal
  {
    if val < idealSafe.0 then Red else if val > idealSafe.1 then Violet else Green
  }

  /** The advice message, chosen by the status alone. */
  function Message(name: string, s: Status): (m: string)
    ensures |m| > |name| + 2 && m[..|name|] == name
    ensures m[|name| + 2] == Tag(s)
  {
    var tail := match s
      case Ideal => " adequado — manter manejo."
      case Baixo => " abaixo — considerar adubação corretiva."
      case Alto => " acima — reduzir dose/ajustar fonte/aplicação.";
    assert tail[2] == Tag(s);
    PrefixThenTail(name, tail);
    name + tail
  }

  lemma PrefixThenTail(name: string, tail: string)
    requires |tail| > 2
    ensures (name + tail)[..|name|] == name && (name + tail)[|name| + 2] == tail[2]
  {
  }

  /** For a given nutrient name, different statuses never share a message. */
  lemma MessageIdentifiesStatus(name: string, s1: Status, s2: Status)
    requires Message(name, s1) == Message(name, s2)
    ensures s1 == s2
  {
    // the message's third character after the name: a'd'equado, a'b'aixo, a'c'ima
    var k := |name| + 2;
    assert Message(name, s1)[k] == Tag(s1);
    assert Message(name, s2)[k] == Tag(s2);
  }

  function Tag(s: Status): char
  {
    match s
    case Ideal => 'd'
    case Baixo => 'b'
    case Alto => 'c'
  }

  /** `pct(v)`: the reading's horizontal position on the scale, in percent. */
  function Pct(v: real, min: real, max: real): (p: real)
    requires min < max
    ensures 0.0 <= p <= 100.0
    ensures v <= min ==> p == 0.0
    ensures v >= max ==> p == 100.0
    ensures min <= v <= max ==> p * (max - min) == (v - min) * 100.0
  {
    var c := Clamp(v, min, max);
    FractionBounds(c - min, max - min);
    DivMulCancel(c - min, max - min);
    ((c - min) / (max - min)) * 100.0
  }

  /**
   * `distanceToIdeal`: 0 inside the ideal range, otherwise the distance to
   * the nearer end relative to half the scale, capped at 1.
   */
  function DistanceToIdeal(val: real, idealSafe: (real, real), min: real, max: real): (d: real)
    requires min < max
    ensures 0.0 <= d <= 1.0
    ensures d == 0.0 <==> idealSafe.0 <= val <= idealSafe.1
    ensures val < idealSafe.0 && 2.0 * (idealSafe.0 - val) <= max - min ==> d * (max - min) == 2.0 * (idealSafe.0 - val)
    ensures val < idealSafe.0 && 2.0 * (idealSafe.0 - val) >= max - min ==> d == 1.0
    ensures idealSafe.0 <= val && idealSafe.1 < val && 2.0 * (val - idealSafe.1) <= max - min ==>
      d * (max - min) == 2.0 * (val - idealSafe.1)
    ensures idealSafe.0 <= val && idealSafe.1 < val && 2.0 * (val - idealSafe.1) >= max - min ==> d == 1.0
  {
    var (iMin, iMax) := idealSafe;
    if val >= iMin && val <= iMax then 0.0
    else
      var gap := if val < iMin then iMin - val else val - iMax;
      var half := (max - min) / 2.0;
      DivStrictMonotone(0.0, gap, half);
      FractionBounds(gap, half);
      DivMulCancel(gap, half);
      assert (gap / half) * (max - min) == 2.0 * gap by {
        assert max - min == 2.0 * half;
        assert (gap / half) * (2.0 * half) == 2.0 * ((gap / half) * half);
      }
      Clamp(gap / half, 0.0, 1.0)
  }

  /** Moving further from the ideal range on the same side never decreases the distance. */
  lemma DistanceToIdealMonotoneBelow(v1: real, v2: real, idealSafe: (real, real), min: real, max: real)
    requires min < max && v1 <= v2 < idealSafe.0
    ensures DistanceToIdeal(v1, idealSafe, min, max) >= DistanceToIdeal(v2, idealSafe, min, max)
  {
    DivMonotone(idealSafe.0 - v2, idealSafe.0 - v1, (max - min) / 2.0);
  }

  lemma DistanceToIdealMonotoneAbove(v1: real, v2: real, idealSafe: (real, real), min: real, max: real)
    requires min < max && idealSafe.0 <= idealSafe.1 < v1 <= v2
    ensures DistanceToIdeal(v1, idealSafe, min, max) <= DistanceToIdeal(v2, idealSafe, min, max)
  {
    DivMonotone(v1 - idealSafe.1, v2 - idealSafe.1, (max - min) / 2.0);
  }

  /**
   * `plantScale`: interpolates from the ideal-size ratio (distance 0) to
   * the edge ratio (distance 1).
   */
  function PlantScale(edgesRatio: real, idealRatio: real, distance: real): (s: real)
    requires 0.0 <= distance <= 1.0
    ensures Min(edgesRatio, idealRatio) <= s <= Max(edgesRatio, idealRatio)
    ensures distance == 0.0 ==> s == idealRatio
    ensures distance == 1.0 ==> s == edgesRatio
    ensures s == distance * edgesRatio + (1.0 - distance) * idealRatio
  {
    InterpolationBetween(edgesRatio, idealRatio, distance);
    edgesRatio + (idealRatio - edgesRatio) * (1.0 - distance)
  }

  /** Everything the card derives from its props. */
  datatype View = View(
    val: real,
    idealSafe: (real, real),
    idealPct: (real, real),
    status: Status,
    statusColor: BadgeColor,
    message: string,
    pct: real,
    distanceToIdeal: real,
    plantScale: real)

  /** The card's derivations, with its defaults applied (scale 0..100, ratios 0.5 and 0.25). */
  function Evaluate(props: Props): (v: View)
    requires props.min.GetOr(0.0) < props.max.GetOr(100.0)
    ensures var min := props.min.GetOr(0.0); var max := props.max.GetOr(100.0);
            && v.val == Val(props.value, min)
            && v.idealSafe == IdealSafe(props.ideal, min, max)
            && v.idealPct == IdealPct(v.idealSafe, min, max)
            && v.pct == Pct(v.val, min, max)
            && v.distanceToIdeal == DistanceToIdeal(v.val, v.idealSafe, min, max)
            && v.statusColor == StatusColor(v.val, v.idealSafe)
    ensures v.status == Classify(v.val, v.idealSafe.0, v.idealSafe.1)
    ensures v.message == Message(props.name.GetOr("Nutriente"), v.status)
    ensures StatusText(v.status) == (if v.statusColor == Red then "BAIXO" else if v.statusColor == Violet then "ALTO" else "IDEAL")
    ensures 0.0 <= v.pct <= 100.0 && 0.0 <= v.distanceToIdeal <= 1.0
    ensures var r := props.plantHeightAtIdealRatio.GetOr(0.5);
            var e := props.plantHeightAtEdgesRatio.GetOr(0.25);
            && v.plantScale == PlantScale(e, r, v.distanceToIdeal)
            && Min(e, r) <= v.plantScale <= Max(e, r)
            && (v.status == Ideal ==> v.plantScale == r)
            && (r != e && v.plantScale == r ==> v.status == Ideal)
  {
    var min := props.min.GetOr(0.0);
    var max := props.max.GetOr(100.0);
    var idealRatio := props.plantHeightAtIdealRatio.GetOr(0.5);
    var edgesRatio := props.plantHeightAtEdgesRatio.GetOr(0.25);
    var val := Val(props.value, min);
    var idealSafe := IdealSafe(props.ideal, min, max);
    var status := if val < idealSafe.0 then Baixo else if val > idealSafe.1 then Alto else Ideal;
    var d := DistanceToIdeal(val, idealSafe, min, max);
    var s := PlantScale(edgesRatio, idealRatio, d);
    PlantScaleIdealOnlyAtZero(edgesRatio, idealRatio, d);
    View(val, idealSafe, IdealPct(idealSafe, min, max), status, StatusColor(val, idealSafe),
         Message(props.name.GetOr("Nutriente"), status), Pct(val, min, max), d, s)
  }

  /** With distinct ratios the plant reaches its ideal size only at distance 0. */
  lemma PlantScaleIdealOnlyAtZero(edgesRatio: real, idealRatio: real, distance: real)
    requires 0.0 <= distance <= 1.0
    ensures edgesRatio != idealRatio && PlantScale(edgesRatio, idealRatio, distance) == idealRatio ==> distance == 0.0
  {
    if edgesRatio != idealRatio && PlantScale(edgesRatio, idealRatio, distance) == idealRatio {
      assert (idealRatio - edgesRatio) * (1.0 - distance) == (idealRatio - edgesRatio) * 1.0;
    }
  }
}
