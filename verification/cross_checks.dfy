/**
 * Properties that tie the components together: the three cards place a
 * reading on their scales the same way, and the nutrient card's default
 * ideal band lights up the same bars of its 14-column strip whatever the
 * nutrient's scale.
 */
module CrossChecks {

  import opened Wrappers
  import RecomendacaoCard
  import PhCard
  import NutrientCard
  import BarStrip

  /** The recommendation card, the pH card and the nutrient card compute the same percentage. */
  lemma PercentFormulasAgree(v: real, min: real, max: real)
    requires min < max
    ensures RecomendacaoCard.Percentual(v, min, max) == PhCard.Pct(v, min, max)
    ensures PhCard.Pct(v, min, max) == NutrientCard.Pct(v, min, max)
  {
    var a := RecomendacaoCard.Percentual(v, min, max);
    var b := PhCard.Pct(v, min, max);
    var c := NutrientCard.Pct(v, min, max);
    if min < v < max {
      SameScaledValue(a, b, max - min);
      SameScaledValue(b, c, max - min);
    }
  }

  lemma SameScaledValue(p: real, q: real, w: real)
    requires w > 0.0 && p * w == q * w
    ensures p == q
  {
    assert (p - q) * w == 0.0;
  }

  /** The strip of a nutrient card with no explicit ideal range. */
  function DefaultNutrientStrip(min: real, max: real): (props: BarStrip.Props)
    requires min < max
    ensures props.columns == 14 && props.fixedPalette.None?
    ensures props.idealRangePct == Some((0.25, 0.5))
  {
    NutrientCard.DefaultIdealPct(min, max);
    BarStrip.Props(14, None, Some(NutrientCard.IdealPct(NutrientCard.IdealSafe(None, min, max), min, max)))
  }

  /** With the default ideal range, exactly the bars 3 to 6 of the 14 are green. */
  lemma DefaultBandIsBarsThreeToSix(min: real, max: real, idx: nat)
    requires min < max && idx < 14
    ensures BarStrip.ColorFor(DefaultNutrientStrip(min, max), idx) == BarStrip.Green <==> 3 <= idx <= 6
  {
    var x := BarStrip.Center(idx, 14);
    assert x * 14.0 == idx as real + 0.5;
    if x < 0.25 {
      assert idx as real + 0.5 < 3.5;
    } else if x > 0.5 {
      assert idx as real + 0.5 > 7.0;
    } else {
      assert 3.5 <= idx as real + 0.5 <= 7.0;
    }
  }
}
