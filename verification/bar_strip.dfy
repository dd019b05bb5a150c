/**
 * The bar strip: a row of equal bars, each coloured either from a fixed
 * palette or, when an ideal band is given as fractions of the strip's
 * width, green inside the band, warm shades left of it and cool shades
 * right of it.
 */
module BarStrip {

  import opened Wrappers
  import opened RangeMath

  /** Shades for bars left of the ideal band, darkest first. */
  const Warm: seq<string> := ["#8b0000", "#a11a16", "#b43a15", "#c35617", "#d0711b", "#de8d24"]
  /** Shades for bars right of the ideal band, lightest first. */
  const Cool: seq<string> := ["#6aa7e0", "#4f91d8", "#3d7bd0", "#2c66c5", "#2051b3", "#183f97"]
  const Green: string := "#7acb86"
  /** The colour of every bar when there is neither a fixed palette nor an ideal band. */
  const Neutral: string := "#e3e3e3"

  /** The props that decide the colours (sizes and styles are left out). */
  datatype Props = Props(columns: nat, fixedPalette: Option<seq<string>>, idealRangePct: Option<(real, real)>)

  /** `Array.from({ length: columns }, (_, i) => i)`: the bar indices. */
  function Bars(columns: nat): (bars: seq<nat>)
    ensures |bars| == columns
    ensures forall i :: 0 <= i < columns ==> bars[i] == i
  {
    if columns == 0 then [] else Bars(columns - 1) + [columns - 1]
  }

  /** `fixedPalette && fixedPalette[idx]`: an entry exists and is a non-empty string. */
  predicate HasFixed(fixedPalette: Option<seq<string>>, idx: nat): (b: bool)
    ensures b ==> fixedPalette.Some? && idx < |fixedPalette.value|
    ensures fixedPalette.Some? && idx < |fixedPalette.value| && fixedPalette.value[idx] == "" ==> !b
  {
    fixedPalette.Some? && idx < |fixedPalette.value| && fixedPalette.value[idx] != ""
  }

  /** The centre of bar `idx`, as a fraction of the strip's width. */
  function Center(idx: nat, columns: nat): (x: real)
    requires idx < columns
    ensures 0.0 < x < 1.0
  {
    var n := columns as real;
    DivStrictMonotone(0.0, idx as real + 0.5, n);
    DivStrictMonotone(idx as real + 0.5, n, n);
    DivCancel(1.0, n);
    (idx as real + 0.5) / n
  }

  /** Left of the band: `t` is the position relative to the band start, floored onto the warm shades. */
  function WarmIndex(x: real, s: real): (k: int)
    ensures 0 <= k < |Warm|
  {
    var t := Max(0.0, Min(1.0, (x - 0.0) / Max(0.000001, s - 0.0)));
    (t * (|Warm| - 1) as real).Floor
  }

  /** Right of the band: `t` is the position relative to the band end, floored onto the cool shades. */
  function CoolIndex(x: real, e: real): (k: int)
    ensures 0 <= k < |Cool|
  {
    var t := Max(0.0, Min(1.0, (x - e) / Max(0.000001, 1.0 - e)));
    (t * (|Cool| - 1) as real).Floor
  }

  /** `colorFor(idx)` */
  function ColorFor(props: Props, idx: nat): (c: string)
    requires idx < props.columns
    ensures HasFixed(props.fixedPalette, idx) ==> c == props.fixedPalette.value[idx]
    ensures !HasFixed(props.fixedPalette, idx) && props.idealRangePct.None? ==> c == Neutral
    ensures !HasFixed(props.fixedPalette, idx) && props.idealRangePct.Some? ==>
      var (s, e) := props.idealRangePct.value;
      var x := Center(idx, props.columns);
      && (c == Green <==> s <= x <= e)
      && (c in Warm <==> x < s)
      && (c in Cool <==> s <= x && e < x)
      && (x < s ==> c == Warm[WarmIndex(x, s)])
      && (e < x && s <= x ==> c == Cool[CoolIndex(x, e)])
  {
    if HasFixed(props.fixedPalette, idx) then props.fixedPalette.value[idx]
    else if props.idealRangePct.None? then Neutral
    else
      var x := Center(idx, props.columns);
      var (s, e) := props.idealRangePct.value;
      ShadesDistinct();
      if x >= s && x <= e then Green
      else if x < s then Warm[WarmIndex(x, s)]
      else Cool[CoolIndex(x, e)]
  }

  /** Green, the warm shades and the cool shades are three disjoint colour families. */
  lemma ShadesDistinct()
    ensures Green !in Warm && Green !in Cool
    ensures forall c :: c in Warm ==> c !in Cool
  {
    // the second character tells the families apart: 8/a-d warm, 1-6 cool, 7 green
    assert Warm[0][1] == '8' && Warm[1][1] == 'a' && Warm[2][1] == 'b';
    assert Warm[3][1] == 'c' && Warm[4][1] == 'd' && Warm[5][1] == 'd';
    assert Cool[0][1] == '6' && Cool[1][1] == '4' && Cool[2][1] == '3';
    assert Cool[3][1] == '2' && Cool[4][1] == '2' && Cool[5][1] == '1';
    assert Green[1] == '7';
  }

  /** The colours of all bars, in order. */
  function Strip(props: Props): (colors: seq<string>)
    ensures |colors| == props.columns
    ensures forall i :: 0 <= i < props.columns ==> colors[i] == ColorFor(props, i)
  {
    var bars := Bars(props.columns);
    seq(|bars|, i requires 0 <= i < |bars| => ColorFor(props, bars[i]))
  }

  /** Moving right never picks an earlier warm shade. */
  lemma WarmIndexMonotone(x1: real, x2: real, s: real)
    requires x1 <= x2
    ensures WarmIndex(x1, s) <= WarmIndex(x2, s)
  {
    var d := Max(0.000001, s - 0.0);
    DivMonotone(x1 - 0.0, x2 - 0.0, d);
    var t1 := Max(0.0, Min(1.0, (x1 - 0.0) / d));
    var t2 := Max(0.0, Min(1.0, (x2 - 0.0) / d));
    MulMonotone(t1, t2, (|Warm| - 1) as real);
  }

  /** Moving right never picks an earlier cool shade. */
  lemma CoolIndexMonotone(x1: real, x2: real, e: real)
    requires x1 <= x2
    ensures CoolIndex(x1, e) <= CoolIndex(x2, e)
  {
    var d := Max(0.000001, 1.0 - e);
    DivMonotone(x1 - e, x2 - e, d);
    var t1 := Max(0.0, Min(1.0, (x1 - e) / d));
    var t2 := Max(0.0, Min(1.0, (x2 - e) / d));
    MulMonotone(t1, t2, (|Cool| - 1) as real);
  }

  /** Bar centres move right as the bar index grows. */
  lemma CenterMonotone(i1: nat, i2: nat, columns: nat)
    requires i1 <= i2 < columns
    ensures Center(i1, columns) <= Center(i2, columns)
  {
    DivMonotone(i1 as real + 0.5, i2 as real + 0.5, columns as real);
  }

  /** Left of the band, the warm shade index never decreases from bar to bar. */
  lemma WarmShadesInColumnOrder(columns: nat, s: real, i1: nat, i2: nat)
    requires i1 <= i2 < columns
    ensures WarmIndex(Center(i1, columns), s) <= WarmIndex(Center(i2, columns), s)
  {
    CenterMonotone(i1, i2, columns);
    WarmIndexMonotone(Center(i1, columns), Center(i2, columns), s);
  }
}
