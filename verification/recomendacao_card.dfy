/**
 * The quick diagnosis card: for each nutrient of a soil analysis, a
 * status badge, a clamped progress bar and a tooltip advice text.
 */
module RecomendacaoCard {

  import opened Wrappers
  import opened RangeMath

  datatype Color = Red | Violet | Green

  /** What `classificar` returns (the icon follows the status and is left out). */
  datatype Classificacao = Classificacao(status: Status, color: Color)

  /** `classificar(valor, min, max)`: red below `min`, violet above `max`, green otherwise. */
  function Classificar(valor: real, min: real, max: real): (c: Classificacao)
    ensures c.status == Baixo <==> valor < min
    ensures c.status == Alto <==> min <= valor && max < valor
    ensures c.status == Ideal <==> min <= valor <= max
    ensures c.color == Red <==> c.status == Baixo
    ensures c.color == Violet <==> c.status == Alto
    ensures c.color == Green <==> c.status == Ideal
  {
    var s := Classify(valor, min, max);
    Classificacao(s, if s == Baixo then Red else if s == Alto then Violet else Green)
  }

  /**
   * `percentual`: the position of `valor` in `[min, max]` as a percentage,
   * clamped to `[0, 100]`.
   */
  function Percentual(valor: real, min: real, max: real): (p: real)
    requires min < max
    ensures 0.0 <= p <= 100.0
    ensures valor <= min ==> p == 0.0
    ensures valor >= max ==> p == 100.0
    ensures min <= valor <= max ==> p * (max - min) == (valor - min) * 100.0
  {
    FractionBounds(valor - min, max - min);
    DivMulCancel(valor - min, max - min);
    Min(100.0, Max(0.0, ((valor - min) / (max - min)) * 100.0))
  }

  /** A higher reading never shows a shorter bar. */
  lemma PercentualMonotone(v1: real, v2: real, min: real, max: real)
    requires min < max && v1 <= v2
    ensures Percentual(v1, min, max) <= Percentual(v2, min, max)
  {
    DivMonotone(v1 - min, v2 - min, max - min);
    MulMonotone((v1 - min) / (max - min), (v2 - min) / (max - min), 100.0);
  }

  /** The bar agrees with the badge: empty when low, full when high. */
  lemma PercentualFollowsStatus(valor: real, min: real, max: real)
    requires min < max
    ensures Classificar(valor, min, max).status == Baixo ==> Percentual(valor, min, max) == 0.0
    ensures Classificar(valor, min, max).status == Alto ==> Percentual(valor, min, max) == 100.0
  {
  }

  /** The tooltip advice for a nutrient `key`, chosen by the status alone. */
  function TooltipMsg(key: string, status: Status): (m: string)
    ensures |m| > KeyAt(status) + |key|
    ensures m[0] == (if status == Baixo then 'B' else if status == Alto then 'E' else 'N')
    ensures m[KeyAt(status)..KeyAt(status) + |key|] == key
    ensures m[|m| - 1] == '.'
  {
    match status
    case Baixo => "Baixo teor de " + key + ". Avaliar adubação corretiva."
    case Alto => "Excesso de " + key + ". Reduzir dose ou espaçar aplicações."
    case Ideal => "Nível ideal de " + key + ". Manter manejo atual."
  }

  /** Where the tooltip names the nutrient: after "Baixo teor de ", "Excesso de " or "Nível ideal de ". */
  function KeyAt(status: Status): nat
  {
    match status
    case Baixo => 14
    case Alto => 11
    case Ideal => 15
  }

  /** Different statuses never share a tooltip, whatever the nutrient names. */
  lemma TooltipMsgIdentifiesStatus(k1: string, s1: Status, k2: string, s2: Status)
    requires TooltipMsg(k1, s1) == TooltipMsg(k2, s2)
    ensures s1 == s2
  {
    var m := TooltipMsg(k1, s1);
    assert m[0] == (if s1 == Baixo then 'B' else if s1 == Alto then 'E' else 'N');
    assert m[0] == (if s2 == Baixo then 'B' else if s2 == Alto then 'E' else 'N');
  }

  /** One rendered line of the card. */
  datatype Linha = Linha(key: string, status: Status, color: Color, percentual: real, tooltip: string)

  /**
   * The card's `.map` over the nutrient keys of an analysis. A key without
   * an ideal range makes the destructuring of `faixaIdeal[key]` throw, so
   * the card renders nothing: `None`.
   */
  function Diagnostico(keys: seq<string>, nutrientes: map<string, real>, faixaIdeal: map<string, (real, real)>): (r: Option<seq<Linha>>)
    requires forall k :: k in keys ==> k in nutrientes
    requires forall k :: k in keys && k in faixaIdeal ==> faixaIdeal[k].0 < faixaIdeal[k].1
    ensures r.None? <==> exists k :: k in keys && k !in faixaIdeal
    ensures r.Some? ==> |r.value| == |keys|
    ensures r.Some? ==> forall i :: 0 <= i < |keys| ==>
      var (min, max) := faixaIdeal[keys[i]];
      var c := Classificar(nutrientes[keys[i]], min, max);
      && r.value[i].key == keys[i]
      && r.value[i].status == c.status && r.value[i].color == c.color
      && r.value[i].percentual == Percentual(nutrientes[keys[i]], min, max)
      && r.value[i].tooltip == TooltipMsg(keys[i], c.status)
  {
    if exists k :: k in keys && k !in faixaIdeal then None
    else
      Some(seq(|keys|, i requires 0 <= i < |keys| =>
        var key := keys[i];
        var valor := nutrientes[key];
        var (min, max) := faixaIdeal[key];
        var c := Classificar(valor, min, max);
        Linha(key, c.status, c.color, Percentual(valor, min, max), TooltipMsg(key, c.status))))
  }

  /** Worked examples: pH readings against the ideal range 5.5–6.5. */
  lemma PhExamples()
    ensures Classificar(4.9, 5.5, 6.5) == Classificacao(Baixo, Red) && Percentual(4.9, 5.5, 6.5) == 0.0
    ensures Classificar(6.0, 5.5, 6.5) == Classificacao(Ideal, Green) && Percentual(6.0, 5.5, 6.5) == 50.0
    ensures Classificar(7.0, 5.5, 6.5) == Classificacao(Alto, Violet) && Percentual(7.0, 5.5, 6.5) == 100.0
  {
  }
}
