/**
 * The soil-parameter lookup: normalise the search, query the `soil_params`
 * table with four progressively less specific filter sets and take the
 * first row found; on a store error or when no rung finds a row, pick the
 * most specific entry of the local mock table.
 */
module SoilParamsService {

  import opened Wrappers
  import opened Store
  import opened JsText

  /** Ideal ranges per nutrient key (`RangeMap`). */
  type RangeMap = map<string, (real, real)>

  /** `SoilParams`: a reference profile for a crop context. */
  datatype SoilParams = SoilParams(
    id: Option<string>,
    cultura: string,
    variedade: Option<string>,
    estado: Option<string>,
    cidade: Option<string>,
    extrator: Option<string>,
    estagio: Option<string>,
    idadeMeses: Option<real>,
    ideal: RangeMap,
    fonte: Option<string>,
    observacoes: Option<string>,
    updatedAt: Option<string>)

  /** A row of the `soil_params` table; its `ideal` column may be null. */
  datatype Row = Row(
    id: Option<string>,
    cultura: string,
    variedade: Option<string>,
    estado: Option<string>,
    cidade: Option<string>,
    extrator: Option<string>,
    estagio: Option<string>,
    idadeMeses: Option<real>,
    ideal: Option<RangeMap>,
    fonte: Option<string>,
    observacoes: Option<string>,
    updatedAt: Option<string>)

  /** The search (`Query`): every field may be absent or null. */
  datatype Query = Query(
    cultura: Option<string>,
    variedade: Option<string>,
    estado: Option<string>,
    cidade: Option<string>,
    extrator: Option<string>,
    estagio: Option<string>,
    idadeMeses: Option<real>)

  /** A normalised text: non-empty, trimmed, lower case. */
  predicate NormalText(s: string)
  {
    s != "" && Trimmed(s) && forall k :: 0 <= k < |s| ==> !IsUpper(s[k])
  }

  /** Only white space (or nothing at all). */
  predicate Blank(s: string)
  {
    forall k :: 0 <= k < |s| ==> IsSpace(s[k])
  }

  /** `norm(v)`: trimmed and lower-cased, with absent and blank values turned into null. */
  function Norm(v: Option<string>): (r: Option<string>)
    ensures r.None? <==> v.None? || Blank(v.value)
    ensures r.Some? ==> NormalText(r.value)
    ensures v.Some? && r.Some? ==> r.value == ToLower(Trim(v.value))
  {
    match v
    case None => None
    case Some(s) =>
      TrimEmptyIffBlank(s);
      ToLowerKeepsTrimmed(Trim(s));
      var t := ToLower(Trim(s));
      if t == "" then None else Some(t)
  }

  /** A worked case: surrounding blanks go and the capital is lowered. */
  lemma NormExample()
    ensures Norm(Some(" Abacate ")) == Some("abacate")
  {
    var s := " Abacate ";
    assert s[0] == ' ';
    assert s[1] == 'A';
    assert s[7] == 'e';
    assert s[8] == ' ';
    assert IsSpace(' ');
    assert !IsSpace('A');
    assert !IsSpace('e');
    assert StartFrom(s, 1) == 1;
    assert StartFrom(s, 0) == 1;
    assert EndFrom(s, 1, 8) == 8;
    assert EndFrom(s, 1, 9) == 8;
    assert Trim(s) == "Abacate";
    var l := ToLower("Abacate");
    assert l[0] == 'a' && l[1] == 'b' && l[2] == 'a' && l[3] == 'c';
    assert l[4] == 'a' && l[5] == 't' && l[6] == 'e';
    assert l == "abacate";
  }

  /** Normalising a normalised value changes nothing. */
  lemma NormIdempotent(v: Option<string>)
    ensures Norm(Norm(v)) == Norm(v)
  {
    if Norm(v).Some? {
      var t := Norm(v).value;
      TrimOfTrimmed(t);
      ToLowerIdempotent(Trim(v.value));
    }
  }

  /** What `normalizeQuery` produces: a crop (possibly empty) and normalised or null fields. */
  predicate NormalQuery(q: Query)
  {
    && q.cultura.Some? && (q.cultura.value == "" || NormalText(q.cultura.value))
    && (q.variedade.Some? ==> NormalText(q.variedade.value))
    && (q.estado.Some? ==> NormalText(q.estado.value))
    && (q.cidade.Some? ==> NormalText(q.cidade.value))
    && (q.extrator.Some? ==> NormalText(q.extrator.value))
    && (q.estagio.Some? ==> NormalText(q.estagio.value))
  }

  /** `normalizeQuery(q)` */
  function NormalizeQuery(q: Query): (r: Query)
    ensures NormalQuery(r)
    ensures r.cultura == Some(Norm(q.cultura).GetOr(""))
    ensures r.variedade == Norm(q.variedade) && r.estado == Norm(q.estado) && r.cidade == Norm(q.cidade)
    ensures r.extrator == Norm(q.extrator) && r.estagio == Norm(q.estagio)
    ensures r.idadeMeses == q.idadeMeses
  {
    Query(
      Some(Norm(q.cultura).GetOr("")),
      Norm(q.variedade),
      Norm(q.estado),
      Norm(q.cidade),
      Norm(q.extrator),
      Norm(q.estagio),
      q.idadeMeses)
  }

  /** Normalising twice is normalising once. */
  lemma NormalizeQueryIdempotent(q: Query)
    ensures NormalizeQuery(NormalizeQuery(q)) == NormalizeQuery(q)
  {
    NormIdempotent(q.cultura);
    NormIdempotent(q.variedade);
    NormIdempotent(q.estado);
    NormIdempotent(q.cidade);
    NormIdempotent(q.extrator);
    NormIdempotent(q.estagio);
    var c := Norm(q.cultura).GetOr("");
    if c == "" {
      assert Norm(Some(c)).None?;
    } else {
      assert Norm(Some(c)) == Norm(Norm(q.cultura));
    }
  }

  /** `ladders`: the four filter sets, from the most specific to the crop alone. */
  function Ladders(q: Query): (steps: seq<Query>)
    ensures |steps| == 4 && steps[0] == q
    ensures steps[3] == Query(q.cultura, None, None, None, None, None, None)
  {
    [ q,
      Query(q.cultura, q.variedade, None, None, q.extrator, None, None),
      Query(q.cultura, None, None, None, q.extrator, None, None),
      Query(q.cultura, None, None, None, None, None, None) ]
  }

  /** The columns a rung can filter on; `idade_meses` is not one of them. */
  datatype Column = Cultura | Variedade | Estado | Cidade | Extrator | Estagio

  /** An `.eq(column, value)` filter. */
  datatype EqFilter = Eq(column: Column, value: string)

  /** The filters a rung applies: the crop when truthy, every other field when not null. */
  predicate Applied(step: Query, f: EqFilter)
  {
    match f.column
    case Cultura => step.cultura == Some(f.value) && f.value != ""
    case Variedade => step.variedade == Some(f.value)
    case Estado => step.estado == Some(f.value)
    case Cidade => step.cidade == Some(f.value)
    case Extrator => step.extrator == Some(f.value)
    case Estagio => step.estagio == Some(f.value)
  }

  /** The crop filter, added only when the crop is a non-empty string. */
  function CropFilter(o: Option<string>): (fs: seq<EqFilter>)
    ensures forall f :: f in fs <==> o.Some? && o.value != "" && f == Eq(Cultura, o.value)
  {
    if Truthy(o) then [Eq(Cultura, o.value)] else []
  }

  /** A filter on `column`, added only when the value is not null. */
  function EqIfSet(column: Column, o: Option<string>): (fs: seq<EqFilter>)
    ensures forall f :: f in fs <==> o.Some? && f == Eq(column, o.value)
  {
    if o.Some? then [Eq(column, o.value)] else []
  }

  /** The filters of the request for one rung, in the order the source adds them. */
  function RungFilters(step: Query): (fs: seq<EqFilter>)
    ensures forall f :: f in fs <==> Applied(step, f)
  {
    forall f ensures f in Pieces(step) <==> Applied(step, f) {
      PiecesMember(step, f);
    }
    Pieces(step)
  }

  function Pieces(step: Query): seq<EqFilter>
  {
    CropFilter(step.cultura)
      + EqIfSet(Variedade, step.variedade)
      + EqIfSet(Estado, step.estado)
      + EqIfSet(Cidade, step.cidade)
      + EqIfSet(Extrator, step.extrator)
      + EqIfSet(Estagio, step.estagio)
  }

  lemma PiecesMember(step: Query, f: EqFilter)
    ensures f in Pieces(step) <==> Applied(step, f)
  {
    var fs := Pieces(step);
    match f.column
    case Cultura => assert f in fs <==> f in CropFilter(step.cultura);
    case Variedade => assert f in fs <==> f in EqIfSet(Variedade, step.variedade);
    case Estado => assert f in fs <==> f in EqIfSet(Estado, step.estado);
    case Cidade => assert f in fs <==> f in EqIfSet(Cidade, step.cidade);
    case Extrator => assert f in fs <==> f in EqIfSet(Extrator, step.extrator);
    case Estagio => assert f in fs <==> f in EqIfSet(Estagio, step.estagio);
  }

  /** Each rung filters on a subset of what the rung before it filters on. */
  lemma LaddersRelaxFilters(q: Query)
    ensures forall i, f :: 0 < i < 4 && f in RungFilters(Ladders(q)[i]) ==> f in RungFilters(Ladders(q)[i - 1])
  {
    var steps := Ladders(q);
    RungRelaxes(steps[0], steps[1]);
    RungRelaxes(steps[1], steps[2]);
    RungRelaxes(steps[2], steps[3]);
  }

  /** A rung that keeps the crop and only drops or keeps the other fields sends a subset of the filters. */
  lemma RungRelaxes(a: Query, b: Query)
    requires b.cultura == a.cultura
    requires b.variedade.None? || b.variedade == a.variedade
    requires b.estado.None? || b.estado == a.estado
    requires b.cidade.None? || b.cidade == a.cidade
    requires b.extrator.None? || b.extrator == a.extrator
    requires b.estagio.None? || b.estagio == a.estagio
    ensures forall f :: f in RungFilters(b) ==> f in RungFilters(a)
  {
    forall f | f in RungFilters(b) ensures f in RungFilters(a) {
      assert Applied(b, f);
    }
  }

  /** With a blank or absent crop the last rung carries no filter at all, so any row of the table answers it. */
  lemma BlankCropLastRungUnfiltered(query: Query)
    requires query.cultura.None? || Blank(query.cultura.value)
    ensures RungFilters(Ladders(NormalizeQuery(query))[3]) == []
  {
  }

  /** The request for a rung, built one conditional filter at a time. */
  method BuildRequest(step: Query) returns (req: seq<EqFilter>)
    ensures req == RungFilters(step)
  {
    req := [];
    if Truthy(step.cultura) { req := req + [Eq(Cultura, step.cultura.value)]; }
    assert req == CropFilter(step.cultura);
    ghost var built := req;
    if step.variedade.Some? { req := req + [Eq(Variedade, step.variedade.value)]; }
    assert req == built + EqIfSet(Variedade, step.variedade);
    built := req;
    if step.estado.Some? { req := req + [Eq(Estado, step.estado.value)]; }
    assert req == built + EqIfSet(Estado, step.estado);
    built := req;
    if step.cidade.Some? { req := req + [Eq(Cidade, step.cidade.value)]; }
    assert req == built + EqIfSet(Cidade, step.cidade);
    built := req;
    if step.extrator.Some? { req := req + [Eq(Extrator, step.extrator.value)]; }
    assert req == built + EqIfSet(Extrator, step.extrator);
    built := req;
    if step.estagio.Some? { req := req + [Eq(Estagio, step.estagio.value)]; }
    assert req == built + EqIfSet(Estagio, step.estagio);
  }

  /** The store: for a request, an error or the rows it selects. */
  type ParamsStore = seq<EqFilter> -> Reply<Row>

  /** The requests of the four rungs. */
  function Requests(q: Query): (reqs: seq<seq<EqFilter>>)
    ensures |reqs| == 4
    ensures forall i :: 0 <= i < 4 ==> reqs[i] == RungFilters(Ladders(q)[i])
  {
    var steps := Ladders(q);
    [RungFilters(steps[0]), RungFilters(steps[1]), RungFilters(steps[2]), RungFilters(steps[3])]
  }

  /** The index of the first request that fails or finds a row (`|reqs|` when none does). */
  function FirstDecisive(reqs: seq<seq<EqFilter>>, store: ParamsStore): (i: nat)
    ensures i <= |reqs|
    ensures forall j :: 0 <= j < i ==> store(reqs[j]) == Rows([])
    ensures i < |reqs| ==> store(reqs[i]) != Rows([])
    decreases |reqs|
  {
    if |reqs| == 0 then 0
    else if store(reqs[0]) == Rows([]) then 1 + FirstDecisive(reqs[1..], store)
    else 0
  }

  /** `FirstDecisive` is the unique index with those properties. */
  lemma FirstDecisiveUnique(reqs: seq<seq<EqFilter>>, store: ParamsStore, i: nat)
    requires i <= |reqs|
    requires forall j :: 0 <= j < i ==> store(reqs[j]) == Rows([])
    requires i < |reqs| ==> store(reqs[i]) != Rows([])
    ensures FirstDecisive(reqs, store) == i
  {
  }

  /** The result built from the first row: every column copied, a null `ideal` read as `{}`. */
  function FromRow(row: Row): (p: SoilParams)
    ensures row.ideal.None? ==> p.ideal == map[]
    ensures row.ideal.Some? ==> p.ideal == row.ideal.value
    ensures p.id == row.id && p.cultura == row.cultura && p.variedade == row.variedade
    ensures p.estado == row.estado && p.cidade == row.cidade && p.extrator == row.extrator
    ensures p.estagio == row.estagio && p.idadeMeses == row.idadeMeses
    ensures p.fonte == row.fonte && p.observacoes == row.observacoes && p.updatedAt == row.updatedAt
  {
    SoilParams(row.id, row.cultura, row.variedade, row.estado, row.cidade, row.extrator, row.estagio,
               row.idadeMeses, row.ideal.GetOr(map[]), row.fonte, row.observacoes, row.updatedAt)
  }

  /** `Array.prototype.find`: the index of the first element satisfying `pred`. */
  function FindFirst(ms: seq<SoilParams>, pred: SoilParams -> bool): (r: Option<nat>)
    ensures r.Some? ==> r.value < |ms| && pred(ms[r.value]) && forall j :: 0 <= j < r.value ==> !pred(ms[j])
    ensures r.None? ==> forall j :: 0 <= j < |ms| ==> !pred(ms[j])
    decreases |ms|
  {
    if |ms| == 0 then None
    else if pred(ms[0]) then Some(0)
    else
      match FindFirst(ms[1..], pred)
      case Some(i) => Some(i + 1)
      case None => None
  }

  /** Predicates that agree on every element find the same element. */
  lemma {:induction false} FindFirstCongruent(ms: seq<SoilParams>, p1: SoilParams -> bool, p2: SoilParams -> bool)
    requires forall m :: m in ms ==> p1(m) == p2(m)
    ensures FindFirst(ms, p1) == FindFirst(ms, p2)
    decreases |ms|
  {
    if |ms| > 0 {
      assert ms[0] in ms;
      assert forall m :: m in ms[1..] ==> m in ms;
      FindFirstCongruent(ms[1..], p1, p2);
    }
  }

  /** The first fallback test: equal crop, variety, state and extractor (city and stage are not compared). */
  predicate ExactMatch(q: Query, m: SoilParams): (b: bool)
    ensures b ==> CropMatch(q, m)
    ensures b ==> m.variedade == q.variedade && m.estado == q.estado && m.extrator == q.extrator
  {
    && m.cultura == q.cultura.GetOr("")
    && m.variedade == q.variedade
    && m.estado == q.estado
    && m.extrator == q.extrator
  }

  /** The second fallback test: equal crop. */
  predicate CropMatch(q: Query, m: SoilParams): (b: bool)
    ensures q.cultura.None? ==> (b <==> m.cultura == "")
    ensures q.cultura.Some? ==> (b <==> m.cultura == q.cultura.value)
  {
    m.cultura == q.cultura.GetOr("")
  }

  /** The index of the mock entry the local fallback picks. */
  function FallbackIndex(q: Query, mock: seq<SoilParams>): (i: nat)
    requires |mock| > 0
    ensures i < |mock|
    ensures (exists j :: 0 <= j < |mock| && ExactMatch(q, mock[j])) ==>
      ExactMatch(q, mock[i]) && forall j :: 0 <= j < i ==> !ExactMatch(q, mock[j])
    ensures (forall j :: 0 <= j < |mock| ==> !ExactMatch(q, mock[j])) && (exists j :: 0 <= j < |mock| && CropMatch(q, mock[j])) ==>
      CropMatch(q, mock[i]) && forall j :: 0 <= j < i ==> !CropMatch(q, mock[j])
    ensures (forall j :: 0 <= j < |mock| ==> !CropMatch(q, mock[j])) ==> i == 0
  {
    match FindFirst(mock, m => ExactMatch(q, m))
    case Some(i) => i
    case None =>
      match FindFirst(mock, m => CropMatch(q, m))
      case Some(i) => i
      case None => 0
  }

  /** The local fallback: first exact match, else first crop match, else the first entry. */
  function Fallback(q: Query, mock: seq<SoilParams>): (m: SoilParams)
    requires |mock| > 0
    ensures m in mock
  {
    mock[FallbackIndex(q, mock)]
  }

  /** The fallback never looks at the city or the stage. */
  lemma FallbackIgnoresCidadeEstagio(q: Query, cidade: Option<string>, estagio: Option<string>, mock: seq<SoilParams>)
    requires |mock| > 0
    ensures Fallback(q.(cidade := cidade, estagio := estagio), mock) == Fallback(q, mock)
  {
    var q2 := q.(cidade := cidade, estagio := estagio);
    FindFirstCongruent(mock, m => ExactMatch(q2, m), m => ExactMatch(q, m));
    FindFirstCongruent(mock, m => CropMatch(q2, m), m => CropMatch(q, m));
  }

  /** `soilParamsMock`: the local table. */
  const SoilParamsMock: seq<SoilParams> := [
    SoilParams(None, "abacate", None, None, None, Some("mehlich-1"), Some("produção"), None,
      map["pH" := (5.5, 6.5), "N" := (20.0, 40.0), "P" := (10.0, 30.0), "K" := (0.2, 0.4),
          "Ca" := (3.0, 6.0), "Mg" := (1.0, 2.0), "MO" := (3.0, 5.0)],
      Some("Padrão (mock) — maioria das culturas"), Some("Faixas genéricas para funcionamento offline."), None),
    SoilParams(None, "abacate", Some("fortuna"), Some("sp"), None, Some("mehlich-1"), Some("produção"), None,
      map["pH" := (5.5, 6.2), "N" := (25.0, 45.0), "P" := (12.0, 25.0), "K" := (0.25, 0.45),
          "Ca" := (3.5, 6.0), "Mg" := (1.2, 2.2), "MO" := (3.0, 5.0)],
      Some("Mock específico para demo"), None, None)
  ]

  /** What `getSoilParams(query)` returns: the first row of the first rung that finds one, else the fallback. */
  function SoilParamsFor(query: Query, store: ParamsStore): (r: SoilParams)
    ensures || r in SoilParamsMock
            || exists req :: req in Requests(NormalizeQuery(query)) && store(req).Rows? && |store(req).rows| > 0
                 && r == FromRow(store(req).rows[0])
  {
    var q := NormalizeQuery(query);
    var reqs := Requests(q);
    var i := FirstDecisive(reqs, store);
    assert i < |reqs| ==> reqs[i] in reqs;
    if i < |reqs| && store(reqs[i]).Rows? then FromRow(store(reqs[i]).rows[0])
    else Fallback(q, SoilParamsMock)
  }

  /** The first rung that finds rows decides the result: its first row. */
  lemma FirstRungWithRowsWins(query: Query, store: ParamsStore, i: nat)
    requires i < 4
    requires forall j :: 0 <= j < i ==> store(Requests(NormalizeQuery(query))[j]) == Rows([])
    requires var reply := store(Requests(NormalizeQuery(query))[i]); reply.Rows? && |reply.rows| > 0
    ensures SoilParamsFor(query, store) == FromRow(store(Requests(NormalizeQuery(query))[i]).rows[0])
  {
    FirstDecisiveUnique(Requests(NormalizeQuery(query)), store, i);
  }

  /** A store error abandons the remaining rungs: the result is the local fallback. */
  lemma StoreErrorFallsBack(query: Query, store: ParamsStore, i: nat)
    requires i < 4
    requires forall j :: 0 <= j < i ==> store(Requests(NormalizeQuery(query))[j]) == Rows([])
    requires store(Requests(NormalizeQuery(query))[i]).Failure?
    ensures SoilParamsFor(query, store) == Fallback(NormalizeQuery(query), SoilParamsMock)
  {
    FirstDecisiveUnique(Requests(NormalizeQuery(query)), store, i);
  }

  /** When no rung finds a row, the result is the local fallback. */
  lemma NoRowsFallsBack(query: Query, store: ParamsStore)
    requires forall j :: 0 <= j < 4 ==> store(Requests(NormalizeQuery(query))[j]) == Rows([])
    ensures SoilParamsFor(query, store) == Fallback(NormalizeQuery(query), SoilParamsMock)
  {
    FirstDecisiveUnique(Requests(NormalizeQuery(query)), store, 4);
  }

  /** The row the ladder settles on, if any: the first row of the first rung that finds rows before any error. */
  function LadderHit(q: Query, store: ParamsStore): Option<Row>
  {
    var reqs := Requests(q);
    var i := FirstDecisive(reqs, store);
    if i < |reqs| && store(reqs[i]).Rows? then Some(store(reqs[i]).rows[0]) else None
  }

  /** The requests the ladder sends: the rungs up to and including the first that fails or finds a row. */
  function LadderAsked(q: Query, store: ParamsStore): seq<seq<EqFilter>>
  {
    var reqs := Requests(q);
    var i := FirstDecisive(reqs, store);
    if i < |reqs| then reqs[..i + 1] else reqs
  }

  /** A rung that fails or finds rows, after empty ones, ends the ladder there. */
  lemma LadderStopsAt(q: Query, store: ParamsStore, i: nat)
    requires i < 4
    requires forall j :: 0 <= j < i ==> store(Requests(q)[j]) == Rows([])
    requires store(Requests(q)[i]) != Rows([])
    ensures LadderAsked(q, store) == Requests(q)[..i + 1]
    ensures var reply := store(Requests(q)[i]);
      LadderHit(q, store) == if reply.Rows? then Some(reply.rows[0]) else None
  {
    FirstDecisiveUnique(Requests(q), store, i);
  }

  /** When every rung comes back empty, all four are sent and nothing is found. */
  lemma LadderRunsOut(q: Query, store: ParamsStore)
    requires forall j :: 0 <= j < 4 ==> store(Requests(q)[j]) == Rows([])
    ensures LadderAsked(q, store) == Requests(q)
    ensures LadderHit(q, store) == None
  {
    FirstDecisiveUnique(Requests(q), store, 4);
  }

  /**
   * The `try` block of `getSoilParams`: send the rungs in order, stop at
   * the first error (`hit` is then `None`) or at the first rung that finds
   * rows. The ghost `asked` records the requests sent, in order.
   */
  method Climb(q: Query, store: ParamsStore) returns (hit: Option<Row>, ghost asked: seq<seq<EqFilter>>)
    ensures hit == LadderHit(q, store)
    ensures asked == LadderAsked(q, store)
  {
    var ladders := Ladders(q);
    ghost var reqs := Requests(q);
    asked := [];
    var i := 0;
    while i < |ladders|
      invariant 0 <= i <= |ladders|
      invariant forall j :: 0 <= j < i ==> store(reqs[j]) == Rows([])
      invariant asked == reqs[..i]
    {
      var req := BuildRequest(ladders[i]);
      assert req == reqs[i];
      asked := asked + [req];
      assert asked == reqs[..i + 1];
      var reply := store(req);
      if reply.Failure? {
        LadderStopsAt(q, store, i);
        return None, asked;
      }
      if |reply.rows| > 0 {
        LadderStopsAt(q, store, i);
        return Some(reply.rows[0]), asked;
      }
      i := i + 1;
    }
    LadderRunsOut(q, store);
    assert reqs[..i] == reqs;
    hit := None;
  }

  /** `getSoilParams(query)`: the ladder's row when it finds one, otherwise the local fallback. */
  method GetSoilParams(query: Query, store: ParamsStore) returns (r: SoilParams, ghost asked: seq<seq<EqFilter>>)
    ensures r == SoilParamsFor(query, store)
    ensures asked == LadderAsked(NormalizeQuery(query), store)
  {
    var q := NormalizeQuery(query);
    var hit;
    hit, asked := Climb(q, store);
    if hit.Some? {
      r := FromRow(hit.value);
    } else {
      r := Fallback(q, SoilParamsMock);
    }
  }

  /** Worked examples of the fallback on normalised searches. */
  lemma FallbackExamples()
    ensures Fallback(Query(Some("abacate"), Some("fortuna"), Some("sp"), Some("campinas"), Some("mehlich-1"), None, None), SoilParamsMock)
      == SoilParamsMock[1]
    ensures Fallback(Query(Some("abacate"), Some("hass"), None, None, Some("mehlich-1"), None, None), SoilParamsMock)
      == SoilParamsMock[0]
    ensures Fallback(Query(Some("soja"), None, None, None, None, None, None), SoilParamsMock)
      == SoilParamsMock[0]
  {
    var q1 := Query(Some("abacate"), Some("fortuna"), Some("sp"), Some("campinas"), Some("mehlich-1"), None, None);
    assert !ExactMatch(q1, SoilParamsMock[0]) && ExactMatch(q1, SoilParamsMock[1]);
    var q2 := Query(Some("abacate"), Some("hass"), None, None, Some("mehlich-1"), None, None);
    assert !ExactMatch(q2, SoilParamsMock[0]) && !ExactMatch(q2, SoilParamsMock[1]) && CropMatch(q2, SoilParamsMock[0]);
  }
}
