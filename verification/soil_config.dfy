/**
 * The ideal-range resolver: one query to the reference table with a filter
 * per context field that is filled in, a static default table when the
 * query fails or finds nothing, and a session cache keyed by the parameter
 * and the context.
 */
module SoilConfig {

  import opened Wrappers
  import opened Store
  import opened JsText

  /** The twelve soil parameters that have ideal ranges. */
  datatype SoilParam = PH | P | K | Ca | Mg | MO | S | B | Cu | Fe | Mn | Zn

  /** The parameter as written in the `parametro` column. */
  function Name(p: SoilParam): (n: string)
    ensures 1 <= |n| <= 2
  {
    match p
    case PH => "pH" case P => "P" case K => "K" case Ca => "Ca" case Mg => "Mg" case MO => "MO"
    case S => "S" case B => "B" case Cu => "Cu" case Fe => "Fe" case Mn => "Mn" case Zn => "Zn"
  }

  /** Different parameters never filter on the same name. */
  lemma NameInjective(p1: SoilParam, p2: SoilParam)
    requires Name(p1) == Name(p2)
    ensures p1 == p2
  {
    assert Name(p1)[0] == Name(p2)[0];
    if |Name(p1)| == 2 {
      assert Name(p1)[1] == Name(p2)[1];
    }
  }

  const AllParams: seq<SoilParam> := [PH, P, K, Ca, Mg, MO, S, B, Cu, Fe, Mn, Zn]

  datatype IdealRange = IdealRange(min: real, max: real, unidade: Option<string>)

  /** `DEFAULTS`: the static fallback table. */
  function Defaults(p: SoilParam): (r: IdealRange)
    ensures r.min < r.max
    ensures r.unidade.Some?
  {
    match p
    case PH => IdealRange(5.5, 6.5, Some("pH"))
    case P => IdealRange(10.0, 30.0, Some("mg/dm³"))
    case K => IdealRange(0.2, 0.4, Some("cmolc/dm³"))
    case Ca => IdealRange(3.0, 6.0, Some("cmolc/dm³"))
    case Mg => IdealRange(1.0, 2.0, Some("cmolc/dm³"))
    case MO => IdealRange(3.0, 5.0, Some("%"))
    case S => IdealRange(10.0, 20.0, Some("mg/dm³"))
    case B => IdealRange(0.2, 0.6, Some("mg/dm³"))
    case Cu => IdealRange(0.4, 1.2, Some("mg/dm³"))
    case Fe => IdealRange(4.0, 12.0, Some("mg/dm³"))
    case Mn => IdealRange(2.0, 10.0, Some("mg/dm³"))
    case Zn => IdealRange(1.0, 3.0, Some("mg/dm³"))
  }

  /** The default table covers every parameter, each once, with a well-formed range. */
  lemma DefaultsCoverAllParams()
    ensures |AllParams| == 12
    ensures forall p: SoilParam :: p in AllParams
    ensures forall i, j :: 0 <= i < j < |AllParams| ==> AllParams[i] != AllParams[j]
    ensures forall p: SoilParam :: Defaults(p).min < Defaults(p).max
  {
    forall p: SoilParam ensures p in AllParams {
      match p
      case PH => assert AllParams[0] == p;
      case P => assert AllParams[1] == p;
      case K => assert AllParams[2] == p;
      case Ca => assert AllParams[3] == p;
      case Mg => assert AllParams[4] == p;
      case MO => assert AllParams[5] == p;
      case S => assert AllParams[6] == p;
      case B => assert AllParams[7] == p;
      case Cu => assert AllParams[8] == p;
      case Fe => assert AllParams[9] == p;
      case Mn => assert AllParams[10] == p;
      case Zn => assert AllParams[11] == p;
    }
  }

  /** Where a resolved range came from. */
  datatype Source = Supabase | Mock

  datatype SourcedRange = SourcedRange(min: real, max: real, unidade: Option<string>, source: Source)

  /** The fallback result: the default range marked as `mock`. */
  function MockRange(p: SoilParam): (r: SourcedRange)
    ensures r.source == Mock && r.min < r.max && r.unidade.Some?
  {
    var d := Defaults(p);
    SourcedRange(d.min, d.max, d.unidade, Mock)
  }

  /** `ContextoSolo`: every field is optional. */
  datatype Contexto = Contexto(
    cultura: Option<string>,
    variedade: Option<string>,
    extrator: Option<string>,
    estado: Option<string>,
    cidade: Option<string>,
    altitude: Option<real>,
    idadeMeses: Option<real>)

  /** The default context `{}`. */
  const EmptyContext: Contexto := Contexto(None, None, None, None, None, None, None)

  /** `key(param, ctx)`: the cache distinguishes exactly the pairs (parameter, context). */
  datatype CacheKey = CacheKey(param: SoilParam, ctx: Contexto)

  /** The reference-table columns the resolver filters on. */
  datatype Column = Parametro | Cultura | Variedade | Extrator | Estado | Cidade | IdadeMin | IdadeMax

  /** A filter of the reference-table query: `.eq`, `.lte` or `.gte` on a column. */
  datatype Filter = Eq(column: Column, value: string) | Lte(column: Column, bound: real) | Gte(column: Column, bound: real)


  /** The equality filter on `column` that a context field contributes, if any. */
  function EqIf(column: Column, o: Option<string>): (q: seq<Filter>)
    ensures forall f :: f in q <==> Truthy(o) && f == Eq(column, o.value)
  {
    if Truthy(o) then [Eq(column, o.value)] else []
  }

  /** The age filters: `idade_min <= idadeMeses <= idade_max`, only when the age is a number. */
  function AgeFilters(idadeMeses: Option<real>): (q: seq<Filter>)
    ensures forall f :: f in q <==> idadeMeses.Some? && (f == Lte(IdadeMin, idadeMeses.value) || f == Gte(IdadeMax, idadeMeses.value))
  {
    match idadeMeses
    case Some(n) => [Lte(IdadeMin, n), Gte(IdadeMax, n)]
    case None => []
  }

  /**
   * The filters a query for `parametro` in `ctx` should carry: the
   * parameter itself, an equality for each truthy text field (altitude is
   * never used) and the age bracket when the age is a number.
   */
  predicate Wanted(parametro: SoilParam, ctx: Contexto, f: Filter)
  {
    match f
    case Eq(col, v) =>
      (match col
       case Parametro => v == Name(parametro)
       case Cultura => ctx.cultura == Some(v) && v != ""
       case Variedade => ctx.variedade == Some(v) && v != ""
       case Extrator => ctx.extrator == Some(v) && v != ""
       case Estado => ctx.estado == Some(v) && v != ""
       case Cidade => ctx.cidade == Some(v) && v != ""
       case _ => false)
    case Lte(col, n) => col == IdadeMin && ctx.idadeMeses == Some(n)
    case Gte(col, n) => col == IdadeMax && ctx.idadeMeses == Some(n)
  }

  /** The filters of the query for `parametro` in `ctx`, in the order the source adds them. */
  function Filters(parametro: SoilParam, ctx: Contexto): (q: seq<Filter>)
    ensures 1 <= |q| && q[0] == Eq(Parametro, Name(parametro))
    ensures forall f :: f in q <==> Wanted(parametro, ctx, f)
  {
    [Eq(Parametro, Name(parametro))]
      + EqIf(Cultura, ctx.cultura)
      + EqIf(Variedade, ctx.variedade)
      + EqIf(Extrator, ctx.extrator)
      + EqIf(Estado, ctx.estado)
      + EqIf(Cidade, ctx.cidade)
      + AgeFilters(ctx.idadeMeses)
  }

  /** The query of `getIdealRange`, built one conditional filter at a time. */
  method BuildQuery(parametro: SoilParam, ctx: Contexto) returns (query: seq<Filter>)
    ensures query == Filters(parametro, ctx)
  {
    query := [Eq(Parametro, Name(parametro))];
    if Truthy(ctx.cultura) { query := query + [Eq(Cultura, ctx.cultura.value)]; }
    assert query == [Eq(Parametro, Name(parametro))] + EqIf(Cultura, ctx.cultura);
    ghost var built := query;
    if Truthy(ctx.variedade) { query := query + [Eq(Variedade, ctx.variedade.value)]; }
    assert query == built + EqIf(Variedade, ctx.variedade);
    built := query;
    if Truthy(ctx.extrator) { query := query + [Eq(Extrator, ctx.extrator.value)]; }
    assert query == built + EqIf(Extrator, ctx.extrator);
    built := query;
    if Truthy(ctx.estado) { query := query + [Eq(Estado, ctx.estado.value)]; }
    assert query == built + EqIf(Estado, ctx.estado);
    built := query;
    if Truthy(ctx.cidade) { query := query + [Eq(Cidade, ctx.cidade.value)]; }
    assert query == built + EqIf(Cidade, ctx.cidade);
    built := query;
    if ctx.idadeMeses.Some? {
      query := query + [Lte(IdadeMin, ctx.idadeMeses.value), Gte(IdadeMax, ctx.idadeMeses.value)];
    }
    assert query == built + AgeFilters(ctx.idadeMeses);
  }

  /** A row of the reference table (only the columns the resolver reads). */
  datatype Registro = Registro(unidade: Option<string>, idealMin: real, idealMax: real)

  /** The store: for a query, an error or the rows it selects. */
  type ReferenceStore = seq<Filter> -> Reply<Registro>

  /** What an uncached call resolves to: the first row found, or the default table. */
  function Resolve(parametro: SoilParam, ctx: Contexto, store: ReferenceStore): (r: SourcedRange)
    ensures r.unidade.Some?
    ensures r.source == Supabase <==> store(Filters(parametro, ctx)).Rows? && |store(Filters(parametro, ctx)).rows| > 0
    ensures r.source == Supabase ==>
      var rec := store(Filters(parametro, ctx)).rows[0];
      && r.min == rec.idealMin && r.max == rec.idealMax
      && r.unidade == (if rec.unidade.Some? then rec.unidade else Defaults(parametro).unidade)
    ensures r.source == Mock ==> r == MockRange(parametro)
  {
    match store(Filters(parametro, ctx))
    case Rows(rows) =>
      if |rows| > 0 then
        var rec := rows[0];
        SourcedRange(rec.idealMin, rec.idealMax, Some(rec.unidade.GetOr(Defaults(parametro).unidade.value)), Supabase)
      else MockRange(parametro)
    case Failure(_) => MockRange(parametro)
  }

  /** A call's result: the cached one when there is one, otherwise a fresh resolution. */
  function Lookup(cache: map<CacheKey, SourcedRange>, parametro: SoilParam, ctx: Contexto, store: ReferenceStore): SourcedRange
  {
    var k := CacheKey(parametro, ctx);
    if k in cache then cache[k] else Resolve(parametro, ctx, store)
  }

  /** The cache after sequential calls for each parameter of `ps`, in order, all in context `ctx`. */
  function CacheAfter(c0: map<CacheKey, SourcedRange>, ps: seq<SoilParam>, ctx: Contexto, store: ReferenceStore): map<CacheKey, SourcedRange>
    decreases |ps|
  {
    if |ps| == 0 then c0
    else
      var c := CacheAfter(c0, ps[..|ps| - 1], ctx, store);
      var p := ps[|ps| - 1];
      c[CacheKey(p, ctx) := Lookup(c, p, ctx, store)]
  }

  /**
   * Sequential calls add one entry per requested parameter, keep every
   * earlier entry, and each parameter's entry is what a single call on the
   * initial cache would return.
   */
  lemma {:induction false} CacheAfterSpec(c0: map<CacheKey, SourcedRange>, ps: seq<SoilParam>, ctx: Contexto, store: ReferenceStore)
    ensures CacheAfter(c0, ps, ctx, store).Keys == c0.Keys + set p | p in ps :: CacheKey(p, ctx)
    ensures forall k :: k in c0 ==> CacheAfter(c0, ps, ctx, store)[k] == c0[k]
    ensures forall p :: p in ps ==> CacheAfter(c0, ps, ctx, store)[CacheKey(p, ctx)] == Lookup(c0, p, ctx, store)
    decreases |ps|
  {
    if |ps| > 0 {
      var init := ps[..|ps| - 1];
      CacheAfterSpec(c0, init, ctx, store);
      assert ps == init + [ps[|ps| - 1]];
    }
  }

  /** The session cache shared by all calls, and the resolver that fills it. */
  class IdealRangeCache {

    var cache: map<CacheKey, SourcedRange>
    /** Every query sent to the store, in order (instrumentation for the proofs). */
    ghost var storeQueries: seq<seq<Filter>>

    /** Every cached range has a unit, and every cached fallback is the default for its parameter. */
    ghost predicate Valid()
      reads this
    {
      forall k :: k in cache ==> cache[k].unidade.Some? && (cache[k].source == Mock ==> cache[k] == MockRange(k.param))
    }

    constructor ()
      ensures Valid() && cache == map[] && storeQueries == []
    {
      cache := map[];
      storeQueries := [];
    }

    /** `getIdealRange(parametro, ctx)`: never fails; consults the store only on a cache miss. */
    method GetIdealRange(parametro: SoilParam, ctx: Contexto, store: ReferenceStore) returns (r: SourcedRange)
      requires Valid()
      modifies this
      ensures Valid()
      ensures r == Lookup(old(cache), parametro, ctx, store)
      ensures r.unidade.Some? && (r.source == Mock ==> r == MockRange(parametro))
      ensures CacheKey(parametro, ctx) in old(cache) ==> cache == old(cache) && storeQueries == old(storeQueries)
      ensures CacheKey(parametro, ctx) !in old(cache) ==>
        && cache == old(cache)[CacheKey(parametro, ctx) := r]
        && storeQueries == old(storeQueries) + [Filters(parametro, ctx)]
    {
      var k := CacheKey(parametro, ctx);
      if k in cache {
        return cache[k];
      }

      var query := BuildQuery(parametro, ctx);

      storeQueries := storeQueries + [query];
      var reply := store(query);
      if reply.Rows? && |reply.rows| > 0 {
        var rec := reply.rows[0];
        r := SourcedRange(rec.idealMin, rec.idealMax, Some(rec.unidade.GetOr(Defaults(parametro).unidade.value)), Supabase);
        cache := cache[k := r];
        return;
      }

      r := MockRange(parametro);
      cache := cache[k := r];
    }

    /** `getIdealRanges(params, ctx)`: one entry per requested parameter, each as a single call would give it. */
    method GetIdealRanges(params: seq<SoilParam>, ctx: Contexto, store: ReferenceStore) returns (out: map<SoilParam, SourcedRange>)
      requires Valid()
      modifies this
      ensures Valid()
      ensures out.Keys == set p | p in params
      ensures forall p :: p in out ==> out[p] == Lookup(old(cache), p, ctx, store)
      ensures cache.Keys == old(cache).Keys + set p | p in params :: CacheKey(p, ctx)
      ensures forall k :: k in old(cache) ==> cache[k] == old(cache)[k]
      ensures forall p :: p in out ==> cache[CacheKey(p, ctx)] == out[p]
      ensures |storeQueries| <= |old(storeQueries)| + |params| && old(storeQueries) <= storeQueries
    {
      out := map[];
      var i := 0;
      while i < |params|
        invariant 0 <= i <= |params|
        invariant Valid()
        invariant cache == CacheAfter(old(cache), params[..i], ctx, store)
        invariant out.Keys == set p | p in params[..i]
        invariant forall p :: p in out ==> CacheKey(p, ctx) in cache && out[p] == cache[CacheKey(p, ctx)]
        invariant |storeQueries| <= |old(storeQueries)| + i && old(storeQueries) <= storeQueries
      {
        var p := params[i];
        var r := GetIdealRange(p, ctx, store);
        out := out[p := r];
        assert params[..i + 1] == params[..i] + [p];
        i := i + 1;
      }
      assert params[..i] == params;
      CacheAfterSpec(old(cache), params, ctx, store);
    }
  }

  /** A second call with the same parameter and context returns the first call's result, whatever the store says then. */
  method CallTwice(c: IdealRangeCache, parametro: SoilParam, ctx: Contexto, store1: ReferenceStore, store2: ReferenceStore)
    returns (r1: SourcedRange, r2: SourcedRange)
    requires c.Valid()
    modifies c
    ensures r1 == r2
    ensures |c.storeQueries| <= |old(c.storeQueries)| + 1
  {
    r1 := c.GetIdealRange(parametro, ctx, store1);
    r2 := c.GetIdealRange(parametro, ctx, store2);
  }

  /** The default context adds no filter besides the parameter. */
  lemma EmptyContextFilters(parametro: SoilParam)
    ensures Filters(parametro, EmptyContext) == [Eq(Parametro, Name(parametro))]
  {
  }

  /** Worked example: phosphorus for a crop context with no reference rows falls back to the default table. */
  lemma NoRowsFallsBackToDefault(store: ReferenceStore)
    requires store(Filters(P, Contexto(Some("abacate"), Some("fortuna"), Some("mehlich-1"), None, None, None, None))) == Rows([])
    ensures Resolve(P, Contexto(Some("abacate"), Some("fortuna"), Some("mehlich-1"), None, None, None, None), store)
      == SourcedRange(10.0, 30.0, Some("mg/dm³"), Mock)
  {
  }
}
