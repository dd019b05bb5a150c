# Soil-analysis interpretation, modelled in Dafny

This project models the logic that interprets a soil analysis in a
Mantine + Supabase web application. It covers two parts.

- **The cards.**
  - The recommendation card, the pH card and the nutrient card each
    classify a reading as below, inside or above an ideal range, pick a
    colour and a label or advice text, and place the reading on a scale.
  - The recommendation card shows this as a clamped progress bar per
    nutrient, with a tooltip.
  - The pH and nutrient cards also size a plant marker by how close the
    reading is to the range.
  - The bar strip takes no reading. It colours a row of bars by where
    each bar's centre lies against the ideal band: warm to the left,
    green inside, cool to the right.
  - All numbers are `real`. Wherever the source divides by `max - min`
    without a guard, the model requires `min < max`.
- **The two resolvers.**
  - `getIdealRange` and `getIdealRanges` look up one ideal range per soil
    parameter. They use a session cache keyed by parameter and context,
    send one filtered query, and fall back to a static default table. The
    cache is a class with a `map` field whose methods update it in place.
  - `getSoilParams` normalises a search, then climbs a ladder of four
    progressively less specific requests. It stops at the first request
    that fails or finds a row. A row is the result. A failed request
    abandons the ladder and goes straight to the local mock table, and so
    does a ladder whose four requests all find nothing. The ladder is a
    method with a loop and an early exit.
  - The remote store is a parameter: a function from a request's filters
    to either an error or a list of rows. Every property therefore holds
    whatever the store answers.

Modules:
- `Wrappers` and `Store` hold `Option` and the store's reply.
- `RangeMath` holds the shared three-way status and the arithmetic lemmas.
- `RecomendacaoCard`, `PhCard`, `NutrientCard` and `BarStrip` model the cards.
- `SoilConfig` models `getIdealRange` and `getIdealRanges`.
- `JsText` models JavaScript `trim` and `toLowerCase`.
- `SoilParamsService` models `norm`, `normalizeQuery` and `getSoilParams`.
- `CrossChecks` holds properties that relate the components.

Behaviour taken from the code as written:
- A resolved range records its origin as `supabase` or `mock`.
- The ideal-range cache is keyed by the context exactly as given, not by a normalised context.
- In `getSoilParams`, a store error at any rung goes straight to the mock fallback. The remaining rungs are not tried.
- `getIdealRange` sends a single query with conditional filters. It has no ladder.
- The percent-of-range computations have no guard for `max == min`.
- The doc comment of `normalizeQuery` says accents are removed. The code only trims and lower-cases, and so does the model.
- With a blank or absent crop, the last rung of `getSoilParams` filters on nothing, so any row of the table answers it (`BlankCropLastRungUnfiltered`).

## Model

| member | source | states |
|---|---|---|
| RangeMath.Classify | src/views/AnaliseSolo/PhCard.tsx:62-66 | below iff `v < lo`; above iff `lo <= v` and `hi < v`; ideal iff `lo <= v <= hi` (both bounds inclusive) |
| RecomendacaoCard.Classificar | src/views/AnaliseSolo/RecomendacaoCard.tsx:17-23 | `baixo`/red iff `valor < min`, `alto`/violet iff `valor > max` (and not below), `ideal`/green iff `min <= valor <= max`; each colour iff its status |
| RecomendacaoCard.Percentual | src/views/AnaliseSolo/RecomendacaoCard.tsx:36-39 | for `min < max`, the result lies in [0,100]; it is 0 at or below `min`, 100 at or above `max`, and inside the range it is the linear position `(valor-min)/(max-min)*100` |
| RecomendacaoCard.PercentualMonotone | src/views/AnaliseSolo/RecomendacaoCard.tsx:38 | a higher reading never gives a shorter bar |
| RecomendacaoCard.PercentualFollowsStatus | src/views/AnaliseSolo/RecomendacaoCard.tsx:17-39 | a low reading shows an empty bar and a high reading a full one |
| RecomendacaoCard.TooltipMsg | src/views/AnaliseSolo/RecomendacaoCard.tsx:41-46 | the tooltip opens with `B`, `E` or `N` for low, high or ideal, names the nutrient right after its status phrase, and ends with a full stop |
| RecomendacaoCard.TooltipMsgIdentifiesStatus | src/views/AnaliseSolo/RecomendacaoCard.tsx:41-46 | the tooltip depends on the status alone: two equal tooltips have the same status, whatever the nutrient names |
| RecomendacaoCard.Diagnostico | src/views/AnaliseSolo/RecomendacaoCard.tsx:31-46 | nothing is rendered (the destructuring throws) iff some nutrient key has no ideal range; otherwise one line per key, in key order, carrying that key's classification, bar and tooltip |
| RecomendacaoCard.PhExamples | src/views/AnaliseSolo/RecomendacaoCard.tsx:17-39 | pH 4.9, 6.0 and 7.0 against 5.5–6.5 give low/0%, ideal/50% and high/100% |
| PhCard.Pct | src/views/AnaliseSolo/PhCard.tsx:37-40 | the clamped reading as a percentage: in [0,100], 0 at or below `min`, 100 at or above `max`, linear in between |
| PhCard.PctDefault | src/views/AnaliseSolo/PhCard.tsx:37-40 | on the default 0..14 scale the result is in [0,100], `pct(0) = 0` and `pct(14) = 100` |
| PhCard.PctMonotone | src/views/AnaliseSolo/PhCard.tsx:38-39 | `pct` never decreases as the reading grows |
| PhCard.Delta | src/views/AnaliseSolo/PhCard.tsx:50-53 | distance to the band is non-negative, zero inside it and positive outside a well-formed band |
| PhCard.MaxDist | src/views/AnaliseSolo/PhCard.tsx:54 | the divisor is at least 0.0001 and at least each gap between the band and the scale ends, so it is never zero |
| PhCard.GrowthFactor | src/views/AnaliseSolo/PhCard.tsx:43-57 | the growth factor lies in [0.1, 0.5] and is 0.5 whenever the reading is inside the band; within `maxDist` of the band it falls linearly, `(g - 0.1) · maxDist = 0.4 · (maxDist - delta)`, and beyond it is 0.1 |
| PhCard.GrowthFactorFullIffIdeal | src/views/AnaliseSolo/PhCard.tsx:50-56 | with `iMin <= iMax` the factor is 0.5 exactly when the reading is inside the band |
| PhCard.GrowthFactorMonotone | src/views/AnaliseSolo/PhCard.tsx:51-56 | a reading nearer the band never gives a smaller plant |
| PhCard.BadgeFor | src/views/AnaliseSolo/PhCard.tsx:62-71 | red/"Ácido" iff below, blue/"Alcalino" iff above, green/"Ideal" iff inside; the status is the shared three-way classification |
| PhCard.IdealBand | src/views/AnaliseSolo/PhCard.tsx:119-120 | the band's left edge lies in [0,100]; for an ordered band its width is non-negative and the band ends within the scale |
| PhCard.MarkerInsideBandWhenIdeal | src/views/AnaliseSolo/PhCard.tsx:119-134 | an ideal reading places the plant marker inside the drawn band |
| NutrientCard.Clamp | src/views/AnaliseSolo/NutrientCard.tsx:27-28 | the result lies in `[min, max]`, is `n` when `n` already does, and is the nearer end otherwise |
| NutrientCard.Val | src/views/AnaliseSolo/NutrientCard.tsx:41 | a missing reading is evaluated as the scale minimum |
| NutrientCard.IdealSafe | src/views/AnaliseSolo/NutrientCard.tsx:44-47 | the given range, or 25%–50% of the scale, which lies strictly inside the scale when `min < max` |
| NutrientCard.IdealPct | src/views/AnaliseSolo/NutrientCard.tsx:50-53 | the fractions map back to the ideal range (`min + p * (max-min)`), and they lie in [0,1] when the range is within the scale |
| NutrientCard.DefaultIdealPct | src/views/AnaliseSolo/NutrientCard.tsx:44-53 | without an explicit range the band is (0.25, 0.5) whatever the scale |
| NutrientCard.StatusColor | src/views/AnaliseSolo/NutrientCard.tsx:56-59 | red iff below the ideal range, violet iff above, green iff inside (inclusive) |
| NutrientCard.Message | src/views/AnaliseSolo/NutrientCard.tsx:60-65 | the message starts with the nutrient's name, and the third character after the name tells the status apart (a`d`equado, a`b`aixo, a`c`ima) |
| NutrientCard.MessageIdentifiesStatus | src/views/AnaliseSolo/NutrientCard.tsx:60-65 | for one nutrient name, different statuses never give the same message |
| NutrientCard.Pct | src/views/AnaliseSolo/NutrientCard.tsx:68 | for `min < max` the position is in [0,100], 0 and 100 at and beyond the ends, linear in between |
| NutrientCard.DistanceToIdeal | src/views/AnaliseSolo/NutrientCard.tsx:71-76 | in [0,1], and 0 exactly when the reading is inside the ideal range; outside it, the gap to the nearer end over half the scale, `d · (max - min) = 2 · gap`, capped at 1 once the gap reaches half the scale |
| NutrientCard.DistanceToIdealMonotoneBelow | src/views/AnaliseSolo/NutrientCard.tsx:74-75 | further below the range never means nearer |
| NutrientCard.DistanceToIdealMonotoneAbove | src/views/AnaliseSolo/NutrientCard.tsx:74-75 | further above the range never means nearer |
| NutrientCard.PlantScale | src/views/AnaliseSolo/NutrientCard.tsx:79-81 | the plant's scale is the weighted mean `distance · edges + (1 - distance) · ideal`, so it lies between the two ratios, is the ideal ratio at distance 0 and the edge ratio at distance 1 |
| NutrientCard.PlantScaleIdealOnlyAtZero | src/views/AnaliseSolo/NutrientCard.tsx:79-81 | with distinct ratios, the plant reaches its ideal size only at distance 0 |
| NutrientCard.Evaluate | src/views/AnaliseSolo/NutrientCard.tsx:41-81 | with the card's defaults (scale 0..100, ratios 0.5 and 0.25): the value, safe ideal range, ideal band, bar position, distance, colour and plant scale are the card's derivations from the props; status and colour agree, the message follows the status, the bounds hold, and the plant is ideal-sized when the status is ideal (and only then, for distinct ratios) |
| BarStrip.Bars | src/views/AnaliseSolo/BarStrip.tsx:59 | exactly `columns` bars, indexed `0..columns-1` |
| BarStrip.Center | src/views/AnaliseSolo/BarStrip.tsx:85 | every bar centre lies strictly between 0 and 1 |
| BarStrip.WarmIndex | src/views/AnaliseSolo/BarStrip.tsx:91-92 | the warm index is within the warm palette, for every position and band start, including `s = 0` |
| BarStrip.CoolIndex | src/views/AnaliseSolo/BarStrip.tsx:97-98 | the cool index is within the cool palette, for every position and band end, including `e = 1` |
| BarStrip.HasFixed | src/views/AnaliseSolo/BarStrip.tsx:82 | a fixed colour is used only when the palette has an entry at that index, and an empty entry counts as none |
| BarStrip.ColorFor | src/views/AnaliseSolo/BarStrip.tsx:81-100 | a fixed palette entry wins; with no band the bar is neutral grey; otherwise green iff its centre is in `[s, e]`, warm iff left of `s` (the warm shade at its warm index), cool iff right of `e` (the cool shade at its cool index) |
| BarStrip.ShadesDistinct | src/views/AnaliseSolo/BarStrip.tsx:62-78 | green, the warm shades and the cool shades are three disjoint colour families |
| BarStrip.Strip | src/views/AnaliseSolo/BarStrip.tsx:114-119 | one colour per bar, in bar order |
| BarStrip.WarmIndexMonotone | src/views/AnaliseSolo/BarStrip.tsx:91-92 | moving right never picks an earlier warm shade |
| BarStrip.CoolIndexMonotone | src/views/AnaliseSolo/BarStrip.tsx:97-98 | moving right never picks an earlier cool shade |
| BarStrip.CenterMonotone | src/views/AnaliseSolo/BarStrip.tsx:85 | bar centres move right as the index grows |
| BarStrip.WarmShadesInColumnOrder | src/views/AnaliseSolo/BarStrip.tsx:85-93 | left of the band, the warm index never decreases from column to column |
| SoilConfig.Name | src/views/AnaliseSolo/soilConfig.ts:4-16 | each parameter's column value is one or two characters long |
| SoilConfig.NameInjective | src/views/AnaliseSolo/soilConfig.ts:4-16 | different parameters have different column values |
| SoilConfig.Defaults | src/views/AnaliseSolo/soilConfig.ts:46-59 | every default range has `min < max` and a unit |
| SoilConfig.DefaultsCoverAllParams | src/views/AnaliseSolo/soilConfig.ts:4-59 | the twelve parameters are listed once each and all of them have a well-formed default |
| SoilConfig.MockRange | src/views/AnaliseSolo/soilConfig.ts:142 | the fallback is marked `mock` and is a well-formed range with a unit |
| SoilConfig.EqIf | src/views/AnaliseSolo/soilConfig.ts:90-94 | a context field adds its equality filter iff it is present and non-empty |
| SoilConfig.AgeFilters | src/views/AnaliseSolo/soilConfig.ts:96-101 | the age bracket `idade_min <= age <= idade_max` is added iff the age is a number |
| SoilConfig.Filters | src/views/AnaliseSolo/soilConfig.ts:84-101 | the query starts with the parameter filter and holds exactly the filters of present fields, never altitude |
| SoilConfig.BuildQuery | src/views/AnaliseSolo/soilConfig.ts:84-101 | the query built by reassignment is exactly those filters, in source order |
| SoilConfig.Resolve | src/views/AnaliseSolo/soilConfig.ts:103-144 | always a range with a unit; `supabase` iff the store returned a row, with that row's bounds and its unit or the default unit; otherwise the default marked `mock` |
| SoilConfig.CacheAfterSpec | src/views/AnaliseSolo/soilConfig.ts:148-162 | sequential calls add exactly one key per requested parameter, keep earlier entries, and each entry is what a single call would return |
| SoilConfig.IdealRangeCache.constructor | src/views/AnaliseSolo/soilConfig.ts:62 | the session starts with an empty cache |
| SoilConfig.IdealRangeCache.GetIdealRange | src/views/AnaliseSolo/soilConfig.ts:73-145 | a hit returns the cached entry and neither touches the store nor changes the cache; a miss sends exactly one query, returns its resolution and adds only that key; the result always has a unit, and a `mock` result is the parameter's default; the cache invariant is kept |
| SoilConfig.IdealRangeCache.GetIdealRanges | src/views/AnaliseSolo/soilConfig.ts:148-162 | one entry per requested parameter, each equal to a single call's result, with the cache extended by exactly those keys |
| SoilConfig.CallTwice | src/views/AnaliseSolo/soilConfig.ts:77-79 | a repeated call returns the first result even if the store has changed, and at most one query is sent |
| SoilConfig.EmptyContextFilters | src/views/AnaliseSolo/soilConfig.ts:75-88 | the default context `{}` filters on the parameter alone |
| SoilConfig.NoRowsFallsBackToDefault | src/views/AnaliseSolo/soilConfig.ts:118-144 | phosphorus with no matching row resolves to 10–30 mg/dm³ from `mock` |
| JsText.StartFrom | src/services/soilParamsService.ts:15 | the first index from `i` that is not white space: everything skipped is white space and the character found is not |
| JsText.EndFrom | src/services/soilParamsService.ts:15 | the end once trailing white space is dropped: everything dropped is white space and the last character kept is not |
| JsText.Trim | src/services/soilParamsService.ts:15 | the result neither starts nor ends with white space |
| JsText.TrimRemovesOnlySpaces | src/services/soilParamsService.ts:15 | the result is a contiguous slice of the input, and everything cut off on either side is white space |
| JsText.TrimEmptyIffBlank | src/services/soilParamsService.ts:15 | trimming gives `''` exactly when the input is all white space |
| JsText.TrimOfTrimmed | src/services/soilParamsService.ts:15 | trimming a trimmed string changes nothing |
| JsText.LowerChar | src/services/soilParamsService.ts:15 | an upper-case letter becomes the letter 32 code points later (its lower-case form in ASCII and Latin-1), other characters are unchanged, the result is not upper case, and white space stays white space |
| JsText.ToLower | src/services/soilParamsService.ts:15 | same length, each character lowered, no upper-case character left |
| JsText.ToLowerExample | src/services/soilParamsService.ts:15 | `"ABACATE"` lowers to `"abacate"` |
| JsText.ToLowerIdempotent | src/services/soilParamsService.ts:15 | lower-casing twice is lower-casing once |
| JsText.ToLowerKeepsTrimmed | src/services/soilParamsService.ts:15 | lower-casing a trimmed string leaves it trimmed |
| SoilParamsService.Norm | src/services/soilParamsService.ts:14-15 | null iff the input is absent or blank; otherwise the input trimmed and then lower-cased, which is a non-empty, trimmed, lower-case string |
| SoilParamsService.NormExample | src/services/soilParamsService.ts:14-15 | `" Abacate "` normalises to `"abacate"` |
| SoilParamsService.NormIdempotent | src/services/soilParamsService.ts:14-15 | normalising a normalised value changes nothing |
| SoilParamsService.NormalizeQuery | src/services/soilParamsService.ts:20-30 | the crop is its normalised value or `''`, the other text fields are normalised or null, the age is kept, and the result is a normalised query |
| SoilParamsService.NormalizeQueryIdempotent | src/services/soilParamsService.ts:14-30 | normalising a normalised query changes nothing |
| SoilParamsService.Ladders | src/services/soilParamsService.ts:41-46 | four rungs: the full query first, the crop alone last |
| SoilParamsService.CropFilter | src/services/soilParamsService.ts:52 | the crop filter is applied iff the crop is truthy |
| SoilParamsService.EqIfSet | src/services/soilParamsService.ts:53-57 | a field's filter is applied iff the field is not null |
| SoilParamsService.RungFilters | src/services/soilParamsService.ts:52-57 | a rung's request holds exactly the filters of its truthy crop and non-null fields; there is no age column |
| SoilParamsService.LaddersRelaxFilters | src/services/soilParamsService.ts:41-57 | every filter of a rung is also a filter of the rung before it |
| SoilParamsService.BlankCropLastRungUnfiltered | src/services/soilParamsService.ts:20-57 | with a blank or absent crop the last rung sends no filter at all |
| SoilParamsService.BuildRequest | src/services/soilParamsService.ts:50-57 | the request built filter by filter is exactly the rung's filters |
| SoilParamsService.Requests | src/services/soilParamsService.ts:41-57 | the four requests are the filters of the four rungs, in order |
| SoilParamsService.FirstDecisive | src/services/soilParamsService.ts:49-61 | every rung before the index found no row and did not fail, and the rung at the index (if any) failed or found a row |
| SoilParamsService.FirstDecisiveUnique | src/services/soilParamsService.ts:49-61 | that index is the only one with this property |
| SoilParamsService.FromRow | src/services/soilParamsService.ts:62-78 | every column of the row is copied, and a null `ideal` becomes the empty map |
| SoilParamsService.FindFirst | src/services/soilParamsService.ts:87-94 | the first element satisfying the predicate, or none if no element does |
| SoilParamsService.FindFirstCongruent | src/services/soilParamsService.ts:87-94 | predicates that agree on every element find the same element |
| SoilParamsService.ExactMatch | src/services/soilParamsService.ts:88-92 | an exact match is also a crop match, and it has the query's variety, state and extractor |
| SoilParamsService.CropMatch | src/services/soilParamsService.ts:94 | with no crop in the query only entries with an empty crop match; otherwise the entry's crop equals the query's |
| SoilParamsService.FallbackIndex | src/services/soilParamsService.ts:86-95 | the first exact match on crop, variety, state and extractor if any; else the first crop match if any; else entry 0 |
| SoilParamsService.Fallback | src/services/soilParamsService.ts:86-97 | the fallback is always an element of the mock table |
| SoilParamsService.FallbackIgnoresCidadeEstagio | src/services/soilParamsService.ts:88-93 | the city and the stage never influence the fallback |
| SoilParamsService.SoilParamsFor | src/services/soilParamsService.ts:37-98 | the result is never an error: it is either an entry of the mock table or the first row of a request the store answered with rows |
| SoilParamsService.FirstRungWithRowsWins | src/services/soilParamsService.ts:49-79 | if rung `i` is the first to return rows (earlier ones returned none), the result is built from its first row |
| SoilParamsService.StoreErrorFallsBack | src/services/soilParamsService.ts:59-83 | an error at rung `i`, after empty earlier rungs, gives the local fallback |
| SoilParamsService.NoRowsFallsBack | src/services/soilParamsService.ts:48-97 | when all four rungs return no row, the result is the local fallback |
| SoilParamsService.Climb | src/services/soilParamsService.ts:48-83 | the loop returns the ladder's hit and sends exactly the rungs up to the first that fails or finds a row, none after it |
| SoilParamsService.GetSoilParams | src/services/soilParamsService.ts:37-98 | the result is the ladder's first row or else the fallback, and later rungs are never queried |
| SoilParamsService.FallbackExamples | src/services/soilParamsService.ts:86-95 | abacate/fortuna/sp/mehlich-1 picks the specific mock entry, even with a city given; abacate with another variety picks the generic one; an unknown crop picks entry 0 |
| CrossChecks.PercentFormulasAgree | src/views/AnaliseSolo/RecomendacaoCard.tsx:36-39 | the recommendation card, the pH card (`PhCard.tsx:37-40`) and the nutrient card (`NutrientCard.tsx:68`) compute the same percentage |
| CrossChecks.DefaultNutrientStrip | src/views/AnaliseSolo/NutrientCard.tsx:153-158 | a nutrient card without an explicit range passes a 14-column strip with the band (0.25, 0.5) |
| CrossChecks.DefaultBandIsBarsThreeToSix | src/views/AnaliseSolo/BarStrip.tsx:85-88 | in that strip, over exact reals, exactly bars 3 to 6 are green, whatever the nutrient's scale |

## Left out

- The React rendering: JSX, Mantine components, icons, tooltips as elements, hooks and memoisation. This includes the bar-height measurement with `useLayoutEffect` and `ResizeObserver` in the nutrient card. All of it is UI.
- The Supabase client and the network. The store is a parameter of the resolvers, so the properties hold for every answer it can give.
- An error reply's contents. The model only distinguishes an error from rows.
- A reply without an error whose `data` is null. It is treated as an empty row list, which is how both resolvers act on it.
- Logging: `registrarLogLocal` and its dynamic import in `getIdealRange`. It is I/O and never changes the result.
- The `await`s and the `Promise.all` concurrency in `getIdealRanges`. Calls run one after another.
- SoilConfig.IdealRangeCache.GetIdealRanges: concurrent calls for a parameter listed twice would each query the store. In the sequential model the second call hits the cache. The returned entries are the same whenever the store answers both queries alike.
- The cache key is `JSON.stringify([param, ctx])`. It is modelled as the pair (parameter, context). Two contexts with the same fields in a different property order give different JSON keys but the same model key.
- IEEE-754 floating point. Numbers are exact reals, so NaN and Infinity are not modelled. Where the source divides by `max - min` without a guard, the model requires `min < max`.
- CrossChecks.DefaultBandIsBarsThreeToSix: holds over exact reals only. Bar 3's centre, 3.5/14 = 0.25, lies exactly on the default band's left edge. With doubles the edge computed for a scale such as 0.2..0.7 comes out as 0.25000000000000006, so the program paints bar 3 warm there. On the card's own default scale 0..100 the edge is exactly 0.25.
- JsText.LowerChar: `toLowerCase` is modelled for ASCII and Latin-1 letters only. Other Unicode case mappings are not modelled.
- Number formatting: `toFixed`, `rangeToString` and `summarizeRanges`.
- The 0–200% normalisation used by the analysis chart. Its definitions are not part of this model.
- `DEFAULT_PALETTE` in the bar strip. It is exported but never read by the strip itself.
- The pH card's fifteen scale-block colours. They are only displayed.
- The pH card's advice paragraphs and its number input's change handler. These are text and UI.
- The unit prop of the nutrient card. It is only displayed.
- SoilParamsService.Fallback: it requires a non-empty mock table. The source indexes entry 0 unconditionally, and the table shipped with it has two entries.
