# SpaceX launch records dashboard: the data handling, in Dafny

`spacex_dash_app.py` is a Dash dashboard over a table of SpaceX launches. Each
row has a launch site, a payload mass in kg, a booster version category, and a
class (1 for a successful launch, 0 for a failed one). The app reads this
table once and never changes it. It computes the payload bounds that the range
slider uses. Its two callbacks recompute a pie chart and a scatter chart from
the table whenever the site dropdown or the payload slider changes.

This project models the data half of that logic. Everything is a pure
function over the immutable launch table (`seq<Record>`):

- `map_success`, the outcome label of a class value (`SpaceXDash.MapSuccess`);
- the payload bounds and the slider's default range (`MinPayload`,
  `MaxPayload`, `DefaultRange`);
- the pie table. For `"ALL"` it counts successful launches per launch site,
  and its legend order is the table's sites, sorted and de-duplicated. For
  one site it counts that site's launches per class, labelled Success or
  Failure. The pie also carries the `px.pie` keyword bundle: the fixed label
  order, the colours and the title (`UpdateSuccessPieChart`);
- the scatter table: the selected site's launches, kept when the payload
  lies in the inclusive range under the intended filter (line 122 differs,
  see "## Findings"), each labelled with its outcome. It also
  carries the `px.scatter` parameters (`UpdatePayloadScatterChart`).

Modules:

- `Seqs` (seqs.dfy) holds the sequence operations that stand for the pandas
  calls: a boolean-mask `Filter`, `Map`, and `ValueCounts`. `ValueCounts`
  returns a table of buckets whose contents are proved exact.
- `Order` (order.dfy) holds numpy's ascending string order
  (lexicographic by code point) and `SortedUnique`, which stands for
  `np.sort(series.unique())`.
- `SpaceXDash` (dashboard.dfy) holds records, labels, bounds and both
  callbacks. Launch counts are also defined directly by recursion over the
  table (`SuccessesAt`, `LaunchesAt`, `OutcomesAt`). They are the reference
  that the pie lemmas compare the aggregated tables against.
- `ScatterAsWritten` (quirk.dfy) models line 122 as it is written, including
  pandas' alignment of a boolean mask by index label. It exists only to
  exhibit the divergence under "## Findings".
- `Wrappers` (wrappers.dfy) holds `Option` and `Result`.

Modelling choices:

- The class column is the subset type `Bit` (0 or 1). So the pie's
  `class == 1` filter and `map_success`'s truthiness test agree.
- Payload is a `real`. The core only compares payloads and takes their
  minimum and maximum.
- pandas' `max()`/`min()` return NaN on an empty column. The bounds
  functions model that NaN as `None`, so they need no precondition.
- `value_counts` is modelled as a sequence of `(key, count)` buckets in
  order of first appearance. pandas orders them by descending count. No
  contract depends on this order.
- The pie tables follow pandas 2 naming: `value_counts().reset_index()`
  gives the value column under its own name plus a `count` column, which
  lines 76, 87 and 90 rely on (pandas 1.x named them `index` and the value
  column's name).
- The site selection is the dropdown's string. A value that is no site of
  the table selects no launches, so both charts get empty tables.

## Model

| member | source | states |
|---|---|---|
| `SpaceXDash.MapSuccess` | spacex_dash_app.py:104-105 | the label is "Success" exactly when the class is 1, and is always one of "Success", "Failure" |
| `SpaceXDash.MaxPayload` | spacex_dash_app.py:12 | for a non-empty table the result is a payload of some row and no row is heavier; None (NaN) exactly for an empty table |
| `SpaceXDash.MinPayload` | spacex_dash_app.py:13 | for a non-empty table the result is a payload of some row and no row is lighter; None (NaN) exactly for an empty table |
| `SpaceXDash.DefaultRange` | spacex_dash_app.py:54-58 | the slider's default exists exactly for a non-empty table and is `[MinPayload, MaxPayload]`; it is not inverted and contains every row's payload |
| `SpaceXDash.UpdateSuccessPieChart` | spacex_dash_app.py:72-101 | for "ALL" the data is `PieBySite`, with values "count", names "Launch Site", the fixed title, and a "Launch Site" order that is strictly ascending and lists exactly the table's sites; for a site the data is `PieByOutcome` for that site, with values "count", names and colour "Outcome", colours Success→green and Failure→tomato, order ["Success", "Failure"], and the title naming the site |
| `SpaceXDash.PieBySite` | spacex_dash_app.py:74 | the successes counted per site: each listed site's count is its number of successful launches and is positive, no site is listed twice, and the counts sum to all successful launches |
| `SpaceXDash.PieBySiteCounts` | spacex_dash_app.py:74 | a site is listed in the "ALL" table exactly when it has at least one successful launch |
| `SpaceXDash.PieBySiteFromSource` | spacex_dash_app.py:74 | every site in the "ALL" pie table is a launch site of the table |
| `SpaceXDash.ZeroSuccessSiteInLegend` | spacex_dash_app.py:74-80 | a site of the table with no success is in the legend order but not in the pie table |
| `Order.SortedUnique` | spacex_dash_app.py:80 | the result is strictly ascending (so repeat-free) and holds exactly the values of its input |
| `SpaceXDash.CategoryOrderCanonical` | spacex_dash_app.py:80 | any strictly ascending listing of exactly the table's sites equals the "ALL" legend order |
| `Order.StrictlySortedUnique` | spacex_dash_app.py:80 | two strictly ascending string sequences with the same elements are equal |
| `Seqs.ValueCounts` | spacex_dash_app.py:86 | `value_counts`: keys are distinct and counts positive, the count found for any value is its number of occurrences, and the counts sum to the column length |
| `Seqs.ValueCountsCorrect` | spacex_dash_app.py:86 | `value_counts`: each bucket's count is its value's number of occurrences and is positive; exactly the occurring values are listed, each once; the counts sum to the column length |
| `SpaceXDash.PieByOutcome` | spacex_dash_app.py:84-87 | one site's launches counted per class: each row's label is `map_success` of its class and its count that class's number of launches from the site, positive; no class twice; the counts sum to the site's launches |
| `SpaceXDash.PieByOutcomeCounts` | spacex_dash_app.py:84-87 | for one site: the Success and Failure slices equal the site's successes and failures and together make up its launches; the table is empty exactly when the site has no launches |
| `SpaceXDash.OutcomesSplit` | spacex_dash_app.py:84-86 | a site's successes plus its failures are all its launches |
| `SpaceXDash.PieParamsIndependentOfData` | spacex_dash_app.py:89-96 | the single-site chart parameters (labels, order, colours, title) are the same whatever the table |
| `SpaceXDash.UpdatePayloadScatterChart` | spacex_dash_app.py:116-136 | the data is the intended scatter table `ScatterData`, every point labelled Success or Failure; x is the payload column, y the outcome, colour the booster category, marker size 15 |
| `SpaceXDash.ScatterData` | spacex_dash_app.py:117-124 | the intended filter: no more points than launches, and every point is a launch of the table, from the selected site (any for "ALL"), with payload in `[lo, hi]`, labelled `map_success` of its class |
| `SpaceXDash.ScatterComplete` | spacex_dash_app.py:117-122 | counted with multiplicity, each selected in-range launch appears as often as in the table and every other launch not at all |
| `SpaceXDash.ScatterOrderPreserving` | spacex_dash_app.py:117-122 | the points' launches are a subsequence of the table: order is kept |
| `SpaceXDash.ScatterInvertedRangeEmpty` | spacex_dash_app.py:122 | an inverted range (`lo > hi`) gives an empty table |
| `SpaceXDash.ScatterDefaultRangeKeepsAll` | spacex_dash_app.py:54-58 | under the slider's default range the points are exactly the selected site's launches, in order |
| `SpaceXDash.ScatterAboveMaxEmpty` | spacex_dash_app.py:122 | a range starting above `max_payload` gives an empty table |
| `ScatterAsWritten.AlignedSelect` | spacex_dash_app.py:122 | boolean indexing aligned by label: it fails, with the unalignable-indexer error, exactly when some label of the frame has no mask entry; otherwise it keeps only rows of the frame |
| `ScatterAsWritten.AlignedSelectKeeps` | spacex_dash_app.py:122 | on success the aligned selection keeps, in order, exactly the frame rows whose label has a True mask entry |
| `ScatterAsWritten.AlignedByPosition` | spacex_dash_app.py:122 | when the mask at labels b, b+1, ... tests the payloads of a table, the rows kept from a frame labelled from b are those whose table row at the same position reaches `lo` |
| `ScatterAsWritten.AsWrittenRows` | spacex_dash_app.py:122 | line 122 as written: it keeps only launches of the selected site with payload `<= hi`, its only error is the unalignable indexer, and it never fails for "ALL"; under "ALL" the k-th launch under `hi` is kept exactly when the k-th launch of the whole table weighs at least `lo` |
| `ScatterAsWritten.AsWrittenKeepsWrongRows` | spacex_dash_app.py:122 | on a three-launch table under "ALL", the code as written keeps the 500 kg launch outside `[1000, 3000]` and drops the 2000 kg one inside it; the intended filter keeps exactly the 2000 kg launch |
| `ScatterAsWritten.AsWrittenUnalignable` | spacex_dash_app.py:122 | on a table whose selected site's only launch is its second row, the code as written raises pandas' unalignable-indexer error; the intended filter returns that launch |

## Findings

| source | as written | input that shows it | evidently intended | confidence | as-written member | corrected member |
|---|---|---|---|---|---|---|
| spacex_dash_app.py:122 | the `payload >= lo` mask comes from the frame before `reset_index()`, and pandas aligns it by label with the re-indexed frame, so row j is kept when the row with table label j is heavy enough | "ALL", payloads 5000, 500, 2000, range [1000, 3000]: the 500 kg launch is kept and the 2000 kg one is dropped | keep the selected launches with `lo <= payload <= hi` | high (not executed) | `ScatterAsWritten.AsWrittenKeepsWrongRows` | `SpaceXDash.ScatterComplete` |
| spacex_dash_app.py:122 | for one site, the re-indexed frame has labels 0..k-1 and the mask has the rows' table positions; a missing label makes pandas raise IndexingError | site "KSC LC-39A" on a table whose only launch from it is the second row: label 0 is missing from the mask | return that site's launches in range | high (not executed) | `ScatterAsWritten.AsWrittenUnalignable` | `SpaceXDash.ScatterComplete` |

The rest of the model uses the intended filter (`SpaceXDash.ScatterData`).

## Left out

- Reading `spacex_launch_dash.csv` (line 11) is file I/O. The table is a parameter.
- The Dash app, its layout, the dropdown options and the slider construction (lines 20-63) are not modelled. Neither are `app.run_server` (line 140) or the `@app.callback` wiring (lines 68-71, 109-115). They are UI, server and dispatch code owned by the framework.
- Chart rendering by `px.pie`, `px.scatter` and `fig.update_traces` (lines 98-101, 126-134) is not modelled. Only the tables and the keyword bundles passed to them are modelled, as plain datatypes.
- The pandas bookkeeping columns added by `reset_index()` (`index`, `level_0`) are not modelled. The order `value_counts` gives (descending count) is not modelled either.
- A payload of NaN is not modelled: payload is a `real`, compared exactly.
- A selection of `None` (a cleared dropdown) is not modelled separately. It matches no site, so it behaves like any absent site.
- The unused `spacex_df_site` alias (line 16) is not modelled.
- Idempotence of the scatter callback is not stated as a lemma. Every callback here is a function of its inputs, so it holds by construction.
