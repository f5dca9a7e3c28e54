# data-gravity core, modelled in Dafny

data-gravity is a browser tool that profiles a tabular dataset and proposes
charts for it. It can also guess the chart type shown in an uploaded image.
This project models its three pure-logic cores and proves properties about
them:

- **Dataset profiler** (`analyze_data.dfy`, module `AnalyzeData`).
  `analyzeDataset` takes the rows and the column names. For each column it:
  - drops the missing cells (null, undefined and the empty string);
  - counts the missing cells and the distinct values;
  - infers the column type: numeric, then date, then categorical;
  - for numeric columns, computes min, max, mean and the upper-middle median
    from an ascending sort.

  Over the whole dataset it computes a completeness score from 0 to 100.
- **Chart recommender** (`recommend_engine.dfy`, module `RecommendEngine`).
  - `recommendCharts` runs four rule blocks: evolution, distribution,
    correlation, and ranking / part-of-whole. Each block pushes fixed
    recommendations. The list is then stably sorted by descending score.
  - `checkChartCompatibility` tells whether a dataset has the columns a
    chart type needs, with the source's exact reason strings.
- **Pixel chart classifier** (`pixel_analysis.dfy`, module `PixelAnalysis`).
  - `analyzeDensity` counts "ink" pixels over a 100 x 100 RGBA buffer. A
    pixel is ink when the summed absolute difference of its R, G and B bytes
    from those of the top-left background pixel exceeds 30. The counts cover
    the whole grid, the centre, the corners and the bottom band.
  - `analyzeColors` counts the distinct 30-degree hue buckets among every
    fifth pixel.
  - `runPixelHeuristics` runs both passes, then a fixed threshold cascade
    that names a chart type.

The source's loops are methods with loop invariants, proved against
specification functions:

| method | source function |
|---|---|
| `AnalyzeDataset` | `analyzeDataset` |
| `ScanRow` / `AnalyzeDensity` | `analyzeDensity` |
| `AnalyzeColors` | `analyzeColors` |

The statement sequences that build a list or call the passes in turn have no
loop. They are methods too, proved against the same kind of function:

| method | source function |
|---|---|
| the `Emit*` rule blocks and `RecommendCharts` | `recommendCharts` |
| `RunPixelHeuristics` | `runPixelHeuristics` |

The decision logic is modelled as functions. So are the JavaScript sorts,
which are insertion sorts here. The main results proved:

**Profiler**
- Missing and distinct counts are bounded by the row count.
- The type inference is characterised exactly.
- For numeric columns, `min <= median <= max` and `min <= mean <= max`. All
  three of min, median and max are among the column's numbers (the `Number`
  of its present cells).
- The missing count of a column is the number of rows whose cell is missing.
  The kept values are the present cells in row order.
- The completeness score lies in 0..100. It is 100 when there are cells and
  none is missing. It is the percentage of present cells, rounded to the
  nearest integer.

**Recommender**
- The ranked list holds exactly the recommendations of the rules that fire.
  Each one is the full record its rule builds: title, description, score and
  channels.
- The list is sorted by descending score. Ties keep emission order; the sort
  is stable.
- Every emitted chart passes the compatibility check, and its axis channels
  match columns the dataset has.
- The list is empty exactly when there is no numeric column.

**Classifier**
- All four densities lie in [0, 1). The background pixel is never ink, the
  centre region is 49 x 49, the corners hold 361 pixels and the bottom band
  holds 1900.
- At most 12 hue buckets exist.
- The colour pass reads only the sampled pixels.
- The cascade equals its decision table read top to bottom. It never answers
  heatmap, and a one-colour image is classified as a scatter plot.

`wrappers.dfy` holds the `Option` type shared by the modules.

## Model

| member | source | states |
|---|---|---|
| AnalyzeData.PresentValues | src/lib/analyzeData.ts:25 | the filter keeps at most one value per row |
| AnalyzeData.PresentValuesMembers | src/lib/analyzeData.ts:25 | every kept value is a non-missing cell of the column, and every non-missing cell is kept |
| AnalyzeData.PresentValuesAppend | src/lib/analyzeData.ts:25 | the filter of two row sequences joined is the two filters joined, so the kept values are in row order |
| AnalyzeData.PresentValuesCount | src/lib/analyzeData.ts:25 | the number of kept values is the number of rows whose cell is present, and the rest of the rows are exactly those whose cell is missing |
| AnalyzeData.PresentValuesSpec | src/lib/analyzeData.ts:25 | the kept values are exactly the non-missing cells of the column; one value is kept per present row, so their number is the number of present rows and the row count minus it is the number of missing rows; all rows kept iff none is missing, none kept iff all are missing |
| AnalyzeData.FirstPresentValue | src/lib/analyzeData.ts:25 | the first kept value is the cell of the first row whose cell is not missing |
| AnalyzeData.DistinctSize | src/lib/analyzeData.ts:27 | the distinct-value count never exceeds the number of kept values and is zero iff there are none |
| AnalyzeData.InferType | src/lib/analyzeData.ts:29-44 | the inferred type is never unknown; numeric iff there is a value and all convert to numbers; date iff not numeric and the first value parses as a date; categorical otherwise (including the all-missing column) |
| AnalyzeData.SortAsc | src/lib/analyzeData.ts:55 | the ascending sort returns a sorted permutation of the numbers |
| AnalyzeData.SumSortAsc | src/lib/analyzeData.ts:55-58 | sorting does not change the sum the mean is computed from |
| AnalyzeData.Sum | src/lib/analyzeData.ts:58 | `reduce((a, b) => a + b, 0)` over the numbers; it has no contract of its own, and its properties are stated by SumSortAsc and SumBounds |
| AnalyzeData.SumBounds | src/lib/analyzeData.ts:58 | a sum of n values within [lo, hi] lies within [n*lo, n*hi] |
| AnalyzeData.SortedSummary | src/lib/analyzeData.ts:55-59 | the first and last elements of the sorted numbers bound every number, the median element lies between them and the mean lies between them |
| AnalyzeData.SortedBoundInput | src/lib/analyzeData.ts:55-57 | the first and last elements of the sorted numbers bound every input number |
| AnalyzeData.SortedBoundMean | src/lib/analyzeData.ts:55-58 | the first and last elements of the sorted numbers bound the mean of the input |
| AnalyzeData.NumericSummary | src/lib/analyzeData.ts:54-60 | min and max bound every number and are among them; median is the element at index floor(n/2) of the sorted numbers; mean is sum / n; min <= median <= max and min <= mean <= max |
| AnalyzeData.AnalyzeColumnSpec | src/lib/analyzeData.ts:24-62 | for one column: missing = rows minus kept values = the number of rows whose cell is missing, zero iff no cell is missing, equal to the row count iff all are missing; unique <= present values and zero iff all missing; type is the inferred type; statistics exist iff numeric and are ordered; the sample is the first non-missing cell, absent iff all cells are missing |
| AnalyzeData.AnalyzeColumns | src/lib/analyzeData.ts:23-63 | one analysis per column name, in the order of the names, each the analysis of that column |
| AnalyzeData.AnalyzeColumn | src/lib/analyzeData.ts:24-62 | the analysis of one column carries that column's name and at most one missing count per row |
| AnalyzeData.TotalMissingBound | src/lib/analyzeData.ts:65-66 | the total missing count is at most rows x columns |
| AnalyzeData.TotalMissing | src/lib/analyzeData.ts:65-66 | the total of the columns' missing counts is zero iff no column misses a value |
| AnalyzeData.Round | src/lib/analyzeData.ts:67 | Math.round lands within half a unit of its argument, half-way values rounding up |
| AnalyzeData.Completeness | src/lib/analyzeData.ts:65-67 | 0 with no cells; within 0..100 whenever missing cells do not exceed cells; 100 when there are cells and none is missing; otherwise the percentage of present cells rounded to the nearest integer |
| AnalyzeData.AnalyzeDataset | src/lib/analyzeData.ts:20-75 | row and column counts; one analysis per column in column order, each carrying its column name; completeness is the rounded share of present cells, within 0..100, and 100 for a non-empty dataset without missing values |
| RecommendEngine.ColumnsOfType | src/lib/recommendations/recommendEngine.ts:20-22 | the filter keeps exactly the columns of the given type, and no more columns than it is given |
| RecommendEngine.ColumnsOfTypeMultiplicity | src/lib/recommendations/recommendEngine.ts:20-22 | each column of the type is kept as many times as it occurs, and no other column is kept |
| RecommendEngine.ColumnsOfTypeAppend | src/lib/recommendations/recommendEngine.ts:20-22 | the filter of two column sequences joined is the two filters joined, so the kept columns are in column order |
| RecommendEngine.ColumnsOfTypeFirst | src/lib/recommendations/recommendEngine.ts:20-22 | the first column of the type heads the filtered list, so `categoricalCols[0]` is the first categorical column |
| RecommendEngine.ColumnsOfTypeCount | src/lib/recommendations/recommendEngine.ts:20-22 | the length of the filtered list is the number of columns of the type |
| RecommendEngine.CheckChartCompatibility | src/lib/recommendations/recommendEngine.ts:120-153 | a reason is given iff incompatible; no dataset gives "No dataset loaded"; compatible iff the dataset has the minimum date, numeric and categorical columns the chart needs; line/area report the missing date column before the numeric one; scatter needs two numeric columns; heatmap is always compatible |
| RecommendEngine.CompatibleChannelsAvailable | src/lib/recommendations/recommendEngine.ts:120-153 | when a chart type passes the check, the dataset has a column of the kind each of its x and y channels expects |
| RecommendEngine.RuleFiresCompatible | src/lib/recommendations/recommendEngine.ts:26-153 | every chart type a rule emits passes the compatibility check on the same analysis |
| RecommendEngine.RuleFires | src/lib/recommendations/recommendEngine.ts:26-114 | the rule table never emits heatmap, and every rule needs a numeric column |
| RecommendEngine.Recommendation | src/lib/recommendations/recommendEngine.ts:26-115 | the record a firing rule builds, which every `Emit*` block pushes, carries the rule's chart type, score and channel pair |
| RecommendEngine.InsertByScore | src/lib/recommendations/recommendEngine.ts:117 | inserting into a descending list keeps it descending, as a permutation with the new element added |
| RecommendEngine.InsertByScoreStable | src/lib/recommendations/recommendEngine.ts:117 | inserting into a descending list places the new element in front of every element of its score already there, which keeps emission order when the earlier element is inserted into the sorted rest |
| RecommendEngine.InsertByScoreRanked | src/lib/recommendations/recommendEngine.ts:117 | inserting an element emitted before all others into a ranked list keeps it ranked |
| RecommendEngine.SortByScore | src/lib/recommendations/recommendEngine.ts:117 | the sort returns a permutation ordered by descending score |
| RecommendEngine.SortByScoreStable | src/lib/recommendations/recommendEngine.ts:117 | the sort is stable: recommendations of equal score keep their relative order |
| RecommendEngine.SortByScoreRanked | src/lib/recommendations/recommendEngine.ts:117 | a list in rule order sorts to one where each entry precedes the next by higher score or, on a tie, by earlier rule |
| RecommendEngine.EmitEvolution | src/lib/recommendations/recommendEngine.ts:25-43 | pushes line (95) and area (90) exactly when there are date and numeric columns and more than 20 rows |
| RecommendEngine.EmitDistribution | src/lib/recommendations/recommendEngine.ts:45-65 | pushes histogram (80) for a numeric column and boxplot (75) when there are also more than 10 rows |
| RecommendEngine.EmitCorrelation | src/lib/recommendations/recommendEngine.ts:67-77 | pushes scatter for two numeric columns, scored 95 above 50 rows and 70 otherwise |
| RecommendEngine.EmitRanking | src/lib/recommendations/recommendEngine.ts:79-115 | pushes bar below 20 categories, pie below 6, radar between 3 and 10 exclusive with three numeric columns, all keyed on the first categorical column |
| RecommendEngine.RankedFiring | src/lib/recommendations/recommendEngine.ts:19-117 | the sorted list contains a chart type iff its rule fires |
| RecommendEngine.RankedBuiltByRule | src/lib/recommendations/recommendEngine.ts:19-117 | each entry of the sorted list is the record its rule builds |
| RecommendEngine.RankedEmpty | src/lib/recommendations/recommendEngine.ts:19-117 | the sorted list is empty iff there is no numeric column |
| RecommendEngine.EmittedCompatible | src/lib/recommendations/recommendEngine.ts:19-153 | every recommendation in the list passes the compatibility check |
| RecommendEngine.RecommendCharts | src/lib/recommendations/recommendEngine.ts:19-118 | the result is ranked by descending score with ties in rule order; it contains a chart type iff its rule fires; each entry is exactly its rule's record, so it has the rule's score and channels; every entry is compatible; it is empty iff there is no numeric column |
| RecommendEngine.RuleScoresInRange | src/lib/recommendations/recommendEngine.ts:9 | every emitted score is one of 95, 90, 80, 75, 70, 60 and so lies within 0..100 |
| RecommendEngine.PieImpliesBar | src/lib/recommendations/recommendEngine.ts:84-103 | pie is only recommended alongside bar |
| RecommendEngine.LineAreaTogether | src/lib/recommendations/recommendEngine.ts:26-43 | line is recommended iff area is |
| PixelAnalysis.RowCountsOrdered | src/lib/vision/pixelAnalysis.ts:128-148 | within one row, the centre, corner and bottom counters are each at most the ink count, since they only grow on ink pixels |
| PixelAnalysis.GridCountsOrdered | src/lib/vision/pixelAnalysis.ts:127-150 | over the scanned rows each region counter is at most the total ink count |
| PixelAnalysis.PixelCounts | src/lib/vision/pixelAnalysis.ts:134-147 | a pixel adds one to the ink count iff it is ink, and a region counter grows only together with the ink count |
| PixelAnalysis.RowCounts | src/lib/vision/pixelAnalysis.ts:128-148 | the first w pixels of a row hold at most w ink pixels |
| PixelAnalysis.GridCounts | src/lib/vision/pixelAnalysis.ts:127-150 | the first h rows hold at most 100 h ink pixels |
| PixelAnalysis.PixelCountsBounds | src/lib/vision/pixelAnalysis.ts:134-147 | one pixel adds at most one to each counter, adds to a region counter only when it lies in that region, and the background pixel (0, 0) adds nothing |
| PixelAnalysis.RowCountsBounds | src/lib/vision/pixelAnalysis.ts:136-147 | a row holds at most 49 centre pixels (only strictly inside 25..75), 19 corner pixels (only in rows under 10 or over 90), bottom pixels only beyond row 80, and the background pixel of row 0 is never ink |
| PixelAnalysis.GridCountsBounds | src/lib/vision/pixelAnalysis.ts:127-150 | the centre, corner and bottom counters are bounded by their region sizes, and the total ink by the scanned pixels minus the background pixel |
| PixelAnalysis.RegionBounds | src/lib/vision/pixelAnalysis.ts:112-150 | on the 100 x 100 grid: total ink at most 9999, centre at most 2401, corners at most 361, bottom at most 1900 |
| PixelAnalysis.DensitiesInRange | src/lib/vision/pixelAnalysis.ts:152-158 | all four densities lie in [0, 1) |
| PixelAnalysis.DensitiesOf | src/lib/vision/pixelAnalysis.ts:152-158 | each density is zero iff its counter is zero, and all four lie in [0, 1) whenever the counters stay below their region's nominal size |
| PixelAnalysis.BlankRowHasNoInk | src/lib/vision/pixelAnalysis.ts:134-137 | a row of background-coloured pixels counts no ink |
| PixelAnalysis.InklessRowsGiveNoInk | src/lib/vision/pixelAnalysis.ts:127-150 | a grid whose rows count no ink counts no ink |
| PixelAnalysis.BlankImageHasNoInk | src/lib/vision/pixelAnalysis.ts:127-150 | a one-colour image counts no ink in any region |
| PixelAnalysis.ScanRow | src/lib/vision/pixelAnalysis.ts:128-149 | the inner loop adds exactly the row's ink, centre, corner and bottom counts to the counters |
| PixelAnalysis.AnalyzeDensity | src/lib/vision/pixelAnalysis.ts:112-159 | the densities are the four counters over the grid divided by 10000, 2500, 400 and 2000, and all lie in [0, 1) |
| PixelAnalysis.QuotientBounds | src/lib/vision/pixelAnalysis.ts:177-179 | a channel difference divided by the channel span lies within [-1, 1] |
| PixelAnalysis.IsNeutral | src/lib/vision/pixelAnalysis.ts:170-173 | a gray pixel (equal channels) is neutral, and a pixel that is not neutral has a positive channel span, so its hue is defined |
| PixelAnalysis.Hue | src/lib/vision/pixelAnalysis.ts:176-182 | the hue of a coloured pixel lies in [0, 360) |
| PixelAnalysis.HueBucket | src/lib/vision/pixelAnalysis.ts:170-185 | a pixel is skipped iff it is near-gray, near-black or near-white, and otherwise falls in one of the buckets 0..11 |
| PixelAnalysis.SampledHues | src/lib/vision/pixelAnalysis.ts:162-186 | every collected hue bucket lies in 0..11 |
| PixelAnalysis.SampledHuesReadOnlySamples | src/lib/vision/pixelAnalysis.ts:165-168 | buffers that agree on every fifth pixel's RGB bytes give the same hue set |
| PixelAnalysis.BoundedSetSize | src/lib/vision/pixelAnalysis.ts:185-189 | a set of buckets drawn from 0..n-1 has at most n elements |
| PixelAnalysis.AnalyzeColors | src/lib/vision/pixelAnalysis.ts:161-192 | the colour count is the number of distinct hue buckets among the 2000 sampled pixels, and at most 12 |
| PixelAnalysis.Classify | src/lib/vision/pixelAnalysis.ts:62-109 | never heatmap; pie whenever the centre is dense and the corners sparse; histogram or boxplot only for monochrome images of moderate ink when neither pie nor radar applies; area only above 0.35 ink; bar only at moderate ink |
| PixelAnalysis.ClassifyFollowsDecisionRules | src/lib/vision/pixelAnalysis.ts:62-109 | the cascade equals the first matching rule of the ordered decision table, with bar as the fallback |
| PixelAnalysis.NoInkIsScatter | src/lib/vision/pixelAnalysis.ts:79-81 | zero ink gives zero ink and centre densities and is classified as scatter |
| PixelAnalysis.BlankImageIsScatter | src/lib/vision/pixelAnalysis.ts:53-110 | a one-colour image has zero ink and centre density and is classified as a scatter plot |
| PixelAnalysis.RunPixelHeuristics | src/lib/vision/pixelAnalysis.ts:53-110 | the chart is the cascade applied to the densities and colour count of the buffer, and is never heatmap |

## Left out

- `analyzeChartPixelData` (src/lib/vision/pixelAnalysis.ts:9-51) is not modelled. It decodes the image and resamples it to 100 x 100 on a canvas, and falls back to bar on any error. All of that is browser I/O. The model starts from the resulting RGBA buffer.
- The `console.log` of the metrics in `runPixelHeuristics` has no effect on the result and is not modelled.
- `dominantHue` is a constant placeholder of 0 and is never used, so it is not modelled.
- The grid size is fixed at 100, the only value the wrapper passes.
  - The corner test uses the literal bounds 10 and 90 whatever the size, as the source does.
  - The colour pass walks the whole buffer regardless of the size argument.
- The buffer is a sequence of integers in 0..255. Channel arithmetic is exact; JavaScript numbers hold these small integers exactly.
- Densities, the hue and the profiler's mean are real numbers, not IEEE doubles.
  - Floating-point rounding in the divisions and products is not modelled. A threshold comparison that lands within one ulp of a boundary could differ.
- `Number(v)` and `Date.parse(String(v))` are parameters of the profiler (the `Coercions` record). Their rules are JavaScript's string-to-number and date grammars, which are not modelled. The model is proved for any coercion functions.
- The decoder that produces the rows and the column list is not part of this model: the file parser, the upload validation and the backend analysis service.
- Cells are modelled as null, undefined, strings, numbers and booleans. Nested objects and arrays in cells are not modelled.
  - JavaScript `Set` compares primitives by value, as the model does, but compares objects by identity.
- A key absent from a row reads as `Undefined`, as in JavaScript.
- `PixelAnalysis.Classify`: the histogram test compares exact reals, while the source compares the double product `inkDensity * 1.5`. With a total ink of 3000 and a bottom ink of 900, the colour count at most 1, and neither the pie nor the radar test firing, the source computes `0.3 * 1.5` as 0.44999999999999996. That is below the bottom density 0.45, so the source returns histogram. The model's `0.45 > 0.45` is false, its boxplot test `0.3 < 0.28` is false too, and it returns bar.
- `Math.round` is modelled as floor(x + 0.5) on an exact rational, which is what it computes on a real number.
- `AnalyzeData.Completeness`: the model rounds the exact share of present cells, while the source rounds an IEEE double. The two can differ near a half. With 40 cells and 17 missing, the double `((40 - 17) / 40) * 100` is 57.49999999999999 and the source shows 57. The exact ratio is 57.5 and the model gives 58.
- JavaScript's `sort` is modelled by insertion sorts with the same comparators.
  - The ascending numeric sort is characterised by its result: sorted, and a permutation.
  - The descending sort by score is stable, as ECMAScript requires. It is proved stable, so any stable algorithm gives the same list.
- `RecommendEngine.ColumnsOfType`: its own contract states membership and a length bound. The order, multiplicity and count of the kept columns are stated by `ColumnsOfTypeAppend`, `ColumnsOfTypeMultiplicity`, `ColumnsOfTypeCount` and `ColumnsOfTypeFirst`. As postconditions of the function they would be instantiated at every use of the filter, and the rule proofs would become too costly.
- The optional `z` channel of a recommendation is never set by any rule, so the channel pair has only x and y.
- `RecommendEngine.Recommendation`: its contract states only the chart type, score and channels. The titles and descriptions are fixed by its definition and carried into `RecommendCharts` by the equality `r == Recommendation(r.chart, analysis)`.
- Heatmap has no channel pair and no rule that emits it. `checkChartCompatibility` accepts it through its default branch, and the model does the same.
- `ChartType` (src/lib/recommendations/recommendEngine.ts:3-5) has nine members, and the model has the same nine. `mockDataGenerator.ts`, which is outside the core, also cases on 'funnel' and 'treemap'. No code guesses a chart type from a file name: `visionService.ts:17-38` returns a fixed mock result.
- The React components, the sample-data generator, the chart gallery and the mock vision service are outside the modelled core.
