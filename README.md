# pop-dop dashboard — verified model of its data handling

pop-dop is a small React/Next dashboard of world population statistics. Most of it
is markup and HTTP plumbing. This project models the parts that compute something:

- the reshaping of the statistics service's records in `lib/worldbank.ts`: the world
  population series, with `current` as its newest value, and the mean population
  density over the non-null observations;
- the chart windowing `xs.slice(0, yearRange).reverse()`, shared by the three charts;
- the population detail chart (`components/population-chart.tsx`):
  - the per-year world totals, summed over every country's series;
  - the conversion to billions and the per-metric rounding;
  - the effect that decides when `chartData` is replaced;
  - its state and render;
- the home chart (`components/home-chart.tsx`):
  - `createChartConfig`;
  - the `usePopulationData` hook's three state slots;
  - the order in which the component picks what to render;
- the stand-alone chart (`components/chart.tsx`): its categories, series and render;
- the country table (`components/population-table.tsx`): the cell rule, the rows, the
  year selector and the loading placeholder.

Numbers are exact:

- populations are `int`;
- densities and rates are `real`;
- a rounded value is the integer it scales to. "15.3" with one decimal is `153`.
- `Math.round(x)` is `Round(x)`, the floor of `x + 0.5`.
- `Math.floor` is `Floor`.
- `toFixed(d)` is `ToFixedUnits(x, d)`, which rounds the magnitude half up, as the
  ECMAScript definition of `Number.prototype.toFixed` does.

JavaScript's `null` and `undefined` become `Option.None`. A record's value from the statistics service is a number or `null`, never `undefined`: a `None` value shows as 0.0 on the home chart and as "N/A" in the table, which is what `null` gives there. `undefined` appears only for `current` when there are no records and for state slots that have not been set.

Modules (one file each):

| module | what it models |
|---|---|
| `Wrappers` | `Option` |
| `Rounding` | `Math.round`, `Math.floor`, `toFixed` |
| `Windowing` | `slice(0, n).reverse()`, the one-series chart configuration |
| `WorldBank` | `lib/worldbank.ts` |
| `PopulationChart` | `components/population-chart.tsx` |
| `HomeChart` | `components/home-chart.tsx` |
| `Chart` | `components/chart.tsx` |
| `PopulationTable` | `components/population-table.tsx` |

The aggregation loop of the population chart is a method with two nested loops:
`AggregateWorldTotals` over the countries, and `AddObservation` for the body of the
`forEach` callback. It is proved equal to `Group`, a function over the list of
observations in visiting order. `GroupIsPerYearTotal` then proves what that result
is, for every input:

- the two arrays are parallel;
- each year appears once;
- exactly the observed years appear;
- they are in first-seen order;
- each slot is the exact sum of its year's values.

## Model

| member | source | states |
|---|---|---|
| `Rounding.Round` | components/population-chart.tsx:163 | `Math.round` gives the integer within half of `x`, a tie going up |
| `Rounding.Floor` | components/population-chart.tsx:205-207 | `Math.floor` gives the integer at most `x` and more than `x - 1` |
| `Rounding.ToFixedUnits` | lib/worldbank.ts:47 | `toFixed(d)`, scaled by 10^d, is the integer nearest `x * 10^d`, a tie going away from zero (up for `x >= 0`, down for `x < 0`), and has the sign of `x` |
| `Rounding.ToFixedOdd` | lib/worldbank.ts:47 | `toFixed` is symmetric: `-x` prints as the negation of `x` |
| `Rounding.RoundTenthsOfBillion` | components/population-chart.tsx:163 | `Math.round((e / 1e9) * 10)` equals the integer division `(e + 5e7) / 1e8`, for every integer `e` |
| `Rounding.ToFixedTenthsOfBillion` | lib/worldbank.ts:14 | `(e / 1e9).toFixed(1)` in tenths equals `(e + 5e7) / 1e8` for every count `e >= 0` |
| `Windowing.Reverse` | components/population-chart.tsx:62 | `reverse()` keeps the length and puts element `n-1-i` at `i` |
| `Windowing.ReverseReverse` | components/population-chart.tsx:62 | reversing twice gives back the sequence |
| `Windowing.Window` | components/population-chart.tsx:62 | `slice(0, r).reverse()` has length `min(r, n)` and element `i` is element `min(r, n)-1-i` of the input |
| `Windowing.WindowIsReversedPrefix` | components/population-chart.tsx:62 | reversing the window gives back the first `min(r, n)` elements in their stored order |
| `Windowing.WindowKeepsAlignment` | components/population-chart.tsx:62-79 | for parallel x and y arrays, windowing each is the same as windowing the pairs, so the categories and data stay index-aligned |
| `Windowing.WindowedPair` | components/population-chart.tsx:62-79 | the same alignment, at one position |
| `Windowing.WiderWindowExtendsIntoThePast` | components/population-chart.tsx:62 | the narrower window is the last part of a wider one: widening the range adds older points before the newest ones |
| `Windowing.WindowIsChronological` | components/home-chart.tsx:125 | integer years stored in descending order come out in ascending order (the labels are year strings; the lemma is stated over their numeric years) |
| `Windowing.WindowedChart` | components/population-chart.tsx:61-83 | exactly one series named "Total Population"; the categories and its data are the windows of the x and y arrays, of equal length and aligned when the arrays are parallel |
| `WorldBank.PopulationTenths` | lib/worldbank.ts:13-15 | a null record shows as 0.0; a count shows as itself rounded to the nearest tenth of a billion |
| `WorldBank.GetWorldPopulation` | lib/worldbank.ts:11-21 | `population` and `years` have the record count as length and entry `i` comes from record `i`; `current` is absent exactly when there are no records, else `population[0]` |
| `WorldBank.CurrentIsNewestRecord` | lib/worldbank.ts:20 | `current` is the first (newest) record's count in tenths of a billion |
| `WorldBank.WindowedRecord` | lib/worldbank.ts:13-16 | after windowing, both arrays have length `min(r, n)` and entry `i` of both comes from record `min(r, n)-1-i` |
| `WorldBank.NonNull` | lib/worldbank.ts:36-38 | the filter keeps the non-null values and no others, and never lengthens the list |
| `WorldBank.NonNullKeepsMultiplicity` | lib/worldbank.ts:36-38 | each non-null value is kept as many times as it occurs |
| `WorldBank.ExampleKept` | lib/worldbank.ts:36-38 | `[null, 10, 20]` filters to `[10, 20]` |
| `WorldBank.NonNullAppend` | lib/worldbank.ts:36-38 | the filter distributes over concatenation |
| `WorldBank.AverageDensity` | lib/worldbank.ts:40-45 | no average exactly when every value is null, or there are none; otherwise the sum of the kept values over their count |
| `WorldBank.Values` | lib/worldbank.ts:36-37 | the `value` of each record, in record order |
| `WorldBank.Sum` | lib/worldbank.ts:44 | the `reduce` from 0, adding the values left to right |
| `WorldBank.GetAveragePopulationDensity` | lib/worldbank.ts:34-47 | `null` exactly when every record's value is null; otherwise the mean of the non-null values printed with `toFixed(2)`, in hundredths |
| `WorldBank.NullsDoNotAffectAverage` | lib/worldbank.ts:37-38 | inserting or removing a null anywhere leaves the average unchanged |
| `WorldBank.SumBounds` | lib/worldbank.ts:44 | values between `lo` and `hi` sum to between `n*lo` and `n*hi` |
| `WorldBank.MeanWithinRange` | lib/worldbank.ts:44-45 | the mean of a non-empty list lies between its minimum and maximum |
| `WorldBank.AverageWithinRange` | lib/worldbank.ts:44-45 | an average lies between the smallest and largest non-null value |
| `WorldBank.AverageDensityExample` | lib/worldbank.ts:34-47 | `[null, 10, 20]` gives "15.00" |
| `PopulationChart.DefaultsAreOffered` | components/population-chart.tsx:16-41 | the initial year range 5 and metric "Population" are the first entries of their selectors |
| `PopulationChart.Traversal` | components/population-chart.tsx:145-149 | the observations in visiting order: country by country, index by index inside a country |
| `PopulationChart.TraversalAppend` | components/population-chart.tsx:145-149 | the countries are visited one after the other, each one whole: the traversal of `a + b` is that of `a`, then that of `b` |
| `PopulationChart.SumFor` | components/population-chart.tsx:148-158 | the sum of the values observed for a year label, by exact string equality |
| `PopulationChart.SumForAbsent` | components/population-chart.tsx:148-158 | a year never observed sums to 0 |
| `PopulationChart.SumForSnoc` | components/population-chart.tsx:148-158 | one more observation adds its value to its own year's sum only |
| `PopulationChart.IndexOf` | components/population-chart.tsx:151 | `indexOf` is -1 exactly when the year is absent, else the first position holding it |
| `PopulationChart.Add` | components/population-chart.tsx:151-158 | one callback step keeps `years` and `population` of equal length |
| `PopulationChart.Group` | components/population-chart.tsx:141-160 | the loop from two empty arrays keeps them of equal length |
| `PopulationChart.KnownYearSums` | components/population-chart.tsx:156-157 | adding to an existing slot keeps every slot equal to its year's sum |
| `PopulationChart.KnownYearOrder` | components/population-chart.tsx:156-157 | adding to an existing slot keeps the years in first-seen order |
| `PopulationChart.NewYearSums` | components/population-chart.tsx:153-155 | pushing a new year keeps every slot equal to its year's sum |
| `PopulationChart.NewYearOrder` | components/population-chart.tsx:153-155 | pushing a new year keeps the years in first-seen order |
| `PopulationChart.KnownYearKeeps` | components/population-chart.tsx:156-157 | adding to an existing slot keeps the whole per-year-total property |
| `PopulationChart.NewYearKeeps` | components/population-chart.tsx:153-155 | pushing a new year keeps the whole per-year-total property |
| `PopulationChart.AddKeepsPerYearTotal` | components/population-chart.tsx:151-158 | each callback step keeps it |
| `PopulationChart.GroupSnoc` | components/population-chart.tsx:148-158 | one more observation is one more callback step |
| `PopulationChart.AddKeepsYearPositions` | components/population-chart.tsx:153-158 | a step never moves a year: the old years are a prefix of the new ones, with at most one added |
| `PopulationChart.GroupStepKeepsYearPositions` | components/population-chart.tsx:153-158 | the same, for the loop's result on one more observation |
| `PopulationChart.GroupKeepsYearPositions` | components/population-chart.tsx:145-158 | the years known after any prefix of the traversal are a prefix of the final years: a slot, once given, is kept |
| `PopulationChart.GroupIsPerYearTotal` | components/population-chart.tsx:141-160 | the totals are parallel, distinct in year, exactly the observed years, in first-seen order, each the sum over its year |
| `PopulationChart.ExampleTraversal` | components/population-chart.tsx:145-149 | countries A then B are visited country by country, index by index |
| `PopulationChart.ExampleGroup` | components/population-chart.tsx:151-158 | observations 2020:10, 2021:20, 2020:5 give 2020:15, 2021:20 |
| `PopulationChart.WorldTotalsExample` | components/population-chart.tsx:141-160 | the two-country example yields 15 for "2020" then 20 for "2021" |
| `PopulationChart.AggregateWorldTotals` | components/population-chart.tsx:141-160 | the nested loops compute `Group` of the traversal, and so the per-year totals |
| `PopulationChart.AddObservation` | components/population-chart.tsx:149-158 | the callback body: a new year is pushed on both arrays, a known one has the value added to its slot |
| `PopulationChart.NextObservation` | components/population-chart.tsx:148-149 | visiting index `k` of a country appends its `k`-th (year, value) pair |
| `PopulationChart.NextCountry` | components/population-chart.tsx:145-146 | after a country's last year, the visited list is the traversal of the countries so far |
| `PopulationChart.TenthsOfBillion` | components/population-chart.tsx:162-164 | the billions conversion of one total is `(e + 5e7) / 1e8` tenths |
| `PopulationChart.Billions` | components/population-chart.tsx:162-164 | the conversion maps element by element and keeps the length |
| `PopulationChart.SeriesFor` | components/population-chart.tsx:188-236 | the slot each non-population branch reads: density, growth, life expectancy, birth, death or fertility rate |
| `PopulationChart.Decimals` | components/population-chart.tsx:188-236 | life expectancy keeps 0 decimals, density 2, the other rates 1 |
| `PopulationChart.RoundMetric` | components/population-chart.tsx:188-236 | life expectancy is floored, density rounded to two decimals, the other rates to one |
| `PopulationChart.PopulationChartData` | components/population-chart.tsx:141-169 | the x data are the totals' years and the y data, of the same length, are each year's sum in tenths of a billion |
| `PopulationChart.MetricChartData` | components/population-chart.tsx:188-236 | a metric's x data are its years and each y value is its value rounded for the metric |
| `PopulationChart.NextChartData` | components/population-chart.tsx:140-236 | "Population" always sets the chart data; any other metric sets it only when its series has loaded and leaves it unchanged otherwise |
| `PopulationChart.RerunsAsWritten` | components/population-chart.tsx:237-245 | the effect reruns when the metric or any listed slot changed: the list as written, without the life-expectancy slot |
| `PopulationChart.Reruns` | components/population-chart.tsx:237-245 | the same list with the life-expectancy slot added |
| `PopulationChart.AfterRender` | components/population-chart.tsx:237-245 | the chart data are recomputed when the effect runs and kept otherwise |
| `PopulationChart.LifeExpArrivalIgnoredAsWritten` | components/population-chart.tsx:237-245 | with the dependency list as written, a life-expectancy series arriving while that metric is selected does not rerun the effect and the chart keeps its old data |
| `PopulationChart.LifeExpArrivalExample` | components/population-chart.tsx:204-211 | a concrete case: with density loaded and on screen, its data stay on screen after the life-expectancy series has loaded |
| `PopulationChart.ArrivingSeriesIsDrawn` | components/population-chart.tsx:188-236 | with every slot listed, the selected metric's series is drawn as soon as it arrives |
| `PopulationChart.ChartView` | components/population-chart.tsx:61-83 | no chart data gives no categories and no series; otherwise the windowed one-series chart of the x and y data |
| `PopulationChart.PopulationChartState.Valid` | components/population-chart.tsx:266-276 | the year range is one of 5, 10, 20, 50, 100 |
| `PopulationChart.PopulationChartState.constructor` | components/population-chart.tsx:28-41 | no chart data, year range 5, metric "Population"; the state is valid |
| `PopulationChart.PopulationChartState.SelectYearRange` | components/population-chart.tsx:266-276 | the year range becomes the chosen one of 5, 10, 20, 50, 100, and the state stays valid |
| `PopulationChart.PopulationChartState.SelectChartOption` | components/population-chart.tsx:253-263 | the selected metric becomes the chosen one |
| `PopulationChart.PopulationChartState.RefreshChartData` | components/population-chart.tsx:140-236 | running the effect sets the chart data to `NextChartData` of the old data; for "Population" by the aggregation loop |
| `PopulationChart.PopulationChartState.Render` | components/population-chart.tsx:247 | "Loading..." exactly when there are no chart data, otherwise the chart view |
| `HomeChart.YearRangesAreTheOptions` | components/home-chart.tsx:29-30 | the year-range type holds exactly the selector's 5, 10, 20, 50 |
| `HomeChart.CreateChartConfig` | components/home-chart.tsx:100-144 | the categories and the one "Total Population" series are the windows of `years` and `population` |
| `HomeChart.ChartOfRecords` | components/home-chart.tsx:125-140 | from the records on, categories and data have length `min(r, n)` and point `i` is record `min(r, n)-1-i`'s date and population |
| `HomeChart.PopulationDataHook.constructor` | components/home-chart.tsx:39-41 | no data, no error, loading |
| `HomeChart.PopulationDataHook.Settle` | components/home-chart.tsx:44-54 | on success the data are set and the error untouched; on failure the error message is set and the data untouched; loading ends either way |
| `HomeChart.Truthy` | components/home-chart.tsx:151 | `if (error)`: a null or empty message is false, any other message true |
| `HomeChart.HomeChartView` | components/home-chart.tsx:150-154 | loading exactly while loading; else the error exactly when it is a non-empty string; else nothing exactly when there are no data; else the chart of the data |
| `HomeChart.MountAndFetch` | components/home-chart.tsx:38-60 | a mount shows the loading state, and after the fetch settles the chart (success) or the error message (failure), never the empty render |
| `Chart.DefaultYearRangeIsOffered` | components/chart.tsx:8-15 | the initial year range 5 is the selector's first option, and the year-range type holds exactly the options 5, 10, 20, 50 |
| `Chart.Options` | components/chart.tsx:36-57 | no data: no categories and no series; data: the windowed years and exactly one series of the windowed population |
| `Chart.Render` | components/chart.tsx:72-89 | "Loading..." exactly while there are no data, otherwise the chart with one series |
| `Chart.OptionsOfRecords` | components/chart.tsx:36-53 | from the records on, categories and data have length `min(r, n)` and point `i` is record `min(r, n)-1-i`'s date and population |
| `PopulationTable.DefaultIsOffered` | components/population-table.tsx:6-8 | the initial year "2023" is the first of "2023".."2018" |
| `PopulationTable.CellFor` | components/population-table.tsx:86-90 | "N/A" exactly for null; column 0 shows the value in billions to one decimal, any other column the value to one decimal, each the nearest tenth with a tie going away from zero |
| `PopulationTable.PopulationCellOfCount` | components/population-table.tsx:88-89 | a population count shows as `(v + 5e7) / 1e8` tenths, the same figure the home page shows for it |
| `PopulationTable.Cells` | components/population-table.tsx:80-93 | one cell per value, in array order, each by its column's rule |
| `PopulationTable.TableRows` | components/population-table.tsx:77-95 | one row per entry, in entry order, with the country and that entry's cells |
| `PopulationTable.TableRowsAppend` | components/population-table.tsx:77 | the rows of two lists of entries are the rows of the first, then those of the second |
| `PopulationTable.NotAvailableCountIsNullCount` | components/population-table.tsx:80-93 | a row shows exactly as many "N/A" cells as its entry has nulls |
| `PopulationTable.Render` | components/population-table.tsx:29-34 | the placeholder exactly when loading or when there are no table data; otherwise the rows |

## Left out

- HTTP: the axios requests, their URLs, and the `Promise.all` fan-out of the home page are I/O. The records the service returns are parameters.
- The catch blocks whose only effect is logging, or logging and re-throwing: console output is not modelled. Where a catch also sets state (the home chart's error message), it is modelled.
- Floating point: values are exact reals and integers, not IEEE doubles. `toFixed` is modelled as the scaled integer and not as the string it prints.
- A population the service reports as a non-integer is not modelled: populations are integers.
- `WorldBank.PopulationTenths` states its closed form only for non-negative counts, because populations are never negative. For a negative count it still computes `toFixed` by the same rule.
- The fetchers whose bodies are not part of this model: `getCountyPopulation`, `getTableData`, `getWorldPopulationDensity` and the other rate fetchers. Only their result shapes, as the components read them, are modelled. Loaded slots are `Option`s filled in any order, not a sequence of awaited fetches.
- `PopulationChart.AggregateWorldTotals` requires every country's `years` and `population` to be parallel. Unequal arrays are not modelled. When `years` is longer, the source reads `undefined` for the extra years, so their totals become `NaN`. When `population` is longer, `forEach` over `years` never reaches the extra values, so they are ignored.
- The order of `for (const country in countryPopulation)` is the order of the entries as given. JavaScript puts integer-like keys first; the model does not reorder by that rule.
- `Object.entries(tableData)` in the table likewise follows the order of the entries as given.
- The table's cells are modelled as numbers or null; a string value is not modelled. In column 0 the source divides before it formats, so a string is converted to a number and nothing throws: `"8000000000"` would print "8.0" and a non-numeric string "NaN". In columns 1 to 6 the source calls `toFixed` on the value itself, and a string has no `toFixed`, so the render would throw.
- The table's selected year (`tableOptions`) only goes to `getTableData`, which is not part of this model, so the selector's state is not modelled beyond its options and its initial year.
- The race between fetches that overlap after the table's year changes, and the synchronous `setIsLoading(false)` in the table's effect: these are about asynchronous ordering. `PopulationTable.Render` takes `isLoading` as a parameter.
- React scheduling in general: renders are not modelled as a sequence of events. The dependency list of the chart-data effect is modelled by `PopulationChart.AfterRender` for one render at a time.
- Markup, styling, ApexCharts options other than categories and series, and the hard-coded tooltip of the population chart are presentation only.
- The home chart's year selector converts the selected text with `Number(...)`. The model takes the year range as a number of the `YearRange` type.

## Findings

| source | as written | input that shows it | evidently intended | confidence | as-written member | corrected member |
|---|---|---|---|---|---|---|
| components/population-chart.tsx:237-245 | the effect that computes `chartData` lists every loaded slot as a dependency except `worldLifeExp`, although its "Life Exp. at birth" branch (204-211) reads it | "Life Exp. at birth" is selected while its series is still loading. It arrives and no listed dependency changes, so the chart keeps the data it had (density, in `LifeExpArrivalExample`). This lasts until a later slot or the selection changes, and for good when the later fetches fail | the effect reruns when the life-expectancy series arrives, as it does for the six other slots | medium, not executed | `PopulationChart.LifeExpArrivalIgnoredAsWritten` | `PopulationChart.ArrivingSeriesIsDrawn` |
