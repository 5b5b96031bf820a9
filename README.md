# House-price analysis pipeline, modelled in Dafny

This project models the in-memory analysis behind the house-price dashboard. The input is a list of validated real-estate transactions. Each transaction has:

- a `YYYYMMDD` date;
- a community name;
- a price;
- a district;
- coordinates.

From these transactions the dashboard derives:

- the period label of a date (`formatDate`);
- the district and date-range filters;
- the per-community basic statistics, ordered by transaction count (`calculateBasicStats`);
- the top-N community choice and the sorted district list;
- the sparse per-period price table (`processHistoryData`), in mean or median mode;
- a least-squares trend line with R² for every selected community (`calculateTrendLine`). Its `<community>_trend` values are written back into the table rows in place.

The views derived from that state are also modelled:

- the chart's per-period average line, and its y-axis domain;
- the map's percentile price grades, colour bands, centre and selected markers.

The selector click handlers are modelled too.

Two dashboards share the pipeline:

- the refactored one in `data-analysis/index.tsx`, which also keeps the map locations, a loading flag and a median mode;
- the one the application renders, `DataAnalysis.tsx`, which is mean only and has no map.

Each dashboard's state is a class (`Dashboards.Dashboard`, `Dashboards.LiveDashboard`) whose `ProcessData` method writes the fields that `processData` sets. The trend pass is a method on an `array<Row>`; it writes the trend values into the rows in place. The method is proved against a functional specification (`Pipeline.FitAll`), and the properties are proved about that specification. Everything else in the core is pure computation, so it is modelled as functions and lemmas.

Modelling choices:

- **Numbers.** A JavaScript number is an exact `real`. Where the source can divide zero by zero it becomes `Num.NaN`. `Trend.SlopeQuotientIsZeroOverZero` and `Trend.R2QuotientIsZeroOverZero` show that no other division by zero occurs, so no infinity arises.
- **String order.** String comparison is JavaScript's code-unit lexicographic order (`Js.LexLe`), proved to be a total order.
- **Grouping and sorting.** lodash `groupBy` is modelled as first-appearance order. `orderBy` is a stable insertion sort.
- **Unparseable dates.** A month that does not parse renders as `NaN` in the label, as it does in the source.
- **Repeated communities.** A community selected twice is processed twice, exactly as the source does: it gets two `stats` entries and counts twice in the chart average.

## Model

| member | source | states |
|---|---|---|
| Js.ParseInt | src/components/data-analysis/utils.ts:7 | for texts without leading white space, sign or `0x` prefix: `parseInt` is NaN exactly when the text does not start with a digit, and on an all-digit text it is the text's decimal value |
| Js.NatToString | src/components/data-analysis/utils.ts:9 | `toString` of a non-negative integer is a nonempty digit string that reads back as the same number; it has one digit exactly below 10 |
| Js.PadStart2 | src/components/data-analysis/utils.ts:9 | `padStart(2, '0')` gives length 2, or the input's own length when that is longer |
| Js.Slice | src/components/data-analysis/utils.ts:6-7 | `slice(from, to)` clamps both ends to the string's length |
| Js.IndexOf | src/components/data-analysis/utils.ts:21 | the first position of the separator, or none exactly when it does not occur |
| Js.SplitJoin | src/components/data-analysis/utils.ts:21-22 | `split('-')` of `a-b` (neither part containing '-') gives back `a` as field 0 and `b` as field 1 |
| Js.LexLeTotal | src/components/data-analysis/index.tsx:59-60 | the string order used by the date filter relates every two strings |
| Js.LexLeAntisym | src/components/data-analysis/index.tsx:59-60 | two strings each `<=` the other are equal |
| Js.LexLeTrans | src/components/data-analysis/index.tsx:59-60 | the string order is transitive |
| Js.LexLeRefl | src/components/data-analysis/index.tsx:59-60 | every string is `<=` itself |
| Js.LexLtTrans | src/components/data-analysis/utils.ts:93 | `<` followed by `<=` gives `<` (used by the period sort) |
| Js.LexNotLe | src/components/data-analysis/utils.ts:93 | when `a <= b` fails, `b < a` |
| Seqs.Filter | src/components/data-analysis/index.tsx:51 | `filter` keeps exactly the elements satisfying the test and is no longer than its input |
| Seqs.FilterAppend | src/components/data-analysis/index.tsx:51 | filtering distributes over concatenation |
| Seqs.FilterKeepsAll | src/components/data-analysis/index.tsx:51 | a filter that every element passes returns its input unchanged |
| Seqs.FilterIsSubsequence | src/components/data-analysis/index.tsx:51 | a filter keeps the input's order (its result is a subsequence of the input) |
| Seqs.Dedup | src/components/data-analysis/utils.ts:76 | the group keys are distinct and are exactly the keys of the input |
| Seqs.DedupCounts | src/components/data-analysis/utils.ts:100-104 | counting the records of every distinct key counts each record exactly once |
| RealSeqs.MinOf | src/components/data-analysis/utils.ts:106 | the minimum is one of the prices and is at most every price |
| RealSeqs.MaxOf | src/components/data-analysis/utils.ts:107 | the maximum is one of the prices and is at least every price |
| RealSeqs.MeanBounds | src/components/data-analysis/utils.ts:105 | `_.meanBy` of a nonempty list lies between its minimum and maximum |
| RealSeqs.MeanBetween | src/components/data-analysis/utils.ts:105 | the mean respects any common bounds of its elements |
| RealSeqs.SumBounds | src/components/data-analysis/utils.ts:105 | elements within `[lo, hi]` bound the sum by `n*lo` and `n*hi` |
| RealSeqs.SumAppend | src/components/data-analysis/utils.ts:43-44 | the `reduce` sum distributes over concatenation |
| RealSeqs.SortAsc | src/components/data-analysis/utils.ts:86 | `_.orderBy(..., ['asc'])` on prices gives an ascending permutation of its input |
| RealSeqs.InsertAsc | src/components/data-analysis/utils.ts:86 | inserting into an ascending list keeps it ascending and adds exactly that element |
| RealSeqs.UpperMiddleBounds | src/components/data-analysis/utils.ts:85-87 | the median-mode pick (index `floor(n/2)` of the sorted prices) is one of the prices, between their minimum and maximum |
| RealSeqs.UpperMiddleSplits | src/components/data-analysis/utils.ts:85-87 | every sorted price before the pick is at most it, and every one after it is at least it |
| Records.FormatDateKeepsYear | src/components/data-analysis/utils.ts:5-11 | whatever the date, the label starts with `date.slice(0, 4)` and a dash, followed by at least two more characters: the first four characters for a date of four or more, the whole date otherwise |
| Records.TwoDigitsRoundTrip | src/components/data-analysis/utils.ts:7-9 | parsing a two-digit month and padding its `toString` back to two digits returns the original text |
| Records.FormatDateMonth | src/components/data-analysis/utils.ts:5-9 | for a digit month field, the month label is the date's year, a dash and its two month digits |
| Records.FormatDateQuarter | src/components/data-analysis/utils.ts:5-10 | the quarter label is `YYYY-Q` followed by `ceil(month/3)`; months 1 to 12 give one digit 1 to 4 |
| Records.MonthLabelExample | src/components/data-analysis/utils.ts:8-9 | `20240315` gives the month label `2024-03` |
| Records.QuarterLabelExample | src/components/data-analysis/utils.ts:10 | `20240715` gives the quarter label `2024-Q3` |
| Records.QuarterOverflowExample | src/components/data-analysis/utils.ts:10 | there is no calendar check: month `13` gives `2024-Q5` |
| Trend.OrdinalOfMonthLabel | src/components/data-analysis/utils.ts:20-25 | a month label `Y-MM` converts to `Y*12 + MM - 1` |
| Trend.OrdinalOfQuarterLabel | src/components/data-analysis/utils.ts:26-29 | a quarter label `Y-Qk` converts to `Y*12 + (k-1)*3` |
| Trend.OrdinalOfMonthDate | src/components/data-analysis/utils.ts:5-25 | the month label of a digit date converts back to that date's month ordinal |
| Trend.OrdinalOfQuarterDate | src/components/data-analysis/utils.ts:5-29 | the quarter label of a digit date converts back to the first month of its quarter |
| Trend.MinInt | src/components/data-analysis/utils.ts:39 | `Math.min(...timeValues)` is one of the values and at most each of them |
| Trend.RelativeTimesBounds | src/components/data-analysis/utils.ts:39-40 | the relative times are non-negative and the earliest is exactly 0 |
| Trend.CalculateTrendLine | src/components/data-analysis/utils.ts:13-60 | zeros for fewer than two prices or an unparseable period; the slope and intercept are both numbers or both NaN, and a numeric R² implies a numeric slope |
| Trend.SqDevNonNegative | src/components/data-analysis/utils.ts:52 | `ssTotal` is never negative |
| Trend.ResidualNonNegative | src/components/data-analysis/utils.ts:53-56 | `ssResidual` is never negative |
| Trend.DevSquaresZeroIffConstant | src/components/data-analysis/utils.ts:51-52 | squared deviation from the mean is zero exactly when all prices are equal |
| Trend.DenominatorIsScaledVariance | src/components/data-analysis/utils.ts:48 | the slope denominator `n*sumXX - sumX^2` is `n` times the squared deviation of the times |
| Trend.SlopeQuotientIsZeroOverZero | src/components/data-analysis/utils.ts:48 | the slope denominator is zero exactly when all times are equal, and then the numerator is zero too (0/0, NaN) |
| Trend.R2QuotientIsZeroOverZero | src/components/data-analysis/utils.ts:51-57 | `ssTotal` is zero exactly when all prices are equal, and then `ssResidual` is zero too |
| Trend.ConstantPricesLine | src/components/data-analysis/utils.ts:48-49 | equal prices give slope 0 and intercept equal to the price |
| Trend.ConstantPricesFit | src/components/data-analysis/utils.ts:53-56 | equal prices leave no residual |
| Trend.FitThroughMeanPoint | src/components/data-analysis/utils.ts:48-49 | a numeric line passes through the point (mean time, mean price) |
| Trend.FitR2 | src/components/data-analysis/utils.ts:51-57 | with a numeric slope, R² is a number exactly when the prices are not all equal, and it is at most 1 |
| Trend.CenteredOnLine | src/components/data-analysis/utils.ts:42-46 | for prices on a line `a + b·x`, the centred cross sum is `b` times the times' centred square sum |
| Trend.CollinearSlope | src/components/data-analysis/utils.ts:42-45 | prices on a line `a + b·x` at varying times give slope `b` |
| Trend.CollinearLine | src/components/data-analysis/utils.ts:42-55 | prices on a line `a + b·x` with a nonzero slope denominator: slope `b`, intercept `a`, and no residual |
| Trend.CollinearFit | src/components/data-analysis/utils.ts:42-59 | prices on a line `a + b·x` at varying times: slope `b`, intercept `a`, no residual, and R² = 1 unless all prices are equal |
| Trend.TwoPointsFit | src/components/data-analysis/utils.ts:42-59 | two prices at two different times: the fit is the line through them, with R² = 1 exactly when the prices differ and NaN otherwise |
| Trend.TwoPeriodsR2 | src/components/data-analysis/utils.ts:18-59 | `calculateTrendLine` on two periods of different months gives R² = 1 exactly when the two prices differ, and NaN when they are equal |
| Trend.FitExample | src/components/data-analysis/utils.ts:42-59 | prices 1,000,000, 1,100,000 and 1,200,000 at times 0, 1, 2 give slope 100,000, intercept 1,000,000 and R² 1 |
| Trend.SumAffine | src/components/data-analysis/utils.ts:43-44 | prices on a line `a + b*x` sum to `n*a + b*sumX` |
| Trend.ResidualOfExactLine | src/components/data-analysis/utils.ts:53-56 | points on the line leave no residual |
| Trend.CenteredExpand | src/components/data-analysis/utils.ts:43-48 | the centred cross-product sum equals the raw-sum expansion used by the source |
| History.Tag | src/components/data-analysis/utils.ts:68-72 | every record gets the label of its own date, in input order |
| History.Aggregate | src/components/data-analysis/utils.ts:83-87 | the mean or the median-mode pick lies between the prices' minimum and maximum; the median-mode pick is one of them |
| History.PeriodRow | src/components/data-analysis/utils.ts:77-91 | a row has a field for exactly the selected communities with a record in the bucket, and no trend field |
| History.SortByPeriod | src/components/data-analysis/utils.ts:93 | `orderBy(['period'], ['asc'])` on rows with distinct labels gives a strictly ascending permutation |
| History.InsertRowAscending | src/components/data-analysis/utils.ts:93 | inserting a row with a new label keeps the rows strictly ascending |
| History.GroupedRowsDistinct | src/components/data-analysis/utils.ts:76 | `groupBy` gives one row per period label |
| History.ProcessHistoryData | src/components/data-analysis/utils.ts:62-97 | the table is the grouped rows, reordered by strictly ascending label |
| History.HistoryPeriods | src/components/data-analysis/utils.ts:62-97 | a label occurs in the table exactly when some selected community's record carries it |
| History.HistoryPresence | src/components/data-analysis/utils.ts:80-89 | a row has a field for `c` exactly when `c` is selected and has a record in that period |
| History.HistoryCells | src/components/data-analysis/utils.ts:62-97 | each field is the aggregate of exactly that community's prices in that period, between their minimum and maximum |
| History.ProcessHistoryDataMean | src/components/DataAnalysis.tsx:115-148 | the rendered dashboard's table is ascending, and every field is the plain mean of the community's prices in the period |
| BasicStats.GroupSize | src/components/data-analysis/utils.ts:101-104 | a group has one member per record carrying its name |
| BasicStats.StatOf | src/components/data-analysis/utils.ts:102-108 | one group's entry has its name, a positive count, and a mean between its minimum and maximum |
| BasicStats.SortByCount | src/components/data-analysis/utils.ts:109 | `orderBy(['count'], ['desc'])` gives a permutation with counts non-increasing |
| BasicStats.CalculateBasicStats | src/components/data-analysis/utils.ts:99-111 | the result is ordered by descending count and is a permutation of one entry per distinct community |
| BasicStats.EntryIsGroupStat | src/components/data-analysis/utils.ts:99-111 | every entry is the statistic of its own community's group |
| BasicStats.StatCount | src/components/data-analysis/utils.ts:104 | an entry's count is the number of records of its community |
| BasicStats.StatEntries | src/components/data-analysis/utils.ts:102-108 | each count is positive, the mean lies between the bounds, and the bounds are prices of actual records of the community |
| BasicStats.StatBounds | src/components/data-analysis/utils.ts:106-107 | every price of the community lies between the entry's minimum and maximum |
| BasicStats.StatNamesDistinct | src/components/data-analysis/utils.ts:101 | no community has two entries |
| BasicStats.StatNamesCover | src/components/data-analysis/utils.ts:101-102 | a name has an entry exactly when it occurs in the input |
| BasicStats.CountsSumToInput | src/components/data-analysis/utils.ts:104 | the counts add up to the number of records |
| BasicStats.FindStat | src/components/data-analysis/index.tsx:124 | `find` returns an entry with that name, and nothing exactly when no entry has it |
| BasicStats.FindStatOfPresent | src/components/data-analysis/index.tsx:124 | for a community present in the input, `find` returns its own group's entry |
| BasicStats.LocationOf | src/components/data-analysis/index.tsx:76-82 | a location carries its community's name and record count |
| BasicStats.LocationsOf | src/components/data-analysis/index.tsx:74-83 | one location per key, in key order |
| BasicStats.LocationMatchesStat | src/components/data-analysis/index.tsx:74-83 | a location agrees with the community's basic statistic on count and mean price, and its position lies inside the group's bounding box |
| Pipeline.DistrictFilter | src/components/data-analysis/index.tsx:50-52 | keeps exactly the records of selected districts, in order; an empty selection keeps everything |
| Pipeline.DateFilter | src/components/data-analysis/index.tsx:55-63 | keeps exactly the records whose month label lies in the inclusive range (an empty bound is no bound), in order |
| Pipeline.FilterRecords | src/components/data-analysis/index.tsx:47-63 | a record survives exactly when it passes both the district filter and the date filter |
| Pipeline.TopCommunitiesShape | src/components/data-analysis/index.tsx:151-163 | at most `topN` distinct communities of the district-filtered data, and all of them when there are fewer |
| Pipeline.TopCommunitiesMostRecords | src/components/data-analysis/index.tsx:158-159 | a community left out of the top N has no more records than any chosen one |
| Pipeline.SortStrings | src/components/data-analysis/index.tsx:142 | `sort()` of distinct strings gives a strictly ascending permutation |
| Pipeline.InsertStringAscending | src/components/data-analysis/index.tsx:142 | inserting a new string keeps the list strictly ascending |
| Pipeline.DistrictList | src/components/data-analysis/index.tsx:142 | the district list is strictly ascending and holds exactly the districts of the data |
| Pipeline.ValidIndices | src/components/data-analysis/index.tsx:109-112 | `validIndices` is the ascending list of exactly the rows holding a value for the community |
| Pipeline.WithTrend | src/components/data-analysis/index.tsx:118-121 | rows inside the range gain the community's trend at `intercept + slope*(i - start)`; no other row and no price changes |
| Pipeline.WriteTrend | src/components/data-analysis/index.tsx:118-121 | the write-back loop leaves the array equal to `WithTrend` of its old contents |
| Pipeline.FitStep | src/components/data-analysis/index.tsx:94-130 | one `forEach` iteration updates the array, `trends` and `stats` as one step of the specification `FitOne` |
| Pipeline.FitTrends | src/components/data-analysis/index.tsx:91-131 | the whole `forEach` leaves the array, `trends` and `stats` equal to the specification `FitAll` of the old table |
| Pipeline.AnalyseTable | src/components/data-analysis/index.tsx:87-131 | the trend pass on a fresh copy of the history table gives `FitAll` of that table |
| Pipeline.SeriesOfSameTable | src/components/data-analysis/index.tsx:95-105 | a community's series and its line depend only on periods and values, never on trend fields |
| Pipeline.FitAllKeepsTable | src/components/data-analysis/index.tsx:94-131 | the trend pass changes no period and no price |
| Pipeline.FitAllTrends | src/components/data-analysis/index.tsx:94-106 | `trends` has a line exactly for the selected communities with values in at least two rows, and it is the fit of that community's own series |
| Pipeline.FitAllStats | src/components/data-analysis/index.tsx:123-129 | `stats` has one entry per fitted community, in selection order: its basic statistic with slope and R² |
| Pipeline.FitAllCell | src/components/data-analysis/index.tsx:108-121 | row `i` carries the trend of every selected community whose first and last rows with a value enclose it, valued `intercept + slope*(i - first)`; every other trend field is as before |
| Pipeline.FittedHasStat | src/components/data-analysis/index.tsx:124 | a community with a value in the table is selected and present, so `find` returns its own statistic |
| Pipeline.PassStats | src/components/data-analysis/index.tsx:124-129 | on the table `processHistoryData` builds, every `stats` entry carries the community's own statistic (the non-null assertion never fails) |
| Pipeline.PassCells | src/components/data-analysis/index.tsx:108-121 | on a fresh table, row `i` has a trend for `c` exactly when `c` is selected and the row lies between its first and last valued rows |
| Dashboards.Dashboard.constructor | src/components/data-analysis/index.tsx:23-36 | the `useState` initial values |
| Dashboards.Dashboard.ProcessData | src/components/data-analysis/index.tsx:38-136 | with no data only the loading flag is cleared; when the filters leave nothing, only the loading flag changes and it stays set; otherwise the locations, table, trend lines and statistics are those of the trend pass over the filtered records, and the flag is cleared |
| Dashboards.Dashboard.Show | src/components/data-analysis/index.tsx:71-135 | after the filters: the locations, the trend-pass table, trends and stats, and the flag cleared |
| Dashboards.LiveDashboard.constructor | src/components/DataAnalysis.tsx:154-162 | the `useState` initial values |
| Dashboards.LiveDashboard.ProcessData | src/components/DataAnalysis.tsx:179-262 | nothing changes without data or after an empty filter; otherwise the mean table with trends, the trend lines and the statistics of the filtered records |
| Dashboards.Analyse | src/components/data-analysis/index.tsx:71-131 | the basic statistics, the table and the trend pass compose into `FitAll` of the history table |
| Dashboards.DistrictsEffect | src/components/data-analysis/index.tsx:139-148 | the effect does nothing exactly when there is no data |
| Dashboards.DistrictsEffectSelection | src/components/data-analysis/index.tsx:139-148 | on nonempty data the available list is the data's sorted district list; a nonempty selection is kept unchanged and an empty one becomes that list, so it holds exactly the data's districts; the selection is never empty afterwards and no other setting changes |
| Dashboards.TopNEffect | src/components/data-analysis/index.tsx:151-163 | nothing without data; otherwise the selected communities are the available ones |
| Dashboards.ResetKeepsAllRecords | src/components/data-analysis/index.tsx:186-194 | after either reset button (with the data's district list), the filters keep every record |
| MapGrades.AvgPrices | src/components/MapComponent.tsx:10 | one average price per location, in order |
| MapGrades.PercentileIndexInRange | src/components/MapComponent.tsx:12-13 | below the 100th percentile the index stays inside a nonempty list |
| MapGrades.PercentileIndexMonotone | src/components/MapComponent.tsx:12 | a higher percentile never gives a lower index |
| MapGrades.PriceGrades | src/components/MapComponent.tsx:16-23 | there are six grades |
| MapGrades.GradeEntries | src/components/MapComponent.tsx:10-23 | each grade is the percentile entry of the ascending prices, and 0 when there are no locations |
| MapGrades.PriceGradesEmpty | src/components/MapComponent.tsx:13 | without locations every grade is 0 |
| MapGrades.PriceGradesAreAvgPrices | src/components/MapComponent.tsx:10-23 | every grade of a nonempty list is some location's average price |
| MapGrades.PriceGradesAscending | src/components/MapComponent.tsx:16-23 | the grades never decrease, and the first one is the lowest average price |
| MapGrades.GradeIndexFrom | src/components/MapComponent.tsx:28-30 | `findIndex` returns the first grade passing the test, or -1 when none does |
| MapGrades.ColourIndex | src/components/MapComponent.tsx:42 | the clamp maps -1 to colour 0, keeps 0 to 4, and caps 5 at 4 |
| MapGrades.SortedGradeIndex | src/components/MapComponent.tsx:28-30 | on ascending grades, a price below the first grade has no band; any other price falls in the band of the last grade it reaches |
| MapGrades.ColourBands | src/components/MapComponent.tsx:26-48 | a price below the lowest grade is green, a price at or above the top grade is red, and a higher price never gets a lower colour |
| MapGrades.MapCentre | src/components/MapComponent.tsx:56-61 | the centre is the mean position and lies inside the locations' bounding box, or the Taipei fallback without locations |
| MapGrades.SelectedLocations | src/components/MapComponent.tsx:151-153 | exactly the locations of selected communities, in order |
| MapGrades.PlaceMarkers | src/components/MapComponent.tsx:125-148 | the markers are those of exactly the locations the view is fitted to, coloured by the grades |
| MapGrades.PushMarkers | src/components/MapComponent.tsx:125-148 | the `forEach` loop pushes one marker per selected location, in order |
| MapGrades.MarkersSelected | src/components/MapComponent.tsx:125-133 | every marker belongs to a selected community and has one of the five colours |
| PriceChart.ValidPrices | src/components/data-analysis/PriceTrendChart.tsx:40-42 | one entry per selected name that has a value in the row, in selection order, each being that name's value; its members are exactly the row's values of selected communities |
| PriceChart.RepeatedSelectionCountsTwice | src/components/data-analysis/PriceTrendChart.tsx:40-42 | a community selected twice contributes its value twice |
| PriceChart.AverageOf | src/components/data-analysis/PriceTrendChart.tsx:39-50 | the point keeps the period, and it is defined exactly when some selected community has a value; that value lies between the row's lowest and highest |
| PriceChart.AveragePrices | src/components/data-analysis/PriceTrendChart.tsx:39-50 | one point per row, in order |
| PriceChart.AllPricesMembers | src/components/data-analysis/PriceTrendChart.tsx:53-57 | the flat list holds exactly the defined selected values of the rows |
| PriceChart.AllPricesAppend | src/components/data-analysis/PriceTrendChart.tsx:53-57 | `flatMap` distributes over concatenation of tables |
| PriceChart.AllPricesAt | src/components/data-analysis/PriceTrendChart.tsx:53-57 | the flat list is the rows before `i`, then row `i`'s defined selected values with their multiplicity, then the rows after `i` |
| PriceChart.YDomainContains | src/components/data-analysis/PriceTrendChart.tsx:59-60 | with positive prices the domain is not inverted and every price lies strictly inside it |
| PriceChart.AverageWithinDomain | src/components/data-analysis/PriceTrendChart.tsx:39-60 | with positive prices every defined point of the average line lies strictly inside the y-axis domain |
| Selectors.Without | src/components/data-analysis/DistrictSelector.tsx:34 | `filter(d => d !== item)` keeps everything else, in order |
| Selectors.ToggleDistrictEmits | src/components/data-analysis/DistrictSelector.tsx:31-39 | an unselected district is appended; a selected one is removed, in order, exactly when more than one is selected |
| Selectors.ToggleDistrictKeepsSelection | src/components/data-analysis/DistrictSelector.tsx:32-34 | on a selection without repeats, a nonempty selection never becomes empty and stays without repeats |
| Selectors.ToggleDistrictRepeated | src/components/data-analysis/DistrictSelector.tsx:33-34 | the guard counts entries: `["A","A"]` minus `A` is empty |
| Selectors.ToggleCommunity | src/components/data-analysis/CommunitySelector.tsx:35-41 | a selected community is removed (order kept), an unselected one is appended |
| Selectors.ToggleCommunityTwice | src/components/data-analysis/CommunitySelector.tsx:35-41 | clicking an unselected community twice restores the selection |
| Selectors.ToggleLastCommunity | src/components/data-analysis/CommunitySelector.tsx:36-37 | there is no guard: removing the last community empties the selection |
| Selectors.Months | src/components/data-analysis/DateRangeSelector.tsx:24-27 | twelve two-digit choices whose values are 1 to 12 |
| Selectors.MonthsFrom | src/components/data-analysis/DateRangeSelector.tsx:24-27 | the choices from month `m` on are the padded texts of `m`, `m+1`, … |
| Selectors.MonthText | src/components/data-analysis/DateRangeSelector.tsx:26 | `String(m).padStart(2, '0')` is two digits reading back as `m` |
| Selectors.MonthLabelFields | src/components/data-analysis/DateRangeSelector.tsx:39 | splitting a `YYYY-MM` label on '-' gives back its year and month |
| Selectors.JoinedLabel | src/components/data-analysis/DateRangeSelector.tsx:42 | joining a year and a two-digit month gives a label whose fields are those two |
| Selectors.StartYearChangeLabel | src/components/data-analysis/DateRangeSelector.tsx:40-43 | picking a start year keeps the old month (or `01`), giving a well-formed label |
| Selectors.StartMonthChangeLabel | src/components/data-analysis/DateRangeSelector.tsx:66-71 | picking a start month keeps the old year (or the current year), giving a well-formed label |
| Selectors.EndYearChangeGuarded | src/components/data-analysis/DateRangeSelector.tsx:103-109 | an end-year pick is emitted exactly when the candidate is not before the start date, and it is that candidate |
| Selectors.EndMonthChangeGuarded | src/components/data-analysis/DateRangeSelector.tsx:136-144 | an end-month pick is emitted exactly when the candidate is not before the start date |
| Selectors.LexLeCommonPrefix | src/components/data-analysis/DateRangeSelector.tsx:106 | labels with a common prefix compare like their remainders |
| Selectors.StartMayPassEnd | src/components/data-analysis/DateRangeSelector.tsx:40-43 | start changes are not guarded: picking the end's year can put the start after the end (2023-06..2024-03 becomes 2024-06..2024-03) |

## Left out

- Rendering, chart and table components, CSV export, tabs and styling: these are presentation, not analysis.
- Leaflet map creation, tile layer, legend, marker removal and `fitBounds`: these are calls into an external library. Only the data they receive is modelled (`MapGrades.PlaceMarkers`, `MapGrades.SelectedLocations`).
- `getCommunityColor` and the badge hues: presentation only.
- `handleSettingsChange` (index.tsx:170-184): a dispatch of the settings setters. The settings are passed to `ProcessData` as a value instead.
- React's effect scheduling and batched state updates:
  - each effect is a function from data and settings to new settings;
  - `ProcessData` writes each field's final value once, so the intermediate `setIsLoading(true)` on entry is not a separate state.
- The current year for the date selectors comes from the clock, so it is a parameter (`currentYear`).
- The `HousePriceAnalyzer` row validation and file upload are outside the analysis core; the model starts from validated records.
- Only the record fields the analysis reads are kept.
- Floating point: prices, means and trend arithmetic use exact reals. `Math.floor(n * 0.2)` and the other percentile indices are taken as the exact `floor(n*q/100)`; a double product that rounds below an integer would give a smaller index for some `n`.
- `Math.min(...)` / `Math.max(...)` argument-count limits of JavaScript engines are not modelled.
- Key collisions:
  - in the source a table row is one object holding `period`, the community values and the `<community>_trend` values;
  - a community named `period` or `X_trend` would collide with those keys;
  - the model keeps the three in separate fields.
- JavaScript objects list integer-like keys first, in numeric order. The model uses first-appearance order for `groupBy` keys throughout.
- String order is modelled on characters, not UTF-16 code units; the two differ only for characters outside the Basic Multilingual Plane.
- Trend.FitR2: proves R² ≤ 1 but not R² ≥ 0. R² ≥ 0 needs the least-squares optimality of the fitted line, which is not proved. Collinear prices giving R² = 1 is proved separately (`Trend.CollinearFit`, `Trend.TwoPointsFit`).
- Js.ParseInt: leading white space, a `+` or `-` sign and a `0x` prefix are not read. The model gives NaN where JavaScript's `parseInt` would skip the white space or apply the sign. In this pipeline `parseInt` only sees slices of the `YYYYMMDD` date text and fields of the labels built from it, so such inputs only arise from a date text with a sign or white space in those positions.
- Trend.CalculateTrendLine: the example is stated on `Fit` with relative times 0, 1, 2 rather than on period labels.
- BasicStats.SortByCount: proves the result is ordered by count and is a permutation of its input. It does not prove that entries with equal counts keep their input order (stability), although the insertion sort models a stable sort.
- The `|| 0` fallbacks for minimum, maximum and percentile prices only differ from the value itself for NaN or a missing entry; NaN prices are not modelled.
