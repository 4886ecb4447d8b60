# Profile charts: level model, series and axis arithmetic

A Dafny model of the numeric and data core of a profile page, `index.js`. The
page fetches a user's experience transactions and draws three charts:
experience by project, cumulative experience over time, and level over time.

The model covers the parts of the page that compute values:

- **Level model** (`level.dfy`, module `LevelModel`). There is an experience
  cost per level and a cumulative cost to reach a level. The inverse is an
  unbounded forward search from an experience total back to the least level
  that reaches it.
- **Records** (`records.dfy`, module `Records`). Each project has a list of
  transactions. Its head transaction is flattened into a `{xp, name, createdAt}`
  record, and the total experience is the sum of those head amounts.
- **Ordering** (`ordering.dfy`, module `Ordering`). The comparator sort by one
  key (name or timestamp) is an in-place array method proved sorted and a
  permutation.
- **Series** (`series.dfy`, module `Series`). This module builds the three chart
  series in the source's order:
  - the by-project points, from the records sorted by name;
  - the by-time points, after the same array is re-sorted by time and its
    amounts are turned into running totals in place;
  - the level series, with repeated levels removed in the source's single
    splice pass.

  It also holds the profile summary and the combined pipeline.
- **Axis** (`axis.dfy`, module `Axis`):
  - the power-of-ten batch size of the y axis and the y-tick loop;
  - the affine y map into the 500-unit height, the 30-day month count and
    the time x map;
  - the project columns and bars, including the half-turn transform of the
    project chart;
  - `findMax`.
- **Attribute names** (`attrnames.dfy`, module `AttrNames`). This is the
  camel-case to hyphenated rewrite of SVG attribute names.

JS numbers are modelled as `int` where the source only adds and compares, and
as `real` where it divides. The model uses these two definitions:

- `Math.round(x)` is `floor(x + 0.5)`.
- `parseInt(x, 10)` of a decimal number is truncation towards zero.

The factor `0.66` is exact here, so the per-level cost is exactly the integer
`99·L² + 381·L + 350`.

Three degenerate inputs that the source leaves unguarded are preconditions:

- `findValueY` with `maxY == minY` divides by zero.
- The project columns with one project divide by zero.
- The y-tick loop when the batch size is 0. This happens when
  `0 <= (max - min) / len < 1/2` with `max > min`: the loop never advances.
  `DrawYTicks` therefore requires `max <= min` or `2·(max - min) >= len`.
  For `max > min`, `FindBatchSize` proves that the batch size is at least 1
  exactly when `2·(max - min) >= len`; for `max <= min` there are no ticks.

Three behaviours of the code are worth stating, since a reader might expect
otherwise:

- (a) Equal keys. The comparator never returns 0, so equal keys end in an
  unspecified order. `SortNestedByKey` promises only a sorted permutation.
- (b) Degenerate batch size. `findBatchSize` returns 0 when `max == min` and
  has no guard for `len == 0`.
- (c) Step values. The step is any integer multiple of the scale, such as 30
  or 70, not only 1, 2 or 5 times a power of ten.

## Model

| member | source | states |
|---|---|---|
| LevelModel.TotalXpForLevel | index.js:161-162 | the rounded product `(L·0.66+1)·((L+2)·150+50)` is exactly `99L²+381L+350`, at least 350 |
| LevelModel.CumulXpForLevel | index.js:165-166 | the sum of the per-level amounts of levels 1..L, at least `350·L` |
| LevelModel.CumulXpStep | index.js:165-166 | level 0 costs 0; each next level adds its own amount and strictly increases the total |
| LevelModel.CumulXpStrictlyIncreasing | index.js:165-166 | `lo < hi` implies `cumul(lo) < cumul(hi)` |
| LevelModel.CumulXpClosedForm | index.js:161-166 | `6·cumul(L) = 99·L(L+1)(2L+1) + 1143·L(L+1) + 2100·L` |
| LevelModel.GetLevelFromXp | index.js:169-170 | the search from `level` terminates with the first level at or after `level` whose cumulative experience reaches `xp` |
| LevelModel.LevelForXp | index.js:169-170 | with the default start 0: the least level whose cumulative experience reaches `xp` |
| LevelModel.LevelForXpCharacterization | index.js:169-170 | `level` is the answer if and only if it reaches `xp` and its predecessor does not (both directions) |
| LevelModel.LevelForXpNonPositive | index.js:169-170 | experience at most 0 is level 0 |
| LevelModel.LevelForXpOfCumul | index.js:165-170 | round trip: the level of `cumul(L)` is `L` |
| LevelModel.LevelForXpMonotone | index.js:169-170 | more experience never gives a lower level |
| LevelModel.LevelForXpExample | index.js:161-170 | the cumulative experience of levels 1, 2 and 3 is 830, 2338 and 4722, so level 2 runs from 831 to 2338 and level 3 from 2339; 3000 experience is level 3 |
| Records.FindTotalXp | index.js:173-174 | the reduced total equals the sum of the amounts of the flattened records |
| Records.MappedXpAndProject | index.js:176-181 | one record per project, carrying the amount, name and timestamp of its head transaction |
| Records.SumXpPermutation | index.js:173-174 | the total does not depend on the order of the records |
| Records.FindTotalXpBounds | index.js:173-174 | with non-negative amounts, every head amount lies between 0 and the total |
| Records.FindTotalXpNonNegative | index.js:173-174 | with non-negative amounts the total is non-negative |
| Ordering.StrLessTransitive | index.js:183-184 | the string order that `>` uses on names is transitive |
| Ordering.StrLessTrichotomy | index.js:183-184 | for any two names exactly one of less, equal, greater holds |
| Ordering.KeyLeTransitive | index.js:183-184 | "not greater" by one key is transitive, for names and for timestamps |
| Ordering.SortNestedByKey | index.js:183-184 | the array becomes a permutation of itself in non-decreasing key order |
| Series.GetXpByProject | index.js:211-215 | sorts the shared array by name (sorted, a permutation) and returns one point per record of the sorted array |
| Series.ProjectSeriesInNameOrder | index.js:211-215 | the by-project points: one per record, with its amount and name, names in non-decreasing order |
| Series.RunningTotalsAt | index.js:220-222 | after the accumulation loop, record `k` keeps its name and timestamp and carries the sum of amounts 0..k |
| Series.RunningTotalsFirst | index.js:220-222 | the first record keeps its own amount |
| Series.RunningTotalsLast | index.js:220-222 | the last record carries the sum of all amounts |
| Series.RunningTotalsKeepKeys | index.js:220-222 | names and timestamps stay in place |
| Series.RunningTotalsMonotone | index.js:220-222 | with non-negative amounts the running totals never decrease |
| Series.GetXpByTime | index.js:218-224 | the shared array ends as the running totals of its timestamp-sorted permutation; the result is a fresh array of `{xp, createdAt}` points of it |
| Series.TimeSeriesProperties | index.js:218-224 | the by-time points: first is the first amount, last is the sum, non-decreasing |
| Series.LevelPointsMonotone | index.js:230-233 | non-decreasing experience maps to non-decreasing levels |
| Series.Collapse | index.js:235-242 | the collapsed series is no longer than its input, starts at its first point and ends at the level of its last point |
| Series.CollapseIndices | index.js:235-242 | the collapse is the order-preserving subsequence of the points that start a run of equal levels, exactly those |
| Series.CollapseNoRepeats | index.js:235-242 | no two neighbouring points of the collapse have the same level |
| Series.CollapseStrictlyIncreasing | index.js:235-242 | a non-decreasing input collapses to a strictly increasing series |
| Series.SpliceRepeats | index.js:235-243 | the splice loop, with its `i--` and `arrLen--`, yields exactly the collapse of its input |
| Series.GetLevelByTime | index.js:227-244 | the result is the collapse of the input mapped to levels; the input array is only read |
| Series.LevelSeriesProperties | index.js:227-244 | levels of a non-decreasing series, collapsed: strictly rising, first and last points at the levels of the first and last values |
| Series.GetProfileInfo | index.js:199-208 | the summary carries the user id, the login, the total of the head amounts and the least level that reaches it |
| Series.GetDiagramData | index.js:247-259 | the by-project points come from the records in name order with their own amounts, computed before the same array is re-sorted and accumulated; the by-time and level series follow |
| Series.DiagramDataProperties | index.js:247-259 | with non-negative amounts: one time point per project, starting at the first record's amount, never decreasing, ending at the profile's total; the level series strictly rises and ends at the profile's level |
| Series.TwoRecordExample | index.js:218-244 | amounts 1000 and 2000 give the points 1000 and 3000 and the levels 2 and 3 |
| Axis.Trunc | index.js:322 | the integer part of the segment size, truncated towards zero |
| Axis.FindBatchSize | index.js:320-329 | the scale is the power of ten the loop settles on; the batch size is the segment size rounded to that scale; it is at least 1 exactly when `2·(max-min) >= len`, and never negative for `max >= min` |
| Axis.ScaleUnique | index.js:323-327 | the scale of the loop is determined by the integer part alone |
| Axis.FindBatchSizeExample | index.js:320-329 | `findBatchSize(0, 953, 10)` has scale 10 and is 100 |
| Axis.FindValueYProportion | index.js:306-310 | the y position is `500·(maxY - value)/(maxY - minY)` |
| Axis.FindValueYEnds | index.js:306-310 | `minY` is drawn at 500 and `maxY` at 0 |
| Axis.FindValueYDecreasing | index.js:306-310 | a higher value gets a strictly smaller y coordinate |
| Axis.FindValueYInverse | index.js:306-310 | the value can be recovered from its y position |
| Axis.DrawYTicks | index.js:331-334 | ticks from `min` in steps of the batch size, each at its y position; none when `max <= min`; otherwise at least one, the last within `[max, max + batch - 1]`, from the bottom edge to at or above the top edge |
| Axis.DateDiff | index.js:303-304 | the result `r` satisfies `(r-1)·month <= max - min < r·month` for 30-day months |
| Axis.DateDiffQuotient | index.js:303-304 | the month count is the Euclidean quotient plus one, at least 1 for ordered timestamps |
| Axis.FindValueXEnds | index.js:312-318 | the first month start is drawn at 0, the last at `1000·(m-1)/m` |
| Axis.FindValueXIncreasing | index.js:312-318 | later timestamps are drawn strictly further right once the axis spans more than one month |
| Axis.MonthTickXSpan | index.js:361-362 | month ticks run from 0 to 1000 at equal spacing |
| Axis.ProjectCxSpan | index.js:443-444 | the first project column is at 0, the last at 1000, strictly increasing |
| Axis.BarHeightProportion | index.js:473-476 | the height is the value's share of the range times `500·(n-1)/n`: 0 at the minimum, `500·(n-1)/n` at the maximum |
| Axis.BarHeightMonotone | index.js:473-476 | a larger value gets a bar at least as high |
| Axis.BarAlignedWithColumn | index.js:470-480 | after the chart's half turn, bar `i` stands on the baseline between the columns of projects `i` and `i+1` |
| Axis.FindMax | index.js:494-502 | the result is at least 0 and at least every `yValue`, and is 0 or one of them |
| LevelModel.Round | index.js:162 | `Math.round` on the values met here: the nearest integer, halves upwards (definition; used by `TotalXpForLevel` and `FindBatchSize`) |
| Records.SumXp | index.js:173-174 | the sum of the record amounts (definition; its order independence is `SumXpPermutation`) |
| Ordering.StrLess | index.js:184 | the lexicographic order of JS `>` on names (definition; transitivity and trichotomy are proved below) |
| Ordering.Greater | index.js:184 | the comparator's `a[key] > b[key]` for the name key and the timestamp key (definition) |
| Ordering.Swap | index.js:183-184 | the exchange of two array cells, the sort's only write: the new contents are the old ones with cells `p` and `q` exchanged |
| Series.ProjectSeries | index.js:211-215 | the `{yValue: xp, xValue: name}` map (definition; its properties are `ProjectSeriesInNameOrder`) |
| Series.RunningTotals | index.js:220-222 | the effect of the accumulation loop, as long as its input; its meaning is `RunningTotalsAt` |
| Series.TimeSeries | index.js:223 | the `{yValue: xp, xValue: createdAt}` map (definition; its properties are `TimeSeriesProperties`) |
| Series.PointsArray | index.js:223 | the fresh array returned by the `map`, holding exactly the given points |
| Series.LevelPoints | index.js:230-233 | each point's experience mapped to its level, timestamps kept, as long as its input; monotonicity is `LevelPointsMonotone` |
| Series.DiagramDataEnds | index.js:199-259 | for any amounts: one time point per project, the last at the profile's total; the level series starts at the level of the first record and ends at the profile's level |
| Axis.SegmentSize | index.js:321 | `(max - min) / len` (definition; its sign is `SegmentSizeSign`) |
| Axis.FindValueY | index.js:306-310 | the literal formula `500 - (500 / (maxY - minY + 1 - 1))·(value - minY)` (definition; its meaning is `FindValueYProportion`) |
| Axis.FindValueX | index.js:312-318 | the literal formula over the month starts and the month count (definition; its meaning is `FindValueXEnds` and `FindValueXIncreasing`) |
| Axis.MonthTickX | index.js:362 | `(1000 / segmentCount)·i` (definition; its span is `MonthTickXSpan`) |
| Axis.ProjectCx | index.js:444 | `(1000 / (n - 1))·i` (definition; its span is `ProjectCxSpan`) |
| Axis.BarHeight | index.js:473-476 | the literal bar-height formula (definition; its meaning is `BarHeightProportion` and `BarHeightMonotone`) |
| Axis.BarX | index.js:478 | `1000 - cx·(i + 1)` (definition; its placement is `BarAlignedWithColumn`) |
| Axis.Rotate180 | index.js:505 | the `translate(1000, 1000) rotate(180)` transform of the project chart (definition; used by `BarAlignedWithColumn`) |
| AttrNames.Kebab | index.js:288 | the rewritten name contains no capital letters |
| AttrNames.KebabLength | index.js:288 | each capital adds exactly one character |
| AttrNames.KebabNoUppers | index.js:288 | a name without capitals is left unchanged |
| AttrNames.KebabIdempotent | index.js:288 | rewriting twice is rewriting once |
| AttrNames.CamelKebab | index.js:288 | for names without hyphens the rewrite is lossless: reading it back gives the name |

## Left out

- Network and GraphQL: the query strings, `fetcher`, `checkRespone`, the `FETCHER` pagination loops and `fetchQueries` (index.js:1-137, 186-197). These are asynchronous I/O. The model takes the list of per-project transaction lists as its input.
- DOM and SVG side effects: node creation in `getNode`, the `append` calls, `drawChip`, `mouseOverChip`, `drawProfile`, `bindButtons`, `rmAllSvg`, `main`, `throttle`, `mouseMoveFunc`, and the `console.log(data)` inside `drawDataProjects` (index.js:471). These only draw or react to events. Only the attribute-name rewrite inside `getNode` is modelled.
- `getFirstDayOfMonth` and the `setMonth` stepping of `drawXaxis`. These depend on local-time calendar rules. `FindValueX` takes the two month starts as parameters instead.
- Label and path text: `toISOString().substr`, the tick labels, the label position `500 - cx`, and the `M`/`L` path string of `drawData`. These are string formatting of floating-point values.
- The glue of `byTimeDrawer`, `byProjectDrawer` and `drawData`, which only passes the modelled values to the drawing calls.
- Floating point: every value is an exact integer or real. IEEE-754 rounding, `NaN` and infinities are not modelled. So a zero `len` in `findBatchSize` is a precondition. In the source, `len == 0` with `max == min` makes the segment size `NaN` and no ticks are drawn; with `max > min` it is `Infinity`, the batch size is `Infinity`, and the tick loop at index.js:333 never ends.
- Trunc: only faithful to `parseInt(x, 10)` for moderate values. `parseInt` reads the decimal text of its argument, which for very large or very small numbers is in exponent notation.
- Ordering.StrLess: compares characters as Dafny `char`s. JS compares UTF-16 code units, and the two differ only outside the Basic Multilingual Plane.
- Ordering.SortNestedByKey: modelled as an insertion sort by swaps. The sort algorithm of the JS engine, and so the final order of equal keys, is not modelled. Only a sorted permutation is promised.
- Records.FindTotalXp and Records.MappedXpAndProject: require every project's transaction list to be non-empty. The source reads `el[0]` of each list and fails on an empty one.
- Series.SpliceRepeats: the splice loop runs on a sequence value rather than on the array. The array it splices is the fresh result of a `map`, so no other reference can observe the change.
- Series.GetDiagramData: the record array is built from the flattened records. `createdAt` is the timestamp in milliseconds rather than a `Date` object.
- Axis.DrawYTicks: requires `max <= min` or `2·(max - min) >= len`. Outside that range the source's batch size is 0 and the tick loop does not terminate. A zero `len` is excluded as well: it draws no ticks when `max == min` and loops forever on an infinite batch size when `max > min`.
- Axis.FindValueX: takes the already normalised month starts `fMin` and `fMax` as parameters. It requires them to differ and the month count to be non-zero, the cases where the source divides by zero.
- Axis.ProjectCxSpan and Axis.BarAlignedWithColumn: require at least two projects. With one project the column width divides by zero.
- Axis.BarHeightProportion: requires `max != min`. In the project chart `max` is `findMax`, so a chart whose amounts are all 0 divides by zero.
