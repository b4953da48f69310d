# Ichimoku Cloud indicator — a Dafny model

This project models `strategies/ichimoku.py`, which computes the Ichimoku Cloud
indicator of an OHLC price table and finds where its two cloud lines cross.
It covers the numeric pipeline and leaves out the chart:

- **Midpoint lines** (`make_lines`): for each keyword `name=W`, the column `name`
  becomes half the sum of the rolling maximum of `high` and the rolling minimum
  of `low` over the last `W` rows.
- **Spans** (`make_spans`): `chikou` is the close moved `D` rows earlier.
  `senkou_a` is the mean of `tenkan` and `kijun`. `senkou_b` is the midpoint
  line of the senkou B period. Both senkou columns are then moved `D` rows later.
- **Previous close**: `price` is the close moved one row later.
- **Date extension** (`extend_dates`): computes the `D` hourly dates after the
  last row. These dates never reach the caller's table.
- **Crossover detector** (`find_intersections`): compares `line1 > line2` row
  by row. It reports, for each pair of consecutive rows, whether the comparison
  changed.

The files are:

- `series.dfy` (module `Series`): cells, rolling windows, the half-sum, the
  midpoint line and the shift, all as pure functions.
- `crossover.dfy` (module `Crossover`): the crossover loop as a method, proved
  against the function `Flips`, plus lemmas about the number of crossings.
- `ichimoku.dfy` (module `Ichimoku`): the table as a class and the in-place steps
  as methods. Each method's new table is tied to a function of the old one, and
  lemmas state what each line holds.

A cell is `Option<real>`, and `None` stands for a missing value (NaN). The
table (`Ichimoku.Table`) has a date axis and a map from column name to column.
Every method keeps all columns as long as the axis (`Table.Valid`). Dates are
whole-hour stamps, so "one hour later" is `+ 1`.

The model follows the code where the usual description of the indicator
would read differently:

- A rolling window with any missing cell gives a missing result. This is the
  table library's default `min_periods` equal to the window. Missing cells are
  not skipped.
- A window longer than the series is not an error. It gives an all-missing column.
- The table is never extended by the displacement. `extend_dates` rebinds a
  local name (ichimoku.py:32), so the caller's table keeps its rows. Forward
  shifts of the senkou lines therefore drop their last `D` values.
- A comparison with a missing value is false, not undefined. So a row after a
  gap can report a crossing (`Crossover.GapThenAboveIsCrossing`).
- The code raises no error of its own. An empty table, missing columns and
  non-positive windows are caller obligations, stated as `requires`.

## Model

| member | source | states |
|---|---|---|
| `Series.MaxOver` | strategies/ichimoku.py:39 | the result is present iff every cell of the range is, and then it is a cell of the range and no cell exceeds it |
| `Series.MinOver` | strategies/ichimoku.py:40 | the result is present iff every cell of the range is, and then it is a cell of the range and no cell is below it |
| `Series.WindowMaxAt` | strategies/ichimoku.py:39 | one row of the rolling maximum: present iff the whole window of `w` rows ending there exists with no missing cell, and then it is the window's maximum |
| `Series.WindowMinAt` | strategies/ichimoku.py:40 | one row of the rolling minimum, with the same presence rule, holding the window's minimum |
| `Series.RollingMax` | strategies/ichimoku.py:39 | same length as the input; row `i` is present iff rows `i-w+1..i` all exist and are present, so the first `w-1` rows are missing; a present row is the maximum of its window |
| `Series.RollingMin` | strategies/ichimoku.py:40 | same length; same presence rule; a present row is the minimum of its window |
| `Series.HalfSum` | strategies/ichimoku.py:41 | same length; a row is present iff both operands are, and then it lies exactly halfway between them |
| `Series.MidLine` | strategies/ichimoku.py:39-41 | same length as the prices; row `i` is present iff both the high window and the low window ending at `i` are full |
| `Series.WindowMaxUnique` | strategies/ichimoku.py:39 | a window has only one maximum, so the rolling maximum is determined by its contract |
| `Series.WindowMinUnique` | strategies/ichimoku.py:40 | a window has only one minimum |
| `Series.MidLineValue` | strategies/ichimoku.py:39-41 | where the high window has maximum `hi` and the low window minimum `lo`, the midpoint line holds `(hi + lo) / 2` |
| `Series.MidLineWarmUp` | strategies/ichimoku.py:39-41 | the first `w-1` rows of a midpoint line are missing |
| `Series.MidLineExample` | strategies/ichimoku.py:39-41 | highs 10,12,11,14,13 and lows 8,9,9,10,11 with window 3 give missing, missing, 10, 11.5, 11.5 |
| `Series.Shift` | strategies/ichimoku.py:52 | a shift never changes the length of a column |
| `Series.ShiftForward` | strategies/ichimoku.py:52 | a forward shift by `d` leaves the first `d` rows missing and puts row `i-d` at row `i` |
| `Series.ShiftBackward` | strategies/ichimoku.py:48 | a backward shift by `d` puts row `i+d` at row `i` and leaves the last `d` rows missing |
| `Series.ShiftRoundTrip` | strategies/ichimoku.py:48-52 | shifting forward and back by `d` restores every row except the last `d`, which become missing |
| `Series.ShiftCompose` | strategies/ichimoku.py:48-52 | two shifts in the same direction equal one shift by their sum |
| `Crossover.Comparison` | strategies/ichimoku.py:59 | same length as the lines; entry `i` is `line1[i] > line2[i]` as decided by `Above`, which is false when the values are equal or either cell is missing |
| `Crossover.FindIntersections` | strategies/ichimoku.py:57-65 | for lines of length `N >= 1`, returns `N-1` entries; entry `i` is true iff `line1 > line2` differs between rows `i` and `i+1`, where equal values and missing cells compare as false |
| `Crossover.CrossingParity` | strategies/ichimoku.py:57-65 | the number of crossings is even iff the comparison is the same on the first and the last row |
| `Crossover.NoCrossingIffConstant` | strategies/ichimoku.py:57-65 | there is no crossing iff the comparison is the same on every row |
| `Crossover.CountTrueZero` | strategies/ichimoku.py:57-65 | a list of crossings counts zero iff no entry is true |
| `Crossover.EqualIsNotAbove` | strategies/ichimoku.py:59 | lines 5,6,7 against 6,6,6 compare as false, false, true, so the crossings are false, true |
| `Crossover.GapThenAboveIsCrossing` | strategies/ichimoku.py:59-62 | a missing cell followed by a row where line 1 is above reports a crossing |
| `Ichimoku.ExtensionDates` | strategies/ichimoku.py:31 | there are exactly `displacement` new dates, and after the last date they run on hour by hour (`[last] + dates` is hourly) |
| `Ichimoku.ExtensionContinuesHourly` | strategies/ichimoku.py:31 | appending the new dates to an hourly axis gives an hourly axis, so they are the last date plus 1, 2, … hours |
| `Ichimoku.HourlyDistance` | strategies/ichimoku.py:31 | on an hourly axis, the dates of rows `i <= j` differ by `j - i` hours, so the dates strictly increase |
| `Ichimoku.ExtendDates` | strategies/ichimoku.py:28-32 | for a non-empty table, computes the dates that follow its last date; the table itself is not changed |
| `Ichimoku.Names` | strategies/ichimoku.py:38 | the column names are exactly the keyword names |
| `Ichimoku.WithLines` | strategies/ichimoku.py:37-41 | the columns after `make_lines` are the old ones plus one per keyword name; `high` and `low` remain, and aligned columns stay aligned |
| `Ichimoku.WithLinesColumns` | strategies/ichimoku.py:37-41 | with distinct keyword names other than `high` and `low`, each keyword's column is the midpoint line of its window over the original prices, and every other column is unchanged |
| `Ichimoku.MakeLines` | strategies/ichimoku.py:37-41 | the loop over the keywords leaves the table's columns equal to `WithLines` of the old columns, keeps the dates and keeps all columns aligned |
| `Ichimoku.TwoLines` | strategies/ichimoku.py:20 | `make_lines` with the tenkan and kijun keywords writes exactly those two midpoint lines |
| `Ichimoku.MakeSpans` | strategies/ichimoku.py:47-52 | the new table is the old one with `chikou` = close moved `D` rows earlier, `senkou_a` = mean of tenkan and kijun moved `D` rows later, and `senkou_b` = the senkou B midpoint line moved `D` rows later; dates unchanged |
| `Ichimoku.IchimokuColumns` | strategies/ichimoku.py:15-24 | one run adds exactly the six indicator columns to the input's columns |
| `Ichimoku.PipelineColumns` | strategies/ichimoku.py:18-21 | the in-place steps of `ichimoku` compose to `IchimokuColumns` |
| `Ichimoku.Ichimoku` | strategies/ichimoku.py:15-24 | for a non-empty table with `high`, `low` and `close`, the columns become `IchimokuColumns` of the old columns, the dates and the row count are unchanged, and the result is the crossing list of `senkou_a` against `senkou_b` |
| `Ichimoku.IchimokuLines` | strategies/ichimoku.py:18-21 | the six indicator columns are: close moved one row later, the tenkan and kijun midpoint lines, close moved `D` rows earlier, and the senkou A and senkou B lines moved `D` rows later |
| `Ichimoku.IchimokuAligned` | strategies/ichimoku.py:15-24 | every indicator line has as many rows as the input |
| `Ichimoku.IchimokuKeepsOtherColumns` | strategies/ichimoku.py:15-24 | every column the indicator does not write, including the prices, is unchanged |
| `Ichimoku.PriceIsPreviousClose` | strategies/ichimoku.py:18 | `price` is missing on row 0 and is the previous row's close after that |
| `Ichimoku.ChikouIsFutureClose` | strategies/ichimoku.py:48 | `chikou[i]` is `close[i+D]` when that row exists, and missing on the last `D` rows |
| `Ichimoku.SenkouAColumn` | strategies/ichimoku.py:49-52 | `senkou_a` is the half-sum of the output `tenkan` and `kijun` moved `D` rows later |
| `Ichimoku.SenkouAIsShiftedMean` | strategies/ichimoku.py:49-52 | `senkou_a` is missing on the first `D` rows; after that it is the half-sum of `tenkan` and `kijun` `D` rows earlier, present iff both are (by `Series.HalfSum`) |
| `Ichimoku.SenkouBColumn` | strategies/ichimoku.py:51-52 | `senkou_b` is the senkou B midpoint line of the input prices moved `D` rows later, so (by `Series.ShiftForward`) it is missing on the first `D` rows and the line `D` rows earlier after that |
| `Ichimoku.SenkouBLeadingMissing` | strategies/ichimoku.py:51-52 | `senkou_b` is missing on every row before `D + senkouBPeriod - 1` |
| `Ichimoku.DefaultSenkouBWarmUp` | strategies/ichimoku.py:9-12 | with the module's default periods (20, 60, 120, displacement 30), `senkou_b` is missing on the first 149 rows |

## Left out

- `chart` (strategies/ichimoku.py:69-103) is plotting only: axes, colours and the cloud fill.
- Date parsing with `strptime` (strategies/ichimoku.py:29) is left out, because dates are modelled as whole-hour stamps. The in-place rewrite of the date column is therefore the identity here.
- The row-append of `DataFrame.append` (strategies/ichimoku.py:32) is left out. Its result is bound only to a local name and never reaches the caller. `Ichimoku.ExtendDates` returns the computed dates so their value can be stated, and `Ichimoku.Ichimoku` drops them.
- Floating-point rounding of `/ 2` is not modelled, because prices are exact reals.
- The module constants (strategies/ichimoku.py:9-12) are passed in as a `Config`. `Ichimoku.Default` holds their values.
- Label-based indexing and index alignment of the table library are not modelled. Columns are plain sequences indexed by row number.
- Failures the code does not handle are not modelled as errors. These are an empty table (the lookup of the last row and of the first comparison fail), a missing price column (a key error) and a non-positive window. They are preconditions.
- `Ichimoku.MakeLines` takes the keywords as a list of name and window pairs in call order. Its contract also covers repeated names and the names `high` and `low`, which Python keywords could not repeat. `Ichimoku.WithLinesColumns` states the per-column result only for distinct names other than `high` and `low`.
