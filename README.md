# data-stat: the distribution and binning core, in Dafny

This project models the statistics service's distribution engine and proves
properties of that model. The engine has three parts:

- **`SortedIntervals`**: a vector of labelled half-open ranges with a
  branchy insertion rule.
- **Bucket construction in the chart service**: fixed-width buckets or buckets
  cut at quantiles, over a range trimmed by a count-dependent quantile policy.
- **Bucket assignment**: every selected value is labelled with the first
  interval that holds it, the labelled values are grouped, and the records are
  reported back in interval order.

Four smaller rule sets are modelled beside it:

- the quantile specification generator;
- the chart colour palette;
- the aggregator names and the row filters built from a search payload;
- the price estimator's mileage and power bracket snapping.

Modules (one file each):

- `Common` (`common.dfy`): `Option`/`Result`, and Rust's numeric conversions:
  - `f64 as i32` truncates toward zero and saturates;
  - `u32 as i32` wraps;
  - signed `/` truncates toward zero.

  Also decimal rendering, the `str` helpers the services use (`to_lowercase`
  on ASCII letters, `trim`, `starts_with`, `ends_with`, `contains`, `replace`),
  and a stable insertion sort standing for `Vec::sort_by`.
- `Intervals` (`intervals.dfy`): `Interval`, `StatInterval`, and the class
  `SortedIntervals` whose `AddInterval` mutates the stored sequence.
  - The placement rule is a specification function `Place`, with `Apply` for its
    effect.
  - `From<Vec<_>>` is `FromVec`, with `AddAll` as its specification.
  - Lemmas prove what holds (insertion into a gap-free chain, the append-only
    path of `From`).
  - Scenario lemmas exhibit where the rule falls short: overlap accepted, a
    stale `index` misplacing an insertion, the clone of the lower neighbour,
    and the panics.
- `Quantiles` (`quantiles.dfy`): `generate_quantiles`, a loop then a stable
  sort, with exact rational fractions `bin/n` and the alias percentage rounded
  half-up.
- `Utils` (`utils.dfy`):
  - `generate_colors`, `get_aggregator` and `to_aggregator`.
  - `to_predicate` and `to_like_predicate`, modelled by meaning. `Pred` is the
    filter expression and `Holds(p, row)` says whether a row passes it.
    `Matches` is the independent reference for what a search payload asks of a
    row.
- `ChartServices` (`chart_services.dfy`): the trim tiers of `clean_data`,
  the bins of `data_to_bins` and the labelling, grouping and reordering of
  `calculate`. The dataset engine's work is an input:
  - the one-row aggregate, the statistics and the quantile values;
  - the per-group mean, median and spread;
  - the table the filter runs over.
- `PriceCalculator` (`price_calculator.dfy`): the `MILEAGE`/`POWER` tables and
  `getCount` as a method of the class `StatisticSearch`, whose fields it
  mutates. The row count is a function parameter. The loops over the two
  tables are one scan, `FindBracket`, over either table. The snapping
  methods then write the bracket it finds into the fields. The source writes
  those fields inside the loop, just before `break`; the fields end up the
  same.

Behaviour worth knowing, proved in the lemmas named in brackets:

- `add_interval` only checks the nearest neighbours. With [1,2), [3,6) and
  [8,9) stored, [2,7) is accepted [`StraddlingIntervalAccepted`].
- A front insertion leaves the other `index` fields stale
  [`FrontInsertLeavesStaleIndex`]. A later insertion between neighbours then
  lands at the wrong position [`StaleIndexMisplaces`].
- The `Err` on the last branch of `add_interval` can never be reached
  [`MidOverlapErrUnreachable`].
- `calculate` labels values outside every bin with the literal 10. With 11 or
  more fixed-width bins that is also bin 10's label. The range maximum is
  admitted by the closed range filter, lies in no half-open bin, and so is
  counted with bin 10 [`MaximumJoinsBinTen`].
- With no criteria `to_predicate` returns `make != "x"`. That filter drops the
  rows whose make is null or "x", although every row meets the request
  [`SentinelKeepsMakeNotX`].
- `to_like_predicate` puts the OR of the column clauses into a list that always
  has exactly one member. So `join_and` is never consulted, and an empty map
  panics on the `unwrap` [`Utils.ToLikePredicate`].

## Model

| member | source | states |
|---|---|---|
| Common.TruncToI32 | src/services/ChartServices.rs:307-308 | `f64 as i32`: within the `i32` range, less than 1 from the argument and rounded toward zero; below or above it, the nearest bound |
| Common.TruncToI32Monotone | src/services/ChartServices.rs:307-308 | the cast keeps order, so trimmed bounds keep the order of their quantiles |
| Common.WrapU32ToI32 | src/services/ChartServices.rs:306 | `u32 as i32`: congruent to the count modulo 2^32, the count itself up to `i32::MAX` |
| Common.RustDiv | src/services/ChartServices.rs:557 | signed `/` truncates toward zero: the quotient brackets the dividend from the side of zero |
| Common.NatToStringInjective | src/services/ChartServices.rs:562 | different numbers give different decimal labels |
| Common.DecimalLabelNormal | src/services/ChartServices.rs:484 | lower-casing and trimming leave a decimal label unchanged |
| Common.SortBySorted | src/model/Intervals.rs:111-119 | the stable sort's result is sorted by a total-preorder comparator |
| Common.SortByIdentity | src/model/Quantiles.rs:41-45 | an already sorted list comes back from the stable sort unchanged |
| Intervals.MinStartIndex | src/model/Intervals.rs:44-50 | `min_by` on start: the first element with the smallest start |
| Intervals.MaxEndIndex | src/model/Intervals.rs:51-57 | `max_by` on end: the last element with the largest end |
| Intervals.LowerNeighbour | src/model/Intervals.rs:67-71 | among elements ending at or before the new start, the last with the largest end; None iff there is none |
| Intervals.UpperNeighbour | src/model/Intervals.rs:73-77 | among elements starting at or after the new end, the first with the smallest start; None iff there is none |
| Intervals.Bumped | src/model/Intervals.rs:99-101 | the `index` of every element after the insertion position goes up by one, the rest are untouched |
| Intervals.Place | src/model/Intervals.rs:34-107 | the branch the insertion takes: seed iff the set is empty, an invalid-interval error iff the interval is reversed, front only before every start, back only after every end, neighbour indices in range |
| Intervals.Apply | src/model/Intervals.rs:34-106 | an `Err` or a panic leaves the set unchanged; every successful branch stores exactly one more interval |
| Intervals.SortedIntervals.constructor | src/model/Intervals.rs:165-168 | a new set has the given column and no intervals |
| Intervals.SortedIntervals.AddInterval | src/model/Intervals.rs:34-109 | the outcome and new contents are those of the branch the placement rule picks (seed, reject, front, back, clone of the lower neighbour, insert and renumber, panic) |
| Intervals.SortedIntervals.RenumberAfter | src/model/Intervals.rs:99-101 | the loop raises the `index` of every element after the insertion position, and only those (`Bumped`) |
| Intervals.SortedIntervals.SortIntervals | src/model/Intervals.rs:111-119 | the stable sort by the comparator, or by start when none is given: a permutation, sorted when the comparator is a total preorder |
| Intervals.SortedIntervals.IsEmpty | src/model/Intervals.rs:121-123 | true iff no interval is stored |
| Intervals.SortedIntervals.Len | src/model/Intervals.rs:125-127 | zero iff the set is empty |
| Intervals.SortedIntervals.Min | src/model/Intervals.rs:133-135 | None iff the set is empty, otherwise the first stored interval with the smallest start (`min_by` keeps the first of equals) |
| Intervals.SortedIntervals.Max | src/model/Intervals.rs:137-139 | None iff the set is empty, otherwise the last stored interval with the largest end (`max_by` keeps the last of equals) |
| Intervals.SortedIntervals.GetInterval | src/model/Intervals.rs:141-147 | None iff the index is at least the length, otherwise the stored element |
| Intervals.SortedIntervals.Values | src/model/Intervals.rs:149-159 | strictly ascending, and exactly the starts and ends of the stored intervals |
| Intervals.StrictlyIncreasingUnique | src/model/Intervals.rs:149-159 | a strictly ascending list is determined by its elements, so `values()` is unique |
| Intervals.FromVec | src/model/Intervals.rs:162-173 | `None` (a panic) for an empty vector or when some add fails, otherwise the set built by adding every element in turn |
| Intervals.AddAllLength | src/model/Intervals.rs:162-173 | a successful `From` stores one interval per input |
| Intervals.ChainedSortedDisjoint | src/model/Intervals.rs:58-104 | a gap-free chain of non-empty intervals is sorted and pairwise disjoint |
| Intervals.FitBetweenNeighbours | src/model/Intervals.rs:67-98 | in a chain numbered by position, an interval that fits the gap before element p is placed at p via its neighbours |
| Intervals.FittingInsertKeepsChain | src/model/Intervals.rs:58-101 | inserting an interval that fits a chain takes the front, back or between branch and keeps the chain, its prefix and the numbering after the front |
| Intervals.FrontInsertLeavesStaleIndex | src/model/Intervals.rs:58-61 | after a front insertion two elements carry index 0, so the numbering is no longer by position |
| Intervals.MidOverlapErrUnreachable | src/model/Intervals.rs:86-104 | with both neighbours present the fit test always passes, so that `Err` is never returned |
| Intervals.FromChainedAppends | src/model/Intervals.rs:162-173 | `From` over a gap-free chain only appends: input order kept, each element after the first numbered by position |
| Intervals.StraddlingIntervalAccepted | src/model/Intervals.rs:67-101 | with [1,2),[3,6),[8,9) stored, [2,7) is inserted and the set is no longer disjoint |
| Intervals.StaleIndexMisplaces | src/model/Intervals.rs:58-98 | adding [5,6), [1,2), [3,4) in turn stores [3,4) first, out of order |
| Intervals.MissingUpperClonesLower | src/model/Intervals.rs:79-84 | without an upper neighbour a copy of the lower neighbour is appended instead of the new interval |
| Intervals.NoNeighbourPanics | src/model/Intervals.rs:79-80 | with neither neighbour the call panics, including re-adding the only element of a one-element set |
| Intervals.StaleSeedIndexPanics | src/model/Intervals.rs:96-98 | a seed stored with a large `index` later makes `Vec::insert` panic |
| Intervals.InsertionScenario | tests/interval_test.rs:24-86 | the test's six calls: every one succeeds except the repeat, leaving five intervals numbered by position with start <= end |
| Intervals.ScenarioSecond | tests/interval_test.rs:24-86 | the second call of the test appends at the back |
| Intervals.ScenarioThird | tests/interval_test.rs:24-86 | the third call of the test inserts between neighbours and renumbers |
| Intervals.ScenarioRepeat | tests/interval_test.rs:47-55 | re-adding [1,2) is rejected as an overlap |
| Intervals.ScenarioFifth | tests/interval_test.rs:24-86 | the fifth call of the test appends at the back |
| Intervals.ScenarioSixth | tests/interval_test.rs:24-86 | the sixth call of the test fills the gap before the last interval |
| Quantiles.Percent | src/model/Quantiles.rs:28 | the whole percentage nearest to 100·bin/n, halves rounded up |
| Quantiles.GenerateQuantiles | src/model/Quantiles.rs:18-48 | empty for n < 1; otherwise n records, record k for bin k+1 with fraction (k+1)/n and its alias |
| Quantiles.FractionsIncrease | src/model/Quantiles.rs:26-45 | the loop yields strictly increasing fractions, so the final sort changes nothing |
| Quantiles.QuantileShape | src/model/Quantiles.rs:27-37 | bin k+1, fraction in (0,1], last fraction exactly 1 with alias q100, value 0.0, column copied |
| Quantiles.AliasInjective | src/model/Quantiles.rs:28 | equal aliases mean equal percentages |
| Quantiles.TestAliases | tests/Quntiles_test.rs:9-31 | five bins give q20 … q100; seven give q14, q29, q43 … q100 |
| Utils.GenerateColors | src/services/Utils.rs:19-32 | one colour per requested index |
| Utils.ColorsCycle | src/services/Utils.rs:19-32 | colour i is palette entry i mod 6; period 6; shorter lists are prefixes; six consecutive colours differ |
| Utils.PaletteDistinct | src/services/Utils.rs:20-27 | the six palette entries are different |
| Utils.GetAggregator | src/services/Utils.rs:34-77 | Some exactly for the 15 names of the match, and the statistic found is the one the name denotes |
| Utils.AggregateRoundTrip | src/services/Utils.rs:34-77 | every statistic is found again under its own name |
| Utils.ToAggregator | src/services/Utils.rs:9-18 | the loop's result is the aggregations of the recognised names, in order |
| Utils.RecognisedAliases | src/services/Utils.rs:9-18 | the aliases are the recognised names in input order; each aggregation reads the column and computes what its alias names |
| Utils.AllRecognisedKept | src/services/Utils.rs:9-18 | with only known names there is one aggregation per name, in order |
| Utils.UnknownNameDropped | src/services/Utils.rs:75 | an unknown name adds nothing |
| Utils.ConjHolds | src/services/Utils.rs:203-206 | the AND-reduction holds iff every clause holds |
| Utils.DisjHolds | src/services/Utils.rs:230-234 | the OR-reduction holds iff some clause holds |
| Utils.LikeClauseMeaning | src/services/Utils.rs:217-226 | leading `*`: suffix, trailing `*`: prefix (both with every `*` removed), otherwise substring, on a non-null column |
| Utils.ToLikePredicate | src/services/Utils.rs:211-253 | None (the panic) iff the map is empty; otherwise the OR of the column clauses, which holds iff some column matches its pattern, whatever the map's order |
| Utils.ToPredicate | src/services/Utils.rs:79-209 | the sentinel when no criterion is present; otherwise the AND of the present clauses, which holds on a row iff the row meets the request |
| Utils.ClausesMeaning | src/services/Utils.rs:82-199 | all clauses hold iff the row meets every present criterion |
| Utils.ClausesPresent | src/services/Utils.rs:200-202 | there are no clauses iff no criterion is present |
| Utils.PushEngines | src/services/Utils.rs:107-121 | the loop pushes the engine disjunction, or nothing for an absent or empty list; `EngineMeaning` gives its meaning |
| Utils.PushExactOrRange | src/services/Utils.rs:135-189 | pushes the exact equality, or otherwise the present `>=`/`<=` bounds; `RangeClauseMeaning` gives its meaning |
| Utils.EngineMeaning | src/services/Utils.rs:107-121 | the engine disjunction holds iff the row's engine is one of the listed ones |
| Utils.RangeClauseMeaning | src/services/Utils.rs:135-144 | an exact value gives an equality, otherwise each present bound gives `>=`/`<=` |
| Utils.ExactOverridesRange | src/services/Utils.rs:159-189 | with an exact year, power, mileage or engine size the corresponding From/To values do not change the filter |
| Utils.PriceRangeIgnored | src/services/Utils.rs:127-133 | the price From/To values are never read |
| Utils.EmptyEngineListIgnored | src/services/Utils.rs:107-121 | an empty engine list filters like no list at all |
| Utils.SentinelKeepsMakeNotX | src/services/Utils.rs:200-202 | with no criteria every row meets the request, but the sentinel keeps only rows whose make is present and not "x" |
| ChartServices.TrimLevels | src/services/ChartServices.rs:300-340 | a trim exactly above 50 rows, with levels strictly inside (0,1) |
| ChartServices.TrimThresholds | src/services/ChartServices.rs:300-340 | the tiers switch strictly above 1000, 500 and 50 rows |
| ChartServices.TrimNarrowsWithSize | src/services/ChartServices.rs:300-340 | above 50 rows a larger sample is never trimmed more |
| ChartServices.CleanData | src/services/ChartServices.rs:300-340 | original bounds, count (wrapped) and rsd copied; the trimmed bounds are the tier's quantiles cast to `i32`, or min/max; with ordered quantiles min <= start <= end <= max |
| ChartServices.BinRange | src/services/ChartServices.rs:534-544 | `all` selects the trimmed bounds, otherwise the original ones |
| ChartServices.FixedBins | src/services/ChartServices.rs:556-567 | n bins, bin i = [start+i·step, start+(i+1)·step) labelled i, step the truncated quotient |
| ChartServices.FixedBinsAccepted | src/services/ChartServices.rs:556-567 | with a positive step the bins form a chain and `From` keeps all of them in order |
| ChartServices.FixedBinsCategories | tests/ChartService_test.rs:323-339 | the fixed-width bins are labelled "0" to "n-1", all different |
| ChartServices.FixedBinOf | src/services/ChartServices.rs:556-567 | a value in the covered range lies in exactly one bin, number (v-start)/step |
| ChartServices.FixedBinsShortfall | src/services/ChartServices.rs:557 | the truncated step leaves fewer than n values at the top of the range outside every bin |
| ChartServices.QuantileBins | src/services/ChartServices.rs:569-589 | None (the panic on `quantiles[0]`) iff there are no quantiles; otherwise [min, q0) labelled "1", then [q(i-1), q(i)) labelled i+1 |
| ChartServices.QuantileBinsShape | tests/ChartService_test.rs:361-377 | quantile bins are labelled "1" to "n", all different, each starting where the previous one ends |
| ChartServices.QuantileBinsAccepted | src/services/ChartServices.rs:569-589 | with strictly rising bounds `From` keeps every quantile bin in order |
| ChartServices.CaseChain | src/services/ChartServices.rs:359-397 | one arm per stored interval in stored order; the fallback is 1 for one interval and 10 for several |
| ChartServices.EvaluateFirstMatch | src/services/ChartServices.rs:359-397 | the when/then chain answers with the first arm whose range holds the value |
| ChartServices.EvaluateNoMatch | src/services/ChartServices.rs:359-397 | the chain answers with the fallback when no arm holds the value |
| ChartServices.LabelFirstMatch | src/services/ChartServices.rs:359-397 | a value gets the category of the first stored interval with start <= v < end |
| ChartServices.LabelNoMatch | src/services/ChartServices.rs:359-397 | a value in no interval gets the literal fallback |
| ChartServices.MaximumJoinsBinTen | src/services/ChartServices.rs:396 | with 11 or more fixed-width bins the range maximum is labelled "10", the label of bin 10 |
| ChartServices.Selected | src/services/ChartServices.rs:355-358 | the kept values all lie in the closed range [min start, max end], at most one per row |
| ChartServices.SelectedMembers | src/services/ChartServices.rs:355-358 | the filter is complete and sound: every row that meets the search and lies in the range contributes its value, and every kept value comes from such a row |
| ChartServices.SelectedAppend | src/services/ChartServices.rs:355-358 | the filter keeps table order: selecting from a concatenation is the concatenation of the selections |
| ChartServices.SelectedSnoc | src/services/ChartServices.rs:355-358 | one more row at the end adds its value at the end exactly when it passes |
| ChartServices.DistinctLabels | src/services/ChartServices.rs:398-415 | each label once, exactly the labels that occur |
| ChartServices.Grouped | src/services/ChartServices.rs:398-415 | one grouped row per distinct label, with that label's values aggregated |
| ChartServices.ToRecords | src/services/ChartServices.rs:466-494 | the loop builds one record per grouped row, in the order of the rows |
| ChartServices.RecordsAt | src/services/ChartServices.rs:466-494 | record k is row k converted: label lower-cased and trimmed, median cast to `i32` |
| ChartServices.RecordFor | src/services/ChartServices.rs:466-494 | a category has a record iff some selected value's label normalises to it, so empty bins have none |
| ChartServices.FirstWithCategory | src/services/ChartServices.rs:497-505 | the first record with the category, None iff there is none |
| ChartServices.InIntervalOrder | src/services/ChartServices.rs:497-505 | at most one record per interval, each a record whose category belongs to a stored interval |
| ChartServices.Reorder | src/services/ChartServices.rs:497-505 | the nested loops with `break` compute the interval-ordered selection: for each stored interval in turn, the first record with its category, if any |
| ChartServices.ReorderIgnoresGroupOrder | src/services/ChartServices.rs:398-505 | with distinct categories, any order of the grouped rows gives the same chart records |
| ChartServices.EveryBinReported | src/services/ChartServices.rs:497-505 | when every interval has a record, the chart has one per interval, in interval order |
| ChartServices.Calculate | src/services/ChartServices.rs:343-519 | `Err` iff the set is empty; otherwise the chart of the rows the search selects (every row when no criterion is present), range-restricted, labelled and grouped, axis values `values()`, count the number of groups |
| ChartServices.BuildBins | src/services/ChartServices.rs:555-589 | the bins built are exactly the described ones: `n` fixed-width bins, or one per quantile, and none (a panic at `quantiles[0]`) for an empty quantile list |
| ChartServices.WithOverall | src/services/ChartServices.rs:592-599 | the chart is kept and the overall statistics written over it: count wrapped to `i32`, median cast to `i32`, mean, rsd, min and max copied |
| ChartServices.BinsForShape | src/services/ChartServices.rs:555-589 | with one quantile per requested bin (the statistics are read from `generate_quantiles(column, bins)`) there are always `n` bins, fixed ones labelled "0".."n-1", quantile ones "1".."n" |
| ChartServices.ChartOfBins | src/services/ChartServices.rs:591-602 | a panic iff `From` rejects a bin; otherwise the chart over `From`'s set of the rows the search selects, with the overall statistics written over it; the `Err` arm is never taken |
| ChartServices.DataToBins | src/services/ChartServices.rs:521-603 | an error below two bins; otherwise exactly `n` bins labelled "0".."n-1" (by interval) or "1".."n" (by quantile), a panic iff `From` rejects one, and else the chart over `From`'s set of the rows the search selects with the overall statistics written over it |
| PriceCalculator.TablesContiguous | src/services/PriceCalculator.rs:14-36 | both tables ascend from 0, every bracket starting one past the previous end |
| PriceCalculator.ContiguousAscending | src/services/PriceCalculator.rs:14-36 | brackets of a contiguous table ascend and do not overlap |
| PriceCalculator.Enclosing | src/services/PriceCalculator.rs:152-160 | the first bracket holding the value, None iff none does |
| PriceCalculator.EnclosingUnique | src/services/PriceCalculator.rs:152-170 | in these tables the bracket holding a value is the only one |
| PriceCalculator.EnclosingCovers | src/services/PriceCalculator.rs:14-36 | a contiguous table holds exactly the values from its first start to its last end |
| PriceCalculator.MileageSnapsToBracket | src/services/PriceCalculator.rs:152-160 | an exact mileage inside a bracket sets mileageFrom/To to that bracket |
| PriceCalculator.MileageOutsideKept | src/services/PriceCalculator.rs:152-160 | no exact mileage, or one outside 0..999999, leaves mileageFrom/To as they were |
| PriceCalculator.PowerSnapsToBracket | src/services/PriceCalculator.rs:162-170 | an exact power inside a bracket sets powerFrom/To to that bracket |
| PriceCalculator.PowerOutsideKept | src/services/PriceCalculator.rs:162-170 | no exact power, or one outside 0..9999, leaves powerFrom/To as they were |
| PriceCalculator.SnappedShape | src/services/PriceCalculator.rs:152-171 | after snapping mileage and power are None, no other field changed, and snapping again changes nothing |
| PriceCalculator.RelaxedShape | src/services/PriceCalculator.rs:173-185 | search and cc are cleared only when the count is 0, and nothing else changes |
| PriceCalculator.StatisticSearch.constructor | src/services/Statistic.rs:24-56 | the request holds the given payload |
| PriceCalculator.Widened | src/services/PriceCalculator.rs:152-170 | no exact value or no enclosing bracket keeps the given range; otherwise the range is a table bracket holding the exact value |
| PriceCalculator.Snapped | src/services/PriceCalculator.rs:152-171 | both exact values cleared, both ranges widened, nothing else changed |
| PriceCalculator.Relaxed | src/services/PriceCalculator.rs:181-185 | with a zero count search and cc cleared, otherwise the request unchanged; no other field changes |
| PriceCalculator.StatisticSearch.Payload | src/services/PriceCalculator.rs:173 | `clone()`: the request's fields as a value; the constructor's `Payload() == p` is its inverse (the clone at line 187 is the same) |
| PriceCalculator.FindBracket | src/services/PriceCalculator.rs:152-160 | the scan with `break` finds nothing iff there is no exact value or no bracket holds it, and otherwise the first bracket holding it |
| PriceCalculator.StatisticSearch.SnapMileage | src/services/PriceCalculator.rs:152-161 | the scan over `MILEAGE` sets the range to the first enclosing bracket, if any, then clears `mileage`; no other field changes |
| PriceCalculator.StatisticSearch.SnapPower | src/services/PriceCalculator.rs:162-171 | the scan over `POWER` sets the range to the first enclosing bracket, if any, then clears `power`; no other field changes |
| PriceCalculator.StatisticSearch.GetCount | src/services/PriceCalculator.rs:148-195 | the request ends up snapped then relaxed, and the count returned is that of the final request |

## Left out

- Dataset engine calls are inputs or specification functions. These are the
  one-row aggregate of `clean_data`, `get_statistic_data`, the table filter,
  `group_by`/`agg` and `collect`. When the engine sorts the grouped rows by
  `search.order`, that order is not modelled; `ReorderIgnoresGroupOrder` shows
  that it does not matter when categories are distinct.
- Floating point: mean, median and relative spread are supplied per group
  (`Moments`). Quantile fractions and the alias percentage are exact
  rationals, so an `f64` rounding that lands an alias on the other side of a
  half is not modelled.
- Common.TruncToI32: `real` has no NaN and no infinities, so the `f64 as i32` cases NaN to 0 and ±∞ to the `i32` bounds are not modelled; finite values saturate as in Rust.
- ChartServices.Calculate: the sentinels `lit(1)`/`lit(10)` are integer
  literals among string labels. They are modelled as the strings "1" and "10"
  that the engine's type coercion produces.
- ChartServices.RecordOf: the per-group `u32` count is kept as a natural
  number, without the `as i32` wrap; the group cannot exceed the table's row
  count.
- ChartServices.FixedBins: the bin bounds `start + i*step` are unbounded
  integers; `i32` overflow in that arithmetic is not modelled.
- The unreachable `else` of the single-interval branch in `calculate`
  (`get_interval(0)` on a one-element set) is not modelled.
- `str::contains` is a regular-expression match in the engine. It is modelled
  as a literal substring match.
- Lower-casing is modelled on ASCII letters only; Unicode case mapping is not
  modelled.
- `HashMap` iteration order is a parameter (`keys` of `ToLikePredicate`).
  `ToLikePredicate` is proved for every order.
- The clock: `convert_days_to_date` uses the current date. That date is the
  parameter `today` (a day number); the panic of `checked_sub_signed` out of
  the date range is not modelled.
- `get_aggregator` builds engine expressions. They are modelled as tags
  (`Aggregate`) naming the statistic; what the engine computes for them is
  not modelled.
- `get_intervals` (a clone of the vector) is not modelled; `intervals` is a
  public field of the class.
- In `getCount` the filter expression built by the older `to_predicate` of
  `src/services/Statistic.rs` is represented by the request it is built from;
  that `to_predicate` is not part of this model.
- The rest of the price estimator (`calculate`, `calculate_estimated_value`,
  the JSON shaping) is floating-point and engine work and is not modelled.
- `chartData`, `to_static_response`, the HTTP binaries, CSV loading, the pivot,
  analysis, vehicle and enum services, the older statistics modules (except
  the request type `getCount` mutates) and all logging are not part of this
  model.
