# fintracker core, modelled in Dafny

fintracker is a trading assistant. It fetches hourly candles for a list of
tickers from Twelve Data and derives 1h, 4h and 1d series from them. It
finds support and resistance zones, rates each timeframe's signals and
merges them into one combined rating. It nets the user's trades into open
positions, can replay a fetched history as if live, and draws charts in
the browser. This project models the deterministic, sequential parts of
that system and proves what they promise:

- **Market time** (`Times`, src/core/times.cpp): aligning a time to the NYSE
  hourly slots 09:30 to 15:30, the market status with the minutes to the
  next update, and the start of a 15-minute-aligned interval.
- **Candles** (`Candles`, `Metrics`, src/ind/metrics.cpp): combining a run of
  candles, downsampling into intraday buckets, the latest partial candle,
  and the `Metrics` object that keeps the base series, the derived 1h/4h/1d
  series and the open position.
- **Support and resistance** (`Intervals`, `Sorting`, `SupportResistance`,
  src/ind/support_resistance.cpp): zone distance, swings, merging index
  intervals and zones, the width cap, filtering, ranking and normalising,
  and the nearest-zone lookup.
- **Signals** (`Signals`, include/sig/signals.h, src/sig/signal_memory.cpp):
  the bounded signal memory per timeframe, its decayed mean score and its
  rating tally.
- **Combined signal** (`CombinedSignals`, src/sig/combined_signals.cpp): the
  disqualification rule, the filter bias, the contextual rating state
  machine, the combined forecast, stop-hit overrides and the earnings
  downgrade.
- **Positions** (`Positions`, src/core/positions.cpp): the difference of two
  positions, netting a trade list, parsing a "remark,rating" line, and the
  open-position book.
- **API keys** (`TdApi`, src/core/td_api.cpp): the refresh interval chosen
  from the ticker and key counts, and the round-robin key choice under 800
  calls a day and 8 calls a minute per key.
- **Replay** (`Replay`, src/core/replay.cpp): the per-symbol cursor, the
  hourly tick clock, and the series served in place of live data.
- **Strings** (`Format`, include/util/format.h): `join`, `apply_tag`,
  `tagged` and `colored`.
- **Charts** (`Plot`, page/js/plot.js): MACD crossover markers, y-axis
  padding, the stacked four-panel layout, clasping trade times to chart
  buckets, and the MACD histogram colours.

Conventions:
- A C++ `LocalTimePoint` is an integer count of seconds since 1970-01-01
  00:00 New York local time.
- C++ durations used as intervals are integer minutes. include/util/times.h
  has a trading day `D_1` of 390 minutes; include/times.h, which the
  Twelve Data client includes, has 480.
- A `steady_clock` reading is an integer count of nanoseconds.
- Chart times in plot.js are wall-clock minutes.
- Doubles and JavaScript numbers are `real`. C++ `int` parsing (`stoi`)
  keeps the 32-bit range check.
- Clock reads, file contents and fetched candles are parameters.
- The score decay λ (`score_memory_lambda`, 0.5) and the strength threshold
  (`mem_strength_threshold`, 0.75) are parameters where the source reads
  them from configuration.
- Stateful objects (`Metrics`, `SignalMemory`, `OpenPositions`,
  `CombinedSignal`, `TD`, `Replay`) are classes. Their methods are proved
  against functions that define their results, and the lemmas beside those functions
  carry the properties.
- `Signals.HasRating`, `HasReasons` and `HasHints` are the one-line
  predicates `has_rating`, `has_reasons` and `has_hints` of
  include/sig/signals.h:30-32. They are used as definitions.

Notes on the source, where its headers and its definitions differ (the
model follows the definitions):
- include/ind/support_resistance.h declares `nearest(price)`, while the
  .cpp defines `nearest(price, below)`. The model has the `below`
  parameter.
- The decay λ is defined in include/config.h:134, not in include/util/config.h.
- The Twelve Data client's day interval is 480 minutes (include/times.h),
  not the 390 of include/util/times.h that the metrics code uses.

## Model

| member | source | states |
|---|---|---|
| Times.ClosestNyseAlignedTime | src/core/times.cpp:46-73 | an unparsable input or a Saturday/Sunday yields the 1999-01-01 00:00:00 sentinel |
| Times.ClosestIsNearestSlot | src/core/times.cpp:57-72 | on a weekday the answer is one of the seven hourly slots 09:30 … 15:30 of that day and no slot is nearer to the input; inside the session a time exactly halfway between two slots goes to the later slot |
| Times.InSessionWithinHalfHour | src/core/times.cpp:65-72 | between 09:30 and 16:00 the aligned time is at most 30 minutes from the input, so the clamp to 15:30 never moves it further |
| Times.MarketStatus | src/core/times.cpp:75-104 | closed (false, -1) on a weekend or from 16:00; before 09:30 open with the whole minutes until 09:30; in session open with 0 ≤ m < interval minutes that land on a multiple of the interval counted from midnight |
| Times.NextBlockBounds | src/core/times.cpp:94-98 | rounding the minute of the day up to a multiple of the interval adds less than one interval |
| Times.CppRem | src/core/times.cpp:109 | C++ `%` on durations: equal to the Euclidean remainder for a non-negative operand, in (-b, 0] with the sign of the operand otherwise, zero exactly when the operand is a multiple |
| Times.FirstCandleInInterval | src/core/times.cpp:112-116 | true exactly when the whole minutes since 09:30 are a multiple of the interval |
| Times.LastCandleInInterval | src/core/times.cpp:106-110 | from 09:30 on, true exactly when the minutes since 09:30 leave the remainder interval − 15; never true before the open for an interval above 15 minutes |
| Times.FloorToMultiple | src/core/times.cpp:121 | rounding a non-negative minute count down to a multiple of the interval loses less than one interval and stays a multiple in seconds |
| Times.StartOfIntervalBounds | src/core/times.cpp:118-123 | from 09:30 on, the interval start is not after the input, less than one interval before it and a whole number of intervals after the open; before the open it lies between the input's minute and 09:30 |
| Format.Colored | include/util/format.h:48-52 | the argument sits unchanged inside a span whose style names the CSS variable `--color-<color>`; the result is exactly 43 characters longer than colour and argument together |
| Format.ApplyTag | include/util/format.h:66-84 | a colour or one of the four HTML tags wraps the string in its opening and closing text; any other code leaves the string unchanged (and only then) |
| Format.StripApplyTag | include/util/format.h:66-84 | a tag applied by `apply_tag` can be removed again: stripping it gives back the original string |
| Format.TaggedLastOutermost | include/util/format.h:86-92 | the fold applies the tags left to right, so the last tag ends up outermost |
| Format.TaggedRoundTrip | include/util/format.h:86-99 | stripping the tags outermost first recovers the untagged string |
| Format.Join | include/util/format.h:30-46 | the loop yields the items with one separator between neighbours and none after the last; an empty range gives "" |
| Format.JoinLength | include/util/format.h:30-46 | n items give exactly n − 1 separators: the length is the items' total plus (n − 1) separator lengths |
| Format.JoinAppend | include/util/format.h:30-46 | joining a concatenation of two non-empty lists puts exactly one separator at the seam |
| Sorting.InsertBy | src/ind/support_resistance.cpp:152-153 | inserting one zone adds exactly that element (same multiset plus one, length plus one) |
| Sorting.InsertSorted | src/ind/support_resistance.cpp:152-153 | inserting into a sequence sorted by the key keeps it sorted |
| Sorting.SortBy | src/ind/support_resistance.cpp:152-153 | `std::sort` by one key (here by `lo`, and at lines 282-283 by descending confidence): the result is sorted by that key and is a permutation of the input |
| Sorting.SortBySameElements | src/ind/support_resistance.cpp:152-153 | sorting neither loses nor invents a zone |
| Intervals.Insert | src/ind/support_resistance.cpp:129-131 | inserting one interval adds exactly that element |
| Intervals.InsertSorted | src/ind/support_resistance.cpp:129-131 | insertion keeps the (l, then r) order of the comparator |
| Intervals.Sort | src/ind/support_resistance.cpp:129-131 | the sort yields a permutation ordered by l, then r |
| Intervals.Step | src/ind/support_resistance.cpp:137-142 | one turn of the loop either extends the last range or appends one: the output grows by at most one |
| Intervals.MergeRun | src/ind/support_resistance.cpp:133-143 | after reading n intervals the output holds between 1 and n ranges |
| Intervals.Merged | src/ind/support_resistance.cpp:125-146 | the merged output is never longer than the input |
| Intervals.CoveredAppend | src/ind/support_resistance.cpp:142 | appending a range adds exactly the points it covers |
| Intervals.StepSeparated | src/ind/support_resistance.cpp:137-142 | on sorted input a turn keeps the output ranges pairwise disjoint and ordered |
| Intervals.StepCovers | src/ind/support_resistance.cpp:137-142 | a turn covers exactly the earlier ranges' points plus the new interval's |
| Intervals.MergeRunSeparated | src/ind/support_resistance.cpp:133-143 | on sorted input the ranges produced so far are separated, the last starting no later than the last interval read |
| Intervals.CoveredByStep | src/ind/support_resistance.cpp:136 | reading one more interval adds exactly its points to those covered by the prefix |
| Intervals.MergeRunCovers | src/ind/support_resistance.cpp:133-143 | on sorted input the output so far covers exactly the points of the intervals read so far |
| Intervals.MergeIntervals | src/ind/support_resistance.cpp:125-146 | the loop computes the merge of the sorted input: at most as many ranges, pairwise disjoint and ordered, covering exactly the input's points (an empty input comes back empty) |
| Intervals.MergeSorted | src/ind/support_resistance.cpp:133-143 | the merge loop over sorted ranges computes exactly the specified merge: a range starting at or before the current end extends it, any other starts a new one |
| Intervals.PermutationCovers | src/ind/support_resistance.cpp:129-131 | reordering intervals does not change the points they cover |
| Intervals.CoveredByAll | src/ind/support_resistance.cpp:125-146 | membership-based and index-based coverage agree |
| Intervals.MergedProperties | src/ind/support_resistance.cpp:125-146 | `merge_intervals` returns no more ranges than given, sorted and pairwise disjoint, covering exactly the points the input covered |
| SupportResistance.Distance | src/ind/support_resistance.cpp:12-15 | the distance is never negative and is 0 for a price inside the zone |
| SupportResistance.DistanceToZone | src/ind/support_resistance.cpp:12-15 | for lo ≤ hi the distance is 0 exactly inside the zone, is at most the gap to any point of [lo, hi] and equals the gap to one of them |
| SupportResistance.WindowSumSlice | src/ind/support_resistance.cpp:41-50 | the ATR sum built outwards from candle i equals the sum of the 2w + 1 ATR values from i − w to i + w |
| SupportResistance.ToSwing | src/ind/support_resistance.cpp:32-55 | the swing keeps the candle's index and low/high; its window is the largest w such that every distance 1 … w has both neighbours inside the series and not undercutting (support) or exceeding (resistance) the value; its width is the mean ATR over the 2w + 1 candles |
| SupportResistance.MaxHi | src/ind/support_resistance.cpp:166 | the merged `hi` is at least every `hi` of the zones merged into it |
| SupportResistance.Groups | src/ind/support_resistance.cpp:155-177 | the merge loop forms between 1 and n non-empty runs of zones from n zones |
| SupportResistance.FoldAll | src/ind/support_resistance.cpp:155-177 | one merged zone per run |
| SupportResistance.RunningMean | src/ind/support_resistance.cpp:170-172 | the weights n/(n+1) and 1 − n/(n+1) turn the mean of n confidences into the mean of n + 1 |
| SupportResistance.FoldAppend | src/ind/support_resistance.cpp:163-172 | merging one more crossing zone into a run is what the loop body does: highest `hi`, hits and swing points appended, confidence the running mean |
| SupportResistance.FoldSingle | src/ind/support_resistance.cpp:156-174 | a run of one zone is that zone unchanged |
| SupportResistance.FoldAllStep | src/ind/support_resistance.cpp:159-177 | one turn of the loop on the merged zones: a crossing zone merges into the last one, any other is appended |
| SupportResistance.MergedZones | src/ind/support_resistance.cpp:148-177 | merging never produces more zones than it was given |
| SupportResistance.InsertUnique | src/ind/support_resistance.cpp:190-194 | inserting a swing point into the set adds exactly that point |
| SupportResistance.InsertUniqueSorted | src/ind/support_resistance.cpp:190-194 | insertion keeps the swing points strictly ordered by time, then price |
| SupportResistance.SortedUnique | src/ind/support_resistance.cpp:190-194 | sorting and copying through `std::set` leaves each swing point once, strictly ordered, and no other |
| SupportResistance.FinishAll | src/ind/support_resistance.cpp:179-195 | the second loop yields one finished zone per merged zone |
| SupportResistance.FoldCrossing | src/ind/support_resistance.cpp:155-177 | the first loop (with its `n_merged` counter) yields exactly the folds of the runs of crossing zones |
| SupportResistance.FoldNext | src/ind/support_resistance.cpp:158-177 | one turn of the merge loop is one grouping step: a zone starting within 0.2% of the current high joins its group, any other opens a new group, and the counter is that group's size |
| SupportResistance.FinishZones | src/ind/support_resistance.cpp:179-195 | the second loop caps each zone, fuses its hits and dedupes its swing points, zone by zone |
| SupportResistance.FinishOne | src/ind/support_resistance.cpp:180-194 | one zone of the loop: wider than the maximum it is recentred to the maximum width, its hits are fused into disjoint sorted intervals and its swing points sorted without duplicates |
| SupportResistance.MergeZones | src/ind/support_resistance.cpp:148-198 | `merge_zones` is sort by `lo`, fold crossing runs, then finish each zone; an empty input comes back as it is |
| SupportResistance.GroupStepOrdered | src/ind/support_resistance.cpp:159-177 | on input sorted by `lo` a turn keeps run heads ordered and no run reaching within 0.2% of a later head |
| SupportResistance.GroupStepHeads | src/ind/support_resistance.cpp:173-175 | a turn heads a run only with the zone read or with an old head |
| SupportResistance.GroupStepFlatten | src/ind/support_resistance.cpp:159-177 | a turn puts the zone read at the end of the runs |
| SupportResistance.GroupsOrderedByLo | src/ind/support_resistance.cpp:152-177 | the runs formed from zones sorted by `lo` are ordered and separated by more than 0.2% |
| SupportResistance.GroupsPartition | src/ind/support_resistance.cpp:159-177 | every zone read goes into exactly one run, in order |
| SupportResistance.GroupHeadsPriced | src/ind/support_resistance.cpp:173-175 | every run is headed by a zone between positive prices when all inputs are |
| SupportResistance.MergedZonesOrdered | src/ind/support_resistance.cpp:148-177 | before the cap the merged zones are sorted by `lo`, none starts within 0.2% of an earlier one's `hi`, each is between positive prices, and the runs partition the sorted input |
| SupportResistance.SortedInput | src/ind/support_resistance.cpp:152-153 | the sorted zones are ordered by `lo` and keep the inputs' positive prices |
| SupportResistance.FoldAllOrdered | src/ind/support_resistance.cpp:163-177 | ordered runs with priced heads fold into ordered, priced zones |
| SupportResistance.CapBounds | src/ind/support_resistance.cpp:179-187 | the width cap keeps the center, leaves no zone too wide, leaves a narrow zone alone and, for positive prices, only shrinks a zone |
| SupportResistance.CapKeepsOrder | src/ind/support_resistance.cpp:179-187 | with a cap of at least 0.4% (the narrowest configured width) capping keeps two non-crossing zones in `lo` order (also include/util/config.h:105-107) |
| SupportResistance.FinishedZone | src/ind/support_resistance.cpp:179-195 | a finished zone keeps its center and confidence, is not too wide, has disjoint hits covering the same candles and each swing point once in order |
| SupportResistance.MergeZonesSorted | src/ind/support_resistance.cpp:148-198 | for zones between positive prices and a configured cap the result of `merge_zones` is sorted by `lo` and no zone is wider than the cap |
| SupportResistance.Filtered | src/ind/support_resistance.cpp:236-247 | filtering never adds zones |
| SupportResistance.FilteredMember | src/ind/support_resistance.cpp:236-247 | a zone survives exactly when it was there, its confidence is at least 0.5 and it has hits (also include/util/config.h:94) |
| SupportResistance.FilterZones | src/ind/support_resistance.cpp:236-247 | the loop keeps exactly the kept zones, in order |
| SupportResistance.Normalized | src/ind/support_resistance.cpp:249-253 | normalising keeps the number of zones |
| SupportResistance.NormalizeZones | src/ind/support_resistance.cpp:249-253 | in place, every confidence is divided by the first zone's confidence read before the loop |
| SupportResistance.TopZones | src/ind/support_resistance.cpp:280-286 | exactly min(6, number of kept zones) zones, drawn from the kept zones (a sub-multiset of them), in descending confidence, and no kept zone left out is more confident than one taken (also include/util/config.h:93) |
| SupportResistance.TopKept | src/ind/support_resistance.cpp:282-286 | the first n zones of the confidence sort are kept input zones in descending order, a sub-multiset of the kept zones, and no zone after them is more confident than one of them |
| SupportResistance.RankAsWritten | src/ind/support_resistance.cpp:278-289 | as written: undefined (`front()` of an empty vector) or the normalised top zones |
| SupportResistance.RankAsWrittenUndefined | src/ind/support_resistance.cpp:249-253 | as called from `find_zones` (lines 280-288), the undefined case is reached exactly when no zone survives the filter |
| SupportResistance.RankAsWrittenEmptyFront | src/ind/support_resistance.cpp:250 | one zone of confidence 0.4, which `find_zones` (line 288) passes on empty, already reaches it |
| SupportResistance.Ranked | src/ind/support_resistance.cpp:278-289 | the corrected end of `find_zones` agrees with the code wherever that is defined and is empty otherwise |
| SupportResistance.NormalizedProperties | src/ind/support_resistance.cpp:249-253 | dividing positive descending confidences by the first keeps the order, puts the first at 1 and all in (0, 1], and changes nothing else |
| SupportResistance.RankedProperties | src/ind/support_resistance.cpp:278-289 | exactly min(6, number of kept zones) zones, drawn from the kept zones with none left out more confident than one taken, descending, the first at exactly 1, every confidence in (0, 1], each zone otherwise unchanged |
| SupportResistance.RankZones | src/ind/support_resistance.cpp:278-289 | the method computes the corrected ranking, normalising an array in place |
| SupportResistance.Nearest | src/ind/support_resistance.cpp:296-319 | the first zone containing the price wins; otherwise the zone on the asked side at the least distance, the earliest among equals; nothing exactly when no zone is on that side |
| Metrics.MaxHigh | src/ind/metrics.cpp:16-20 | the combined high is at least every candle's high |
| Metrics.MinLow | src/ind/metrics.cpp:17-21 | the combined low is at most every candle's low |
| Metrics.ExtremesAttained | src/ind/metrics.cpp:16-21 | the combined high and low are the high and low of some candle of the group |
| Metrics.SumVolumeAppend | src/ind/metrics.cpp:22 | volume adds up over concatenated groups |
| Metrics.Combine | src/ind/metrics.cpp:8-25 | over a non-empty range: time and open of the first candle, close of the last, the highest high, the lowest low and the total volume |
| Metrics.CombineAll | src/ind/metrics.cpp:46-66 | one combined candle per closed bucket |
| Metrics.FlushKeeps | src/ind/metrics.cpp:45-58 | closing a bucket keeps every candle, in order, and each closed bucket non-empty and within one day |
| Metrics.CloseKeeps | src/ind/metrics.cpp:44-60 | closing the bucket keeps the loop invariant whatever day and bucket time follow |
| Metrics.AppendKeeps | src/ind/metrics.cpp:62 | a candle of the current day joins the bucket without breaking the invariant |
| Metrics.StepKeeps | src/ind/metrics.cpp:40-63 | one iteration keeps the invariant: every candle seen is in a closed bucket or the open one, in order, no bucket spans two days |
| Metrics.RunInvariant | src/ind/metrics.cpp:36-63 | the invariant holds after any number of iterations |
| Metrics.CombineAllFlush | src/ind/metrics.cpp:46-66 | closing a bucket appends its combination to the output |
| Metrics.BucketsWellFormed | src/ind/metrics.cpp:36-67 | the buckets partition the input in order and none mixes two calendar days |
| Metrics.CombineAllVolume | src/ind/metrics.cpp:22-46 | combining buckets keeps the total volume |
| Metrics.DownsamplePartitions | src/ind/metrics.cpp:27-69 | whatever the first bucket time, the output combines consecutive buckets that partition the input in order, within one day each, and keeps the total volume |
| Metrics.CorrectedFirstBucket | src/ind/metrics.cpp:37-54 | with the first bucket starting at the first candle, the first day's candles within one target span form a single bucket |
| Metrics.FirstDayNotDownsampled | src/ind/metrics.cpp:38-60 | as written, two 15-minute candles of one morning come out as two hourly candles; with the corrected start they merge into one |
| Metrics.Downsample | src/ind/metrics.cpp:27-69 | empty input gives empty output, source == target returns the input, otherwise the loop computes the corrected bucketing |
| Metrics.FlushBucket | src/ind/metrics.cpp:45-66 | the repeated flush appends the combined bucket (if any) and empties it |
| Metrics.LatestStart | src/ind/metrics.cpp:109-112 | the scan stops at the first index of the longest trailing run of candles not before the interval start |
| Metrics.LatestStartAsWritten | src/ind/metrics.cpp:109-112 | as written the scan has no lower bound: it is undefined exactly when every candle lies in the interval, and agrees with the guarded scan otherwise |
| Metrics.LatestStartRunsOffFront | src/ind/metrics.cpp:111-112 | a single candle at 09:30 already makes the unguarded scan read before the first candle |
| Metrics.LatestCandle | src/ind/metrics.cpp:99-115 | an empty input gives the empty candle, source == target the last candle, otherwise the combination of the trailing candles from the start of the last candle's interval; `None` exactly where `combine` would get an empty range |
| Metrics.LatestCandleOf | src/ind/metrics.cpp:99-115 | `None` exactly when there are candles, source and target differ and the last candle lies before the start of its own interval, the case the assertion of `combine` rejects |
| Metrics.LatestCandleInSession | src/ind/metrics.cpp:106-114 | from 09:30 on the last candle lies in its own interval, so a latest candle always exists |
| Metrics.LatestCandlePreOpen | src/ind/metrics.cpp:106-114 | a single 15-minute candle at 09:00 already leaves `combine` an empty range for the hourly series: the truncating remainder puts the interval start after the candle |
| Metrics.MaxSeen | src/ind/metrics.cpp:92-96 | the backward scan never lowers the highest price seen |
| Metrics.MaxSeenAttained | src/ind/metrics.cpp:92-96 | the highest price seen is the old one or the close of a candle from the position's time on |
| Metrics.MaxSeenCovers | src/ind/metrics.cpp:92-96 | on chronological candles it is at least every close from the position's time on |
| Metrics.Replaced | src/ind/metrics.cpp:118-120 | the new candle ends the series; it replaces the last candle when the times match and is appended otherwise |
| Metrics.Metrics.constructor | src/ind/metrics.cpp:71-81 | the candles and interval are stored, the 1h/4h/1d series are downsampled from them with the first bucket starting at the first candle (`DownsampleCorrected`, see Findings), and the position is updated |
| Metrics.Metrics.UpdatePosition | src/ind/metrics.cpp:83-97 | the position is stored with its highest price raised over the closes since it was opened, never lowered; `has_position` then holds iff a position with non-zero quantity was given; nothing else changes |
| Metrics.Metrics.PushBack | src/ind/metrics.cpp:117-142 | the candle replaces or extends the base candles; each series drops its last candle unless a new interval starts, then takes the latest combined candle; the result says whether the 1h series started a new candle; it is `None`, with series and position unchanged, exactly when there are no base candles (the undefined `back()`) or a latest candle does not exist, which never happens for a candle from 09:30 on |
| Metrics.Metrics.AdvanceAll | src/ind/metrics.cpp:136-138 | the three series are advanced in turn and stay non-empty; `None` exactly when the latest candle of one of them does not exist, at the first such series |
| Metrics.Metrics.AddToInd | src/ind/metrics.cpp:122-134 | a new interval starts iff the series' last time differs from the interval start of the new candle; the series then ends with the latest combined candle; `None` exactly when that latest candle does not exist |
| Metrics.DownsampleNonEmpty | src/ind/metrics.cpp:27-69 | downsampling a non-empty series gives a non-empty one |
| Plot.CrossIndices | page/js/plot.js:109-122 | every reported index lies between 1 and the number of pairs scanned |
| Plot.MarkersAt | page/js/plot.js:113-121 | the x and y lists of a marker set always have equal length, one entry per reported index |
| Plot.FindCrossPoints | page/js/plot.js:99-128 | the loop reports, in index order, x[i+1] and the midpoint (fast[i+1] + slow[i+1]) / 2 for exactly the bullish (resp. bearish) crossings |
| Plot.MarkersAppend | page/js/plot.js:113-120 | one more index appends its label and midpoint at the end |
| Plot.CrossStep | page/js/plot.js:109-122 | scanning one more pair adds a marker exactly when that pair crosses in that direction |
| Plot.CrossIndicesExact | page/js/plot.js:109-122 | index j is reported bullish iff diff[j-1] < 0 < diff[j], bearish iff diff[j-1] > 0 > diff[j] |
| Plot.CrossIndicesIncreasing | page/js/plot.js:109-127 | reported indices are strictly increasing, so there are at most len − 1 of them |
| Plot.CrossKindsDisjoint | page/js/plot.js:112-122 | no index is both a bullish and a bearish cross |
| Plot.NoSignChangeNoCross | page/js/plot.js:109-124 | if the diff never goes strictly negative (or never strictly positive) both lists are empty |
| Plot.TieSuppressesCross | page/js/plot.js:112-118 | a crossing through an exact zero diff is not reported in either direction |
| Plot.Present | page/js/plot.js:139 | the kept values are exactly the numeric entries of the data |
| Plot.MinOf | page/js/plot.js:142 | the minimum is a value of the list and at most every value |
| Plot.MaxOf | page/js/plot.js:143 | the maximum is a value of the list and at least every value |
| Plot.SetYAxisRange | page/js/plot.js:138-151 | no range exactly when every value is null or NaN; otherwise min and max padded by pad times the larger magnitude |
| Plot.YAxisRangeEncloses | page/js/plot.js:138-151 | with pad ≥ 0 the range exists and encloses every numeric value |
| Plot.PaddedEncloses | page/js/plot.js:145-150 | padding by a non-negative amount keeps the values inside the range |
| Plot.Sum4 | page/js/plot.js:192 | the reduce over four heights is their sum |
| Plot.ScaledSum | page/js/plot.js:192-196 | the scaled heights fill exactly the room left after the three gaps |
| Plot.StackDomains | page/js/plot.js:198-206 | stacked from 0 upward and reversed: the last subplot starts at 0, each domain has its scaled height, neighbouring domains are exactly 0.075 apart, the first sits on top |
| Plot.SubplotDomains | page/js/plot.js:185-206 | for four positive heights the domains tile [0, 1] from the top down, 0.075 apart, each with its scaled share |
| Plot.StackTop | page/js/plot.js:198-206 | the top of the stack is the heights plus three gaps |
| Plot.ScaledPositive | page/js/plot.js:192-196 | positive heights give positive scaled heights |
| Plot.Column | page/js/plot.js:165-181 | the column read from `data.slice(start)` has one entry per remaining row |
| Plot.Domains | page/js/plot.js:208-225 | the axis domains, top to bottom |
| Plot.CreatePlotlyLayout | page/js/plot.js:153-325 | throws unless exactly four heights are given; otherwise axes yaxis … yaxis4 with stacked domains of their scaled shares, ranges from the rows from `start` on, RSI fixed at [21, 79], nticks 3 on volume only, one divider in each gap and RSI lines at 70, 50, 30 |
| Plot.ClaspToTimeframe | page/js/plot.js:328-363 | '1h' keeps the label; before 09:30 the day's open as an ISO string; '4h' the start of its 240-minute bucket from the open (not after the time, less than 240 minutes before); '1d' the open; any other timeframe throws |
| Plot.ClaspToTimeframeFixed | page/js/plot.js:328-363 | on 4h/1d always a display label not before the open, agreeing with the source from 09:30 on; '1h' unchanged; any other timeframe an error |
| Plot.PreMarketClaspIsIso | page/js/plot.js:343-345 | an 08:00 trade on the 4h chart comes back as an ISO string as written, as the 09:30 display label when corrected |
| Plot.MacdHistogram | page/js/plot.js:521 | each bar is the MACD minus the signal |
| Plot.HistogramColors | page/js/plot.js:530-542 | green exactly for non-negative bars; the first bar at opacity 0.8, later bars 0.5 when strengthening and 0.25 otherwise |
| Plot.StrongBarIffAwayFromZero | page/js/plot.js:530-542 | a later bar is strong exactly when the histogram changed side of zero or grew in magnitude |
| Positions.Round | src/core/positions.cpp:11 | `std::round` lands within one half of its argument, halves going away from zero |
| Positions.Difference | src/core/positions.cpp:8-13 | quantities and totals subtract; the price is the rounded average of the difference, or 0 when the quantities are equal; no highest price and the epoch as time |
| Positions.DifferenceIdentities | src/core/positions.cpp:8-13 | a position minus itself is the empty position; minus the empty position it keeps quantity and total |
| Positions.Pnl | src/core/positions.cpp:15-17 | a flat position, or a price equal to the average price, gains nothing |
| Positions.PnlSign | src/core/positions.cpp:15-17 | a long position gains exactly when the price is above its average price and loses exactly when it is below |
| Positions.Pct | src/core/positions.cpp:19-22 | 0 when the cost is 0; otherwise it has the sign of the profit |
| Positions.NetOf | src/core/positions.cpp:24-53 | the net position is empty or has quantity at least 8 machine epsilons; the realised profit is the running profit after all trades |
| Positions.NetPosition | src/core/positions.cpp:24-53 | the loop computes the net position and realised profit: buys add, sells subtract, a quantity below the threshold moves the total into the profit and restarts the sums, the price is cost / quantity |
| Positions.NetTimeIsLatest | src/core/positions.cpp:31-33 | the position time is the latest trade time (the epoch when every trade is earlier) |
| Positions.RoundTripClosesPosition | src/core/positions.cpp:32-49 | buying a quantity and selling all of it leaves no position and realises the sell total minus the buy total |
| Positions.BuysAccumulate | src/core/positions.cpp:32-46 | buys alone never close the position: quantity and total are plain sums and nothing is realised |
| Positions.Find | src/core/positions.cpp:61-80 | `find` returns the first index from the start position holding the character, or none when there is none |
| Positions.ClosingQuote | src/core/positions.cpp:61-64 | the closing quote is the first quote not preceded by a backslash; every earlier quote is escaped |
| Positions.SkipSpaces | src/core/positions.cpp:73-85 | `stoi` skips leading white space up to the first other character |
| Positions.DigitEnd | src/core/positions.cpp:73-85 | the digits read end at the first non-digit |
| Positions.Stoi | src/core/positions.cpp:72-88 | a parsed rating is always within `int`; otherwise `stoi` throws |
| Positions.ParseRemarkRating | src/core/positions.cpp:55-93 | the method computes the remark and rating of both branches, with 0 for a missing or non-numeric rating |
| Positions.FindClosingQuote | src/core/positions.cpp:61-64 | the loop finds the first unescaped closing quote, or none |
| Positions.ClosingQuoteAtFind | src/core/positions.cpp:62-63 | the search for the closing quote may resume at the next quote |
| Positions.QuotedRemark | src/core/positions.cpp:60-78 | a quoted remark runs from the opening quote to the first unescaped quote, both included, and is empty exactly when there is no closing quote |
| Positions.UnquotedRemark | src/core/positions.cpp:79-90 | an unquoted line splits at its first comma with the rating read after it; without a comma remark and rating are empty and 0 |
| Positions.Decimal | src/core/positions.cpp:73-85 | the decimal writing of a number is non-empty and all digits |
| Positions.DigitsValueAt | src/core/positions.cpp:73-85 | the value of digits depends only on those digits |
| Positions.DecimalValue | src/core/positions.cpp:73-85 | reading back the decimal writing of n gives n |
| Positions.DigitEndFrom | src/core/positions.cpp:73-85 | the digit run ends at the first non-digit |
| Positions.StoiDigits | src/core/positions.cpp:73-85 | `stoi` on a run of digits that fits in `int` returns their value |
| Positions.StoiDecimal | src/core/positions.cpp:72-88 | `stoi` reads back a non-negative `int` written in decimal, followed by any non-digit |
| Positions.FindAt | src/core/positions.cpp:80 | the first comma is found where it is |
| Positions.RemarkRatingRoundTrip | src/core/positions.cpp:79-90 | writing an unquoted comma-free remark and a rating as `remark,rating` and parsing the line gives both back |
| Positions.UnquotedSplit | src/core/positions.cpp:80-89 | an unquoted line splits at its first comma |
| Positions.OpenPositions.constructor | src/core/positions.cpp:134-154 | with no trades read, nothing is traded or open and no profit is recorded |
| Positions.OpenPositions.AddTrade | src/core/positions.cpp:156-171 | the trade is appended to its ticker's list; a flat net position erases the ticker's position and returns the trade total minus the old position's total (the netted profit when there was none); otherwise the position becomes the net one and the netted profit is returned; every recorded position stays the net of its trades |
| Positions.OpenPositions.GetPosition | src/core/positions.cpp:173-176 | nothing exactly when the symbol has no open position; otherwise that position |
| Signals.Pushed | include/sig/signals.h:43-47 | a push never takes the memory past its length and always ends with the new signal |
| Signals.Popped | include/sig/signals.h:49-52 | popping an empty memory leaves it empty; otherwise it removes exactly the newest signal |
| Signals.PushedDropsOldest | include/sig/signals.h:43-47 | below the bound a push appends; at the bound it also drops the oldest signal |
| Signals.PushPopRestores | include/sig/signals.h:43-52 | below the bound a push followed by a pop restores the memory |
| Signals.PushPopAtBound | include/sig/signals.h:43-52 | at the bound a push followed by a pop loses the oldest signal |
| Signals.WeightAsWrittenScaled | src/sig/signal_memory.cpp:22-25 | the weight as written (`weight * λ + λ`) is the decay λ times the weight that matches the running score |
| Signals.WeightAtLeastOne | src/sig/signal_memory.cpp:22-25 | with a non-negative decay the matching weight of a non-empty memory is at least 1 |
| Signals.ScoreAsWrittenScaled | src/sig/signal_memory.cpp:17-28 | as written `score` is the decayed mean divided by the decay λ |
| Signals.ScoreAsWrittenOutOfRange | src/sig/signal_memory.cpp:24-27 | with the decay λ 0.5 one remembered score of 0.6 gives 1.2 as written and 0.6 as the decayed mean (also include/config.h:134) |
| Signals.StepBetween | src/sig/signal_memory.cpp:23-24 | one step of the running score keeps it between the least and greatest score times the weight |
| Signals.SumBetween | src/sig/signal_memory.cpp:22-25 | the running score lies between the least and greatest score times the weight |
| Signals.ScoreMeanBetween | src/sig/signal_memory.cpp:17-28 | the decayed mean of a non-empty memory lies between its least and greatest score |
| Signals.TallyOf | src/sig/signal_memory.cpp:37-55 | the strong Watchlist and strong Caution counters are never negative |
| Signals.RatingScoreEmpty | src/sig/signal_memory.cpp:30-61 | an empty memory has rating score 0 |
| Signals.RatingScoreEntryExit | src/sig/signal_memory.cpp:39-47 | appending an Entry raises the rating score by 2 when strong and 1 otherwise; an Exit lowers it likewise |
| Signals.RatingScoreIgnores | src/sig/signal_memory.cpp:52-53 | Mixed, None, OldWatchlist and Skip signals leave the rating score unchanged |
| Signals.RatingScoreHalves | src/sig/signal_memory.cpp:42-60 | for Watchlist and Caution signals only, the rating score is the rounded-up half of the strong Watchlist count minus that of the strong Caution count |
| Signals.TallyHalves | src/sig/signal_memory.cpp:42-51 | on Watchlist and Caution signals the counters are the strong counts |
| Signals.StrongCount | src/sig/signal_memory.cpp:43-50 | the number of strong signals of a rating is at most the memory size |
| Signals.SignalMemory.constructor | src/sig/signal_memory.cpp:8-15 | an empty memory of length 16 for 1h, 10 for 4h and 6 for any other interval |
| Signals.SignalMemory.PushBack | include/sig/signals.h:43-47 | the memory becomes the push of the signal and stays within its length |
| Signals.SignalMemory.PopBack | include/sig/signals.h:49-52 | the memory loses its newest signal, if any, and stays within its length |
| Signals.SignalMemory.Score | src/sig/signal_memory.cpp:17-28 | the loop computes the decayed mean of the remembered scores (corrected weight), 0 for an empty memory |
| Signals.SignalMemory.RatingScore | src/sig/signal_memory.cpp:30-61 | the loop computes entries minus exits, each counting 2 when strong, plus the rounded-up halves of strong Watchlist minus strong Caution (HoldCautiously counts as Caution) |
| CombinedSignals.Entries | src/sig/combined_signals.cpp:52 | the filter map is walked in ascending key order: alignment, 1h, 4h, 1d |
| CombinedSignals.CountStrongBearish | src/sig/combined_signals.cpp:17-29 | the count of high-confidence bearish filters is at most the list length and 0 exactly when there is none |
| CombinedSignals.CountStrongBearishAppend | src/sig/combined_signals.cpp:17-29 | the count adds up over concatenated lists |
| CombinedSignals.DisqualifiedMonotone | src/sig/combined_signals.cpp:31-37 | more 1d or 4h filters never lift a disqualification |
| CombinedSignals.Disqualify | src/sig/combined_signals.cpp:12-40 | true exactly when there are at least two strong bearish 1d filters, or one together with at least two strong bearish 4h filters |
| CombinedSignals.Weight | src/sig/combined_signals.cpp:59-61 | the weight lies in [0.3, 1.0] and is 1.0 exactly for high confidence |
| CombinedSignals.Label | src/sig/combined_signals.cpp:53-56 | "1h", "4h", "1d" for their keys and "align" for any other key |
| CombinedSignals.Tag | src/sig/combined_signals.cpp:58 | one labelled item per filter |
| CombinedSignals.Noted | src/sig/combined_signals.cpp:66-76 | a filter contributes a key item (at most one) exactly when it is high-confidence and has a label |
| CombinedSignals.CountTrend | src/sig/combined_signals.cpp:63-78 | the number of bullish (bearish) filters is at most the number of filters |
| CombinedSignals.BiasBounds | src/sig/combined_signals.cpp:58-79 | each net bias lies between its strong count and the number of filters on that side; key items come only from strong filters |
| CombinedSignals.BiasStrongBearishAppend | src/sig/combined_signals.cpp:52-80 | the strong bearish count adds up over concatenated filter lists |
| CombinedSignals.BiasStrongBearishTag | src/sig/combined_signals.cpp:71-74 | for one timeframe the bias counts exactly the high-confidence bearish filters |
| CombinedSignals.Top3 | src/sig/combined_signals.cpp:82-84 | at most three items, the first ones, unchanged when there are three or fewer |
| CombinedSignals.JoinLength | src/sig/combined_signals.cpp:86-91 | the key items are joined with exactly one space between neighbours; no items give "" |
| CombinedSignals.FilterBiasStrongBearish | src/sig/combined_signals.cpp:49-80 | the strong bearish count of the bias is the sum of the four timeframes' counts |
| CombinedSignals.DisqualifiedIsBearish | src/sig/combined_signals.cpp:12-80 | a disqualified filter set shows at least two strong bearish filters in its bias |
| CombinedSignals.FilterBiasProperties | src/sig/combined_signals.cpp:42-93 | net biases lie between strong counts and side counts, and the key signals are the join of at most the first three key items |
| CombinedSignals.ReadFilter | src/sig/combined_signals.cpp:58-79 | the body of the inner loop reads one filter into the running totals |
| CombinedSignals.ReadFilters | src/sig/combined_signals.cpp:58-79 | the inner loop over one timeframe's filters extends the running bias by exactly those filters, labelled with the timeframe |
| CombinedSignals.JoinItems | src/sig/combined_signals.cpp:86-91 | the join loop yields the items with one space between neighbours |
| CombinedSignals.NewFilterBias | src/sig/combined_signals.cpp:42-93 | the constructor's loops compute the bias of the filters in key order and join the first three key items |
| CombinedSignals.ContextualRating | src/sig/combined_signals.cpp:101-248 | the rating returned is `ContextualRatingOf` of the same inputs and the score modifier lies in [-0.09, 0.105] |
| CombinedSignals.ContextualRatingOf | src/sig/combined_signals.cpp:101-248 | Skip exactly when disqualified (unless the 1h rating was Skip); Exit only from a 1h Exit with a position, and a 1h Exit without one gives Caution; never Caution with a position; Entry only from a 1h Entry or Watchlist; a 1h Entry stays Entry iff the 1d signal is neither Exit nor Caution, the 4h one is not Exit and there are three strong bullish or fewer than two strong bearish filters, else becomes Watchlist or Mixed; a 1h Watchlist becomes Entry iff the 4h/1d/filter confirmation holds, else Caution (HoldCautiously with a position) on a 1d Exit or two strong bearish filters; None and Mixed follow the same rules |
| CombinedSignals.AdjustRating | src/sig/combined_signals.cpp:101-222 | the branch chain yields the adjusted rating before disqualification and the position fit, with a score modifier in [-0.09, 0.105] |
| CombinedSignals.CombinedForecast | src/sig/combined_signals.cpp:278-280 | the first non-empty forecast in the order 1h, 4h, 1d; empty exactly when all three are |
| CombinedSignals.AfterStopHit | src/sig/combined_signals.cpp:282-302 | a stop-loss hit or time exit forces Exit; stop proximity turns Entry into Mixed; anything else leaves the rating |
| CombinedSignals.AfterStopHitIdempotent | src/sig/combined_signals.cpp:282-302 | applying the same stop hit twice changes nothing more |
| CombinedSignals.EarningsGate | src/sig/combined_signals.cpp:322-329 | an Entry becomes Watchlist exactly when earnings are due in [0, buffer) days; other ratings pass (also include/util/config.h:77) |
| CombinedSignals.CombinedSignal.constructor | src/sig/combined_signals.cpp:304-330 | the forecast is the combined one; the rating is the contextual rating passed through the earnings gate, so Skip whenever disqualified, never an Entry near earnings, Exit only with a position, never Caution with one; no stop hit yet |
| CombinedSignals.CombinedSignal.ApplyStopHit | src/sig/combined_signals.cpp:282-302 | the hit is recorded and the rating overridden by it; filters and forecast stay |
| TdApi.MinutesAsWrittenUndefined | src/core/td_api.cpp:19-20 | the refresh formula as written divides by zero exactly when there are no tickers or fewer than one call per ticker (more than 100 tickers per key) |
| TdApi.MinutesAsWrittenDividesByZero | src/core/td_api.cpp:20 | 101 tickers on one key, and no tickers on three keys, reach the division by zero |
| TdApi.MinutesAgree | src/core/td_api.cpp:20 | the corrected minutes agree with the formula as written wherever it is defined; no tickers give 0 |
| TdApi.MinutesOverBudget | src/core/td_api.cpp:20-26 | fewer than one call per ticker makes the corrected minutes D_1, and so the chosen interval D_1 |
| TdApi.FirstAtLeast | src/core/td_api.cpp:22-26 | the result is a candidate interval, at least the minutes unless it is D_1, and every finer candidate is below the minutes |
| TdApi.GetInterval | src/core/td_api.cpp:19-27 | the selection loop returns the first candidate interval (15m, 30m, 1h, 2h, 4h, 1d) that is at least the minutes, D_1 when none is (also include/times.h:22-23) |
| TdApi.IntervalAtMostHour | src/core/td_api.cpp:19-27 | with at least one call per ticker the chosen interval is 15m, 30m or 1h |
| TdApi.Stale | src/core/td_api.cpp:47-53 | the number of timestamps popped: all of them at least a minute old, and the first one left younger than a minute |
| TdApi.EvictFresh | src/core/td_api.cpp:46-53 | on an ascending clock the timestamps left are ascending and all less than a minute old |
| TdApi.SuccMod | src/core/td_api.cpp:40 | the cursor step is `(idx + 1) % keys.size()` |
| TdApi.NextIndex | src/core/td_api.cpp:38-40 | each iteration moves the cursor one place along the rotation, back to where it started after a full turn |
| TdApi.FirstAvailable | src/core/td_api.cpp:38-57 | the first place from the cursor whose key is available (under quota and fewer than 8 calls in the last minute), with no available key before it |
| TdApi.SweptKeyValid | src/core/td_api.cpp:43-53 | visiting a key (skipping it at quota, evicting otherwise) keeps it within quota, at most 8 calls, ascending, none in the future |
| TdApi.SweepStep | src/core/td_api.cpp:39-53 | each visit touches only the key under the cursor, which no earlier visit of the same search touched |
| TdApi.SweptValid | src/core/td_api.cpp:38-57 | all keys stay valid after a search |
| TdApi.EvictStale | src/core/td_api.cpp:46-53 | the eviction loop leaves exactly the timestamps after the stale prefix |
| TdApi.VisitKey | src/core/td_api.cpp:42-56 | a key at quota is skipped untouched and unavailable; otherwise it is evicted and available exactly when fewer than 8 calls remain |
| TdApi.Charged | src/core/td_api.cpp:70-72 | charging keeps the key string |
| TdApi.ChargedValid | src/core/td_api.cpp:70-72 | charging an available valid key keeps the daily quota of 800 and the cap of 8 calls a minute |
| TdApi.Search | src/core/td_api.cpp:38-59 | returns the first available key in rotation order from the cursor (-1 exactly when no key is available), moves the cursor one past it (a full turn when none), and evicts exactly the keys visited |
| TdApi.TD.constructor | src/core/td_api.cpp:29-33 | the interval is chosen from the ticker and key counts, every configured key starts unused, the cursor at 0 |
| TdApi.TD.TryGetKey | src/core/td_api.cpp:35-60 | -1 exactly when no key is available; otherwise the first available key from the cursor, evicted; the cursor one past it; key validity kept |
| TdApi.TD.GetKey | src/core/td_api.cpp:62-75 | the returned key is the one `try_get_key` picks, charged one call with `now` recorded; None exactly when every key is exhausted; the cursor moves past the key found as in `try_get_key`; with no keys nothing changes; key validity (quota, per-minute cap) kept |
| TdApi.IntervalToStr | src/core/td_api.cpp:77-87 | a name exactly for the eight known intervals, "" for any other |
| TdApi.IntervalToStrInjective | src/core/td_api.cpp:78-82 | no two intervals share a name |
| Replay.DayStartFrom | src/core/replay.cpp:39-43 | the start of the run of candles on a day ending at a place: every candle in the run is on the day and the one before it is not |
| Replay.LastDayStart | src/core/replay.cpp:39-43 | a valid index from which every candle is on the last candle's day, with the candle before it (if any) on another day |
| Replay.WalkAsWrittenAgrees | src/core/replay.cpp:40-43 | the walk as written fails exactly when every candle up to the start is on the day, and otherwise lands at the start of the day's run |
| Replay.StartAsWrittenOutOfBounds | src/core/replay.cpp:39-43 | the unsigned walk steps below index 0 exactly when every candle is on the last day, and otherwise gives the first candle of the last day |
| Replay.StartAsWrittenSingleCandle | src/core/replay.cpp:39-43 | a one-candle history already makes the walk step below index 0 |
| Replay.FindDayStart | src/core/replay.cpp:39-43 | the corrected walk, stopping at the front, returns the first candle of the last day |
| Replay.BuiltKeys | src/core/replay.cpp:32-46 | a symbol is stored exactly when a non-empty history was fetched for it |
| Replay.BuiltFirstWins | src/core/replay.cpp:45 | a symbol keeps the first non-empty history fetched for it (`try_emplace`), with the cursor at the first candle of its last day |
| Replay.BuiltValid | src/core/replay.cpp:32-46 | every stored history is non-empty with its cursor inside it |
| Replay.CallsPerHourValues | src/core/replay.cpp:17 | at least one call per hour exactly for intervals of an hour or less; 4 exactly for 15 minutes |
| Replay.CallsPerHourWithinBudget | src/core/replay.cpp:17 | with at least one call per ticker the client's interval gives at least one call per hour (also src/core/td_api.cpp:19-27) |
| Replay.AdvanceAll | src/core/replay.cpp:85-86 | the same symbols and histories, every cursor one candle on |
| Replay.TicksDisabled | src/core/replay.cpp:80-81 | with replay off any number of `roll_fwd` calls change nothing |
| Replay.TicksWithinHour | src/core/replay.cpp:82-83 | fewer than `calls_per_hour` ticks only count, the cursors stay |
| Replay.OneHour | src/core/replay.cpp:79-87 | `calls_per_hour` ticks from a fresh counter move every cursor exactly one candle and reset the counter |
| Replay.EveryTickWhenNoCalls | src/core/replay.cpp:82-86 | with `calls_per_hour` of 0 every tick moves every cursor |
| Replay.History | src/core/replay.cpp:66 | the served series is the prefix of the history up to the cursor |
| Replay.AdvanceExtendsHistory | src/core/replay.cpp:85-86 | read against `time_series` (line 66) and `real_time` (line 76), moving a cursor appends the candle at it to the served series, and that candle becomes the previous one of the next pair |
| Replay.Replay.constructor | src/core/replay.cpp:16-50 | nothing stored when replay is off; otherwise one timeline per symbol with a non-empty history, first one winning, its cursor at its last day's first candle; `calls_per_hour` is one hour over the interval (also include/core/replay.h:16-29) |
| Replay.Replay.TimeSeries | src/core/replay.cpp:52-67 | empty for an unknown symbol or fewer than 300 candles; otherwise exactly the candles before the cursor |
| Replay.Replay.RealTime | src/core/replay.cpp:69-77 | for a known symbol the candle before the cursor and the one at it, the latter being the next candle the series gains |
| Replay.Replay.RollFwd | src/core/replay.cpp:79-87 | the counter and cursors change as one tick of the hourly clock; validity kept |
| Replay.Replay.HasData | src/core/replay.cpp:103-108 | false for an empty store; true only if some cursor is inside its history; true when every cursor is, false when none is |

## Left out

- File and network I/O is not modelled: reading and writing the trades file, `update_trades` and its `clean_trades.py` call, the replay candle file, `replay_clear`, and the Twelve Data HTTP requests. `Positions.OpenPositions.constructor` models only the start with no trades file.
- Positions.OpenPositions.constructor: does not read existing trades from disk, because file contents are outside the model.
- Concurrency is not modelled: the mutex of `TD::get_key` and the 30-second sleep-and-retry loop around `try_get_key`. `TdApi.TD.GetKey` returns `None` where the source would wait.
- TdApi.TD.GetKey: records the `now` passed in as the new call time, while the source reads the clock a second time, a few nanoseconds later.
- Replay.Replay.constructor: the fetched candles are a parameter in symbol order. The source fetches them through `TD::time_series` or reads them from a file.
- Replay.Replay.RealTime: returns `None` for an unknown symbol, where the source returns a pair of default candles.
- Replay.Replay.RealTime and Replay.Replay.TimeSeries: require the cursor to be inside the history. Past that point the source reads out of bounds, which has no defined result to model.
- `Replay::rollback` is not modelled: apart from a log line its body is commented out, so it changes nothing.
- Replay.Replay.HasData: the source reads whichever timeline an `unordered_map` lists first. The model's contract states only what holds for every choice.
- `calls_per_hour` of the replay is `H_1 / interval` rounded down. That is 0 for the 2h, 4h and 1d intervals, where every tick advances, and the header's default of 4 is always overwritten. Both are modelled as written.
- `Metrics::rollback` and the indicator values an `Indicators` object derives (EMA, RSI, MACD, ATR) are not modelled. Only the candle series are kept.
- `calc_conf`, `to_zone`, `is_near`, `is_strong` and the swing scan of `find_zones` are not modelled: they are floating-point heuristics over indicator series. `to_swing`, merging, filtering, ranking and normalising are modelled.
- SupportResistance.Nearest: the `DBL_MAX` starting distance is `None` ("no candidate yet"), so a zone at a distance of `DBL_MAX` or more is not excluded as in the source.
- `weighted_score`, the rationale strings, the unused `mediumBearish1D` counter and `count_filters` of src/sig/combined_signals.cpp are not modelled. The rating and the filter bias are, but the combined score is not.
- Metrics.Metrics.UpdatePosition: raises `max_price_seen` in the model's own copy of the position. The source writes it through the pointer into the `OpenPositions` entry (a mutable field), where it persists and the stop-loss code reads it; that aliasing is not modelled.
- Metrics.Metrics.PushBack: on an empty base series (`back()` undefined) or a failed `combine` assertion the model returns `None` and keeps the series and position; what the source does after that point is undefined and not modelled.
- Format.Join: takes strings and an explicit separator. The default separator `", "` and the `to_str`/`FormatTarget` conversion of each item (include/util/format.h:30-39) are not modelled.
- CombinedSignals.CombinedSignal.constructor: takes the three signals' ratings, the filters and the earnings distance as parameters. The `Filters` map is a record of four lists kept in key order.
- The `colored` overload for a double, which prints with two decimals, is not modelled.
- Plot.CreatePlotlyLayout: models the domain and axis logic only. Colours, fonts, hover settings and the other constant Plotly options are left out.
- Parsing and formatting of time strings (`%F %T`, luxon labels) are not modelled. Callers pass parsed times, and an unparsable string is `None`.
- `size_t` overflow is not modelled: counts and indices are unbounded `nat`, except where a wrap-around is the point (the replay cursor walk).
- Floating-point rounding is not modelled: doubles are exact reals. Only the near-zero test of `net_position` keeps its epsilon.

## Findings

| source | as written | input that shows it | evidently intended | confidence | as-written member | corrected member |
|---|---|---|---|---|---|---|
| page/js/plot.js:343-345 | a trade time before 09:30 is returned as `marketOpen.toISO()` | an 08:00 trade on the 4h chart gives an ISO string, unlike every other result | the 09:30 bucket label in the chart's display format | not executed | Plot.PreMarketClaspIsIso | Plot.ClaspToTimeframeFixed |
| src/ind/metrics.cpp:38-60 | `bucket_time` starts at the epoch, so on the first day `end <= now` holds for every candle | 15-minute candles at 09:30 and 09:45 of the first day downsampled to 1h give two candles instead of one | the first bucket starts at the first candle's time, as on later days | not executed | Metrics.FirstDayNotDownsampled | Metrics.Downsample |
| src/ind/metrics.cpp:109-112 | the backward scan `while (start_time <= (start - 1)->time())` has no lower bound | a single candle at 09:30: the scan compares it, then reads before it | stop at the first candle | not executed | Metrics.LatestStartRunsOffFront | Metrics.LatestCandle |
| src/ind/support_resistance.cpp:249-253 | `normalize_zones` reads `zones.front()` with no emptiness check | one merged zone of confidence 0.4, which `filter_zones` drops, leaves an empty vector | return no zones | not executed | SupportResistance.RankAsWrittenEmptyFront | SupportResistance.RankZones |
| src/sig/signal_memory.cpp:24 | the weight grows by λ per signal, not by 1 | one signal of score 0.6 with λ = 0.5 scores 1.2, outside the range of the scores | a decayed mean: the weight grows by 1, so the score lies between the least and greatest score | not executed | Signals.ScoreAsWrittenOutOfRange | Signals.SignalMemory.Score |
| src/core/td_api.cpp:19-27 | `60 / ((800 * N_APIs) / (n_tickers * 8))` divides by zero | 101 tickers on one key, or no tickers at all | fall back to the daily interval, or no wait when there are no tickers | not executed | TdApi.MinutesAsWrittenDividesByZero | TdApi.GetInterval |
| src/core/replay.cpp:39-45 | the unsigned `idx` steps below 0 when every candle is on the last day | a history of one candle | stop at index 0 | not executed | Replay.StartAsWrittenSingleCandle | Replay.FindDayStart |
