# MarketAnalyzer analytics services in Dafny

This project models the analytics engine of MarketAnalyzer, the four modules under
`services/`:

- candle aggregation and parent linking (`candle_service.py`);
- structure detection and cross-timeframe validation (`price_action_service.py`);
- fair value gap detection and fill measurement (`fvg_service.py`);
- trade levels, outcome simulation and statistics (`trade_service.py`).

The relational store is replaced by an in-memory arena. The class `Models.Database`
holds four sequences: candles, patterns, gaps and trade opportunities. An id is an
index into the matching sequence, and a reference is that index. Each store-level
operation is a method with `modifies db`. Its contract gives the new store as a
function of the old one. Every loop of the source is a loop here, proved equal to a
specification function, and lemmas state what the services promise about those
functions.

- Four loops change the store in place under `modifies db`, as the source changes
  its rows:
  - the link loop of `CandleService.LinkChildren` writes `db.candles` and is proved
    equal to `CandleService.Relink`;
  - the per-candle loop of `TimeframeLinker.LinkListed` writes `db.candles` and is
    proved equal to `TimeframeLinker.LinkFirst`;
  - the pattern loop of `PriceActionValidation.ValidatePatterns` writes
    `db.patterns` and is proved equal to `PriceActionValidation.Validated`;
  - the rung loop of `TimeframeLinker.LinkUnlinkedTimeframes` calls
    `TimeframeLinker.LinkRung` on each rung and is proved equal to
    `TimeframeLinker.LinkAll`.
- The other loops build a result from values read out of the store. They are
  read-only methods: the grouping loop, the swing, BOS and CHoCH scans, the vote
  and count loops, the gap scan and fill loop, the signal loop, the outcome scan,
  the simulation loop and the statistics loop. The simulation loop runs before
  the opportunities are stored (see "## Left out").

Behaviours of the source that the proofs bring out:

- Both kinds of gap store the higher price as `start_price`
  (`services/fvg_service.py:79-80` and `113-114`; `FvgService.CellSound`,
  `FvgService.DetectShape`). So for every stored gap the fill takes its "bullish"
  branch (`services/fvg_service.py:156`) and the trade levels take theirs
  (`services/trade_service.py:98`). Only the low of a later candle is compared; a
  candle wholly below the gap counts as a full fill (`FvgService.FillBelowGap`).
  At positive prices every trade is long (`TradeService.LongLevels`). The short branch that
  `TradeService.ShortLevels` describes is never reached for a gap the detector
  stored.
- At `j = 1` the backward swing scan reads `candles[-1]`, the last candle of the
  series (`services/price_action_service.py:57-61`; `PriceActionService.WrapAroundScan`).
- The CHoCH scan can record the same CHoCH twice on one candle, once for each
  earlier pattern it reverses (`services/price_action_service.py:155-181`;
  `PriceActionService.DuplicateChoch`).

Modules:

- `Models`: the enums of `models.py` (timeframes, the analysis timeframes, pattern
  kinds, validation and trade statuses), the four records, and the store.
  - Timeframe codes are strings parsed by `ParseTimeframe` and `ParseAnalysis`, so an
    unsupported code takes the same error path as in the source.
  - The trade status the source calls `PENDING` is `Open` here, because `Pending`
    already names the validation status.
- `Queries`: the query shapes the services share.
  - A filter over the arena keeps arena order.
  - `order_by(timestamp)` is a stable insertion sort of that filter, keyed by time.
  - `Floor` is the bucket floor: it zeroes the seconds and rounds the minute of the
    hour down to a multiple of the width. The hour is left as it is.
  - `Later` is the "strictly after" filter.
- `CandleService`: `create_aggregated_candle` and `generate_higher_timeframe_candles`.
  - The bucketing loop with its `current_time`/`next_time` window.
  - The link step that re-parents every 1-minute candle of the symbol that lies in a
    new aggregate's window.
  - The recursion up the ladder to 4H, which always re-reads the 1-minute series.
- `TimeframeLinker`: `link_unlinked_timeframes`. A rung goes from one timeframe to the
  next. On each rung, every parentless candle of the lower timeframe is looked up by
  its floored bucket start in a timestamp table of the higher timeframe.
- `PriceActionService`: `identify_price_action_patterns`.
  - Swing highs and lows, with the bounded backward scan. At `j = 1` the scan reads
    index `-1`, which is the last candle (`PyAt`).
  - BOS.
  - The CHoCH pair scan. The outer range is fixed; the inner range is re-read while
    the list grows.
- `PriceActionValidation`: `validate_patterns`, `find_containing_candle`,
  `compare_timeframes`, `get_timeframe_minutes` and `get_contradicting_pattern_types`.
- `FvgService`: `identify_fair_value_gaps` (triple scan and pattern association) and
  `calculate_fvg_fill_percentage`.
- `TradeService`: `identify_trade_opportunities`, `calculate_trade_levels`,
  `simulate_trade_outcomes` and `get_trade_statistics`.

Conventions:

- Prices are exact `real`s.
- Volumes are `nat`.
- Timestamps are integer seconds.

## Model

| member | source | states |
|---|---|---|
| Models.Name | models.py:7-13 | defines the string code of each timeframe, as the enum values spell it |
| Models.ParseTimeframe | models.py:7-13 | a code parses exactly when it names one of the six timeframes, and then it names that timeframe |
| Models.NameRoundTrip | models.py:7-13 | every timeframe's code parses back to the same timeframe |
| Models.ParseAnalysis | services/price_action_service.py:15-24 | only 5m, 15m, 30m and 1H are accepted, and the result carries the requested code |
| Models.Minutes | services/price_action_service.py:357-362 | every bucket width is at least one minute |
| Models.Rank | models.py:7-13 | ladder positions run from 0 (1m) to 5 (4H) |
| Models.Next | services/candle_service.py:152-159 | every timeframe but 4H has a next coarser one, exactly one rung up |
| Models.Database.Valid | models.py:41-126 | defines the foreign keys of the four tables: a parent candle, a pattern's candle, a gap's pattern and candles, and an opportunity's CHoCH pattern and gap are all ids present in their arenas |
| Models.Database.constructor | models.py:41-130 | a new store is empty and well formed |
| Queries.Floor | services/candle_service.py:261-264 | defines the bucket start: the seconds zeroed and the minute of the hour floored to a multiple of the width, the hour kept |
| Queries.FloorFacts | services/candle_service.py:261-264 | the floor is at most t, stays in t's hour, zeroes the seconds, makes the minute a multiple of the width, and is idempotent |
| Queries.FloorWindow | services/price_action_service.py:329-332 | for a width dividing the hour, t lies in [floor, floor + width); for 60 and 240 minutes the floor is the start of the hour |
| Queries.Percentage | services/fvg_service.py:170 | a part of a positive whole, as a percentage, lies in [0, 100] and is 100 exactly when the part is the whole |
| Queries.PercentageMonotone | services/fvg_service.py:170 | a larger part gives a larger percentage |
| Queries.SortBy | services/candle_service.py:64 | the ordered query is a permutation of the filter, sorted by timestamp |
| Queries.MatchIds | services/candle_service.py:252 | the unordered filter lists exactly the candles of the symbol and timeframe |
| Queries.SeriesIds | services/price_action_service.py:37 | the ordered query lists exactly the candles of the symbol and timeframe, sorted by timestamp |
| Queries.ValuesOrdered | services/fvg_service.py:34 | candles fetched through a time-sorted id list are in time order |
| Queries.Series | services/trade_service.py:118-122 | the series holds only candles of the symbol and timeframe, in time order |
| Queries.Later | services/fvg_service.py:138 | the later candles are exactly those with a timestamp strictly after the given time |
| Queries.LaterAppend | services/fvg_service.py:138 | filtering for later candles distributes over concatenation |
| Queries.NoneLater | services/fvg_service.py:138-142 | with no candle after the time, nothing is later |
| CandleService.IsRollUp | services/candle_service.py:172-176 | defines the roll-up relation: first open, last close, highest high, lowest low, summed volume |
| CandleService.MaxHigh | services/candle_service.py:174 | the high is at least every member's high and equals one of them |
| CandleService.MinLow | services/candle_service.py:175 | the low is at most every member's low and equals one of them |
| CandleService.SumVolume | services/candle_service.py:176 | defines sum(c.volume) over a group |
| CandleService.SumVolumeAppend | services/candle_service.py:176 | the summed volume of two groups is the sum of their volumes |
| CandleService.CreateAggregatedCandle | services/candle_service.py:165-187 | None exactly for an empty group; otherwise the first open, last close, highest high, lowest low and summed volume, stamped with the symbol, timeframe and start time, without a parent |
| CandleService.ParseTarget | services/candle_service.py:67-77 | the aggregator accepts exactly 5m, 15m, 30m, 1H and 4H |
| CandleService.Interval | services/candle_service.py:80-88 | every bucket is at least a minute wide |
| CandleService.StartTime | services/candle_service.py:94-99 | defines start_time: the first 1-minute candle's timestamp floored to the target width |
| CandleService.RunStart | services/candle_service.py:103-117 | defines a group's bucket start: start_time advanced by whole intervals to the bucket of its first candle |
| CandleService.BucketStart | services/candle_service.py:114-117 | advancing next_time from start_time reaches a bucket start b with b <= t < b + interval |
| CandleService.BucketRestart | services/candle_service.py:114-117 | restarting the advance from an earlier candle's bucket reaches the same bucket |
| CandleService.BucketOrder | services/candle_service.py:105-119 | ordered timestamps share a bucket or lie a whole interval apart |
| CandleService.BucketIdempotent | services/candle_service.py:114-117 | a bucket start is its own bucket's start |
| CandleService.BucketAligned | services/candle_service.py:103-117 | every bucket start is start_time plus a whole number of intervals |
| CandleService.FirstInFirstBucket | services/candle_service.py:94-99 | the first candle lies in the bucket that starts at its floor, for every width including 4H |
| CandleService.Runs | services/candle_service.py:101-126 | the groups are non-empty, exist exactly when there are candles, and the last group ends with the last candle |
| CandleService.RunsFlatten | services/candle_service.py:105-126 | the groups, concatenated in order, give back the series |
| CandleService.RunsSameBucket | services/candle_service.py:105-121 | members of one group share a bucket |
| CandleService.RunsIncreasing | services/candle_service.py:105-121 | on a time-ordered series, the buckets of successive groups are increasing and a whole interval apart |
| CandleService.NewRunAfter | services/candle_service.py:108-119 | a candle that opens a new group lies at least one interval after the previous group's bucket |
| CandleService.RollUps | services/candle_service.py:111-126 | one aggregate per group |
| CandleService.RollUpsAt | services/candle_service.py:111-126 | each group gets its roll-up, stamped with its bucket start |
| CandleService.Groups | services/candle_service.py:101-126 | no group is empty, so no empty group becomes a candle |
| CandleService.SeriesNotBefore | services/candle_service.py:94-99 | no candle of the series precedes start_time, and the first lies in the first bucket |
| CandleService.Aggregates | services/candle_service.py:91-126 | defines higher_tf_candles: nothing for an empty series, else one roll-up per group stamped with its bucket start |
| CandleService.AggregatesRollUp | services/candle_service.py:101-126 | the groups partition the series, and each aggregate is its group's roll-up |
| CandleService.AggregatesCover | services/candle_service.py:103-121 | every member lies in [aggregate timestamp, aggregate timestamp + interval) |
| CandleService.AggregatesAligned | services/candle_service.py:103-117 | every aggregate timestamp is start_time plus a whole number of intervals |
| CandleService.AggregatesDisjoint | services/candle_service.py:103-121 | aggregate timestamps strictly increase, a whole interval apart, so their windows are disjoint |
| CandleService.AggregateSeries | services/candle_service.py:91-126 | the grouping loop computes exactly the aggregates of the series |
| CandleService.IsChild | services/candle_service.py:138-140 | defines the candles the link query considers: 1-minute candles of the symbol |
| CandleService.InWindow | services/candle_service.py:135-142 | defines the window test start_time <= t < end_time |
| CandleService.LastWindow | services/candle_service.py:133-147 | finds the last aggregate whose window holds t, or reports that no window holds it |
| CandleService.LastWindowUnique | services/candle_service.py:133-147 | with disjoint windows, the window holding t is the one found |
| CandleService.RelinkOne | services/candle_service.py:138-147 | defines one candle after the link loop: a child lying in some window gets the last such aggregate as parent; any other candle is unchanged |
| CandleService.Relink | services/candle_service.py:133-147 | the link loop keeps the arena's length |
| CandleService.RelinkOneStep | services/candle_service.py:133-147 | one more aggregate re-links exactly the 1-minute children in its window |
| CandleService.LinkChildren | services/candle_service.py:133-147 | the link loop leaves the store as the relink function describes |
| CandleService.RelinkKeeps | services/candle_service.py:138-147 | the link step changes only the parent of 1-minute candles of the symbol |
| CandleService.AppendRelink | services/candle_service.py:128-147 | stored aggregates are not re-linked themselves |
| CandleService.Level | services/candle_service.py:128-147 | defines the arena after one level: the aggregates of the re-read 1-minute series appended, then the children re-linked to them |
| CandleService.LevelShape | services/candle_service.py:128-147 | a level appends its aggregates and changes at most the parents of the symbol's 1-minute candles |
| CandleService.SeriesMember | services/candle_service.py:64 | every 1-minute candle of the symbol appears in the re-read series |
| CandleService.AggregateOf | services/candle_service.py:101-126 | each candle of an ordered series lies in the window of exactly one aggregate |
| CandleService.RelinkInto | services/candle_service.py:138-147 | a child in an aggregate's window is linked to that aggregate |
| CandleService.LevelLinks | services/candle_service.py:133-147 | after a level, every 1-minute candle of the symbol has as parent a new aggregate of that timeframe whose window holds it |
| CandleService.Ladder | services/candle_service.py:128-161 | defines the arena after the recursion from a timeframe up to 4H: one level per rung, stopping at 4H or after a level with no aggregates |
| CandleService.LadderShape | services/candle_service.py:151-161 | the recursion only appends candles and changes at most the parents of the symbol's 1-minute candles |
| CandleService.ChildMakesAggregates | services/candle_service.py:94-126 | one 1-minute candle of the symbol is enough for a non-empty level |
| CandleService.LadderLinksToTop | services/candle_service.py:151-161 | after the whole recursion, every 1-minute candle of the symbol has a 4H parent whose window holds it |
| CandleService.LevelWellFormed | services/candle_service.py:128-149 | after a level, every parent link points into the arena |
| CandleService.LadderStep | services/candle_service.py:151-161 | below 4H the recursion is one level followed by the next timeframe; it stops when a level is empty |
| CandleService.LadderTop | services/candle_service.py:151-152 | at 4H the recursion stops after one level |
| CandleService.StoreLevel | services/candle_service.py:128-149 | stores the aggregates of the 1-minute series and links the children to them |
| CandleService.GenerateHigherTimeframeCandles | services/candle_service.py:53-163 | empty input returns [] with the store untouched; an unsupported code fails before anything is stored; otherwise the result is the requested level's aggregates, and the store is the whole ladder up to 4H |
| TimeframeLinker.HigherIndex | services/candle_service.py:251-253 | defines the {timestamp: candle} table of the higher timeframe, built in arena order so a later candle overwrites an earlier one |
| TimeframeLinker.Unlinked | services/candle_service.py:236-240 | defines the candles a rung's query picks up: the symbol, the lower timeframe, no parent |
| TimeframeLinker.ParentKey | services/candle_service.py:260-264 | defines the key a lower candle is looked up under: its timestamp floored to the higher width |
| TimeframeLinker.HigherIndexFacts | services/candle_service.py:251-253 | the table maps a timestamp to a higher candle with that timestamp, the last in arena order, and has a key for every such timestamp |
| TimeframeLinker.LinkOne | services/candle_service.py:258-279 | only an unlinked candle changes; it gets a parent exactly when its floored bucket start is in the table, and that parent is the table's entry |
| TimeframeLinker.LinkPass | services/candle_service.py:236-279 | a rung keeps the arena's length |
| TimeframeLinker.LinkFrom | services/candle_service.py:216-285 | the remaining rungs keep the arena's length |
| TimeframeLinker.LinkAll | services/candle_service.py:206-291 | the linker keeps the arena's length |
| TimeframeLinker.LinkPassAt | services/candle_service.py:258-279 | a rung changes only the parent of an unlinked lower candle, to the higher candle at its floored bucket start |
| TimeframeLinker.IndexSameKeys | services/candle_service.py:251-253 | the table does not depend on parent links |
| TimeframeLinker.LinkPassSameKeys | services/candle_service.py:258-279 | a rung rewrites parent links only |
| TimeframeLinker.LinkFromAt | services/candle_service.py:216-285 | what the remaining rungs do to one candle, depending on its timeframe |
| TimeframeLinker.LinkOneIdempotent | services/candle_service.py:258-279 | linking a candle twice is linking it once |
| TimeframeLinker.LinkAllIdempotent | services/candle_service.py:189-291 | a second run leaves the arena as the first run left it |
| TimeframeLinker.LinkAllKeepsLinks | services/candle_service.py:236-240 | a candle that has a parent is never rewritten |
| TimeframeLinker.LinkAllParent | services/candle_service.py:250-279 | a linked candle gets a parent of the same symbol in the next timeframe, whose timestamp is its floored bucket start; with no such candle it stays unlinked |
| TimeframeLinker.KeepParentless | services/candle_service.py:236-240 | keeps exactly the listed candles without a parent, in order |
| TimeframeLinker.UnlinkedIds | services/candle_service.py:236-240 | lists exactly the parentless candles of the symbol and timeframe, in time order |
| TimeframeLinker.BuildIndex | services/candle_service.py:251-253 | the table-building loop computes the table |
| TimeframeLinker.LinkPassNothingUnlinked | services/candle_service.py:242-244 | a rung with nothing to link changes nothing |
| TimeframeLinker.LinkPassWellFormed | services/candle_service.py:258-272 | every new parent is an id in the arena |
| TimeframeLinker.LinkFirst | services/candle_service.py:258-279 | the per-candle loop keeps the arena's length |
| TimeframeLinker.LinkFirstAt | services/candle_service.py:258-279 | after k steps exactly the first k listed candles have been looked up |
| TimeframeLinker.LinkFirstAll | services/candle_service.py:258-279 | the loop over all listed candles is the rung |
| TimeframeLinker.LinkListed | services/candle_service.py:258-279 | the loop writes the parents the rung prescribes |
| TimeframeLinker.LinkRung | services/candle_service.py:216-285 | one rung on the store |
| TimeframeLinker.LinkUnlinkedTimeframes | services/candle_service.py:189-291 | the five rungs in ladder order; reports success |
| PriceActionService.Beyond | services/price_action_service.py:50-53 | defines "strictly beyond": a higher high for swing highs, a lower low for swing lows |
| PriceActionService.PyAt | services/price_action_service.py:58-61 | defines Python list indexing, where a negative index counts from the end |
| PriceActionService.IsSwing | services/price_action_service.py:49-61 | defines the strict 5-wide extreme; at j = 1 the second left neighbour is candles[-1] |
| PriceActionService.ScanFloor | services/price_action_service.py:57 | defines the exclusive lower end max(0, i-20) of the backward scan |
| PriceActionService.PrevSwing | services/price_action_service.py:57-63 | the backward scan finds the nearest swing in (lo, j], or none exists there |
| PriceActionService.Classify | services/price_action_service.py:65-121 | HH iff higher high, LH iff lower high, LL iff lower low, HL iff higher low; an equal extreme gives nothing |
| PriceActionService.NewPattern | services/price_action_service.py:68-73 | defines a new pattern on a candle: the kind, the analysis timeframe, status Pending |
| PriceActionService.SwingKind | services/price_action_service.py:46-121 | a pattern is recorded only at a swing with a previous swing inside the scan range |
| PriceActionService.StructureCandles | services/price_action_service.py:46-151 | swings and breaks sit on candles of the series, are Pending, carry the timeframe and are not CHoCH |
| PriceActionService.Swings | services/price_action_service.py:46-121 | defines the patterns of the swing loop over i in [2, n): at each index the swing-high pattern before the swing-low one |
| PriceActionService.SwingSound | services/price_action_service.py:46-121 | every recorded swing pattern comes from an index scanned so far |
| PriceActionService.SwingComplete | services/price_action_service.py:46-121 | every swing pattern of a scanned index is recorded |
| PriceActionService.SwingMembers | services/price_action_service.py:46-121 | a swing pattern is recorded iff some i in [2, n) produces it |
| PriceActionService.BullishBreak | services/price_action_service.py:128-130 | defines the bullish break: the close above the previous high after two rising highs |
| PriceActionService.BearishBreak | services/price_action_service.py:141-143 | defines the bearish break: the close below the previous low after two falling lows |
| PriceActionService.Breaks | services/price_action_service.py:124-151 | defines the patterns of the BOS loop over i in [4, n): bullish first, both stored as BOS |
| PriceActionService.BreakSound | services/price_action_service.py:124-151 | every BOS comes from an index scanned so far |
| PriceActionService.BreakComplete | services/price_action_service.py:124-151 | every break at a scanned index is recorded |
| PriceActionService.BreakMembers | services/price_action_service.py:124-151 | a BOS is recorded iff some i in [4, n) breaks, bullish or bearish |
| PriceActionService.SwingHighKinds | services/price_action_service.py:46-53 | a swing high is a strict 5-wide maximum and gives HH or LH; a swing low gives LL or HL |
| PriceActionService.IsPivotKind | services/price_action_service.py:157 | defines the kinds that start a pair: HH, HL, LH, LL |
| PriceActionService.Reverses | services/price_action_service.py:170-173 | defines the four reversing pairs of a change of character |
| PriceActionService.ChochFor | services/price_action_service.py:161-181 | defines what one pair emits: a CHoCH at the later pattern's candle when it reverses the earlier one at least 300 s later |
| PriceActionService.Cells | services/price_action_service.py:161-181 | defines what the inner loop emits at each later index of the original list |
| PriceActionService.Row | services/price_action_service.py:161-181 | defines the CHoCH the inner loop emits for one pattern |
| PriceActionService.Rows | services/price_action_service.py:155-181 | defines the rows of the first n patterns |
| PriceActionService.Chochs | services/price_action_service.py:155-181 | defines the CHoCH the outer loop appends, row after row |
| PriceActionService.RowSound | services/price_action_service.py:161-181 | every CHoCH of a row comes from a reversing pair at least 300 s apart |
| PriceActionService.RowComplete | services/price_action_service.py:161-181 | a row emits the CHoCH of every such pair |
| PriceActionService.ChochSound | services/price_action_service.py:155-181 | every recorded CHoCH comes from a pair whose P is among the first n patterns |
| PriceActionService.ChochComplete | services/price_action_service.py:155-181 | every such pair is recorded |
| PriceActionService.ChochMembers | services/price_action_service.py:155-181 | CHoCH is recorded at Q's candle exactly for reversing pairs, P before Q, 300 s apart, in the original list |
| PriceActionService.Structure | services/price_action_service.py:46-151 | defines the swing patterns followed by the BOS patterns of a series |
| PriceActionService.Detect | services/price_action_service.py:36-181 | defines the detector's result: nothing below 5 candles, else the swings and breaks followed by the CHoCH of their pairs |
| PriceActionService.DetectShape | services/price_action_service.py:37-181 | every detected pattern is Pending, carries the timeframe and sits on a candle of the symbol and timeframe; there are at least 5 candles |
| PriceActionService.DuplicateRowFirst | services/price_action_service.py:161-181 | a concrete row: the first pivot gives one CHoCH at the reversal |
| PriceActionService.DuplicateRowSecond | services/price_action_service.py:161-181 | a second pivot of the same kind gives another one at the same candle |
| PriceActionService.DuplicateRowLast | services/price_action_service.py:161-181 | the last pattern of the list has no later partner and emits nothing |
| PriceActionService.DuplicateRows | services/price_action_service.py:155-181 | the concrete rows are one CHoCH, the same CHoCH again, and nothing |
| PriceActionService.DuplicateChoch | services/price_action_service.py:155-181 | two CHoCH can be recorded at the same candle |
| PriceActionService.WrapAroundScan | services/price_action_service.py:57-61 | at j = 1 the scan compares with the last candle of the series |
| PriceActionService.FindPrevSwing | services/price_action_service.py:57-63 | the backward loop with its break finds the previous swing |
| PriceActionService.SwingAt | services/price_action_service.py:49-84 | the loop body records the classified swing for one side |
| PriceActionService.FindSwings | services/price_action_service.py:46-121 | the swing loop computes the swing patterns |
| PriceActionService.FindBreaks | services/price_action_service.py:124-151 | the BOS loop appends the breaks |
| PriceActionService.RowOfNonPivot | services/price_action_service.py:157 | BOS and CHoCH never start a pair |
| PriceActionService.ScanAdvance | services/price_action_service.py:161-181 | past the original list, the inner loop adds nothing |
| PriceActionService.LaterChoch | services/price_action_service.py:175-181 | every recorded CHoCH sits on a candle of the arena |
| PriceActionService.ScanLater | services/price_action_service.py:161-181 | the inner loop over a growing list appends the row of P |
| PriceActionService.ScanFrom | services/price_action_service.py:155-181 | one outer step appends the row of the next pattern |
| PriceActionService.FindChochs | services/price_action_service.py:155-181 | the CHoCH loop appends the CHoCH of every pair in the original list |
| PriceActionService.StructureIn | services/price_action_service.py:37-151 | swings and breaks point into the arena |
| PriceActionService.DetectWellFormed | services/price_action_service.py:183-185 | storing the detected patterns keeps every pattern's candle in the arena |
| PriceActionService.DetectIs | services/price_action_service.py:36-187 | the three loops on the series compute the detector's result |
| PriceActionService.PatternsAppended | services/price_action_service.py:183-185 | appending patterns keeps gaps and trades well formed |
| PriceActionService.IdentifyPriceActionPatterns | services/price_action_service.py:10-187 | a non-analysis code fails and stores nothing; otherwise the detected patterns are stored and returned |
| PriceActionValidation.CompareTimeframes | services/price_action_service.py:343-355 | 1, -1 or 0 as the first width is larger, smaller or equal |
| PriceActionValidation.MinutesFollowRank | services/price_action_service.py:357-362 | widths strictly increase up the ladder, and equal widths mean equal timeframes |
| PriceActionValidation.CompareAntisymmetric | services/price_action_service.py:343-355 | the comparison is antisymmetric, is 0 only for equal timeframes, and is 1 for a coarser one |
| PriceActionValidation.Contradicting | services/price_action_service.py:364-377 | defines get_contradicting_pattern_types as a table: HH against LL and LH, HL against LH and LL, LH and LL against HH and HL, none for BOS and CHoCH |
| PriceActionValidation.ContradictingMeaning | services/price_action_service.py:364-377 | swing kinds contradict iff they lean opposite ways; the table is symmetric and irreflexive, and empty exactly for BOS and CHoCH |
| PriceActionValidation.HasKind | services/price_action_service.py:245-258 | defines a non-empty pattern query: some stored pattern sits on the candle with one of the kinds |
| PriceActionValidation.At | services/price_action_service.py:335-339 | defines the filter_by(symbol, timeframe, timestamp) condition |
| PriceActionValidation.FirstAt | services/price_action_service.py:335-339 | defines .first() of that filter in arena order |
| PriceActionValidation.FirstAtFacts | services/price_action_service.py:335-339 | the lookup finds the first candle with the symbol, timeframe and timestamp, or there is none |
| PriceActionValidation.ContainingCandle | services/price_action_service.py:316-341 | defines find_containing_candle: the first candle of the coarser timeframe and the candle's symbol stamped at the floored bucket start |
| PriceActionValidation.ContainingCandleFacts | services/price_action_service.py:316-341 | the containing candle is the first coarser candle of the symbol stamped at the floored bucket start |
| PriceActionValidation.WindowIds | services/price_action_service.py:269-274 | defines the lower-timeframe window query: candles of the symbol and timeframe stamped in [start, end) |
| PriceActionValidation.WindowMembers | services/price_action_service.py:269-274 | the window query lists exactly the finer candles of the symbol in [start, end), each once, in arena order |
| PriceActionValidation.HigherVote | services/price_action_service.py:239-261 | defines a coarser code's vote: confirm when the containing candle carries the same kind, else contradict when it carries a contradicting kind, else abstain |
| PriceActionValidation.LowerWindow | services/price_action_service.py:264-274 | defines the finer candles inside the pivot candle's window [ts, ts + pivot width) |
| PriceActionValidation.LowerVote | services/price_action_service.py:264-304 | defines a finer code's vote: confirm or contradict by strict majority of the window's counts, abstain on a tie |
| PriceActionValidation.VoteOf | services/price_action_service.py:224-304 | defines one requested code's vote: the pivot's own code and unsupported codes abstain; otherwise the coarser or the finer rule applies |
| PriceActionValidation.Count | services/price_action_service.py:250-304 | defines how a vote moves the two tallies |
| PriceActionValidation.Tally | services/price_action_service.py:219-304 | defines the confirmations and contradictions of the first n requested codes |
| PriceActionValidation.Judge | services/price_action_service.py:306-310 | defines the verdict: Valid iff confirmations exceed contradictions, else Invalid |
| PriceActionValidation.CountWith | services/price_action_service.py:280-298 | the count of window candles carrying a pattern of the given kinds never exceeds the number of candles |
| PriceActionValidation.CountNone | services/price_action_service.py:290-298 | no candle carries a pattern of no kind |
| PriceActionValidation.TallyBound | services/price_action_service.py:224-304 | confirmations plus contradictions never exceed the number of requested codes: each code votes at most once |
| PriceActionValidation.NoContradictionForBreaks | services/price_action_service.py:254-310 | BOS and CHoCH are never contradicted, so they are Valid iff some code confirms |
| PriceActionValidation.NothingToCompare | services/price_action_service.py:224-233 | the pivot's own code and non-analysis codes add nothing, and such a pattern ends Invalid |
| PriceActionValidation.HasKindSameShape | services/price_action_service.py:245-258 | pattern lookups do not read statuses |
| PriceActionValidation.CountSameShape | services/price_action_service.py:280-298 | window counts do not read statuses |
| PriceActionValidation.VoteSameShape | services/price_action_service.py:239-304 | a code's vote does not read statuses |
| PriceActionValidation.TallySameShape | services/price_action_service.py:224-304 | the tallies do not read statuses |
| PriceActionValidation.JudgeSameShape | services/price_action_service.py:307-310 | status updates made earlier in the pass cannot change a later verdict |
| PriceActionValidation.PatternIds | services/price_action_service.py:214 | defines the pivot query: ids of the patterns of the timeframe, of any symbol, in arena order |
| PriceActionValidation.PatternIdsFacts | services/price_action_service.py:214 | the pivot query lists exactly the patterns of the timeframe, each once, in arena order |
| PriceActionValidation.Validated | services/price_action_service.py:216-310 | defines the patterns after the pass: each pattern of the pivot timeframe with its verdict, every other pattern as it was |
| PriceActionValidation.ValidatedShape | services/price_action_service.py:306-310 | pivot patterns end Valid iff confirmations exceed contradictions, else Invalid; other patterns are unchanged |
| PriceActionValidation.ValidatedIdempotent | services/price_action_service.py:189-314 | validating twice gives the same patterns as validating once |
| PriceActionValidation.JudgeOnlyShape | services/price_action_service.py:224-310 | the verdict on a pattern reads its candle and kind, not its status |
| PriceActionValidation.VoteOnlyShape | services/price_action_service.py:239-304 | a code's vote on a pattern does not read the pattern's status |
| PriceActionValidation.TallyOnlyShape | services/price_action_service.py:224-304 | the tallies for a pattern do not read the pattern's status |
| PriceActionValidation.CountWindow | services/price_action_service.py:280-298 | the loop over the window counts confirming and contradicting candles |
| PriceActionValidation.CastVote | services/price_action_service.py:228-304 | the body of the code loop casts that code's vote |
| PriceActionValidation.TallyCode | services/price_action_service.py:224-304 | one pass of the code loop adds that code's vote to the tallies |
| PriceActionValidation.JudgePattern | services/price_action_service.py:219-310 | the loop over the requested codes yields the verdict |
| PriceActionValidation.ValidatePatterns | services/price_action_service.py:189-314 | an unsupported pivot code fails and changes nothing; otherwise each pivot pattern gets its verdict, and the pivot patterns are returned with their new statuses |
| FvgService.PatternMap | services/fvg_service.py:43-44 | defines pattern_map = {p.candle_id: p}, built in arena order so a later pattern overwrites an earlier one |
| FvgService.PatternMapAt | services/fvg_service.py:43-44 | a candle is a key iff a pattern of the timeframe sits on it, and the later pattern wins |
| FvgService.DirectFrom | services/fvg_service.py:56-59 | defines the direct search: the pattern of the first of the three candles that is a key of the map |
| FvgService.DirectFromFacts | services/fvg_service.py:56-59 | takes the pattern of the first candle of the triple that is a key, or none is a key |
| FvgService.EarlierPattern | services/fvg_service.py:63-67 | defines the fallback filter: a pattern of the timeframe on a candle of the symbol and timeframe opened before candle1 |
| FvgService.Recent | services/fvg_service.py:63-68 | the fallback is a pattern of the timeframe on an earlier candle of the symbol and timeframe |
| FvgService.RecentFacts | services/fvg_service.py:63-71 | the fallback exists iff some earlier pattern exists, and none is later than it |
| FvgService.Associated | services/fvg_service.py:55-71 | the associated pattern has the requested timeframe |
| FvgService.AssociatedNone | services/fvg_service.py:55-73 | no pattern iff none of the three candles is a key and no earlier pattern exists |
| FvgService.AssociatedDirect | services/fvg_service.py:56-59 | a pattern on one of the three candles wins over the fallback |
| FvgService.BullishGap | services/fvg_service.py:53 | defines the bullish condition: candle1's low above candle3's high |
| FvgService.BearishGap | services/fvg_service.py:87 | defines the bearish condition: candle3's low above candle1's high |
| FvgService.Cell | services/fvg_service.py:48-118 | defines the gaps recorded for one triple, bullish first, each only when a pattern is associated, with fill 0 |
| FvgService.Triples | services/fvg_service.py:47-118 | defines the cells of the first n triples |
| FvgService.Found | services/fvg_service.py:47-118 | defines fvgs: the gaps of the first n triples in scan order |
| FvgService.CellSound | services/fvg_service.py:52-118 | a bullish gap runs from c1's low to c3's high and a bearish one from c3's low to c1's high, from candle c1 to candle c3; both store start above end |
| FvgService.CellComplete | services/fvg_service.py:52-118 | a triple with a gap condition and an associated pattern records that gap |
| FvgService.AtMostOneGap | services/fvg_service.py:52-87 | when lows are at most highs, a triple yields at most one gap |
| FvgService.FoundMembers | services/fvg_service.py:47-118 | the scan finds exactly the gaps of its triples |
| FvgService.FoundSound | services/fvg_service.py:47-118 | every gap found has positive width, a pattern of the timeframe, and starts and ends two candles apart |
| FvgService.Penetrate | services/fvg_service.py:155-167 | defines one candle's effect on max_penetration: for start above end a low below the start, otherwise a high above the start, capped at the gap size |
| FvgService.Deepest | services/fvg_service.py:152-167 | defines max_penetration over the later candles, from 0.0 |
| FvgService.FillOn | services/fvg_service.py:140-170 | defines the fill over the later candles: 0 with none, 100 for a zero-size gap, else the penetration as a percentage of the size |
| FvgService.FillOf | services/fvg_service.py:130-170 | defines calculate_fvg_fill_percentage: FillOn over the series candles stamped after the end candle |
| FvgService.DeepestBounds | services/fvg_service.py:152-167 | the deepest penetration lies between zero and the width |
| FvgService.FillBounds | services/fvg_service.py:138-170 | the fill is a percentage |
| FvgService.FillWithoutLater | services/fvg_service.py:138-142 | with no later candle the fill is 0 |
| FvgService.DeepestFull | services/fvg_service.py:152-167 | for start above end, the penetration reaches the width iff some candle's low reaches the end price |
| FvgService.FullIffReached | services/fvg_service.py:152-170 | with a later candle and start above end, the fill is 100 iff some later low reaches the end price |
| FvgService.DeepestGrows | services/fvg_service.py:152-167 | more candles never reduce the deepest penetration |
| FvgService.FillMonotone | services/fvg_service.py:152-170 | adding later candles never lowers the fill |
| FvgService.FillGrows | services/fvg_service.py:152-170 | the fill over a run of later candles never drops when more candles follow |
| FvgService.FillBelowGap | services/fvg_service.py:155-160 | a later candle entirely below the gap counts as a full fill |
| FvgService.AssociatePattern | services/fvg_service.py:55-71 | the search loop with its break finds the associated pattern |
| FvgService.ScanGaps | services/fvg_service.py:47-118 | the index loop computes the gaps of all triples |
| FvgService.MeasureFill | services/fvg_service.py:130-170 | the penetration loop computes the fill |
| FvgService.WithFills | services/fvg_service.py:120-122 | defines the gaps with their fills measured |
| FvgService.FillGaps | services/fvg_service.py:120-122 | the loop measures each gap's fill |
| FvgService.FoundInArena | services/fvg_service.py:47-118 | found gaps point at candles of the arena |
| FvgService.FoundOnSeries | services/fvg_service.py:34-118 | found gaps have positive width, a pattern of the timeframe, and candles of the symbol and timeframe |
| FvgService.Detect | services/fvg_service.py:33-122 | defines the gaps stored for a symbol and timeframe: nothing below 3 candles, else the gaps found with their fills |
| FvgService.DetectShape | services/fvg_service.py:7-128 | every stored gap has positive width, a fill in [0, 100], the requested timeframe, a pattern of that timeframe, and candles of the symbol and timeframe |
| FvgService.GapsAppended | services/fvg_service.py:124-126 | storing the gaps keeps the store well formed |
| FvgService.IdentifyFairValueGaps | services/fvg_service.py:7-128 | an unsupported code fails and stores nothing; otherwise the detected gaps are stored and returned |
| TradeService.TradeLevels | services/trade_service.py:88-107 | defines calculate_trade_levels: entry at the middle of the gap; for start above end the stop at 0.999 times the end and the target entry plus twice the risk; otherwise the stop at 1.001 times the end and the target entry minus twice the risk |
| TradeService.RewardTwiceRisk | services/trade_service.py:94-107 | the target lies twice the risk beyond the entry, on the far side from the stop |
| TradeService.LongLevels | services/trade_service.py:95-101 | with positive prices and start above end: stop < end < entry < start, and target > entry |
| TradeService.ShortLevels | services/trade_service.py:102-105 | with positive prices and start at most end: start <= entry <= end < stop, and target < entry |
| TradeService.Signal | services/trade_service.py:39-44 | defines the signal filter: a Valid CHoCH of the timeframe whose candle has the symbol |
| TradeService.PatternTimes | services/trade_service.py:44 | defines the sort key order_by(Candle.timestamp) of the joined pattern query |
| TradeService.SignalIds | services/trade_service.py:39-44 | lists ids of stored patterns |
| TradeService.SignalIdsFacts | services/trade_service.py:39-44 | lists exactly the valid CHoCH of the timeframe whose candle has the symbol, each once |
| TradeService.Signals | services/trade_service.py:39-44 | defines choch_patterns: the signals ordered by their candle's timestamp |
| TradeService.SignalsMembers | services/trade_service.py:39-44 | the signals are exactly the valid CHoCH of the symbol and timeframe, without repeats |
| TradeService.SignalsOrdered | services/trade_service.py:39-44 | the signals are in the time order of their candles |
| TradeService.GapFrom | services/trade_service.py:53-57 | defines the gap filter: the gap timeframe, a start candle of the symbol at or after the CHoCH's time |
| TradeService.EarliestGap | services/trade_service.py:53-61 | the chosen gap has the timeframe and a start candle of the symbol at or after the CHoCH |
| TradeService.EarliestGapFacts | services/trade_service.py:53-61 | a gap is chosen iff one exists, and no qualifying gap starts earlier |
| TradeService.Pair | services/trade_service.py:50-77 | defines what one signal yields: nothing without a gap, else one pending opportunity at the first gap's levels |
| TradeService.Opportunities | services/trade_service.py:46-77 | defines opportunities: the yields of the first n signals in signal order |
| TradeService.OpportunitiesSound | services/trade_service.py:48-77 | every opportunity comes from a signal and its first gap, with the levels of that gap, and is pending |
| TradeService.OpportunitiesComplete | services/trade_service.py:59-77 | a signal with some qualifying gap yields an opportunity |
| TradeService.OpportunitiesFrom | services/trade_service.py:48-77 | opportunities only come from the signals scanned |
| TradeService.OnePerSignal | services/trade_service.py:48-77 | no two opportunities share a CHoCH |
| TradeService.Long | services/trade_service.py:134 | defines the bullish test take_profit > entry_price |
| TradeService.StopHit | services/trade_service.py:135-157 | defines the stop test: a low at or below the stop for a long trade, a high at or above it otherwise |
| TradeService.TargetHit | services/trade_service.py:135-157 | defines the target test: a high at or above the target for a long trade, a low at or below it otherwise |
| TradeService.Outcome | services/trade_service.py:129-166 | defines the scan: the first candle that hits the stop gives Loss, else one that hits the target gives Win; with neither the trade is Executed |
| TradeService.OutcomeAt | services/trade_service.py:129-166 | the first candle reaching the stop or the target decides: Loss if it reaches the stop, else Win |
| TradeService.OutcomeExecuted | services/trade_service.py:129-166 | the outcome is Executed iff no candle decides, and it is always Executed, Win or Loss |
| TradeService.Resolve | services/trade_service.py:124-166 | defines the new status: PENDING with no later candle, else the outcome |
| TradeService.Future | services/trade_service.py:118-122 | defines future_candles: the series of the CHoCH candle's symbol and timeframe stamped strictly after it |
| TradeService.Played | services/trade_service.py:113-166 | defines one opportunity after simulation |
| TradeService.Simulated | services/trade_service.py:109-168 | defines the opportunities after simulation, each resolved on its own later candles |
| TradeService.ResolveCases | services/trade_service.py:124-166 | a trade is never canceled, and stays pending iff there is no later candle |
| TradeService.SimulateOutcome | services/trade_service.py:113-166 | the flag loop with its breaks computes the outcome |
| TradeService.SimulateTradeOutcomes | services/trade_service.py:109-168 | the loop resolves each opportunity against its later candles |
| TradeService.PlayTrade | services/trade_service.py:114-166 | resolves one opportunity against the later candles of its CHoCH's symbol and timeframe |
| TradeService.FindOpportunities | services/trade_service.py:46-77 | the signal loop computes the opportunities |
| TradeService.OpportunitiesIn | services/trade_service.py:48-77 | opportunities refer to stored patterns and gaps |
| TradeService.Identify | services/trade_service.py:38-86 | defines the stored result of identify_trade_opportunities: the opportunities of the ordered signals, played forward |
| TradeService.IdentifyShape | services/trade_service.py:11-86 | at most one trade per CHoCH; each trade comes from a signal, has a gap of the gap timeframe, and is not canceled |
| TradeService.FoundShape | services/trade_service.py:38-77 | before simulation, one opportunity per signal, each tied to a signal and to a gap of the gap timeframe |
| TradeService.OpportunityShape | services/trade_service.py:38-77 | an opportunity is tied to a signal and to a gap of the gap timeframe |
| TradeService.SimulatedKeeps | services/trade_service.py:109-168 | simulation changes only statuses, never to canceled, and keeps one trade per CHoCH |
| TradeService.TradesAppended | services/trade_service.py:79-81 | storing the trades keeps the store well formed |
| TradeService.IdentifyTradeOpportunities | services/trade_service.py:11-86 | an unsupported code fails and stores nothing; otherwise the simulated opportunities are stored and returned |
| TradeService.CountStatus | services/trade_service.py:175-181 | a status count never exceeds the number of trades |
| TradeService.StatusPartition | services/trade_service.py:174-181 | the five status counts add up to the number of trades |
| TradeService.WinRate | services/trade_service.py:183-185 | defines the win rate wins / (wins + losses) * 100, or 0 with no closed trade |
| TradeService.Expectancy | services/trade_service.py:187-189 | defines the expectancy (2 wins - losses) / (wins + losses), or 0 with no closed trade |
| TradeService.WinRateBounds | services/trade_service.py:183-185 | the win rate lies in [0, 100], is 0 with no closed trade, and is 100 iff there is no loss |
| TradeService.ExpectancyBounds | services/trade_service.py:187-189 | the expectancy lies in [-1, 2], and is 0 with no closed trade |
| TradeService.TimeframeTally | services/trade_service.py:199-212 | wins plus losses never exceed the count, and the count never exceeds the trades |
| TradeService.AnalysisTimeframes | services/trade_service.py:195 | defines the iteration order of AnalysisTimeframeEnum |
| TradeService.ByTimeframe | services/trade_service.py:191-219 | defines timeframe_stats: an entry keyed by the code for each analysis timeframe with at least one trade, holding count, wins, losses and win rate |
| TradeService.ByTimeframeFacts | services/trade_service.py:195-219 | each entry is an analysis timeframe with a positive count, wins plus losses within it, and a win rate in [0, 100] |
| TradeService.Summary | services/trade_service.py:170-230 | defines the statistics dict: the total, the four status counts, the win rate, the expectancy and the per-timeframe entries |
| TradeService.SummaryFacts | services/trade_service.py:170-230 | the status counts fit in the total, both rates lie in their ranges and are 0 with no closed trade, and every entry's count fits in the total |
| TradeService.StatsByTimeframe | services/trade_service.py:191-218 | the loop over the analysis timeframes builds exactly the per-timeframe entries |
| TradeService.GetTradeStatistics | services/trade_service.py:170-230 | the method computes the summary of the stored trades |

## Left out

- `process_csv_data` (CSV parsing and type coercion) is not part of this model. The
  arena is assumed to hold the 1-minute candles it would store.
- The following are not modelled:
  - session commits, rollbacks and the batch commit every 1000 links;
  - logging;
  - the Flask routes and the browser UI.
- `datetime.utcnow()` as the creation time of an opportunity is not modelled. The
  `Opportunity` record has no creation time.
- Floating point is not modelled: prices are exact reals.
- `round(..., 2)` in the statistics is left out. `TradeService.SummaryFacts` and
  `TradeService.ByTimeframeFacts` state the bounds of the unrounded rates.
- The SQL mechanics of the per-timeframe statistics query are not modelled. Its
  meaning is modelled: the trades are counted by the timeframe of their CHoCH
  pattern.
- Row order for queries without `order_by` is arena order. For `order_by(timestamp)`,
  equal timestamps keep arena order. The database promises neither.
  - `.first()` under a descending order (the fallback pattern of a gap) takes the
    earliest arena index among the latest timestamps.
  - The first gap of the ordered gap query takes the earliest arena index among the
    earliest timestamps.
- Ids are arena indices. Every stored id is present, so `if pattern_id:` and
  `if recent_pattern:` are modelled as `Option` tests.
- References are followed only when they point into the arena: a pattern's candle,
  an opportunity's CHoCH. This applies to `PriceActionService.ChochFor`,
  `FvgService.EarlierPattern`, `TradeService.Signal` and `TradeService.TimeframeTally`.
  The well-formedness invariant of the store makes the guard always true for stored
  data.
- `TradeService.IdentifyTradeOpportunities` plays the opportunities forward before
  appending them. The source stores them first and then updates their statuses. The
  final store is the same.
- `PriceActionValidation.ValidatePatterns` judges every pivot pattern from a
  snapshot of the patterns. The verdict never reads a status (`JudgeSameShape`), so
  the updates made earlier in the pass cannot change it.
- `Models.Minutes` states only that a width is positive. The order of the widths is
  stated by `PriceActionValidation.MinutesFollowRank`.
