/** Candle aggregation up the timeframe ladder, parent linking of the 1-minute
    candles, and the repair pass that links candles left without a parent
    (services/candle_service.py). */
module CandleService {
  import opened Models
  import opened Queries

  // ---------------------------------------------------------------------
  // OHLCV roll-up (create_aggregated_candle)

  function MaxHigh(cs: seq<Candle>): (m: real)
    requires cs != []
    ensures forall k :: 0 <= k < |cs| ==> cs[k].high <= m
    ensures exists k :: 0 <= k < |cs| && cs[k].high == m
  {
    if |cs| == 1 then cs[0].high
    else
      var rest := MaxHigh(cs[1..]);
      assert forall k :: 1 <= k < |cs| ==> cs[k] == cs[1..][k - 1];
      if cs[0].high >= rest then cs[0].high else rest
  }

  function MinLow(cs: seq<Candle>): (m: real)
    requires cs != []
    ensures forall k :: 0 <= k < |cs| ==> m <= cs[k].low
    ensures exists k :: 0 <= k < |cs| && cs[k].low == m
  {
    if |cs| == 1 then cs[0].low
    else
      var rest := MinLow(cs[1..]);
      assert forall k :: 1 <= k < |cs| ==> cs[k] == cs[1..][k - 1];
      if cs[0].low <= rest then cs[0].low else rest
  }

  function SumVolume(cs: seq<Candle>): nat
  {
    if cs == [] then 0 else SumVolume(cs[..|cs| - 1]) + cs[|cs| - 1].volume
  }

  lemma {:induction false} SumVolumeAppend(a: seq<Candle>, b: seq<Candle>)
    ensures SumVolume(a + b) == SumVolume(a) + SumVolume(b)
    decreases |b|
  {
    if b == [] {
      assert a + b == a;
    } else {
      var bInit := b[..|b| - 1];
      assert (a + b)[..|a + b| - 1] == a + bInit;
      SumVolumeAppend(a, bInit);
    }
  }

  /** The roll-up invariant: first open, last close, highest high, lowest low, summed volume. */
  ghost predicate IsRollUp(agg: Candle, group: seq<Candle>)
  {
    && group != []
    && agg.open == group[0].open
    && agg.close == group[|group| - 1].close
    && (forall k :: 0 <= k < |group| ==> group[k].high <= agg.high && agg.low <= group[k].low)
    && (exists k :: 0 <= k < |group| && group[k].high == agg.high)
    && (exists k :: 0 <= k < |group| && group[k].low == agg.low)
    && agg.volume == SumVolume(group)
  }

  /** The aggregate of a group of finer candles; an empty group yields None. */
  function CreateAggregatedCandle(group: seq<Candle>, symbol: string, tf: Timeframe, start: int): (r: Option<Candle>)
    ensures r.None? <==> group == []
    ensures r.Some? ==> IsRollUp(r.value, group)
    ensures r.Some? ==> r.value.symbol == symbol && r.value.tf == tf && r.value.ts == start && r.value.parent.None?
  {
    if group == [] then None
    else Some(Candle(symbol, tf, group[0].open, MaxHigh(group), MinLow(group),
                     group[|group| - 1].close, SumVolume(group), start, None))
  }

  // ---------------------------------------------------------------------
  // Bucketing (generate_higher_timeframe_candles, the grouping loop)

  /** The aggregator's own timeframe lookup: 5m, 15m, 30m, 1H and 4H. */
  function ParseTarget(s: string): (r: Option<Timeframe>)
    ensures r.Some? <==> ParseTimeframe(s).Some? && !ParseTimeframe(s).value.M1?
    ensures r.Some? ==> Name(r.value) == s && !r.value.M1?
  {
    match ParseTimeframe(s)
    case Some(tf) => if tf.M1? then None else Some(tf)
    case None => None
  }

  function Interval(tf: Timeframe): (i: nat)
    ensures i >= 60
  {
    Minutes(tf) * 60
  }

  /** Start of the `interval`-wide bucket holding t, reached from `from` by
      whole intervals, as the grouping loop advances its current time. */
  function BucketStart(t: int, from: int, interval: nat): (b: int)
    requires interval > 0
    ensures from <= b
    ensures from <= t ==> b <= t < b + interval
    decreases t - from
  {
    if t < from + interval then from else BucketStart(t, from + interval, interval)
  }

  /** Counting on from the bucket of an earlier timestamp reaches the same bucket. */
  lemma {:induction false} BucketRestart(t: int, u: int, from: int, interval: nat)
    requires interval > 0 && from <= u <= t
    ensures BucketStart(t, from, interval) == BucketStart(t, BucketStart(u, from, interval), interval)
    decreases u - from
  {
    if u >= from + interval {
      BucketRestart(t, u, from + interval, interval);
    }
  }

  /** Buckets of ordered timestamps coincide or are a whole interval apart. */
  lemma {:induction false} BucketOrder(t1: int, t2: int, from: int, interval: nat)
    requires interval > 0 && from <= t1 <= t2
    ensures var b1, b2 := BucketStart(t1, from, interval), BucketStart(t2, from, interval);
      b1 == b2 || b1 + interval <= b2
    decreases t1 - from
  {
    if t1 >= from + interval {
      BucketOrder(t1, t2, from + interval, interval);
    }
  }

  /** A bucket start is its own bucket's start. */
  lemma {:induction false} BucketIdempotent(t: int, from: int, interval: nat)
    requires interval > 0
    ensures BucketStart(BucketStart(t, from, interval), from, interval) == BucketStart(t, from, interval)
    decreases t - from
  {
    if t >= from + interval {
      BucketIdempotent(t, from + interval, interval);
    }
  }

  /** Every bucket start lies a whole number of intervals after `from`. */
  lemma {:induction false} BucketAligned(t: int, from: int, interval: nat)
    requires interval > 0
    ensures (BucketStart(t, from, interval) - from) % interval == 0
    decreases t - from
  {
    if t >= from + interval {
      BucketAligned(t, from + interval, interval);
      ModShift(BucketStart(t, from, interval) - (from + interval), interval);
    }
  }

  lemma ModShift(x: int, m: int)
    requires m > 0 && x % m == 0
    ensures (x + m) % m == 0
  {
    var q := x / m;
    assert x == q * m;
    assert x + m == (q + 1) * m;
    MulDivExact(q + 1, m);
  }

  /** The first candle of a series always falls in the bucket starting at its floor. */
  lemma FirstInFirstBucket(t: int, tf: Timeframe)
    ensures Floor(t, Minutes(tf)) <= t < Floor(t, Minutes(tf)) + Interval(tf)
  {
    FloorFacts(t, Minutes(tf));
    FloorWindow(t, Minutes(tf));
  }

  /** The maximal runs of consecutive candles among the first n that share a
      bucket, built from the left. */
  function Runs(ms: seq<Candle>, n: nat, start: int, interval: nat): (gs: seq<seq<Candle>>)
    requires n <= |ms| && interval > 0
    ensures forall g :: 0 <= g < |gs| ==> gs[g] != []
    ensures n > 0 <==> gs != []
    ensures n > 0 ==> Last(Last(gs)) == ms[n - 1]
  {
    if n == 0 then []
    else
      var init := Runs(ms, n - 1, start, interval);
      var c := ms[n - 1];
      if init != [] && BucketStart(Last(init)[0].ts, start, interval) == BucketStart(c.ts, start, interval)
      then init[..|init| - 1] + [Last(init) + [c]]
      else init + [[c]]
  }

  /** The runs partition the series: concatenated, they give it back in order. */
  lemma {:induction false} RunsFlatten(ms: seq<Candle>, n: nat, start: int, interval: nat)
    requires n <= |ms| && interval > 0
    ensures Flatten(Runs(ms, n, start, interval)) == ms[..n]
  {
    if n > 0 {
      var c: Candle := ms[n - 1];
      assert ms[..n] == ms[..n - 1] + [c];
      RunsFlatten(ms, n - 1, start, interval);
      var init: seq<seq<Candle>> := Runs(ms, n - 1, start, interval);
      if init != [] && BucketStart(Last(init)[0].ts, start, interval) == BucketStart(c.ts, start, interval) {
        var front := init[..|init| - 1];
        assert init == front + [Last(init)];
        FlattenAppend(front, Last(init));
        FlattenAppend(front, Last(init) + [c]);
      } else {
        FlattenAppend(init, [c]);
      }
    }
  }

  ghost predicate SameBucketRuns(gs: seq<seq<Candle>>, start: int, interval: nat)
    requires interval > 0
  {
    forall g, k :: 0 <= g < |gs| && 0 <= k < |gs[g]| && gs[g] != [] ==>
      BucketStart(gs[g][k].ts, start, interval) == BucketStart(gs[g][0].ts, start, interval)
  }

  /** Members of one run share their bucket. */
  lemma {:induction false} RunsSameBucket(ms: seq<Candle>, n: nat, start: int, interval: nat)
    requires n <= |ms| && interval > 0
    ensures SameBucketRuns(Runs(ms, n, start, interval), start, interval)
  {
    if n > 0 {
      RunsSameBucket(ms, n - 1, start, interval);
      var init: seq<seq<Candle>> := Runs(ms, n - 1, start, interval);
      var c := ms[n - 1];
      if init != [] && BucketStart(Last(init)[0].ts, start, interval) == BucketStart(c.ts, start, interval) {
        ExtendKeepsSame(init, c, start, interval);
      } else {
        AppendKeepsSame(init, c, start, interval);
      }
    }
  }

  lemma ExtendKeepsSame(init: seq<seq<Candle>>, c: Candle, start: int, interval: nat)
    requires interval > 0 && init != [] && Last(init) != []
    requires SameBucketRuns(init, start, interval)
    requires BucketStart(Last(init)[0].ts, start, interval) == BucketStart(c.ts, start, interval)
    ensures SameBucketRuns(init[..|init| - 1] + [Last(init) + [c]], start, interval)
  {
    var gs: seq<seq<Candle>> := init[..|init| - 1] + [Last(init) + [c]];
    forall g, k | 0 <= g < |gs| && 0 <= k < |gs[g]|
      ensures BucketStart(gs[g][k].ts, start, interval) == BucketStart(gs[g][0].ts, start, interval)
    {
      if g < |init| - 1 {
        assert gs[g] == init[g];
      } else if k < |Last(init)| {
        assert gs[g][k] == init[g][k] && gs[g][0] == init[g][0];
      }
    }
  }

  lemma AppendKeepsSame(init: seq<seq<Candle>>, c: Candle, start: int, interval: nat)
    requires interval > 0
    requires SameBucketRuns(init, start, interval)
    ensures SameBucketRuns(init + [[c]], start, interval)
  {
    var gs: seq<seq<Candle>> := init + [[c]];
    forall g, k | 0 <= g < |gs| && 0 <= k < |gs[g]|
      ensures BucketStart(gs[g][k].ts, start, interval) == BucketStart(gs[g][0].ts, start, interval)
    {
      if g < |init| {
        assert gs[g] == init[g];
      }
    }
  }

  ghost predicate IncreasingRuns(gs: seq<seq<Candle>>, start: int, interval: nat)
    requires interval > 0
  {
    forall g, h :: 0 <= g < h < |gs| && gs[g] != [] && gs[h] != [] ==>
      BucketStart(gs[g][0].ts, start, interval) + interval <= BucketStart(gs[h][0].ts, start, interval)
  }

  ghost predicate NotBefore(ms: seq<Candle>, start: int)
  {
    forall k :: 0 <= k < |ms| ==> start <= ms[k].ts
  }

  /** On an ordered series the buckets of successive runs are disjoint and increasing. */
  lemma {:induction false} RunsIncreasing(ms: seq<Candle>, n: nat, start: int, interval: nat)
    requires n <= |ms| && interval > 0 && TimeOrdered(ms) && NotBefore(ms, start)
    ensures IncreasingRuns(Runs(ms, n, start, interval), start, interval)
  {
    if n > 1 {
      RunsIncreasing(ms, n - 1, start, interval);
      var init: seq<seq<Candle>> := Runs(ms, n - 1, start, interval);
      if BucketStart(Last(init)[0].ts, start, interval) == BucketStart(ms[n - 1].ts, start, interval) {
        ExtendKeepsIncreasing(init, ms[n - 1], start, interval);
      } else {
        NewRunAfter(ms, n, start, interval);
        AppendKeepsIncreasing(init, ms[n - 1], start, interval);
      }
    }
  }

  lemma ExtendKeepsIncreasing(init: seq<seq<Candle>>, c: Candle, start: int, interval: nat)
    requires interval > 0 && init != []
    requires forall g :: 0 <= g < |init| ==> init[g] != []
    requires IncreasingRuns(init, start, interval)
    ensures IncreasingRuns(init[..|init| - 1] + [Last(init) + [c]], start, interval)
  {
    var gs: seq<seq<Candle>> := init[..|init| - 1] + [Last(init) + [c]];
    forall g, h | 0 <= g < h < |gs|
      ensures BucketStart(gs[g][0].ts, start, interval) + interval <= BucketStart(gs[h][0].ts, start, interval)
    {
      assert gs[g] == init[g];
      if h < |init| - 1 {
        assert gs[h] == init[h];
      } else {
        assert gs[h][0] == init[h][0];
      }
    }
  }

  lemma AppendKeepsIncreasing(init: seq<seq<Candle>>, c: Candle, start: int, interval: nat)
    requires interval > 0 && init != [] && Last(init) != []
    requires forall g :: 0 <= g < |init| ==> init[g] != []
    requires IncreasingRuns(init, start, interval)
    requires BucketStart(Last(init)[0].ts, start, interval) + interval <= BucketStart(c.ts, start, interval)
    ensures IncreasingRuns(init + [[c]], start, interval)
  {
    var gs: seq<seq<Candle>> := init + [[c]];
    forall g, h | 0 <= g < h < |gs|
      ensures BucketStart(gs[g][0].ts, start, interval) + interval <= BucketStart(gs[h][0].ts, start, interval)
    {
      assert gs[g] == init[g];
      if h == |init| {
        if g < |init| - 1 {
          assert BucketStart(init[g][0].ts, start, interval) + interval
              <= BucketStart(Last(init)[0].ts, start, interval);
        }
      } else {
        assert gs[h] == init[h];
      }
    }
  }

  /** A run that does not absorb the next candle lies a whole interval before it. */
  lemma NewRunAfter(ms: seq<Candle>, n: nat, start: int, interval: nat)
    requires 1 < n <= |ms| && interval > 0 && TimeOrdered(ms) && NotBefore(ms, start)
    requires var init := Runs(ms, n - 1, start, interval);
      BucketStart(Last(init)[0].ts, start, interval) != BucketStart(ms[n - 1].ts, start, interval)
    ensures var init := Runs(ms, n - 1, start, interval);
      BucketStart(Last(init)[0].ts, start, interval) + interval <= BucketStart(ms[n - 1].ts, start, interval)
  {
    var init: seq<seq<Candle>> := Runs(ms, n - 1, start, interval);
    RunsSameBucket(ms, n - 1, start, interval);
    var lastRun: seq<Candle> := Last(init);
    assert Last(lastRun) == ms[n - 2];
    assert BucketStart(ms[n - 2].ts, start, interval) == BucketStart(lastRun[0].ts, start, interval);
    BucketOrder(ms[n - 2].ts, ms[n - 1].ts, start, interval);
  }

  /** Bucket start of a run: start_time advanced by whole intervals. */
  function RunStart(g: seq<Candle>, start: int, interval: nat): int
    requires interval > 0 && g != []
  {
    BucketStart(g[0].ts, start, interval)
  }

  function RollUps(gs: seq<seq<Candle>>, symbol: string, tf: Timeframe, start: int): (r: seq<Candle>)
    requires forall g :: 0 <= g < |gs| ==> gs[g] != []
    ensures |r| == |gs|
  {
    if gs == [] then []
    else
      var init := gs[..|gs| - 1];
      RollUps(init, symbol, tf, start) + [CreateAggregatedCandle(Last(gs), symbol, tf, RunStart(Last(gs), start, Interval(tf))).value]
  }

  /** Each group gets the roll-up candle stamped with its bucket start. */
  lemma {:induction false} RollUpsAt(gs: seq<seq<Candle>>, symbol: string, tf: Timeframe, start: int, g: nat)
    requires forall k :: 0 <= k < |gs| ==> gs[k] != []
    requires g < |gs|
    ensures RollUps(gs, symbol, tf, start)[g]
      == CreateAggregatedCandle(gs[g], symbol, tf, RunStart(gs[g], start, Interval(tf))).value
    decreases |gs|
  {
    if g < |gs| - 1 {
      var init := gs[..|gs| - 1];
      RollUpsAt(init, symbol, tf, start, g);
    }
  }

  /** The first bucket boundary: the first candle's minute floored to the width. */
  function StartTime(ms: seq<Candle>, tf: Timeframe): int
    requires ms != []
  {
    Floor(ms[0].ts, Minutes(tf))
  }

  function Groups(ms: seq<Candle>, tf: Timeframe): (gs: seq<seq<Candle>>)
    ensures forall g :: 0 <= g < |gs| ==> gs[g] != []
  {
    if ms == [] then [] else Runs(ms, |ms|, StartTime(ms, tf), Interval(tf))
  }

  /** The higher-timeframe candles made from a time-ordered series. */
  function Aggregates(ms: seq<Candle>, symbol: string, tf: Timeframe): seq<Candle>
  {
    if ms == [] then [] else RollUps(Groups(ms, tf), symbol, tf, StartTime(ms, tf))
  }

  lemma SeriesNotBefore(ms: seq<Candle>, tf: Timeframe)
    requires TimeOrdered(ms) && ms != []
    ensures NotBefore(ms, StartTime(ms, tf))
    ensures StartTime(ms, tf) <= ms[0].ts < StartTime(ms, tf) + Interval(tf)
  {
    FirstInFirstBucket(ms[0].ts, tf);
    assert forall k :: 0 <= k < |ms| ==> ms[0].ts <= ms[k].ts;
  }

  ghost predicate MembersInBuckets(gs: seq<seq<Candle>>, aggs: seq<Candle>, interval: nat)
    requires |aggs| == |gs|
  {
    forall g, k :: 0 <= g < |gs| && 0 <= k < |gs[g]| ==>
      aggs[g].ts <= gs[g][k].ts < aggs[g].ts + interval
  }

  ghost predicate AlignedStarts(aggs: seq<Candle>, start: int, interval: nat)
    requires interval > 0
  {
    forall g :: 0 <= g < |aggs| ==> aggs[g].ts >= start && BucketStart(aggs[g].ts, start, interval) == aggs[g].ts
  }

  ghost predicate DisjointBuckets(aggs: seq<Candle>, interval: nat)
  {
    forall g, h :: 0 <= g < h < |aggs| ==> aggs[g].ts + interval <= aggs[h].ts
  }

  /** The aggregation partitions the series into non-empty consecutive groups,
      one aggregate per group, each the roll-up of its group under the target
      symbol and timeframe, with no parent yet. */
  lemma AggregatesRollUp(ms: seq<Candle>, symbol: string, tf: Timeframe)
    ensures Flatten(Groups(ms, tf)) == ms
    ensures |Aggregates(ms, symbol, tf)| == |Groups(ms, tf)|
    ensures var gs, aggs := Groups(ms, tf), Aggregates(ms, symbol, tf);
      forall g :: 0 <= g < |gs| ==>
        && IsRollUp(aggs[g], gs[g])
        && aggs[g].symbol == symbol && aggs[g].tf == tf && aggs[g].parent.None?
  {
    if ms != [] {
      var start, interval := StartTime(ms, tf), Interval(tf);
      var gs: seq<seq<Candle>> := Groups(ms, tf);
      RunsFlatten(ms, |ms|, start, interval);
      assert ms[..|ms|] == ms;
      forall g | 0 <= g < |gs|
        ensures IsRollUp(Aggregates(ms, symbol, tf)[g], gs[g])
        ensures Aggregates(ms, symbol, tf)[g].symbol == symbol
        ensures Aggregates(ms, symbol, tf)[g].tf == tf && Aggregates(ms, symbol, tf)[g].parent.None?
      {
        RollUpsAt(gs, symbol, tf, start, g);
      }
    }
  }

  /** The bucket [ts, ts + interval) of each aggregate holds every member of its group. */
  lemma AggregatesCover(ms: seq<Candle>, symbol: string, tf: Timeframe)
    requires TimeOrdered(ms)
    ensures |Aggregates(ms, symbol, tf)| == |Groups(ms, tf)|
    ensures MembersInBuckets(Groups(ms, tf), Aggregates(ms, symbol, tf), Interval(tf))
  {
    if ms != [] {
      var start, interval := StartTime(ms, tf), Interval(tf);
      var gs: seq<seq<Candle>> := Groups(ms, tf);
      var aggs: seq<Candle> := Aggregates(ms, symbol, tf);
      SeriesNotBefore(ms, tf);
      RunsFlatten(ms, |ms|, start, interval);
      RunsSameBucket(ms, |ms|, start, interval);
      forall g, k | 0 <= g < |gs| && 0 <= k < |gs[g]|
        ensures aggs[g].ts <= gs[g][k].ts < aggs[g].ts + interval
      {
        RollUpsAt(gs, symbol, tf, start, g);
        var pos := FlattenIndex(gs, g, k);
        assert ms[pos] == gs[g][k];
      }
    }
  }

  /** Each aggregate timestamp is a bucket boundary counted from the start time. */
  lemma AggregatesAligned(ms: seq<Candle>, symbol: string, tf: Timeframe)
    requires ms != []
    ensures AlignedStarts(Aggregates(ms, symbol, tf), StartTime(ms, tf), Interval(tf))
  {
    var gs: seq<seq<Candle>> := Groups(ms, tf);
    var aggs: seq<Candle> := Aggregates(ms, symbol, tf);
    var start := StartTime(ms, tf);
    forall g | 0 <= g < |aggs| {
      AlignedAt(gs, aggs, g, symbol, tf, start);
    }
  }

  lemma AlignedAt(gs: seq<seq<Candle>>, aggs: seq<Candle>, g: nat, symbol: string, tf: Timeframe, start: int)
    requires forall k :: 0 <= k < |gs| ==> gs[k] != []
    requires aggs == RollUps(gs, symbol, tf, start) && g < |aggs|
    ensures aggs[g].ts >= start && BucketStart(aggs[g].ts, start, Interval(tf)) == aggs[g].ts
  {
    RollUpsAt(gs, symbol, tf, start, g);
    BucketIdempotent(gs[g][0].ts, start, Interval(tf));
  }

  /** On an ordered series the aggregates' buckets are disjoint and increasing. */
  lemma AggregatesDisjoint(ms: seq<Candle>, symbol: string, tf: Timeframe)
    requires TimeOrdered(ms)
    ensures DisjointBuckets(Aggregates(ms, symbol, tf), Interval(tf))
  {
    if ms != [] {
      var start, interval := StartTime(ms, tf), Interval(tf);
      var gs: seq<seq<Candle>> := Groups(ms, tf);
      var aggs: seq<Candle> := Aggregates(ms, symbol, tf);
      SeriesNotBefore(ms, tf);
      RunsIncreasing(ms, |ms|, start, interval);
      forall g, h | 0 <= g < h < |aggs|
        ensures aggs[g].ts + interval <= aggs[h].ts
      {
        RollUpsAt(gs, symbol, tf, start, g);
        RollUpsAt(gs, symbol, tf, start, h);
      }
    }
  }

  lemma RollUpsAppend(gs: seq<seq<Candle>>, g: seq<Candle>, symbol: string, tf: Timeframe, start: int)
    requires forall k :: 0 <= k < |gs| ==> gs[k] != []
    requires g != []
    ensures RollUps(gs + [g], symbol, tf, start)
      == RollUps(gs, symbol, tf, start) + [CreateAggregatedCandle(g, symbol, tf, RunStart(g, start, Interval(tf))).value]
  {
    assert (gs + [g])[..|gs|] == gs;
  }

  lemma RunsFirst(ms: seq<Candle>, start: int, interval: nat)
    requires interval > 0 && ms != []
    ensures Runs(ms, 1, start, interval) == [[ms[0]]]
  {
    assert Runs(ms, 0, start, interval) == [];
  }

  /** A candle inside the current bucket extends the current run. */
  lemma SameBucketStep(ms: seq<Candle>, i: nat, start: int, interval: nat, closed: seq<seq<Candle>>, group: seq<Candle>)
    requires interval > 0 && 0 < i < |ms| && group != [] && ms[i - 1].ts <= ms[i].ts && start <= ms[i - 1].ts
    requires closed + [group] == Runs(ms, i, start, interval)
    requires BucketStart(group[0].ts, start, interval) == BucketStart(ms[i - 1].ts, start, interval)
    requires ms[i].ts < BucketStart(ms[i - 1].ts, start, interval) + interval
    ensures BucketStart(ms[i].ts, start, interval) == BucketStart(ms[i - 1].ts, start, interval)
    ensures Runs(ms, i + 1, start, interval) == closed + [group + [ms[i]]]
  {
    BucketRestart(ms[i].ts, ms[i - 1].ts, start, interval);
    var init := closed + [group];
    assert init[..|init| - 1] == closed;
  }

  /** A candle at or past the next boundary starts a new run. */
  lemma NewBucketStep(ms: seq<Candle>, i: nat, start: int, interval: nat, closed: seq<seq<Candle>>, group: seq<Candle>)
    requires interval > 0 && 0 < i < |ms| && group != []
    requires closed + [group] == Runs(ms, i, start, interval)
    requires BucketStart(group[0].ts, start, interval) + interval <= ms[i].ts
    ensures Runs(ms, i + 1, start, interval) == closed + [group] + [[ms[i]]]
  {
  }

  /** Advancing the current time by whole intervals keeps the bucket a timestamp falls in. */
  lemma AdvanceStep(t: int, start: int, current: int, next: int, interval: nat)
    requires interval > 0 && next == current + interval <= t
    requires BucketStart(t, start, interval) == BucketStart(t, current, interval)
    ensures BucketStart(t, start, interval) == BucketStart(t, next, interval)
  {
  }

  /** Each candle is no earlier than the one before it (the loop's view of TimeOrdered). */
  ghost predicate Chained(ms: seq<Candle>)
  {
    forall k :: 0 < k < |ms| ==> ms[k - 1].ts <= ms[k].ts
  }

  /** The grouping loop: walks the series, closing the current group whenever a
      candle reaches the next boundary and skipping empty buckets. */
  method AggregateSeries(ms: seq<Candle>, symbol: string, tf: Timeframe) returns (aggs: seq<Candle>)
    requires Chained(ms)
    ensures aggs == Aggregates(ms, symbol, tf)
  {
    aggs := [];
    if ms != [] {
      var interval := Interval(tf);
      var start := StartTime(ms, tf);
      FirstInFirstBucket(ms[0].ts, tf);
      var group: seq<Candle> := [];
      ghost var closed: seq<seq<Candle>> := [];
      var current := start;
      var i := 0;
      while i < |ms|
        invariant 0 <= i <= |ms|
        invariant i == 0 ==> group == [] && closed == [] && current == start
        invariant i > 0 ==> group != [] && closed + [group] == Runs(ms, i, start, interval)
        invariant i > 0 ==> start <= ms[i - 1].ts && current == BucketStart(ms[i - 1].ts, start, interval)
        invariant i > 0 ==> BucketStart(group[0].ts, start, interval) == current
        invariant forall g :: 0 <= g < |closed| ==> closed[g] != []
        invariant aggs == RollUps(closed, symbol, tf, start)
      {
        var c := ms[i];
        var next := current + interval;
        if c.ts >= next {
          if group != [] {
            RollUpsAppend(closed, group, symbol, tf, start);
            aggs := aggs + [CreateAggregatedCandle(group, symbol, tf, current).value];
          }
          NewBucketStep(ms, i, start, interval, closed, group);
          assert ms[i - 1].ts <= c.ts;
          BucketRestart(c.ts, ms[i - 1].ts, start, interval);
          while c.ts >= next
            invariant next == current + interval && start <= current <= c.ts
            invariant BucketStart(c.ts, start, interval) == BucketStart(c.ts, current, interval)
            decreases c.ts - current
          {
            AdvanceStep(c.ts, start, current, next, interval);
            current := next;
            next := current + interval;
          }
          closed := closed + [group];
          group := [c];
        } else {
          if i == 0 {
            RunsFirst(ms, start, interval);
            assert group + [c] == [c];
            assert closed + [[c]] == [[c]];
          } else {
            SameBucketStep(ms, i, start, interval, closed, group);
          }
          group := group + [c];
        }
        ghost var runs := Runs(ms, i + 1, start, interval);
        assert closed + [group] == runs;
        i := i + 1;
        assert runs == Runs(ms, i, start, interval) && ms[i - 1] == c;
      }
      RollUpsAppend(closed, group, symbol, tf, start);
      aggs := aggs + [CreateAggregatedCandle(group, symbol, tf, current).value];
    }
  }

  // ---------------------------------------------------------------------
  // Linking the 1-minute candles to the new level (generate_higher_timeframe_candles)

  /** A candle the link step considers: a 1-minute candle of the symbol. */
  predicate IsChild(c: Candle, symbol: string)
  {
    c.symbol == symbol && c.tf.M1?
  }

  predicate InWindow(t: int, start: int, interval: nat)
  {
    start <= t < start + interval
  }

  /** The last aggregate whose window [ts, ts + interval) holds t: the link loop
      visits the aggregates in order, so a later window overrides an earlier one. */
  function LastWindow(aggs: seq<Candle>, t: int, interval: nat): (r: Option<nat>)
    ensures r.Some? ==> r.value < |aggs| && InWindow(t, aggs[r.value].ts, interval)
    ensures r.Some? ==> forall k :: r.value < k < |aggs| ==> !InWindow(t, aggs[k].ts, interval)
    ensures r.None? ==> forall k :: 0 <= k < |aggs| ==> !InWindow(t, aggs[k].ts, interval)
  {
    if aggs == [] then None
    else if InWindow(t, Last(aggs).ts, interval) then Some(|aggs| - 1)
    else LastWindow(aggs[..|aggs| - 1], t, interval)
  }

  /** With disjoint windows, the window holding t is the one found. */
  lemma LastWindowUnique(aggs: seq<Candle>, t: int, interval: nat, g: nat)
    requires DisjointBuckets(aggs, interval)
    requires g < |aggs| && InWindow(t, aggs[g].ts, interval)
    ensures LastWindow(aggs, t, interval) == Some(g)
  {
  }

  /** One candle after the link loop: a child inside some window points at that aggregate. */
  function RelinkOne(c: Candle, symbol: string, aggs: seq<Candle>, base: nat, interval: nat): Candle
  {
    if IsChild(c, symbol) then
      match LastWindow(aggs, c.ts, interval)
      case Some(k) => c.(parent := Some(base + k))
      case None => c
    else c
  }

  /** The candle arena after the link loop over aggregates stored at ids base, base + 1, .... */
  function Relink(cs: seq<Candle>, symbol: string, aggs: seq<Candle>, base: nat, interval: nat): (r: seq<Candle>)
    ensures |r| == |cs|
  {
    seq(|cs|, x requires 0 <= x < |cs| => RelinkOne(cs[x], symbol, aggs, base, interval))
  }

  /** Adding one more aggregate to the link loop re-links exactly the children in its window. */
  lemma RelinkOneStep(c: Candle, symbol: string, aggs: seq<Candle>, k: nat, base: nat, interval: nat)
    requires k < |aggs|
    ensures RelinkOne(c, symbol, aggs[..k + 1], base, interval) ==
      if IsChild(c, symbol) && InWindow(c.ts, aggs[k].ts, interval)
      then RelinkOne(c, symbol, aggs[..k], base, interval).(parent := Some(base + k))
      else RelinkOne(c, symbol, aggs[..k], base, interval)
  {
    assert aggs[..k + 1][..k] == aggs[..k];
  }

  /** The link loop: for each new aggregate, every 1-minute candle of the symbol in
      its window gets the aggregate as parent. */
  method LinkChildren(db: Database, symbol: string, aggs: seq<Candle>, base: nat, interval: nat)
    modifies db
    ensures db.candles == Relink(old(db.candles), symbol, aggs, base, interval)
    ensures db.patterns == old(db.patterns) && db.gaps == old(db.gaps) && db.trades == old(db.trades)
  {
    ghost var cs0 := db.candles;
    var k := 0;
    assert aggs[..0] == [];
    assert db.candles == Relink(cs0, symbol, aggs[..0], base, interval);
    while k < |aggs|
      invariant 0 <= k <= |aggs|
      invariant db.candles == Relink(cs0, symbol, aggs[..k], base, interval)
      invariant db.patterns == old(db.patterns) && db.gaps == old(db.gaps) && db.trades == old(db.trades)
    {
      var lo := aggs[k].ts;
      var hi := lo + interval;
      var x := 0;
      while x < |db.candles|
        invariant 0 <= x <= |db.candles| == |cs0|
        invariant forall y :: 0 <= y < x ==> db.candles[y] == RelinkOne(cs0[y], symbol, aggs[..k + 1], base, interval)
        invariant forall y :: x <= y < |cs0| ==> db.candles[y] == RelinkOne(cs0[y], symbol, aggs[..k], base, interval)
        invariant db.patterns == old(db.patterns) && db.gaps == old(db.gaps) && db.trades == old(db.trades)
      {
        var cd := db.candles[x];
        RelinkOneStep(cs0[x], symbol, aggs, k, base, interval);
        if cd.symbol == symbol && cd.tf == M1 && lo <= cd.ts && cd.ts < hi {
          db.candles := db.candles[x := cd.(parent := Some(base + k))];
        }
        x := x + 1;
      }
      ghost var relinked := Relink(cs0, symbol, aggs[..k + 1], base, interval);
      assert db.candles == relinked;
      k := k + 1;
      assert relinked == Relink(cs0, symbol, aggs[..k], base, interval);
    }
    assert aggs[..k] == aggs;
  }

  // ---------------------------------------------------------------------
  // One level and the whole ladder

  /** The candle arena after one level: the aggregates of the symbol's 1-minute
      series are appended and every 1-minute candle in an aggregate's window is
      linked to it. */
  function Level(cs: seq<Candle>, symbol: string, tf: Timeframe): seq<Candle>
  {
    var aggs := Aggregates(Series(cs, symbol, M1), symbol, tf);
    Relink(cs + aggs, symbol, aggs, |cs|, Interval(tf))
  }

  /** The link loop changes at most the parent of a child; other candles are untouched. */
  lemma RelinkKeeps(cs: seq<Candle>, symbol: string, aggs: seq<Candle>, base: nat, interval: nat)
    ensures forall x :: 0 <= x < |cs| ==>
      Relink(cs, symbol, aggs, base, interval)[x] == cs[x].(parent := Relink(cs, symbol, aggs, base, interval)[x].parent)
    ensures forall x :: 0 <= x < |cs| && !IsChild(cs[x], symbol) ==> Relink(cs, symbol, aggs, base, interval)[x] == cs[x]
  {
  }

  /** Appending candles that are not children and re-linking keeps them as appended. */
  lemma AppendRelink(cs: seq<Candle>, symbol: string, aggs: seq<Candle>, interval: nat)
    requires forall g :: 0 <= g < |aggs| ==> !aggs[g].tf.M1?
    ensures var r := Relink(cs + aggs, symbol, aggs, |cs|, interval);
      && |r| == |cs| + |aggs|
      && (forall g :: 0 <= g < |aggs| ==> r[|cs| + g] == aggs[g])
      && (forall x :: 0 <= x < |cs| ==> r[x] == cs[x].(parent := r[x].parent))
      && (forall x :: 0 <= x < |cs| && !IsChild(cs[x], symbol) ==> r[x] == cs[x])
  {
    var ext := cs + aggs;
    RelinkKeeps(ext, symbol, aggs, |cs|, interval);
    assert forall g :: 0 <= g < |aggs| ==> ext[|cs| + g] == aggs[g];
    assert forall x :: 0 <= x < |cs| ==> ext[x] == cs[x];
  }

  /** A level appends its aggregates after the existing candles and changes at
      most the parent of an existing candle, and only of a 1-minute candle of the symbol. */
  lemma LevelShape(cs: seq<Candle>, symbol: string, tf: Timeframe)
    requires !tf.M1?
    ensures var aggs := Aggregates(Series(cs, symbol, M1), symbol, tf);
      && |Level(cs, symbol, tf)| == |cs| + |aggs|
      && (forall g :: 0 <= g < |aggs| ==> Level(cs, symbol, tf)[|cs| + g] == aggs[g])
    ensures forall x :: 0 <= x < |cs| ==>
      Level(cs, symbol, tf)[x] == cs[x].(parent := Level(cs, symbol, tf)[x].parent)
    ensures forall x :: 0 <= x < |cs| && !IsChild(cs[x], symbol) ==> Level(cs, symbol, tf)[x] == cs[x]
  {
    var ms := Series(cs, symbol, M1);
    var aggs := Aggregates(ms, symbol, tf);
    AggregatesRollUp(ms, symbol, tf);
    AppendRelink(cs, symbol, aggs, Interval(tf));
  }

  /** The candle at x is linked to a candle at or after lo, of the symbol and
      timeframe tf, whose window holds it. */
  ghost predicate LinkedInto(cs: seq<Candle>, x: nat, symbol: string, tf: Timeframe, lo: nat)
    requires x < |cs|
  {
    && cs[x].parent.Some?
    && lo <= cs[x].parent.value < |cs|
    && cs[cs[x].parent.value].symbol == symbol
    && cs[cs[x].parent.value].tf == tf
    && InWindow(cs[x].ts, cs[cs[x].parent.value].ts, Interval(tf))
  }

  /** Every 1-minute candle of the symbol appears in its ordered series. */
  lemma SeriesMember(cs: seq<Candle>, symbol: string, x: nat) returns (pos: nat)
    requires x < |cs| && IsChild(cs[x], symbol)
    ensures pos < |Series(cs, symbol, M1)| && Series(cs, symbol, M1)[pos] == cs[x]
  {
    var ids := SeriesIds(cs, symbol, M1);
    assert x in ids;
    pos :| 0 <= pos < |ids| && ids[pos] == x;
  }

  /** Every candle of an ordered series lies in the window of exactly one
      aggregate, the one the link loop settles on. */
  lemma AggregateOf(ms: seq<Candle>, symbol: string, tf: Timeframe, pos: nat) returns (g: nat)
    requires TimeOrdered(ms) && pos < |ms|
    ensures var aggs := Aggregates(ms, symbol, tf);
      && g < |aggs|
      && aggs[g].symbol == symbol && aggs[g].tf == tf
      && InWindow(ms[pos].ts, aggs[g].ts, Interval(tf))
      && LastWindow(aggs, ms[pos].ts, Interval(tf)) == Some(g)
  {
    var aggs := Aggregates(ms, symbol, tf);
    var gs := Groups(ms, tf);
    AggregatesRollUp(ms, symbol, tf);
    AggregatesCover(ms, symbol, tf);
    AggregatesDisjoint(ms, symbol, tf);
    var k;
    g, k := FlattenLocate(gs, pos);
    LastWindowUnique(aggs, ms[pos].ts, Interval(tf), g);
  }

  /** A child inside an aggregate's window is re-linked to that aggregate. */
  lemma RelinkInto(cs: seq<Candle>, symbol: string, aggs: seq<Candle>, tf: Timeframe, x: nat, g: nat)
    requires x < |cs| && IsChild(cs[x], symbol) && g < |aggs| && LastWindow(aggs, cs[x].ts, Interval(tf)) == Some(g)
    requires aggs[g].symbol == symbol && aggs[g].tf == tf && !tf.M1?
    ensures x < |Relink(cs + aggs, symbol, aggs, |cs|, Interval(tf))|
    ensures LinkedInto(Relink(cs + aggs, symbol, aggs, |cs|, Interval(tf)), x, symbol, tf, |cs|)
  {
    var ext := cs + aggs;
    var r := Relink(ext, symbol, aggs, |cs|, Interval(tf));
    assert ext[x] == cs[x] && ext[|cs| + g] == aggs[g];
    assert r[x] == cs[x].(parent := Some(|cs| + g));
    assert r[|cs| + g] == aggs[g];
  }

  /** After a level every 1-minute candle of the symbol has as parent the new
      aggregate whose window [ts, ts + interval) holds its timestamp. */
  lemma LevelLinks(cs: seq<Candle>, symbol: string, tf: Timeframe, x: nat)
    requires !tf.M1? && x < |cs| && IsChild(cs[x], symbol)
    ensures x < |Level(cs, symbol, tf)| && LinkedInto(Level(cs, symbol, tf), x, symbol, tf, |cs|)
  {
    var ms := Series(cs, symbol, M1);
    var pos := SeriesMember(cs, symbol, x);
    var g := AggregateOf(ms, symbol, tf, pos);
    RelinkInto(cs, symbol, Aggregates(ms, symbol, tf), tf, x, g);
  }

  /** The whole ladder from tf up to 4H: each level re-reads the 1-minute series
      and re-links it; the climb stops at 4H or when there is nothing to aggregate. */
  function Ladder(cs: seq<Candle>, symbol: string, tf: Timeframe): seq<Candle>
    requires !tf.M1?
    decreases 5 - Rank(tf)
  {
    var lv := Level(cs, symbol, tf);
    if tf.H4? || Aggregates(Series(cs, symbol, M1), symbol, tf) == [] then lv
    else Ladder(lv, symbol, Next(tf).value)
  }

  /** The ladder appends candles and changes at most the parent of an existing
      1-minute candle of the symbol. */
  lemma {:induction false} LadderShape(cs: seq<Candle>, symbol: string, tf: Timeframe)
    requires !tf.M1?
    ensures |Ladder(cs, symbol, tf)| >= |cs|
    ensures forall x :: 0 <= x < |cs| ==>
      Ladder(cs, symbol, tf)[x] == cs[x].(parent := Ladder(cs, symbol, tf)[x].parent)
    ensures forall x :: 0 <= x < |cs| && !IsChild(cs[x], symbol) ==> Ladder(cs, symbol, tf)[x] == cs[x]
    decreases 5 - Rank(tf)
  {
    LevelShape(cs, symbol, tf);
    if !tf.H4? && Aggregates(Series(cs, symbol, M1), symbol, tf) != [] {
      var lv := Level(cs, symbol, tf);
      LadderShape(lv, symbol, Next(tf).value);
      forall x | 0 <= x < |cs| && !IsChild(cs[x], symbol)
        ensures Ladder(cs, symbol, tf)[x] == cs[x]
      {
        assert !IsChild(lv[x], symbol);
      }
    }
  }

  /** A 1-minute candle of the symbol makes the series, hence the aggregates, non-empty. */
  lemma ChildMakesAggregates(cs: seq<Candle>, symbol: string, tf: Timeframe, x: nat)
    requires x < |cs| && IsChild(cs[x], symbol)
    ensures Aggregates(Series(cs, symbol, M1), symbol, tf) != []
  {
    var ids := SeriesIds(cs, symbol, M1);
    assert x in ids;
    var ms := Series(cs, symbol, M1);
    assert |ms| == |ids| > 0;
    AggregatesRollUp(ms, symbol, tf);
  }

  /** After the whole ladder, the parent of every 1-minute candle of the symbol
      is the 4H candle whose window holds it: each level overwrote the link the
      previous level made. */
  lemma {:induction false} LadderLinksToTop(cs: seq<Candle>, symbol: string, tf: Timeframe, x: nat)
    requires !tf.M1? && x < |cs| && IsChild(cs[x], symbol)
    ensures x < |Ladder(cs, symbol, tf)| && LinkedInto(Ladder(cs, symbol, tf), x, symbol, H4, |cs|)
    decreases 5 - Rank(tf)
  {
    LevelLinks(cs, symbol, tf, x);
    ChildMakesAggregates(cs, symbol, tf, x);
    if !tf.H4? {
      var lv := Level(cs, symbol, tf);
      LevelShape(cs, symbol, tf);
      assert IsChild(lv[x], symbol) && lv[x].ts == cs[x].ts;
      LadderLinksToTop(lv, symbol, Next(tf).value, x);
    }
  }

  /** Relinked parents point at the appended aggregates, so the arena stays closed. */
  lemma LevelWellFormed(cs: seq<Candle>, symbol: string, tf: Timeframe)
    requires !tf.M1? && CandlesWellFormed(cs)
    ensures CandlesWellFormed(Level(cs, symbol, tf))
  {
    var ms := Series(cs, symbol, M1);
    var aggs := Aggregates(ms, symbol, tf);
    var ext := cs + aggs;
    AggregatesRollUp(ms, symbol, tf);
    var lv := Level(cs, symbol, tf);
    forall x | 0 <= x < |lv| && lv[x].parent.Some?
      ensures lv[x].parent.value < |lv|
    {
      if x < |cs| {
        assert ext[x] == cs[x];
      }
    }
  }

  /** One level, stated over the aggregates the caller already holds. */
  lemma LevelIs(cs: seq<Candle>, symbol: string, tf: Timeframe, aggs: seq<Candle>)
    requires !tf.M1? && aggs == Aggregates(Series(cs, symbol, M1), symbol, tf)
    ensures Relink(cs + aggs, symbol, aggs, |cs|, Interval(tf)) == Level(cs, symbol, tf)
  {
  }

  /** Below 4H the ladder is one level followed by the ladder from the next timeframe. */
  lemma LadderStep(cs: seq<Candle>, symbol: string, tf: Timeframe, aggs: seq<Candle>, lv: seq<Candle>)
    requires !tf.M1? && !tf.H4? && aggs == Aggregates(Series(cs, symbol, M1), symbol, tf)
    requires lv == Level(cs, symbol, tf)
    ensures aggs == [] ==> Ladder(cs, symbol, tf) == lv
    ensures aggs != [] ==> Ladder(cs, symbol, tf) == Ladder(lv, symbol, Next(tf).value)
  {
  }

  /** At 4H the ladder is the single level. */
  lemma LadderTop(cs: seq<Candle>, symbol: string, tf: Timeframe)
    requires tf.H4?
    ensures Ladder(cs, symbol, tf) == Level(cs, symbol, tf)
  {
  }

  // ---------------------------------------------------------------------
  // The store operation

  /** One pass of generate_higher_timeframe_candles without the recursion: the
      aggregates are appended to the store and the 1-minute candles of the
      symbol are linked to them. */
  method StoreLevel(db: Database, oneMinute: seq<Candle>, symbol: string, tf: Timeframe) returns (aggs: seq<Candle>)
    requires db.Valid() && !tf.M1? && oneMinute == Series(db.candles, symbol, M1)
    modifies db
    ensures db.Valid()
    ensures db.patterns == old(db.patterns) && db.gaps == old(db.gaps) && db.trades == old(db.trades)
    ensures aggs == Aggregates(oneMinute, symbol, tf)
    ensures db.candles == Level(old(db.candles), symbol, tf)
  {
    ghost var cs0 := db.candles;
    aggs := AggregateSeries(oneMinute, symbol, tf);
    var base := |db.candles|;
    db.candles := db.candles + aggs;
    LinkChildren(db, symbol, aggs, base, Interval(tf));
    LevelIs(cs0, symbol, tf, aggs);
    LevelWellFormed(cs0, symbol, tf);
  }

  /** Rungs left above a requested timeframe: the recursion's measure. */
  function Height(timeframe: string): nat
  {
    match ParseTarget(timeframe)
    case Some(tf) => 6 - Rank(tf)
    case None => 0
  }

  /** generate_higher_timeframe_candles: aggregate the symbol's 1-minute candles to
      the requested timeframe, store the aggregates, link the 1-minute candles to
      them and continue with the next timeframe up to 4H. The returned candles are
      the aggregates of the requested timeframe. */
  method GenerateHigherTimeframeCandles(db: Database, candles: seq<Candle>, timeframe: string) returns (r: Result<seq<Candle>>)
    requires db.Valid()
    modifies db
    ensures db.Valid()
    ensures db.patterns == old(db.patterns) && db.gaps == old(db.gaps) && db.trades == old(db.trades)
    ensures candles == [] ==> r == Ok([]) && db.candles == old(db.candles)
    ensures candles != [] && ParseTarget(timeframe).None? ==> r.Err? && db.candles == old(db.candles)
    ensures candles != [] && ParseTarget(timeframe).Some? ==>
      var symbol, tf := candles[0].symbol, ParseTarget(timeframe).value;
      && r == Ok(Aggregates(Series(old(db.candles), symbol, M1), symbol, tf))
      && db.candles == Ladder(old(db.candles), symbol, tf)
    decreases Height(timeframe)
  {
    if candles == [] {
      return Ok([]);
    }
    var symbol := candles[0].symbol;
    var oneMinute := Series(db.candles, symbol, M1);
    var target := ParseTarget(timeframe);
    if target.None? {
      return Err("Unsupported timeframe: " + timeframe);
    }
    var tf := target.value;
    ghost var cs0 := db.candles;
    var aggs := StoreLevel(db, oneMinute, symbol, tf);
    if !tf.H4? {
      var next := Next(tf).value;
      AggregatesRollUp(oneMinute, symbol, tf);
      NameRoundTrip(next);
      ghost var lv := db.candles;
      var _ := GenerateHigherTimeframeCandles(db, aggs, Name(next));
      LadderStep(cs0, symbol, tf, aggs, lv);
    } else {
      LadderTop(cs0, symbol, tf);
    }
    return Ok(aggs);
  }
}
