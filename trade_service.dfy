/** Trade opportunities: every valid change of character on the signal
    timeframe is paired with the first fair value gap that opens at or after it,
    entry, stop and target levels are set from the gap at a 1:2 risk-reward
    ratio, each trade is played forward over later candles, and the store's
    trades are summarised. */
module TradeService {
  import opened Models
  import opened Queries

  // ---------------------------------------------------------------------
  // Trade levels

  /** Entry in the middle of the gap; for a gap whose start lies above its end
      the stop sits 0.1% below the end and the target twice the risk above the
      entry, otherwise the stop sits 0.1% above the end and the target twice the
      risk below the entry. */
  function TradeLevels(g: Gap): (real, real, real)
  {
    var entry := (g.startPrice + g.endPrice) / 2.0;
    if g.startPrice > g.endPrice then
      var stop := g.endPrice * 0.999;
      var risk := entry - stop;
      (entry, stop, entry + risk * 2.0)
    else
      var stop := g.endPrice * 1.001;
      var risk := stop - entry;
      (entry, stop, entry - risk * 2.0)
  }

  /** In both branches the reward is twice the risk, on the far side of the
      entry from the stop. */
  lemma RewardTwiceRisk(g: Gap)
    ensures var (entry, stop, target) := TradeLevels(g);
      target - entry == 2.0 * (entry - stop)
  {
  }

  /** A gap whose start lies above its end, at positive prices, gives a long
      trade: the stop lies below the gap, the entry inside it, the target above
      the entry. */
  lemma LongLevels(g: Gap)
    requires g.startPrice > g.endPrice > 0.0
    ensures var (entry, stop, target) := TradeLevels(g);
      stop < g.endPrice < entry < g.startPrice && entry < target
  {
  }

  /** Otherwise, at positive prices, the trade is short: the stop lies above the
      end, the target below the entry. */
  lemma ShortLevels(g: Gap)
    requires 0.0 < g.startPrice <= g.endPrice
    ensures var (entry, stop, target) := TradeLevels(g);
      g.startPrice <= entry <= g.endPrice < stop && target < entry
  {
  }

  // ---------------------------------------------------------------------
  // The signals

  /** A valid CHoCH of the timeframe whose candle belongs to the symbol. */
  predicate Signal(cs: seq<Candle>, ps: seq<Pattern>, symbol: string, tf: AnalysisTimeframe, k: nat)
    requires k < |ps|
  {
    var p := ps[k];
    p.candle < |cs| && cs[p.candle].symbol == symbol && p.tf == tf && p.kind == CHoCH && p.status == Valid
  }

  /** The time of each pattern's candle (patterns without one never reach a
      join, so their key is never read). */
  function PatternTimes(cs: seq<Candle>, ps: seq<Pattern>): (key: seq<int>)
    ensures |key| == |ps|
  {
    seq(|ps|, k requires 0 <= k < |ps| => if ps[k].candle < |cs| then cs[ps[k].candle].ts else 0)
  }

  /** Ids below n whose flag is set, in increasing order. */
  function Selected(flags: seq<bool>, n: nat): (r: seq<nat>)
    requires n <= |flags|
    ensures forall k :: 0 <= k < |r| ==> r[k] < n
  {
    if n == 0 then []
    else if flags[n - 1] then Selected(flags, n - 1) + [n - 1]
    else Selected(flags, n - 1)
  }

  lemma {:induction false} SelectedFacts(flags: seq<bool>, n: nat)
    requires n <= |flags|
    ensures var r := Selected(flags, n);
      && (forall x: nat :: x in r <==> x < n && flags[x])
      && (forall a, b :: 0 <= a < b < |r| ==> r[a] < r[b])
  {
    if n > 0 {
      SelectedFacts(flags, n - 1);
      var init := Selected(flags, n - 1);
      if flags[n - 1] {
        var r := init + [n - 1];
        forall a, b | 0 <= a < b < |r|
          ensures r[a] < r[b]
        {
          assert r[a] == init[a];
          if b < |init| {
            assert r[b] == init[b];
          }
        }
      }
    }
  }

  /** Which patterns are signals. */
  function SignalFlags(cs: seq<Candle>, ps: seq<Pattern>, symbol: string, tf: AnalysisTimeframe): (f: seq<bool>)
    ensures |f| == |ps| && forall k :: 0 <= k < |ps| ==> f[k] == Signal(cs, ps, symbol, tf, k)
  {
    seq(|ps|, k requires 0 <= k < |ps| => Signal(cs, ps, symbol, tf, k))
  }

  /** Ids below n of the signals, in store order. */
  function SignalIds(cs: seq<Candle>, ps: seq<Pattern>, symbol: string, tf: AnalysisTimeframe, n: nat): (r: seq<nat>)
    requires n <= |ps|
    ensures forall k :: 0 <= k < |r| ==> r[k] < n
  {
    Selected(SignalFlags(cs, ps, symbol, tf), n)
  }

  lemma SignalIdsFacts(cs: seq<Candle>, ps: seq<Pattern>, symbol: string, tf: AnalysisTimeframe, n: nat)
    requires n <= |ps|
    ensures var r := SignalIds(cs, ps, symbol, tf, n);
      && (forall x: nat :: x in r <==> x < n && Signal(cs, ps, symbol, tf, x))
      && (forall a, b :: 0 <= a < b < |r| ==> r[a] < r[b])
  {
    SelectedFacts(SignalFlags(cs, ps, symbol, tf), n);
  }

  /** The signal query, ordered by the time of the pattern's candle. */
  function Signals(cs: seq<Candle>, ps: seq<Pattern>, symbol: string, tf: AnalysisTimeframe): seq<nat>
  {
    SortBy(SignalIds(cs, ps, symbol, tf, |ps|), PatternTimes(cs, ps))
  }

  /** No element occurs twice. */
  ghost predicate Distinct(xs: seq<nat>)
  {
    forall a, b :: 0 <= a < b < |xs| ==> xs[a] != xs[b]
  }

  lemma {:induction false} DistinctCount(xs: seq<nat>, x: nat)
    requires Distinct(xs)
    ensures multiset(xs)[x] <= 1
  {
    if xs != [] {
      var init := xs[..|xs| - 1];
      assert xs == init + [xs[|xs| - 1]];
      DistinctCount(init, x);
      if xs[|xs| - 1] == x {
        assert x !in init;
      }
    }
  }

  lemma RepeatCount(xs: seq<nat>, a: nat, b: nat)
    requires a < b < |xs| && xs[a] == xs[b]
    ensures multiset(xs)[xs[a]] >= 2
  {
    assert xs == xs[..b] + [xs[b]] + xs[b + 1..];
    assert xs[a] in xs[..b];
  }

  /** A reordering of a list without repeats has none either. */
  lemma DistinctPermutation(xs: seq<nat>, ys: seq<nat>)
    requires Distinct(xs) && multiset(xs) == multiset(ys)
    ensures Distinct(ys)
  {
    forall a, b | 0 <= a < b < |ys| ensures ys[a] != ys[b] {
      if ys[a] == ys[b] {
        RepeatCount(ys, a, b);
        DistinctCount(xs, ys[a]);
      }
    }
  }

  /** The signals are exactly the valid CHoCHs of the symbol and timeframe, each
      once. */
  lemma SignalsMembers(cs: seq<Candle>, ps: seq<Pattern>, symbol: string, tf: AnalysisTimeframe)
    ensures var r := Signals(cs, ps, symbol, tf);
      && (forall x: nat :: x in r <==> x < |ps| && Signal(cs, ps, symbol, tf, x))
      && Distinct(r)
  {
    var ids := SignalIds(cs, ps, symbol, tf, |ps|);
    var r := Signals(cs, ps, symbol, tf);
    SignalIdsFacts(cs, ps, symbol, tf, |ps|);
    forall x: nat ensures x in r <==> x in ids {
      assert x in r <==> x in multiset(r);
      assert x in ids <==> x in multiset(ids);
    }
    DistinctPermutation(ids, r);
  }

  /** The signals point at patterns with a candle, in time order. */
  lemma SignalsOrdered(cs: seq<Candle>, ps: seq<Pattern>, symbol: string, tf: AnalysisTimeframe)
    ensures var r := Signals(cs, ps, symbol, tf);
      && SignalsIn(cs, ps, r)
      && (forall a, b :: 0 <= a < b < |r| ==> cs[ps[r[a]].candle].ts <= cs[ps[r[b]].candle].ts)
  {
    var key := PatternTimes(cs, ps);
    var r := Signals(cs, ps, symbol, tf);
    SignalsMembers(cs, ps, symbol, tf);
    forall k | 0 <= k < |r| ensures r[k] < |ps| && ps[r[k]].candle < |cs| {
      assert r[k] in r;
    }
    forall a, b | 0 <= a < b < |r| ensures cs[ps[r[a]].candle].ts <= cs[ps[r[b]].candle].ts {
      assert key[r[a]] <= key[r[b]];
    }
  }

  // ---------------------------------------------------------------------
  // Pairing with a gap

  /** A gap of the timeframe whose start candle belongs to the symbol and opens
      at or after the given time. */
  predicate GapFrom(cs: seq<Candle>, gs: seq<Gap>, symbol: string, tf: AnalysisTimeframe, t: int, k: nat)
    requires k < |gs|
  {
    var g := gs[k];
    g.startCandle < |cs| && cs[g.startCandle].symbol == symbol && g.tf == tf && cs[g.startCandle].ts >= t
  }

  /** The first gap of the ordered gap query: the earliest start candle, and
      among equal times the first in store order. */
  function EarliestGap(cs: seq<Candle>, gs: seq<Gap>, symbol: string, tf: AnalysisTimeframe, t: int, n: nat): (r: Option<nat>)
    requires n <= |gs|
    ensures r.Some? ==> r.value < n && GapFrom(cs, gs, symbol, tf, t, r.value)
  {
    if n == 0 then None
    else
      var best := EarliestGap(cs, gs, symbol, tf, t, n - 1);
      if GapFrom(cs, gs, symbol, tf, t, n - 1)
        && (best.None? || cs[gs[n - 1].startCandle].ts < cs[gs[best.value].startCandle].ts)
      then Some(n - 1)
      else best
  }

  /** EarliestGap finds a gap exactly when there is one, and none of the gaps
      starts earlier. */
  lemma {:induction false} EarliestGapFacts(cs: seq<Candle>, gs: seq<Gap>, symbol: string, tf: AnalysisTimeframe, t: int, n: nat)
    requires n <= |gs|
    ensures var r := EarliestGap(cs, gs, symbol, tf, t, n);
      && (r.None? <==> forall k :: 0 <= k < n ==> !GapFrom(cs, gs, symbol, tf, t, k))
      && (r.Some? ==> forall k :: 0 <= k < n && GapFrom(cs, gs, symbol, tf, t, k) ==>
            cs[gs[r.value].startCandle].ts <= cs[gs[k].startCandle].ts)
  {
    if n > 0 {
      EarliestGapFacts(cs, gs, symbol, tf, t, n - 1);
    }
  }

  /** Every signal points at a pattern whose candle is in the arena. */
  ghost predicate SignalsIn(cs: seq<Candle>, ps: seq<Pattern>, sig: seq<nat>)
  {
    forall k :: 0 <= k < |sig| ==> sig[k] < |ps| && ps[sig[k]].candle < |cs|
  }

  /** The opportunity a signal yields: none without a gap, otherwise one pending
      trade at the first gap's levels. */
  function Pair(cs: seq<Candle>, ps: seq<Pattern>, gs: seq<Gap>, symbol: string, fvgTf: AnalysisTimeframe, pid: nat): seq<Opportunity>
    requires pid < |ps| && ps[pid].candle < |cs|
  {
    match EarliestGap(cs, gs, symbol, fvgTf, cs[ps[pid].candle].ts, |gs|)
    case None => []
    case Some(gid) =>
      var (entry, stop, target) := TradeLevels(gs[gid]);
      [Opportunity(pid, gid, entry, stop, target, Open)]
  }

  /** The opportunities of the first n signals, in signal order. */
  function Opportunities(cs: seq<Candle>, ps: seq<Pattern>, gs: seq<Gap>, symbol: string, fvgTf: AnalysisTimeframe, sig: seq<nat>, n: nat): seq<Opportunity>
    requires n <= |sig| && SignalsIn(cs, ps, sig)
  {
    if n == 0 then []
    else Opportunities(cs, ps, gs, symbol, fvgTf, sig, n - 1) + Pair(cs, ps, gs, symbol, fvgTf, sig[n - 1])
  }

  /** What an opportunity of signal pid looks like. */
  ghost predicate OpportunityFor(cs: seq<Candle>, ps: seq<Pattern>, gs: seq<Gap>, symbol: string, fvgTf: AnalysisTimeframe, pid: nat, o: Opportunity)
    requires pid < |ps| && ps[pid].candle < |cs|
  {
    && o.choch == pid && o.status == Open && o.gap < |gs|
    && EarliestGap(cs, gs, symbol, fvgTf, cs[ps[pid].candle].ts, |gs|) == Some(o.gap)
    && (o.entry, o.stop, o.target) == TradeLevels(gs[o.gap])
  }

  /** Every opportunity comes from one of the first n signals and is pending at
      the levels of that signal's first gap. */
  lemma {:induction false} OpportunitiesSound(cs: seq<Candle>, ps: seq<Pattern>, gs: seq<Gap>, symbol: string, fvgTf: AnalysisTimeframe, sig: seq<nat>, n: nat, o: Opportunity)
    requires n <= |sig| && SignalsIn(cs, ps, sig)
    requires o in Opportunities(cs, ps, gs, symbol, fvgTf, sig, n)
    ensures exists k :: 0 <= k < n && OpportunityFor(cs, ps, gs, symbol, fvgTf, sig[k], o)
  {
    if o !in Pair(cs, ps, gs, symbol, fvgTf, sig[n - 1]) {
      OpportunitiesSound(cs, ps, gs, symbol, fvgTf, sig, n - 1, o);
    } else {
      assert OpportunityFor(cs, ps, gs, symbol, fvgTf, sig[n - 1], o);
    }
  }

  /** A signal with some gap at or after it yields an opportunity. */
  lemma {:induction false} OpportunitiesComplete(cs: seq<Candle>, ps: seq<Pattern>, gs: seq<Gap>, symbol: string, fvgTf: AnalysisTimeframe, sig: seq<nat>, n: nat, k: nat, gid: nat)
    returns (o: Opportunity)
    requires n <= |sig| && SignalsIn(cs, ps, sig) && k < n
    requires gid < |gs| && GapFrom(cs, gs, symbol, fvgTf, cs[ps[sig[k]].candle].ts, gid)
    ensures o in Opportunities(cs, ps, gs, symbol, fvgTf, sig, n) && o.choch == sig[k]
  {
    var init := Opportunities(cs, ps, gs, symbol, fvgTf, sig, n - 1);
    var pair := Pair(cs, ps, gs, symbol, fvgTf, sig[n - 1]);
    assert Opportunities(cs, ps, gs, symbol, fvgTf, sig, n) == init + pair;
    if k < n - 1 {
      o := OpportunitiesComplete(cs, ps, gs, symbol, fvgTf, sig, n - 1, k, gid);
    } else {
      EarliestGapFacts(cs, gs, symbol, fvgTf, cs[ps[sig[k]].candle].ts, |gs|);
      o := pair[0];
    }
  }

  /** The signal ids of the opportunities are among the first n signals. */
  lemma {:induction false} OpportunitiesFrom(cs: seq<Candle>, ps: seq<Pattern>, gs: seq<Gap>, symbol: string, fvgTf: AnalysisTimeframe, sig: seq<nat>, n: nat)
    requires n <= |sig| && SignalsIn(cs, ps, sig)
    ensures forall o :: o in Opportunities(cs, ps, gs, symbol, fvgTf, sig, n) ==> o.choch in sig[..n]
  {
    forall o | o in Opportunities(cs, ps, gs, symbol, fvgTf, sig, n) ensures o.choch in sig[..n] {
      OpportunitiesSound(cs, ps, gs, symbol, fvgTf, sig, n, o);
      var k :| 0 <= k < n && OpportunityFor(cs, ps, gs, symbol, fvgTf, sig[k], o);
      assert sig[..n][k] == sig[k];
    }
  }

  /** No two trades share a signal. */
  ghost predicate OnePerChoch(os: seq<Opportunity>)
  {
    forall a, b :: 0 <= a < b < |os| ==> os[a].choch != os[b].choch
  }

  /** A signal yields at most one opportunity, and it is for that signal. */
  lemma PairChoch(cs: seq<Candle>, ps: seq<Pattern>, gs: seq<Gap>, symbol: string, fvgTf: AnalysisTimeframe, pid: nat)
    requires pid < |ps| && ps[pid].candle < |cs|
    ensures var pair := Pair(cs, ps, gs, symbol, fvgTf, pid);
      |pair| <= 1 && forall k :: 0 <= k < |pair| ==> pair[k].choch == pid
  {
  }

  /** Appending at most one opportunity for a CHoCH not yet present keeps one
      opportunity per CHoCH. */
  lemma AppendOnePer(init: seq<Opportunity>, extra: seq<Opportunity>, c: nat)
    requires OnePerChoch(init) && |extra| <= 1
    requires forall k :: 0 <= k < |extra| ==> extra[k].choch == c
    requires forall k :: 0 <= k < |init| ==> init[k].choch != c
    ensures OnePerChoch(init + extra)
  {
    var os := init + extra;
    forall a, b | 0 <= a < b < |os|
      ensures os[a].choch != os[b].choch
    {
      assert os[a] == init[a];
      if b < |init| {
        assert os[b] == init[b];
      } else {
        assert os[b] == extra[b - |init|];
      }
    }
  }

  /** Distinct signals give at most one opportunity each. */
  lemma {:induction false} OnePerSignal(cs: seq<Candle>, ps: seq<Pattern>, gs: seq<Gap>, symbol: string, fvgTf: AnalysisTimeframe, sig: seq<nat>, n: nat)
    requires n <= |sig| && SignalsIn(cs, ps, sig) && Distinct(sig)
    ensures OnePerChoch(Opportunities(cs, ps, gs, symbol, fvgTf, sig, n))
  {
    if n > 0 {
      OnePerSignal(cs, ps, gs, symbol, fvgTf, sig, n - 1);
      OpportunitiesFrom(cs, ps, gs, symbol, fvgTf, sig, n - 1);
      var init := Opportunities(cs, ps, gs, symbol, fvgTf, sig, n - 1);
      var c := sig[n - 1];
      assert c !in sig[..n - 1];
      forall k | 0 <= k < |init|
        ensures init[k].choch != c
      {
        assert init[k] in init;
      }
      PairChoch(cs, ps, gs, symbol, fvgTf, c);
      AppendOnePer(init, Pair(cs, ps, gs, symbol, fvgTf, c), c);
    }
  }

  // ---------------------------------------------------------------------
  // Playing a trade forward

  predicate Long(o: Opportunity)
  {
    o.target > o.entry
  }

  /** The candle reaches the stop: its low for a long trade, its high otherwise. */
  predicate StopHit(o: Opportunity, c: Candle)
  {
    if Long(o) then c.low <= o.stop else c.high >= o.stop
  }

  /** The candle reaches the target: its high for a long trade, its low otherwise. */
  predicate TargetHit(o: Opportunity, c: Candle)
  {
    if Long(o) then c.high >= o.target else c.low <= o.target
  }

  /** The first candle that reaches the stop or the target decides, the stop
      being checked first; with none the trade stays executed. */
  function Outcome(o: Opportunity, fs: seq<Candle>): TradeStatus
  {
    if fs == [] then Executed
    else if StopHit(o, fs[0]) then Loss
    else if TargetHit(o, fs[0]) then Win
    else Outcome(o, fs[1..])
  }

  /** The status after simulation: with no later candle the trade stays pending. */
  function Resolve(o: Opportunity, fs: seq<Candle>): TradeStatus
  {
    if fs == [] then Open else Outcome(o, fs)
  }

  ghost predicate Undecided(o: Opportunity, fs: seq<Candle>, k: nat)
    requires k <= |fs|
  {
    forall j :: 0 <= j < k ==> !StopHit(o, fs[j]) && !TargetHit(o, fs[j])
  }

  /** The first deciding candle fixes the outcome. */
  lemma {:induction false} OutcomeAt(o: Opportunity, fs: seq<Candle>, k: nat)
    requires k < |fs| && Undecided(o, fs, k) && (StopHit(o, fs[k]) || TargetHit(o, fs[k]))
    ensures Outcome(o, fs) == if StopHit(o, fs[k]) then Loss else Win
  {
    if k > 0 {
      OutcomeAt(o, fs[1..], k - 1);
    }
  }

  /** With no deciding candle the trade is executed, and only then. */
  lemma {:induction false} OutcomeExecuted(o: Opportunity, fs: seq<Candle>)
    ensures Outcome(o, fs) == Executed <==> Undecided(o, fs, |fs|)
    ensures Outcome(o, fs) in {Executed, Win, Loss}
  {
    if fs != [] && !StopHit(o, fs[0]) && !TargetHit(o, fs[0]) {
      OutcomeExecuted(o, fs[1..]);
      assert Undecided(o, fs, |fs|) <==> Undecided(o, fs[1..], |fs| - 1) by {
        forall j | 1 <= j < |fs| ensures fs[j] == fs[1..][j - 1] {}
      }
    }
  }

  /** Simulation never cancels a trade, and leaves it pending exactly when no
      candle follows the signal. */
  lemma ResolveCases(o: Opportunity, fs: seq<Candle>)
    ensures Resolve(o, fs) != Canceled
    ensures Resolve(o, fs) == Open <==> fs == []
  {
    OutcomeExecuted(o, fs);
  }

  /** The later candles of the signal candle's symbol and timeframe, in time order. */
  function Future(cs: seq<Candle>, pc: Candle): seq<Candle>
  {
    Later(Series(cs, pc.symbol, pc.tf), pc.ts)
  }

  /** Every opportunity's signal points at a pattern whose candle is in the arena. */
  ghost predicate TradesIn(cs: seq<Candle>, ps: seq<Pattern>, os: seq<Opportunity>)
  {
    forall k :: 0 <= k < |os| ==> os[k].choch < |ps| && ps[os[k].choch].candle < |cs|
  }

  /** One opportunity after simulation. */
  function Played(cs: seq<Candle>, ps: seq<Pattern>, o: Opportunity): Opportunity
    requires o.choch < |ps| && ps[o.choch].candle < |cs|
  {
    o.(status := Resolve(o, Future(cs, cs[ps[o.choch].candle])))
  }

  /** The opportunities after simulation. */
  function Simulated(cs: seq<Candle>, ps: seq<Pattern>, os: seq<Opportunity>): (r: seq<Opportunity>)
    requires TradesIn(cs, ps, os)
  {
    seq(|os|, k requires 0 <= k < |os| => Played(cs, ps, os[k]))
  }

  /** The scan over the later candles with its two flags and early exits. */
  method SimulateOutcome(o: Opportunity, future: seq<Candle>) returns (status: TradeStatus)
    ensures status == Resolve(o, future)
  {
    if future == [] {
      return Open;
    }
    var stopHit, targetHit := false, false;
    var k := 0;
    if o.target > o.entry {
      while k < |future|
        invariant k <= |future|
        invariant !stopHit && !targetHit
        invariant Outcome(o, future[k..]) == Outcome(o, future)
      {
        var c := future[k];
        assert future[k..][1..] == future[k + 1..];
        if c.low <= o.stop {
          stopHit := true;
          break;
        }
        if c.high >= o.target {
          targetHit := true;
          break;
        }
        k := k + 1;
      }
    } else {
      while k < |future|
        invariant k <= |future|
        invariant !stopHit && !targetHit
        invariant Outcome(o, future[k..]) == Outcome(o, future)
      {
        var c := future[k];
        assert future[k..][1..] == future[k + 1..];
        if c.high >= o.stop {
          stopHit := true;
          break;
        }
        if c.low <= o.target {
          targetHit := true;
          break;
        }
        k := k + 1;
      }
    }
    if targetHit {
      status := Win;
    } else if stopHit {
      status := Loss;
    } else {
      status := Executed;
    }
  }

  /** The loop over the new opportunities, each resolved against the candles
      after its signal. */
  method SimulateTradeOutcomes(cs: seq<Candle>, ps: seq<Pattern>, os: seq<Opportunity>) returns (r: seq<Opportunity>)
    requires TradesIn(cs, ps, os)
    ensures r == Simulated(cs, ps, os)
  {
    r := os;
    var k := 0;
    while k < |r|
      invariant k <= |r| == |os|
      invariant forall j :: 0 <= j < k ==> r[j] == Played(cs, ps, os[j])
      invariant forall j :: k <= j < |r| ==> r[j] == os[j]
    {
      var played := PlayTrade(cs, ps, r[k]);
      r := r[k := played];
      k := k + 1;
    }
    assert |r| == |Simulated(cs, ps, os)|;
  }

  /** Plays one opportunity forward over the candles after its CHoCH. */
  method PlayTrade(cs: seq<Candle>, ps: seq<Pattern>, o: Opportunity) returns (r: Opportunity)
    requires o.choch < |ps| && ps[o.choch].candle < |cs|
    ensures r == Played(cs, ps, o)
  {
    var status := SimulateOutcome(o, Future(cs, cs[ps[o.choch].candle]));
    r := o.(status := status);
  }

  // ---------------------------------------------------------------------
  // Finding the opportunities

  /** The loop over the ordered signals, each paired with its first gap. */
  method FindOpportunities(cs: seq<Candle>, ps: seq<Pattern>, gs: seq<Gap>, symbol: string, fvgTf: AnalysisTimeframe, sig: seq<nat>)
    returns (os: seq<Opportunity>)
    requires SignalsIn(cs, ps, sig)
    ensures os == Opportunities(cs, ps, gs, symbol, fvgTf, sig, |sig|)
  {
    os := [];
    var k := 0;
    while k < |sig|
      invariant k <= |sig|
      invariant os == Opportunities(cs, ps, gs, symbol, fvgTf, sig, k)
    {
      var pid := sig[k];
      var patternCandle := cs[ps[pid].candle];
      var first := EarliestGap(cs, gs, symbol, fvgTf, patternCandle.ts, |gs|);
      if first.Some? {
        var (entry, stop, target) := TradeLevels(gs[first.value]);
        os := os + [Opportunity(pid, first.value, entry, stop, target, Open)];
      }
      k := k + 1;
    }
  }

  /** The opportunities found refer to stored CHoCH patterns and stored gaps. */
  lemma OpportunitiesIn(cs: seq<Candle>, ps: seq<Pattern>, gs: seq<Gap>, symbol: string, fvgTf: AnalysisTimeframe, sig: seq<nat>)
    requires SignalsIn(cs, ps, sig)
    ensures var os := Opportunities(cs, ps, gs, symbol, fvgTf, sig, |sig|);
      TradesIn(cs, ps, os) && forall k :: 0 <= k < |os| ==> os[k].gap < |gs|
  {
    var os := Opportunities(cs, ps, gs, symbol, fvgTf, sig, |sig|);
    forall k | 0 <= k < |os| ensures os[k].choch < |ps| && ps[os[k].choch].candle < |cs| && os[k].gap < |gs| {
      assert os[k] in os;
      OpportunitiesSound(cs, ps, gs, symbol, fvgTf, sig, |sig|, os[k]);
    }
  }

  /** Everything the pass stores for one symbol: the opportunities of the
      signals, already played forward. */
  function Identify(cs: seq<Candle>, ps: seq<Pattern>, gs: seq<Gap>, symbol: string, chochTf: AnalysisTimeframe, fvgTf: AnalysisTimeframe): seq<Opportunity>
  {
    var sig := Signals(cs, ps, symbol, chochTf);
    SignalsOrdered(cs, ps, symbol, chochTf);
    var os := Opportunities(cs, ps, gs, symbol, fvgTf, sig, |sig|);
    OpportunitiesIn(cs, ps, gs, symbol, fvgTf, sig);
    Simulated(cs, ps, os)
  }

  /** Each valid CHoCH of the symbol gives at most one stored trade, tied to the
      first gap at or after it, and no trade is canceled. */
  lemma IdentifyShape(cs: seq<Candle>, ps: seq<Pattern>, gs: seq<Gap>, symbol: string, chochTf: AnalysisTimeframe, fvgTf: AnalysisTimeframe)
    ensures var r := Identify(cs, ps, gs, symbol, chochTf, fvgTf);
      && OnePerChoch(r)
      && (forall k :: 0 <= k < |r| ==>
            && r[k].choch < |ps| && Signal(cs, ps, symbol, chochTf, r[k].choch)
            && r[k].gap < |gs| && gs[r[k].gap].tf == fvgTf
            && r[k].status != Canceled)
  {
    var sig := Signals(cs, ps, symbol, chochTf);
    SignalsOrdered(cs, ps, symbol, chochTf);
    var os := Opportunities(cs, ps, gs, symbol, fvgTf, sig, |sig|);
    OpportunitiesIn(cs, ps, gs, symbol, fvgTf, sig);
    FoundShape(cs, ps, gs, symbol, chochTf, fvgTf);
    SimulatedKeeps(cs, ps, os);
  }

  /** Before simulation: one opportunity per signal, each tied to one of the
      symbol's signals and to a gap of the gap timeframe. */
  lemma FoundShape(cs: seq<Candle>, ps: seq<Pattern>, gs: seq<Gap>, symbol: string, chochTf: AnalysisTimeframe, fvgTf: AnalysisTimeframe)
    ensures SignalsIn(cs, ps, Signals(cs, ps, symbol, chochTf))
    ensures var sig := Signals(cs, ps, symbol, chochTf);
      var os := Opportunities(cs, ps, gs, symbol, fvgTf, sig, |sig|);
      && OnePerChoch(os)
      && (forall k :: 0 <= k < |os| ==>
            && os[k].choch < |ps| && Signal(cs, ps, symbol, chochTf, os[k].choch)
            && os[k].gap < |gs| && gs[os[k].gap].tf == fvgTf)
  {
    var sig := Signals(cs, ps, symbol, chochTf);
    SignalsOrdered(cs, ps, symbol, chochTf);
    SignalsMembers(cs, ps, symbol, chochTf);
    OnePerSignal(cs, ps, gs, symbol, fvgTf, sig, |sig|);
    var os := Opportunities(cs, ps, gs, symbol, fvgTf, sig, |sig|);
    forall k | 0 <= k < |os|
      ensures os[k].choch < |ps| && Signal(cs, ps, symbol, chochTf, os[k].choch)
      ensures os[k].gap < |gs| && gs[os[k].gap].tf == fvgTf
    {
      assert os[k] in os;
      OpportunityShape(cs, ps, gs, symbol, chochTf, fvgTf, os[k]);
    }
  }

  /** An opportunity found for the symbol is tied to one of its signals and to a gap
      of the gap timeframe. */
  lemma OpportunityShape(cs: seq<Candle>, ps: seq<Pattern>, gs: seq<Gap>, symbol: string, chochTf: AnalysisTimeframe, fvgTf: AnalysisTimeframe, o: Opportunity)
    requires SignalsIn(cs, ps, Signals(cs, ps, symbol, chochTf))
    requires o in Opportunities(cs, ps, gs, symbol, fvgTf, Signals(cs, ps, symbol, chochTf), |Signals(cs, ps, symbol, chochTf)|)
    ensures o.choch < |ps| && Signal(cs, ps, symbol, chochTf, o.choch)
    ensures o.gap < |gs| && gs[o.gap].tf == fvgTf
  {
    var sig := Signals(cs, ps, symbol, chochTf);
    SignalsMembers(cs, ps, symbol, chochTf);
    OpportunitiesSound(cs, ps, gs, symbol, fvgTf, sig, |sig|, o);
    var j :| 0 <= j < |sig| && OpportunityFor(cs, ps, gs, symbol, fvgTf, sig[j], o);
    assert sig[j] in sig;
  }

  /** Playing the trades forward changes only their statuses, and never to canceled. */
  lemma SimulatedKeeps(cs: seq<Candle>, ps: seq<Pattern>, os: seq<Opportunity>)
    requires TradesIn(cs, ps, os)
    ensures var r := Simulated(cs, ps, os);
      && |r| == |os|
      && (forall k :: 0 <= k < |r| ==> r[k] == os[k].(status := r[k].status) && r[k].status != Canceled)
      && (OnePerChoch(os) ==> OnePerChoch(r))
  {
    var r := Simulated(cs, ps, os);
    forall k | 0 <= k < |r|
      ensures r[k] == os[k].(status := r[k].status) && r[k].status != Canceled
    {
      ResolveCases(os[k], Future(cs, cs[ps[os[k].choch].candle]));
    }
  }

  lemma TradesAppended(cs: seq<Candle>, ps: seq<Pattern>, gs: seq<Gap>, ts: seq<Opportunity>, symbol: string, chochTf: AnalysisTimeframe, fvgTf: AnalysisTimeframe)
    requires TradesWellFormed(ps, gs, ts)
    ensures TradesWellFormed(ps, gs, ts + Identify(cs, ps, gs, symbol, chochTf, fvgTf))
  {
    IdentifyShape(cs, ps, gs, symbol, chochTf, fvgTf);
  }

  /** identify_trade_opportunities: both timeframe codes must be analysis
      timeframes; the opportunities found are stored, played forward, and
      returned. */
  method IdentifyTradeOpportunities(db: Database, symbol: string, chochName: string, fvgName: string) returns (r: Result<seq<Opportunity>>)
    requires db.Valid()
    modifies db
    ensures db.Valid()
    ensures db.candles == old(db.candles) && db.patterns == old(db.patterns) && db.gaps == old(db.gaps)
    ensures ParseAnalysis(chochName).None? || ParseAnalysis(fvgName).None? ==> r.Err? && db.trades == old(db.trades)
    ensures ParseAnalysis(chochName).Some? && ParseAnalysis(fvgName).Some? ==>
      && r == Ok(Identify(old(db.candles), old(db.patterns), old(db.gaps), symbol, ParseAnalysis(chochName).value, ParseAnalysis(fvgName).value))
      && db.trades == old(db.trades) + r.value
  {
    var chochTf := ParseAnalysis(chochName);
    var fvgTf := ParseAnalysis(fvgName);
    if chochTf.None? || fvgTf.None? {
      return Err("Unsupported timeframe: choch=" + chochName + ", fvg=" + fvgName);
    }
    var sig := Signals(db.candles, db.patterns, symbol, chochTf.value);
    SignalsOrdered(db.candles, db.patterns, symbol, chochTf.value);
    var found := FindOpportunities(db.candles, db.patterns, db.gaps, symbol, fvgTf.value, sig);
    OpportunitiesIn(db.candles, db.patterns, db.gaps, symbol, fvgTf.value, sig);
    var played := SimulateTradeOutcomes(db.candles, db.patterns, found);
    TradesAppended(db.candles, db.patterns, db.gaps, db.trades, symbol, chochTf.value, fvgTf.value);
    db.trades := db.trades + played;
    return Ok(played);
  }

  // ---------------------------------------------------------------------
  // Statistics

  datatype TimeframeStats = TimeframeStats(count: nat, wins: nat, losses: nat, winRate: real)

  datatype Statistics = Statistics(
    total: nat,
    pending: nat,
    executed: nat,
    wins: nat,
    losses: nat,
    winRate: real,
    expectancy: real,
    byTimeframe: map<string, TimeframeStats>)

  /** How many of the first n trades have the status. */
  function CountStatus(ts: seq<Opportunity>, s: TradeStatus, n: nat): (r: nat)
    requires n <= |ts|
    ensures r <= n
  {
    if n == 0 then 0
    else CountStatus(ts, s, n - 1) + (if ts[n - 1].status == s then 1 else 0)
  }

  /** Every trade has exactly one status. */
  lemma {:induction false} StatusPartition(ts: seq<Opportunity>, n: nat)
    requires n <= |ts|
    ensures CountStatus(ts, Open, n) + CountStatus(ts, Executed, n) + CountStatus(ts, Win, n)
      + CountStatus(ts, Loss, n) + CountStatus(ts, Canceled, n) == n
  {
    if n > 0 {
      StatusPartition(ts, n - 1);
    }
  }

  /** Percentage of closed trades that won; 0 with none closed. */
  function WinRate(wins: nat, losses: nat): real
  {
    if wins + losses > 0 then wins as real / (wins + losses) as real * 100.0 else 0.0
  }

  /** Average result in risk units at 1:2, a win gaining 2 and a loss losing 1;
      0 with none closed. */
  function Expectancy(wins: nat, losses: nat): real
  {
    if wins + losses > 0 then (wins * 2 - losses as int) as real / (wins + losses) as real else 0.0
  }

  lemma WinRateBounds(wins: nat, losses: nat)
    ensures 0.0 <= WinRate(wins, losses) <= 100.0
    ensures wins + losses == 0 ==> WinRate(wins, losses) == 0.0
    ensures wins + losses > 0 ==> (WinRate(wins, losses) == 100.0 <==> losses == 0)
  {
    if wins + losses > 0 {
      Percentage(wins as real, (wins + losses) as real);
    }
  }

  lemma ExpectancyBounds(wins: nat, losses: nat)
    ensures -1.0 <= Expectancy(wins, losses) <= 2.0
    ensures wins + losses == 0 ==> Expectancy(wins, losses) == 0.0
  {
    if wins + losses > 0 {
      RatioBetween((wins * 2 - losses as int) as real, (wins + losses) as real, -1.0, 2.0);
    }
  }

  lemma RatioBetween(x: real, n: real, lo: real, hi: real)
    requires n > 0.0 && lo * n <= x <= hi * n
    ensures lo <= x / n <= hi
  {
    assert x / n * n == x;
  }

  /** The trades whose signal pattern, among the first n, is on the timeframe:
      their count, wins and losses. */
  function TimeframeTally(ts: seq<Opportunity>, ps: seq<Pattern>, tf: AnalysisTimeframe, n: nat): (r: (nat, nat, nat))
    requires n <= |ts|
    ensures r.1 + r.2 <= r.0 <= n
  {
    if n == 0 then (0, 0, 0)
    else
      var (count, wins, losses) := TimeframeTally(ts, ps, tf, n - 1);
      var o := ts[n - 1];
      if o.choch < |ps| && ps[o.choch].tf == tf then
        (count + 1, wins + (if o.status == Win then 1 else 0), losses + (if o.status == Loss then 1 else 0))
      else (count, wins, losses)
  }

  /** The entries for the timeframes of the list: one per timeframe with at
      least one trade, keyed by its code. */
  function ByTimeframe(ts: seq<Opportunity>, ps: seq<Pattern>, tfs: seq<AnalysisTimeframe>): map<string, TimeframeStats>
  {
    if tfs == [] then map[]
    else
      var m := ByTimeframe(ts, ps, tfs[..|tfs| - 1]);
      var tf := tfs[|tfs| - 1];
      var (count, wins, losses) := TimeframeTally(ts, ps, tf, |ts|);
      if count > 0 then m[Name(tf) := TimeframeStats(count, wins, losses, WinRate(wins, losses))] else m
  }

  /** The analysis timeframes in declaration order. */
  function AnalysisTimeframes(): seq<AnalysisTimeframe>
  {
    [M5, M15, M30, H1]
  }

  function Summary(ts: seq<Opportunity>, ps: seq<Pattern>): Statistics
  {
    var wins, losses := CountStatus(ts, Win, |ts|), CountStatus(ts, Loss, |ts|);
    Statistics(|ts|, CountStatus(ts, Open, |ts|), CountStatus(ts, Executed, |ts|), wins, losses,
      WinRate(wins, losses), Expectancy(wins, losses), ByTimeframe(ts, ps, AnalysisTimeframes()))
  }

  /** Each per-timeframe entry belongs to an analysis timeframe, counts some
      trades, and has a percentage as its win rate. */
  lemma {:induction false} ByTimeframeFacts(ts: seq<Opportunity>, ps: seq<Pattern>, tfs: seq<AnalysisTimeframe>, key: string)
    requires key in ByTimeframe(ts, ps, tfs)
    ensures exists k :: 0 <= k < |tfs| && Name(tfs[k]) == key
    ensures var e := ByTimeframe(ts, ps, tfs)[key];
      && 0 < e.count <= |ts| && e.wins + e.losses <= e.count
      && 0.0 <= e.winRate <= 100.0
  {
    var init := tfs[..|tfs| - 1];
    var tf := tfs[|tfs| - 1];
    var (count, wins, losses) := TimeframeTally(ts, ps, tf, |ts|);
    if count > 0 && key == Name(tf) {
      WinRateBounds(wins, losses);
    } else {
      ByTimeframeFacts(ts, ps, init, key);
      var k :| 0 <= k < |init| && Name(init[k]) == key;
      assert tfs[k] == init[k];
    }
  }

  /** What the summary reports: the status counts add up to the number of
      trades, the win rate is a percentage, and the expectancy lies between a
      full loss and a full win in risk units. */
  lemma SummaryFacts(ts: seq<Opportunity>, ps: seq<Pattern>)
    ensures var s := Summary(ts, ps);
      && s.pending + s.executed + s.wins + s.losses <= s.total
      && 0.0 <= s.winRate <= 100.0
      && -1.0 <= s.expectancy <= 2.0
      && (s.wins + s.losses == 0 ==> s.winRate == 0.0 && s.expectancy == 0.0)
      && (forall key :: key in s.byTimeframe ==> s.byTimeframe[key].count <= s.total && 0.0 <= s.byTimeframe[key].winRate <= 100.0)
  {
    var s := Summary(ts, ps);
    StatusPartition(ts, |ts|);
    WinRateBounds(s.wins, s.losses);
    ExpectancyBounds(s.wins, s.losses);
    forall key | key in s.byTimeframe
      ensures s.byTimeframe[key].count <= s.total && 0.0 <= s.byTimeframe[key].winRate <= 100.0
    {
      ByTimeframeFacts(ts, ps, AnalysisTimeframes(), key);
    }
  }

  /** The loop of get_trade_statistics over the analysis timeframes. */
  method StatsByTimeframe(ts: seq<Opportunity>, ps: seq<Pattern>) returns (stats: map<string, TimeframeStats>)
    ensures stats == ByTimeframe(ts, ps, AnalysisTimeframes())
  {
    stats := map[];
    var tfs := AnalysisTimeframes();
    var k := 0;
    while k < |tfs|
      invariant k <= |tfs|
      invariant stats == ByTimeframe(ts, ps, tfs[..k])
    {
      var tf := tfs[k];
      assert tfs[..k + 1][..k] == tfs[..k];
      var (count, tfWins, tfLosses) := TimeframeTally(ts, ps, tf, |ts|);
      if count > 0 {
        var total := tfWins + tfLosses;
        var rate := if total > 0 then tfWins as real / total as real * 100.0 else 0.0;
        stats := stats[Name(tf) := TimeframeStats(count, tfWins, tfLosses, rate)];
      }
      k := k + 1;
    }
    assert tfs[..k] == tfs;
  }

  /** get_trade_statistics: the counts, the rates and the per-timeframe entries. */
  method GetTradeStatistics(db: Database) returns (s: Statistics)
    ensures s == Summary(db.trades, db.patterns)
  {
    var ts := db.trades;
    var wins := CountStatus(ts, Win, |ts|);
    var losses := CountStatus(ts, Loss, |ts|);
    var completed := wins + losses;
    var winRate := if completed > 0 then wins as real / completed as real * 100.0 else 0.0;
    var expectancy := if completed > 0 then (wins * 2 - losses as int) as real / completed as real else 0.0;
    var stats := StatsByTimeframe(ts, db.patterns);
    s := Statistics(|ts|, CountStatus(ts, Open, |ts|), CountStatus(ts, Executed, |ts|), wins, losses,
      winRate, expectancy, stats);
  }
}
