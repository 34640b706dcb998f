/** Fair value gaps: a scan over every three consecutive candles of one symbol
    and timeframe finds the price ranges the middle candle jumped over, ties each
    gap to a price action pattern, and measures how far later candles have
    filled it. */
module FvgService {
  import opened Models
  import opened Queries

  function Max(a: real, b: real): real
  {
    if a >= b then a else b
  }

  function Min(a: real, b: real): real
  {
    if a <= b then a else b
  }

  function Abs(x: real): real
  {
    if x >= 0.0 then x else -x
  }

  // ---------------------------------------------------------------------
  // Pattern association

  /** The dictionary from candle id to pattern id built over the patterns of one
      timeframe, of any symbol, in store order: a later pattern on the same
      candle overwrites an earlier one. */
  function PatternMap(ps: seq<Pattern>, tf: AnalysisTimeframe, n: nat): map<nat, nat>
    requires n <= |ps|
  {
    if n == 0 then map[]
    else if ps[n - 1].tf == tf then PatternMap(ps, tf, n - 1)[ps[n - 1].candle := n - 1]
    else PatternMap(ps, tf, n - 1)
  }

  /** A candle is a key exactly when a pattern of the timeframe sits on it, and
      it maps to the last such pattern. */
  lemma {:induction false} PatternMapAt(ps: seq<Pattern>, tf: AnalysisTimeframe, n: nat, c: nat)
    requires n <= |ps|
    ensures var m := PatternMap(ps, tf, n);
      && (c in m <==> exists k :: 0 <= k < n && ps[k].tf == tf && ps[k].candle == c)
      && (c in m ==>
            && m[c] < n && ps[m[c]].tf == tf && ps[m[c]].candle == c
            && forall k :: m[c] < k < n ==> !(ps[k].tf == tf && ps[k].candle == c))
  {
    if n > 0 {
      PatternMapAt(ps, tf, n - 1, c);
    }
  }

  /** The pattern of the first of ids[j..end) that is a key of the map. */
  function DirectFrom(m: map<nat, nat>, ids: seq<nat>, j: nat, end: nat): Option<nat>
    requires end <= |ids|
    decreases end - j
  {
    if j >= end then None
    else if ids[j] in m then Some(m[ids[j]])
    else DirectFrom(m, ids, j + 1, end)
  }

  lemma {:induction false} DirectFromFacts(m: map<nat, nat>, ids: seq<nat>, j: nat, end: nat)
    requires end <= |ids|
    ensures DirectFrom(m, ids, j, end).None? <==> forall k :: j <= k < end ==> ids[k] !in m
    ensures DirectFrom(m, ids, j, end).Some? ==>
      exists k :: j <= k < end && ids[k] in m && DirectFrom(m, ids, j, end).value == m[ids[k]]
        && forall k' :: j <= k' < k ==> ids[k'] !in m
    decreases end - j
  {
    if j < end && ids[j] !in m {
      DirectFromFacts(m, ids, j + 1, end);
    }
  }

  /** A pattern of the timeframe whose candle, of the same symbol and timeframe,
      opened strictly before the given time. */
  predicate EarlierPattern(cs: seq<Candle>, ps: seq<Pattern>, symbol: string, tf: AnalysisTimeframe, before: int, k: nat)
    requires k < |ps|
  {
    var p := ps[k];
    p.tf == tf && p.candle < |cs| && cs[p.candle].symbol == symbol && cs[p.candle].tf == tf && cs[p.candle].ts < before
  }

  /** The most recent earlier pattern: the greatest candle time, and among equal
      times the first in store order. */
  function Recent(cs: seq<Candle>, ps: seq<Pattern>, symbol: string, tf: AnalysisTimeframe, before: int, n: nat): (r: Option<nat>)
    requires n <= |ps|
    ensures r.Some? ==> r.value < n && EarlierPattern(cs, ps, symbol, tf, before, r.value)
  {
    if n == 0 then None
    else
      var best := Recent(cs, ps, symbol, tf, before, n - 1);
      if EarlierPattern(cs, ps, symbol, tf, before, n - 1)
        && (best.None? || cs[ps[n - 1].candle].ts > cs[ps[best.value].candle].ts)
      then Some(n - 1)
      else best
  }

  /** Recent finds an earlier pattern exactly when there is one, and none of
      them has a later candle. */
  lemma {:induction false} RecentFacts(cs: seq<Candle>, ps: seq<Pattern>, symbol: string, tf: AnalysisTimeframe, before: int, n: nat)
    requires n <= |ps|
    ensures var r := Recent(cs, ps, symbol, tf, before, n);
      && (r.None? <==> forall k :: 0 <= k < n ==> !EarlierPattern(cs, ps, symbol, tf, before, k))
      && (r.Some? ==> forall k :: 0 <= k < n && EarlierPattern(cs, ps, symbol, tf, before, k) ==>
            cs[ps[k].candle].ts <= cs[ps[r.value].candle].ts)
  {
    if n > 0 {
      RecentFacts(cs, ps, symbol, tf, before, n - 1);
    }
  }

  /** The pattern a gap found at triple i is tied to: the pattern on the first of
      its three candles that has one, else the most recent earlier pattern. */
  function Associated(cs: seq<Candle>, ps: seq<Pattern>, ids: seq<nat>, ms: seq<Candle>, symbol: string, tf: AnalysisTimeframe, i: nat): (r: Option<nat>)
    requires i + 3 <= |ids| == |ms|
    ensures r.Some? ==> r.value < |ps| && ps[r.value].tf == tf
  {
    match DirectFrom(PatternMap(ps, tf, |ps|), ids, i, i + 3)
    case Some(p) =>
      DirectFromFacts(PatternMap(ps, tf, |ps|), ids, i, i + 3);
      var k :| i <= k < i + 3 && ids[k] in PatternMap(ps, tf, |ps|) && p == PatternMap(ps, tf, |ps|)[ids[k]];
      PatternMapAt(ps, tf, |ps|, ids[k]);
      Some(p)
    case None => Recent(cs, ps, symbol, tf, ms[i].ts, |ps|)
  }

  /** With no pattern on any of the three candles and none earlier, nothing is
      associated; a pattern on one of the three candles always wins. */
  lemma AssociatedNone(cs: seq<Candle>, ps: seq<Pattern>, ids: seq<nat>, ms: seq<Candle>, symbol: string, tf: AnalysisTimeframe, i: nat)
    requires i + 3 <= |ids| == |ms|
    ensures Associated(cs, ps, ids, ms, symbol, tf, i).None? <==>
      && (forall k, q :: i <= k < i + 3 && 0 <= q < |ps| ==> !(ps[q].tf == tf && ps[q].candle == ids[k]))
      && (forall q :: 0 <= q < |ps| ==> !EarlierPattern(cs, ps, symbol, tf, ms[i].ts, q))
  {
    var m := PatternMap(ps, tf, |ps|);
    DirectFromFacts(m, ids, i, i + 3);
    PatternMapAt(ps, tf, |ps|, ids[i]);
    PatternMapAt(ps, tf, |ps|, ids[i + 1]);
    PatternMapAt(ps, tf, |ps|, ids[i + 2]);
    RecentFacts(cs, ps, symbol, tf, ms[i].ts, |ps|);
  }

  /** When one of the three candles carries a pattern of the timeframe, the gap
      is tied to a pattern on the first such candle. */
  lemma AssociatedDirect(cs: seq<Candle>, ps: seq<Pattern>, ids: seq<nat>, ms: seq<Candle>, symbol: string, tf: AnalysisTimeframe, i: nat, k: nat, q: nat)
    requires i + 3 <= |ids| == |ms|
    requires i <= k < i + 3 && q < |ps| && ps[q].tf == tf && ps[q].candle == ids[k]
    ensures var r := Associated(cs, ps, ids, ms, symbol, tf, i);
      && r.Some? && ps[r.value].tf == tf
      && exists k' :: i <= k' <= k && ps[r.value].candle == ids[k']
  {
    var m := PatternMap(ps, tf, |ps|);
    PatternMapAt(ps, tf, |ps|, ids[k]);
    DirectFromFacts(m, ids, i, i + 3);
    var p := DirectFrom(m, ids, i, i + 3).value;
    var k' :| i <= k' < i + 3 && ids[k'] in m && p == m[ids[k']] && forall k'' :: i <= k'' < k' ==> ids[k''] !in m;
    PatternMapAt(ps, tf, |ps|, ids[k']);
  }

  // ---------------------------------------------------------------------
  // Gap detection

  /** The third candle's high lies below the first candle's low. */
  predicate BullishGap(c1: Candle, c3: Candle)
  {
    c1.low > c3.high
  }

  /** The third candle's low lies above the first candle's high. */
  predicate BearishGap(c1: Candle, c3: Candle)
  {
    c3.low > c1.high
  }

  /** The gaps recorded for the triple starting at i, bullish first, before their
      fill is measured. */
  function Cell(cs: seq<Candle>, ps: seq<Pattern>, ids: seq<nat>, ms: seq<Candle>, symbol: string, tf: AnalysisTimeframe, i: nat): seq<Gap>
    requires i + 3 <= |ids| == |ms|
  {
    var c1, c3 := ms[i], ms[i + 2];
    var pid := Associated(cs, ps, ids, ms, symbol, tf, i);
    (if BullishGap(c1, c3) && pid.Some? then [Gap(pid.value, ids[i], ids[i + 2], c1.low, c3.high, 0.0, tf)] else [])
    + (if BearishGap(c1, c3) && pid.Some? then [Gap(pid.value, ids[i], ids[i + 2], c3.low, c1.high, 0.0, tf)] else [])
  }

  function Triples(cs: seq<Candle>, ps: seq<Pattern>, ids: seq<nat>, ms: seq<Candle>, symbol: string, tf: AnalysisTimeframe, n: nat): seq<seq<Gap>>
    requires n + 2 <= |ids| == |ms|
  {
    seq(n, i requires 0 <= i < n => Cell(cs, ps, ids, ms, symbol, tf, i))
  }

  /** The gaps of the first n triples, in scan order. */
  function Found(cs: seq<Candle>, ps: seq<Pattern>, ids: seq<nat>, ms: seq<Candle>, symbol: string, tf: AnalysisTimeframe, n: nat): seq<Gap>
    requires n + 2 <= |ids| == |ms|
  {
    Flatten(Triples(cs, ps, ids, ms, symbol, tf, n))
  }

  /** What a gap recorded at triple i looks like. */
  ghost predicate GapAt(ps: seq<Pattern>, ids: seq<nat>, ms: seq<Candle>, tf: AnalysisTimeframe, i: nat, pid: Option<nat>, g: Gap)
    requires i + 3 <= |ids| == |ms|
  {
    var c1, c3 := ms[i], ms[i + 2];
    && pid == Some(g.pattern)
    && g.startCandle == ids[i] && g.endCandle == ids[i + 2] && g.fill == 0.0 && g.tf == tf
    && ((BullishGap(c1, c3) && g.startPrice == c1.low && g.endPrice == c3.high)
        || (BearishGap(c1, c3) && g.startPrice == c3.low && g.endPrice == c1.high))
  }

  /** Every gap of a triple has the shape above, and both kinds store the upper
      edge as the start price: the width is always positive. */
  lemma CellSound(cs: seq<Candle>, ps: seq<Pattern>, ids: seq<nat>, ms: seq<Candle>, symbol: string, tf: AnalysisTimeframe, i: nat, g: Gap)
    requires i + 3 <= |ids| == |ms| && g in Cell(cs, ps, ids, ms, symbol, tf, i)
    ensures GapAt(ps, ids, ms, tf, i, Associated(cs, ps, ids, ms, symbol, tf, i), g)
    ensures g.startPrice > g.endPrice
  {
  }

  /** A triple with a gap condition and an associated pattern records that gap. */
  lemma CellComplete(cs: seq<Candle>, ps: seq<Pattern>, ids: seq<nat>, ms: seq<Candle>, symbol: string, tf: AnalysisTimeframe, i: nat)
    requires i + 3 <= |ids| == |ms|
    ensures var pid := Associated(cs, ps, ids, ms, symbol, tf, i);
      var c1, c3 := ms[i], ms[i + 2];
      var cell := Cell(cs, ps, ids, ms, symbol, tf, i);
      && (BullishGap(c1, c3) && pid.Some? ==> Gap(pid.value, ids[i], ids[i + 2], c1.low, c3.high, 0.0, tf) in cell)
      && (BearishGap(c1, c3) && pid.Some? ==> Gap(pid.value, ids[i], ids[i + 2], c3.low, c1.high, 0.0, tf) in cell)
      && (pid.None? ==> cell == [])
  {
  }

  /** When every candle's low is at most its high, a triple gives at most one gap. */
  lemma AtMostOneGap(cs: seq<Candle>, ps: seq<Pattern>, ids: seq<nat>, ms: seq<Candle>, symbol: string, tf: AnalysisTimeframe, i: nat)
    requires i + 3 <= |ids| == |ms|
    requires ms[i].low <= ms[i].high && ms[i + 2].low <= ms[i + 2].high
    ensures |Cell(cs, ps, ids, ms, symbol, tf, i)| <= 1
  {
    assert !(BullishGap(ms[i], ms[i + 2]) && BearishGap(ms[i], ms[i + 2]));
  }

  /** The scan finds exactly the gaps of its triples. */
  lemma FoundMembers(cs: seq<Candle>, ps: seq<Pattern>, ids: seq<nat>, ms: seq<Candle>, symbol: string, tf: AnalysisTimeframe, n: nat, g: Gap)
    requires n + 2 <= |ids| == |ms|
    ensures g in Found(cs, ps, ids, ms, symbol, tf, n) <==> exists i :: 0 <= i < n && g in Cell(cs, ps, ids, ms, symbol, tf, i)
  {
    var cells := Triples(cs, ps, ids, ms, symbol, tf, n);
    if g in Flatten(cells) {
      var i := FlattenMember(cells, g);
      assert g in Cell(cs, ps, ids, ms, symbol, tf, i);
    }
    if i :| 0 <= i < n && g in Cell(cs, ps, ids, ms, symbol, tf, i) {
      assert cells[i] == Cell(cs, ps, ids, ms, symbol, tf, i);
      FlattenHas(cells, i, g);
    }
  }

  /** Every gap found has a positive width, points at the first and third
      candle of its triple, and is tied to a pattern of the timeframe. */
  lemma FoundSound(cs: seq<Candle>, ps: seq<Pattern>, ids: seq<nat>, ms: seq<Candle>, symbol: string, tf: AnalysisTimeframe, n: nat, g: Gap)
    requires n + 2 <= |ids| == |ms| && g in Found(cs, ps, ids, ms, symbol, tf, n)
    ensures g.startPrice > g.endPrice
    ensures g.pattern < |ps| && ps[g.pattern].tf == tf
    ensures exists i :: 0 <= i < n && g.startCandle == ids[i] && g.endCandle == ids[i + 2]
  {
    FoundMembers(cs, ps, ids, ms, symbol, tf, n, g);
    var i :| 0 <= i < n && g in Cell(cs, ps, ids, ms, symbol, tf, i);
    CellSound(cs, ps, ids, ms, symbol, tf, i, g);
  }

  // ---------------------------------------------------------------------
  // Fill percentage

  /** One candle's effect on the deepest penetration so far: for a gap whose
      start lies above its end, a low below the start; otherwise a high above
      the start; either way capped at the width. */
  function Penetrate(g: Gap, size: real, acc: real, c: Candle): real
  {
    if g.startPrice > g.endPrice then
      if c.low < g.startPrice then Max(acc, Min(g.startPrice - c.low, size)) else acc
    else
      if c.high > g.startPrice then Max(acc, Min(c.high - g.startPrice, size)) else acc
  }

  /** The deepest penetration over a list of candles, starting from zero. */
  function Deepest(g: Gap, size: real, ls: seq<Candle>): real
  {
    if ls == [] then 0.0 else Penetrate(g, size, Deepest(g, size, ls[..|ls| - 1]), Last(ls))
  }

  /** The fill percentage of a gap over the candles that opened after its end
      candle: zero without any, full for a gap of zero width. */
  function FillOn(g: Gap, later: seq<Candle>): real
  {
    if later == [] then 0.0
    else
      var size := Abs(g.startPrice - g.endPrice);
      if size == 0.0 then 100.0 else Deepest(g, size, later) / size * 100.0
  }

  /** The fill percentage of a gap whose end candle opened at endTs, measured
      against the candles of its series. */
  function FillOf(g: Gap, endTs: int, ms: seq<Candle>): real
  {
    FillOn(g, Later(ms, endTs))
  }

  /** The deepest penetration lies between zero and the width. */
  lemma {:induction false} DeepestBounds(g: Gap, size: real, ls: seq<Candle>)
    requires size > 0.0
    ensures 0.0 <= Deepest(g, size, ls) <= size
  {
    if ls != [] {
      DeepestBounds(g, size, ls[..|ls| - 1]);
    }
  }

  /** The fill is a percentage. */
  lemma FillBounds(g: Gap, endTs: int, ms: seq<Candle>)
    ensures 0.0 <= FillOf(g, endTs, ms) <= 100.0
  {
    var later := Later(ms, endTs);
    var size := Abs(g.startPrice - g.endPrice);
    if later != [] && size != 0.0 {
      DeepestBounds(g, size, later);
      Percentage(Deepest(g, size, later), size);
    }
  }

  /** No candle after the end candle means nothing is filled. */
  lemma FillWithoutLater(g: Gap, endTs: int, ms: seq<Candle>)
    requires forall k :: 0 <= k < |ms| ==> ms[k].ts <= endTs
    ensures FillOf(g, endTs, ms) == 0.0
  {
    NoneLater(ms, endTs);
  }

  /** For a gap whose start lies above its end, the deepest penetration reaches
      the width exactly when some candle's low reaches the end price. */
  lemma {:induction false} DeepestFull(g: Gap, ls: seq<Candle>)
    requires g.startPrice > g.endPrice
    ensures var size := g.startPrice - g.endPrice;
      Deepest(g, size, ls) == size <==> exists c :: c in ls && c.low <= g.endPrice
  {
    var size := g.startPrice - g.endPrice;
    if ls != [] {
      var init := ls[..|ls| - 1];
      DeepestFull(g, init);
      DeepestBounds(g, size, init);
      assert forall c :: c in ls <==> c in init || c == Last(ls) by {
        assert ls == init + [Last(ls)];
      }
    }
  }

  /** For a gap whose start lies above its end, with some later candle, the gap
      is 100% filled exactly when a later candle's low reaches the end price. */
  lemma FullIffReached(g: Gap, endTs: int, ms: seq<Candle>)
    requires g.startPrice > g.endPrice
    requires exists k :: 0 <= k < |ms| && ms[k].ts > endTs
    ensures FillOf(g, endTs, ms) == 100.0 <==> exists c :: c in ms && c.ts > endTs && c.low <= g.endPrice
  {
    var later := Later(ms, endTs);
    var k :| 0 <= k < |ms| && ms[k].ts > endTs;
    assert ms[k] in later;
    var size := g.startPrice - g.endPrice;
    assert Abs(g.startPrice - g.endPrice) == size;
    DeepestBounds(g, size, later);
    Percentage(Deepest(g, size, later), size);
    DeepestFull(g, later);
  }

  /** Further candles never reduce the deepest penetration. */
  lemma {:induction false} DeepestGrows(g: Gap, size: real, a: seq<Candle>, b: seq<Candle>)
    requires size > 0.0
    ensures Deepest(g, size, a) <= Deepest(g, size, a + b)
    decreases |b|
  {
    if b != [] {
      var init := b[..|b| - 1];
      assert (a + b)[..|a + b| - 1] == a + init;
      assert Last(a + b) == Last(b);
      DeepestGrows(g, size, a, init);
      var acc := Deepest(g, size, a + init);
      assert Deepest(g, size, a + b) == Penetrate(g, size, acc, Last(b));
      assert acc <= Penetrate(g, size, acc, Last(b));
    } else {
      assert a + b == a;
    }
  }

  /** Adding later candles to the series never lowers the fill percentage. */
  lemma FillMonotone(g: Gap, endTs: int, ms: seq<Candle>, extra: seq<Candle>)
    ensures FillOf(g, endTs, ms) <= FillOf(g, endTs, ms + extra)
  {
    LaterAppend(ms, extra, endTs);
    FillGrows(g, Later(ms, endTs), Later(extra, endTs));
  }

  /** The fill over a run of later candles never drops when more follow. */
  lemma FillGrows(g: Gap, a: seq<Candle>, b: seq<Candle>)
    ensures FillOn(g, a) <= FillOn(g, a + b)
  {
    var size := Abs(g.startPrice - g.endPrice);
    if a + b != [] && size != 0.0 {
      DeepestBounds(g, size, a + b);
      Percentage(Deepest(g, size, a + b), size);
      if a != [] {
        DeepestGrows(g, size, a, b);
        PercentageMonotone(Deepest(g, size, a), Deepest(g, size, a + b), size);
      }
    }
  }

  /** A gap whose first candle's low lies above its third candle's high is also
      counted as filled by candles that stay entirely below it: the penetration
      is measured from the start price downwards. */
  lemma FillBelowGap()
    ensures var g := Gap(0, 0, 2, 10.0, 8.0, 0.0, M5);
      var later := Candle("X", M5, 7.0, 7.5, 6.0, 7.0, 1, 900, None);
      && later.high < g.endPrice
      && FillOf(g, 600, [later]) == 100.0
  {
    var g := Gap(0, 0, 2, 10.0, 8.0, 0.0, M5);
    var later := Candle("X", M5, 7.0, 7.5, 6.0, 7.0, 1, 900, None);
    assert Later([later], 600) == [later] by {
      assert [later][..0] == [];
    }
    assert [later][..0] == [];
    assert Deepest(g, 2.0, [later]) == 2.0;
  }

  // ---------------------------------------------------------------------
  // The loops

  /** The search over the triple's three candles, stopping at the first one in
      the dictionary, then the query for the most recent earlier pattern. */
  method AssociatePattern(cs: seq<Candle>, ps: seq<Pattern>, m: map<nat, nat>, ids: seq<nat>, ms: seq<Candle>, symbol: string, tf: AnalysisTimeframe, i: nat)
    returns (pid: Option<nat>)
    requires i + 3 <= |ids| == |ms| && m == PatternMap(ps, tf, |ps|)
    ensures pid == Associated(cs, ps, ids, ms, symbol, tf, i)
  {
    pid := None;
    var j := i;
    while j < i + 3
      invariant i <= j <= i + 3
      invariant pid.None? ==> DirectFrom(m, ids, j, i + 3) == DirectFrom(m, ids, i, i + 3)
      invariant pid.Some? ==> pid == DirectFrom(m, ids, i, i + 3)
      decreases i + 3 - j, pid.None?
    {
      if ids[j] in m {
        pid := Some(m[ids[j]]);
        break;
      }
      j := j + 1;
    }
    if pid.None? {
      pid := Recent(cs, ps, symbol, tf, ms[i].ts, |ps|);
    }
  }

  lemma TriplesStep(cs: seq<Candle>, ps: seq<Pattern>, ids: seq<nat>, ms: seq<Candle>, symbol: string, tf: AnalysisTimeframe, n: nat, found: seq<Gap>, cell: seq<Gap>)
    requires n + 3 <= |ids| == |ms|
    requires found == Found(cs, ps, ids, ms, symbol, tf, n) && cell == Cell(cs, ps, ids, ms, symbol, tf, n)
    ensures found + cell == Found(cs, ps, ids, ms, symbol, tf, n + 1)
  {
    var cells := Triples(cs, ps, ids, ms, symbol, tf, n);
    assert Triples(cs, ps, ids, ms, symbol, tf, n + 1) == cells + [cell];
    FlattenAppend(cells, cell);
  }

  /** The index loop over the triples of the series. */
  method ScanGaps(cs: seq<Candle>, ps: seq<Pattern>, ids: seq<nat>, ms: seq<Candle>, symbol: string, tf: AnalysisTimeframe)
    returns (fvgs: seq<Gap>)
    requires 3 <= |ids| == |ms|
    ensures fvgs == Found(cs, ps, ids, ms, symbol, tf, |ms| - 2)
  {
    var m := PatternMap(ps, tf, |ps|);
    fvgs := [];
    var i := 0;
    while i < |ms| - 2
      invariant i <= |ms| - 2
      invariant fvgs == Found(cs, ps, ids, ms, symbol, tf, i)
    {
      var c1, c3 := ms[i], ms[i + 2];
      ghost var before := fvgs;
      ghost var cell: seq<Gap> := [];
      if c1.low > c3.high {
        var pid := AssociatePattern(cs, ps, m, ids, ms, symbol, tf, i);
        if pid.Some? {
          fvgs := fvgs + [Gap(pid.value, ids[i], ids[i + 2], c1.low, c3.high, 0.0, tf)];
          cell := [Gap(pid.value, ids[i], ids[i + 2], c1.low, c3.high, 0.0, tf)];
        }
      }
      if c3.low > c1.high {
        var pid := AssociatePattern(cs, ps, m, ids, ms, symbol, tf, i);
        if pid.Some? {
          fvgs := fvgs + [Gap(pid.value, ids[i], ids[i + 2], c3.low, c1.high, 0.0, tf)];
          cell := cell + [Gap(pid.value, ids[i], ids[i + 2], c3.low, c1.high, 0.0, tf)];
        }
      }
      assert fvgs == before + cell;
      TriplesStep(cs, ps, ids, ms, symbol, tf, i, before, cell);
      i := i + 1;
    }
  }

  /** The penetration loop over the candles after the end candle; the caller
      stores the result as the gap's fill. */
  method MeasureFill(g: Gap, endTs: int, ms: seq<Candle>) returns (fill: real)
    ensures fill == FillOf(g, endTs, ms)
  {
    var later := Later(ms, endTs);
    if later == [] {
      return 0.0;
    }
    var size := Abs(g.startPrice - g.endPrice);
    if size == 0.0 {
      return 100.0;
    }
    var deepest := 0.0;
    var k := 0;
    while k < |later|
      invariant k <= |later|
      invariant deepest == Deepest(g, size, later[..k])
    {
      var c := later[k];
      DeepestStep(g, size, later, k);
      if g.startPrice > g.endPrice {
        if c.low < g.startPrice {
          deepest := Max(deepest, Min(g.startPrice - c.low, size));
        }
      } else {
        if c.high > g.startPrice {
          deepest := Max(deepest, Min(c.high - g.startPrice, size));
        }
      }
      k := k + 1;
    }
    assert later[..k] == later;
    fill := deepest / size * 100.0;
  }

  lemma DeepestStep(g: Gap, size: real, ls: seq<Candle>, k: nat)
    requires k < |ls|
    ensures Deepest(g, size, ls[..k + 1]) == Penetrate(g, size, Deepest(g, size, ls[..k]), ls[k])
  {
    assert ls[..k + 1][..k] == ls[..k];
  }

  /** The gaps with their fills measured. */
  function WithFills(cs: seq<Candle>, fvgs: seq<Gap>, ms: seq<Candle>): (r: seq<Gap>)
    requires forall k :: 0 <= k < |fvgs| ==> fvgs[k].endCandle < |cs|
  {
    seq(|fvgs|, k requires 0 <= k < |fvgs| => fvgs[k].(fill := FillOf(fvgs[k], cs[fvgs[k].endCandle].ts, ms)))
  }

  /** The loop that measures each gap's fill in turn. */
  method FillGaps(cs: seq<Candle>, fvgs: seq<Gap>, ms: seq<Candle>) returns (r: seq<Gap>)
    requires forall k :: 0 <= k < |fvgs| ==> fvgs[k].endCandle < |cs|
    ensures r == WithFills(cs, fvgs, ms)
  {
    r := fvgs;
    var k := 0;
    while k < |r|
      invariant k <= |r| == |fvgs|
      invariant forall j :: 0 <= j < k ==> r[j] == fvgs[j].(fill := FillOf(fvgs[j], cs[fvgs[j].endCandle].ts, ms))
      invariant forall j :: k <= j < |r| ==> r[j] == fvgs[j]
    {
      var fill := MeasureFill(r[k], cs[r[k].endCandle].ts, ms);
      r := r[k := r[k].(fill := fill)];
      k := k + 1;
    }
  }

  /** Everything the detector stores for one symbol and timeframe. */
  function Detect(cs: seq<Candle>, ps: seq<Pattern>, symbol: string, tf: AnalysisTimeframe): seq<Gap>
  {
    var ids := SeriesIds(cs, symbol, tf);
    var ms := Values(cs, ids);
    if |ms| < 3 then []
    else
      var found := Found(cs, ps, ids, ms, symbol, tf, |ms| - 2);
      FoundInArena(cs, ps, ids, ms, symbol, tf, |ms| - 2);
      WithFills(cs, found, ms)
  }

  /** Gaps found over a series point at candles of the arena. */
  lemma FoundInArena(cs: seq<Candle>, ps: seq<Pattern>, ids: seq<nat>, ms: seq<Candle>, symbol: string, tf: AnalysisTimeframe, n: nat)
    requires n + 2 <= |ids| == |ms| && KeysIn(ids, Timestamps(cs))
    ensures var found := Found(cs, ps, ids, ms, symbol, tf, n);
      forall k :: 0 <= k < |found| ==>
        found[k].endCandle < |cs| && found[k].startCandle < |cs| && found[k].pattern < |ps|
  {
    var found := Found(cs, ps, ids, ms, symbol, tf, n);
    forall k | 0 <= k < |found|
      ensures found[k].endCandle < |cs| && found[k].startCandle < |cs| && found[k].pattern < |ps|
    {
      assert found[k] in found;
      FoundSound(cs, ps, ids, ms, symbol, tf, n, found[k]);
    }
  }

  /** A gap found over the series of one symbol and timeframe has positive
      width, is tied to a pattern of the timeframe, and spans candles of that
      series. */
  lemma FoundOnSeries(cs: seq<Candle>, ps: seq<Pattern>, symbol: string, tf: AnalysisTimeframe, ids: seq<nat>, ms: seq<Candle>, f: Gap)
    requires ids == SeriesIds(cs, symbol, tf) && |ids| >= 3 && ms == Values(cs, ids)
    requires f in Found(cs, ps, ids, ms, symbol, tf, |ms| - 2)
    ensures f.startPrice > f.endPrice && f.tf == tf
    ensures f.pattern < |ps| && ps[f.pattern].tf == tf && f.startCandle < |cs| && f.endCandle < |cs|
    ensures cs[f.startCandle].symbol == symbol && cs[f.startCandle].tf == tf
    ensures cs[f.endCandle].symbol == symbol && cs[f.endCandle].tf == tf
  {
    FoundMembers(cs, ps, ids, ms, symbol, tf, |ms| - 2, f);
    var i :| 0 <= i < |ms| - 2 && f in Cell(cs, ps, ids, ms, symbol, tf, i);
    CellSound(cs, ps, ids, ms, symbol, tf, i, f);
    assert ids[i] in ids && ids[i + 2] in ids;
  }

  /** What is stored: every gap has positive width, a percentage as its fill,
      and points into the store. */
  lemma DetectShape(cs: seq<Candle>, ps: seq<Pattern>, symbol: string, tf: AnalysisTimeframe, g: Gap)
    requires g in Detect(cs, ps, symbol, tf)
    ensures g.startPrice > g.endPrice && 0.0 <= g.fill <= 100.0 && g.tf == tf
    ensures g.pattern < |ps| && ps[g.pattern].tf == tf && g.startCandle < |cs| && g.endCandle < |cs|
    ensures cs[g.startCandle].symbol == symbol && cs[g.startCandle].tf == tf
    ensures cs[g.endCandle].symbol == symbol && cs[g.endCandle].tf == tf
  {
    var ids := SeriesIds(cs, symbol, tf);
    var ms := Values(cs, ids);
    var found := Found(cs, ps, ids, ms, symbol, tf, |ms| - 2);
    FoundInArena(cs, ps, ids, ms, symbol, tf, |ms| - 2);
    var filled := WithFills(cs, found, ms);
    var k :| 0 <= k < |filled| && g == filled[k];
    var f := found[k];
    assert f in found;
    FoundOnSeries(cs, ps, symbol, tf, ids, ms, f);
    FillBounds(f, cs[f.endCandle].ts, ms);
  }

  lemma GapsAppended(cs: seq<Candle>, ps: seq<Pattern>, gs: seq<Gap>, ts: seq<Opportunity>, symbol: string, tf: AnalysisTimeframe)
    requires GapsWellFormed(cs, ps, gs) && TradesWellFormed(ps, gs, ts)
    ensures var extra := Detect(cs, ps, symbol, tf);
      GapsWellFormed(cs, ps, gs + extra) && TradesWellFormed(ps, gs + extra, ts)
  {
    var extra := Detect(cs, ps, symbol, tf);
    forall k | 0 <= k < |extra|
      ensures extra[k].pattern < |ps| && extra[k].startCandle < |cs| && extra[k].endCandle < |cs|
    {
      assert extra[k] in extra;
      DetectShape(cs, ps, symbol, tf, extra[k]);
    }
  }

  /** identify_fair_value_gaps: only the analysis timeframes are accepted; a
      series of fewer than three candles gives no gap; otherwise the gaps found,
      with their fills measured, are stored and returned. */
  method IdentifyFairValueGaps(db: Database, symbol: string, timeframe: string) returns (r: Result<seq<Gap>>)
    requires db.Valid()
    modifies db
    ensures db.Valid()
    ensures db.candles == old(db.candles) && db.patterns == old(db.patterns) && db.trades == old(db.trades)
    ensures ParseAnalysis(timeframe).None? ==> r.Err? && db.gaps == old(db.gaps)
    ensures ParseAnalysis(timeframe).Some? ==>
      && r == Ok(Detect(old(db.candles), old(db.patterns), symbol, ParseAnalysis(timeframe).value))
      && db.gaps == old(db.gaps) + r.value
  {
    var parsed := ParseAnalysis(timeframe);
    if parsed.None? {
      return Err("Unsupported timeframe: " + timeframe);
    }
    var tf := parsed.value;
    var ids := SeriesIds(db.candles, symbol, tf);
    var candles := Values(db.candles, ids);
    if |candles| < 3 {
      return Ok([]);
    }
    var found := ScanGaps(db.candles, db.patterns, ids, candles, symbol, tf);
    FoundInArena(db.candles, db.patterns, ids, candles, symbol, tf, |candles| - 2);
    var fvgs := FillGaps(db.candles, found, candles);
    GapsAppended(db.candles, db.patterns, db.gaps, db.trades, symbol, tf);
    db.gaps := db.gaps + fvgs;
    return Ok(fvgs);
  }
}
