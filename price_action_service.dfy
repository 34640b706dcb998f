/** identify_price_action_patterns: swing highs and lows classified against the
    previous swing, breaks of structure, and changes of character found by a
    pairwise scan over the patterns already found. */
module PriceActionService {
  import opened Models
  import opened Queries

  /** Which extreme a swing is about. */
  datatype Side = Highs | Lows

  /** c is strictly beyond d on the side: a higher high, or a lower low. */
  predicate Beyond(side: Side, c: Candle, d: Candle)
  {
    if side.Highs? then c.high > d.high else c.low < d.low
  }

  /** Python list indexing: a negative index counts from the end. */
  function PyAt(ms: seq<Candle>, k: int): Candle
    requires -|ms| <= k < |ms|
  {
    if k < 0 then ms[|ms| + k] else ms[k]
  }

  /** A 5-wide strict extreme at j. At j = 1 the second left neighbour is
      Python's ms[-1], the last candle of the series. */
  predicate IsSwing(ms: seq<Candle>, side: Side, j: int)
    requires 1 <= j && j + 2 < |ms|
  {
    && Beyond(side, ms[j], PyAt(ms, j - 1))
    && Beyond(side, ms[j], PyAt(ms, j - 2))
    && Beyond(side, ms[j], ms[j + 1])
    && Beyond(side, ms[j], ms[j + 2])
  }

  /** The backward scan j, j-1, ..., lo+1 for the nearest earlier swing. */
  function PrevSwing(ms: seq<Candle>, side: Side, j: int, lo: nat): (r: Option<nat>)
    requires j + 2 < |ms|
    ensures r.Some? ==> lo < r.value <= j && IsSwing(ms, side, r.value)
    ensures r.Some? ==> forall k :: r.value < k <= j ==> !IsSwing(ms, side, k)
    ensures r.None? ==> forall k :: lo < k <= j ==> !IsSwing(ms, side, k)
    decreases j - lo
  {
    if j <= lo then None
    else if IsSwing(ms, side, j) then Some(j)
    else PrevSwing(ms, side, j - 1, lo)
  }

  /** The lower end of the scan for the swing at i: range(i-3, max(0, i-20), -1). */
  function ScanFloor(i: int): nat
  {
    if i - 20 > 0 then i - 20 else 0
  }

  /** A swing compared with the previous one: beyond it gives HH (highs) or LL
      (lows), short of it gives LH or HL, a tie gives nothing. */
  function Classify(side: Side, cur: Candle, prev: Candle): (r: Option<PatternKind>)
    ensures r == Some(HH) <==> side.Highs? && cur.high > prev.high
    ensures r == Some(LH) <==> side.Highs? && cur.high < prev.high
    ensures r == Some(LL) <==> side.Lows? && cur.low < prev.low
    ensures r == Some(HL) <==> side.Lows? && cur.low > prev.low
    ensures r.None? <==> if side.Highs? then cur.high == prev.high else cur.low == prev.low
  {
    if Beyond(side, cur, prev) then Some(if side.Highs? then HH else LL)
    else if Beyond(side, prev, cur) then Some(if side.Highs? then LH else HL)
    else None
  }

  /** The pattern, if any, the swing scan records at i for one side. */
  function SwingKind(ms: seq<Candle>, side: Side, i: nat): (r: Option<PatternKind>)
    requires 2 <= i && i + 2 < |ms|
    ensures r.Some? ==> IsSwing(ms, side, i)
    ensures r.Some? ==> PrevSwing(ms, side, i - 3, ScanFloor(i)).Some?
  {
    if !IsSwing(ms, side, i) then None
    else match PrevSwing(ms, side, i - 3, ScanFloor(i))
      case None => None
      case Some(j) => Classify(side, ms[i], ms[j])
  }

  function NewPattern(candle: nat, kind: PatternKind, tf: AnalysisTimeframe): Pattern
  {
    Pattern(candle, kind, tf, Pending)
  }

  function Emit(candle: nat, kind: Option<PatternKind>, tf: AnalysisTimeframe): seq<Pattern>
  {
    if kind.Some? then [NewPattern(candle, kind.value, tf)] else []
  }

  /** Patterns of the swing loop over i in [2, n): the high pattern before the low one. */
  function Swings(ms: seq<Candle>, ids: seq<nat>, tf: AnalysisTimeframe, n: nat): seq<Pattern>
    requires |ids| == |ms| && n + 2 <= |ms|
  {
    if n <= 2 then []
    else
      var i := n - 1;
      Swings(ms, ids, tf, i) + Emit(ids[i], SwingKind(ms, Highs, i), tf) + Emit(ids[i], SwingKind(ms, Lows, i), tf)
  }

  /** Bullish break: the close clears the previous high after two rising highs. */
  predicate BullishBreak(ms: seq<Candle>, i: nat)
    requires 3 <= i < |ms|
  {
    ms[i].close > ms[i - 1].high && ms[i - 1].high > ms[i - 2].high && ms[i - 2].high > ms[i - 3].high
  }

  /** Bearish break: the dual on lows. */
  predicate BearishBreak(ms: seq<Candle>, i: nat)
    requires 3 <= i < |ms|
  {
    ms[i].close < ms[i - 1].low && ms[i - 1].low < ms[i - 2].low && ms[i - 2].low < ms[i - 3].low
  }

  /** Patterns of the BOS loop over i in [4, n); both directions are stored as BOS. */
  function Breaks(ms: seq<Candle>, ids: seq<nat>, tf: AnalysisTimeframe, n: nat): seq<Pattern>
    requires |ids| == |ms| && n <= |ms|
  {
    if n <= 4 then []
    else
      var i := n - 1;
      Breaks(ms, ids, tf, i)
        + (if BullishBreak(ms, i) then [NewPattern(ids[i], BOS, tf)] else [])
        + (if BearishBreak(ms, i) then [NewPattern(ids[i], BOS, tf)] else [])
  }

  predicate IsPivotKind(k: PatternKind)
  {
    k.HH? || k.HL? || k.LH? || k.LL?
  }

  /** The four pattern pairs that make a change of character. */
  predicate Reverses(a: PatternKind, b: PatternKind)
  {
    (a.HH? && b.LH?) || (a.HL? && b.LL?) || (a.LH? && b.HH?) || (a.LL? && b.HL?)
  }

  ghost predicate CandlesIn(ps: seq<Pattern>, cs: seq<Candle>)
  {
    forall k :: 0 <= k < |ps| ==> ps[k].candle < |cs|
  }

  /** CHoCH for the pair (p, q): q reverses p and lies at least 300 seconds later. */
  function ChochFor(cs: seq<Candle>, p: Pattern, q: Pattern, tf: AnalysisTimeframe): seq<Pattern>
  {
    // stored patterns always point into the arena (DetectShape); the bound only makes this total
    if p.candle < |cs| && q.candle < |cs| && cs[q.candle].ts - cs[p.candle].ts >= 300 && Reverses(p.kind, q.kind)
    then [NewPattern(q.candle, CHoCH, tf)]
    else []
  }

  /** What the inner loop for P = ps[i] emits at each j in (i, n). */
  function Cells(cs: seq<Candle>, ps: seq<Pattern>, tf: AnalysisTimeframe, i: nat, n: nat): seq<seq<Pattern>>
    requires i < n <= |ps|
  {
    seq(n - i - 1, k requires 0 <= k < n - i - 1 => ChochFor(cs, ps[i], ps[i + 1 + k], tf))
  }

  /** CHoCH emitted while the inner loop for P = ps[i] visits j in (i, n). */
  function Row(cs: seq<Candle>, ps: seq<Pattern>, tf: AnalysisTimeframe, i: nat, n: nat): seq<Pattern>
    requires i < n <= |ps|
  {
    Flatten(Cells(cs, ps, tf, i, n))
  }

  /** The rows of the first n patterns, each P paired with every later pattern of
      the original list. */
  function Rows(cs: seq<Candle>, ps: seq<Pattern>, tf: AnalysisTimeframe, n: nat): seq<seq<Pattern>>
    requires n <= |ps|
  {
    seq(n, i requires 0 <= i < n => Row(cs, ps, tf, i, |ps|))
  }

  /** CHoCH emitted by the outer loop over i in [0, n). */
  function Chochs(cs: seq<Candle>, ps: seq<Pattern>, tf: AnalysisTimeframe, n: nat): seq<Pattern>
    requires n <= |ps|
  {
    Flatten(Rows(cs, ps, tf, n))
  }

  /** Swings and breaks of an analysed series; candle ids are those of ids. */
  function Structure(ms: seq<Candle>, ids: seq<nat>, tf: AnalysisTimeframe): seq<Pattern>
    requires |ids| == |ms| && |ms| >= 5
  {
    Swings(ms, ids, tf, |ms| - 2) + Breaks(ms, ids, tf, |ms| - 1)
  }

  /** Swings and breaks point at candles of the series. */
  lemma {:induction false} StructureCandles(ms: seq<Candle>, ids: seq<nat>, tf: AnalysisTimeframe, p: Pattern)
    requires |ids| == |ms| && |ms| >= 5 && p in Structure(ms, ids, tf)
    ensures p.candle in ids && p.tf == tf && p.status == Pending && p.kind != CHoCH
  {
    var n := |ms|;
    InAppend(p, Swings(ms, ids, tf, n - 2), Breaks(ms, ids, tf, n - 1));
    if p in Swings(ms, ids, tf, n - 2) {
      var i := SwingSound(ms, ids, tf, n - 2, p);
      assert ids[i] in ids;
      SwingHighKinds(ms, i);
    } else {
      var i := BreakSound(ms, ids, tf, n - 1, p);
      assert ids[i] in ids;
    }
  }

  /** The full result of the detector for the series of one symbol and timeframe. */
  function Detect(cs: seq<Candle>, symbol: string, tf: AnalysisTimeframe): (r: seq<Pattern>)
  {
    var ids := SeriesIds(cs, symbol, tf);
    var ms := Values(cs, ids);
    if |ms| < 5 then []
    else
      var base := Structure(ms, ids, tf);
      base + Chochs(cs, base, tf, |base|)
  }

  // ---------------------------------------------------------------------
  // What the detector finds

  /** p is the pattern the swing scan records at index i, for the highs or the lows. */
  ghost predicate SwingRecord(ms: seq<Candle>, ids: seq<nat>, tf: AnalysisTimeframe, i: int, p: Pattern)
  {
    && |ids| == |ms| && 2 <= i && i + 2 < |ms|
    && p.candle == ids[i] && p.tf == tf && p.status == Pending
    && (Some(p.kind) == SwingKind(ms, Highs, i) || Some(p.kind) == SwingKind(ms, Lows, i))
  }

  lemma InAppend<T>(x: T, a: seq<T>, b: seq<T>)
    ensures x in a + b <==> x in a || x in b
  {
  }

  lemma {:induction false} SwingSound(ms: seq<Candle>, ids: seq<nat>, tf: AnalysisTimeframe, n: nat, p: Pattern)
    returns (i: nat)
    requires |ids| == |ms| && n + 2 <= |ms| && p in Swings(ms, ids, tf, n)
    ensures i < n && SwingRecord(ms, ids, tf, i, p)
  {
    assert n > 2;
    var init := Swings(ms, ids, tf, n - 1);
    var high := Emit(ids[n - 1], SwingKind(ms, Highs, n - 1), tf);
    var low := Emit(ids[n - 1], SwingKind(ms, Lows, n - 1), tf);
    assert Swings(ms, ids, tf, n) == init + high + low;
    InAppend(p, init + high, low);
    if p in init + high {
      InAppend(p, init, high);
    }
    if p in init {
      i := SwingSound(ms, ids, tf, n - 1, p);
    } else {
      i := n - 1;
    }
  }

  lemma {:induction false} SwingComplete(ms: seq<Candle>, ids: seq<nat>, tf: AnalysisTimeframe, n: nat, i: nat, p: Pattern)
    requires |ids| == |ms| && n + 2 <= |ms| && i < n && SwingRecord(ms, ids, tf, i, p)
    ensures p in Swings(ms, ids, tf, n)
  {
    var init := Swings(ms, ids, tf, n - 1);
    var high := Emit(ids[n - 1], SwingKind(ms, Highs, n - 1), tf);
    var low := Emit(ids[n - 1], SwingKind(ms, Lows, n - 1), tf);
    assert p in init || p in high || p in low by {
      if i < n - 1 {
        SwingComplete(ms, ids, tf, n - 1, i, p);
      } else if Some(p.kind) == SwingKind(ms, Highs, i) {
        assert p == NewPattern(ids[i], p.kind, tf);
      } else {
        assert p == NewPattern(ids[i], p.kind, tf);
      }
    }
    assert Swings(ms, ids, tf, n) == init + high + low;
  }

  /** The swing loop records a pattern of kind k at candle ids[i] exactly when
      SwingKind gives k for the highs or the lows at i, for i in [2, n). */
  lemma SwingMembers(ms: seq<Candle>, ids: seq<nat>, tf: AnalysisTimeframe, n: nat, p: Pattern)
    requires |ids| == |ms| && n + 2 <= |ms|
    ensures p in Swings(ms, ids, tf, n) <==> exists i :: 2 <= i < n && SwingRecord(ms, ids, tf, i, p)
  {
    if p in Swings(ms, ids, tf, n) {
      var i := SwingSound(ms, ids, tf, n, p);
    }
    if exists i :: 2 <= i < n && SwingRecord(ms, ids, tf, i, p) {
      var i :| 2 <= i < n && SwingRecord(ms, ids, tf, i, p);
      SwingComplete(ms, ids, tf, n, i, p);
    }
  }

  /** p is the BOS the break scan records at index i. */
  ghost predicate BreakRecord(ms: seq<Candle>, ids: seq<nat>, tf: AnalysisTimeframe, i: int, p: Pattern)
  {
    && |ids| == |ms| && 4 <= i < |ms|
    && p == NewPattern(ids[i], BOS, tf) && (BullishBreak(ms, i) || BearishBreak(ms, i))
  }

  lemma {:induction false} BreakSound(ms: seq<Candle>, ids: seq<nat>, tf: AnalysisTimeframe, n: nat, p: Pattern)
    returns (i: nat)
    requires |ids| == |ms| && n <= |ms| && p in Breaks(ms, ids, tf, n)
    ensures i < n && BreakRecord(ms, ids, tf, i, p)
  {
    assert n > 4;
    var init := Breaks(ms, ids, tf, n - 1);
    var bull := if BullishBreak(ms, n - 1) then [NewPattern(ids[n - 1], BOS, tf)] else [];
    var bear := if BearishBreak(ms, n - 1) then [NewPattern(ids[n - 1], BOS, tf)] else [];
    assert Breaks(ms, ids, tf, n) == init + bull + bear;
    InAppend(p, init + bull, bear);
    if p in init + bull {
      InAppend(p, init, bull);
    }
    if p in init {
      i := BreakSound(ms, ids, tf, n - 1, p);
    } else {
      i := n - 1;
    }
  }

  lemma {:induction false} BreakComplete(ms: seq<Candle>, ids: seq<nat>, tf: AnalysisTimeframe, n: nat, i: nat, p: Pattern)
    requires |ids| == |ms| && n <= |ms| && i < n && BreakRecord(ms, ids, tf, i, p)
    ensures p in Breaks(ms, ids, tf, n)
  {
    var init := Breaks(ms, ids, tf, n - 1);
    var bull := if BullishBreak(ms, n - 1) then [NewPattern(ids[n - 1], BOS, tf)] else [];
    var bear := if BearishBreak(ms, n - 1) then [NewPattern(ids[n - 1], BOS, tf)] else [];
    assert p in init || p in bull || p in bear by {
      if i < n - 1 {
        BreakComplete(ms, ids, tf, n - 1, i, p);
      }
    }
    assert Breaks(ms, ids, tf, n) == init + bull + bear;
  }

  /** The BOS loop records a BOS at candle ids[i] exactly when i in [4, n) is a
      bullish or a bearish break. */
  lemma BreakMembers(ms: seq<Candle>, ids: seq<nat>, tf: AnalysisTimeframe, n: nat, p: Pattern)
    requires |ids| == |ms| && n <= |ms|
    ensures p in Breaks(ms, ids, tf, n) <==> exists i :: 4 <= i < n && BreakRecord(ms, ids, tf, i, p)
  {
    if p in Breaks(ms, ids, tf, n) {
      var i := BreakSound(ms, ids, tf, n, p);
    }
    if exists i :: 4 <= i < n && BreakRecord(ms, ids, tf, i, p) {
      var i :| 4 <= i < n && BreakRecord(ms, ids, tf, i, p);
      BreakComplete(ms, ids, tf, n, i, p);
    }
  }

  /** A swing high is only recorded at a 5-wide strict maximum in [2, |ms| - 3],
      as HH when it is above the previous swing high and as LH when below; the
      dual holds for lows. */
  lemma SwingHighKinds(ms: seq<Candle>, i: nat)
    requires 2 <= i && i + 2 < |ms|
    ensures SwingKind(ms, Highs, i).Some? ==>
      && ms[i].high > ms[i - 1].high && ms[i].high > ms[i - 2].high
      && ms[i].high > ms[i + 1].high && ms[i].high > ms[i + 2].high
      && var j := PrevSwing(ms, Highs, i - 3, ScanFloor(i)).value;
         (SwingKind(ms, Highs, i) == Some(HH) <==> ms[i].high > ms[j].high)
    ensures SwingKind(ms, Highs, i).Some? ==> SwingKind(ms, Highs, i).value in {HH, LH}
    ensures SwingKind(ms, Lows, i).Some? ==> SwingKind(ms, Lows, i).value in {LL, HL}
  {
  }

  /** x is the CHoCH the pair (ps[i], ps[j]) makes: ps[j] comes later in the list,
      reverses ps[i] and lies at least 300 seconds after it. */
  ghost predicate ChochPair(cs: seq<Candle>, ps: seq<Pattern>, tf: AnalysisTimeframe, i: int, j: int, x: Pattern)
  {
    && 0 <= i < j < |ps| && ps[i].candle < |cs| && ps[j].candle < |cs|
    && Reverses(ps[i].kind, ps[j].kind)
    && cs[ps[j].candle].ts - cs[ps[i].candle].ts >= 300
    && x == NewPattern(ps[j].candle, CHoCH, tf)
  }

  /** Every CHoCH of a row comes from a pair (ps[i], ps[j]) with j below n. */
  lemma RowSound(cs: seq<Candle>, ps: seq<Pattern>, tf: AnalysisTimeframe, i: nat, n: nat, x: Pattern)
    returns (j: nat)
    requires i < n <= |ps| && x in Row(cs, ps, tf, i, n)
    ensures j < n && ChochPair(cs, ps, tf, i, j, x)
  {
    var g := FlattenMember(Cells(cs, ps, tf, i, n), x);
    j := i + 1 + g;
    assert x in ChochFor(cs, ps[i], ps[j], tf);
  }

  /** A row emits the CHoCH of every pair (ps[i], ps[j]) with j below n. */
  lemma RowComplete(cs: seq<Candle>, ps: seq<Pattern>, tf: AnalysisTimeframe, i: nat, n: nat, j: nat, x: Pattern)
    requires i < n <= |ps| && j < n && ChochPair(cs, ps, tf, i, j, x)
    ensures x in Row(cs, ps, tf, i, n)
  {
    var cells := Cells(cs, ps, tf, i, n);
    assert cells[j - i - 1] == ChochFor(cs, ps[i], ps[j], tf) == [x];
    FlattenHas(cells, j - i - 1, x);
  }

  /** Every recorded CHoCH comes from a pair whose P is among the first n patterns. */
  lemma ChochSound(cs: seq<Candle>, ps: seq<Pattern>, tf: AnalysisTimeframe, n: nat, x: Pattern)
    returns (i: nat, j: nat)
    requires n <= |ps| && x in Chochs(cs, ps, tf, n)
    ensures i < n && ChochPair(cs, ps, tf, i, j, x)
  {
    i := FlattenMember(Rows(cs, ps, tf, n), x);
    j := RowSound(cs, ps, tf, i, |ps|, x);
  }

  /** Every pair with P among the first n patterns is recorded. */
  lemma ChochComplete(cs: seq<Candle>, ps: seq<Pattern>, tf: AnalysisTimeframe, n: nat, i: nat, j: nat, x: Pattern)
    requires n <= |ps| && i < n && ChochPair(cs, ps, tf, i, j, x)
    ensures x in Chochs(cs, ps, tf, n)
  {
    RowComplete(cs, ps, tf, i, |ps|, j, x);
    FlattenHas(Rows(cs, ps, tf, n), i, x);
  }

  /** CHoCH is recorded at Q's candle exactly for pairs P before Q in the original
      list with Q reversing P and Q at least 300 seconds after P. */
  lemma ChochMembers(cs: seq<Candle>, ps: seq<Pattern>, tf: AnalysisTimeframe, x: Pattern)
    ensures x in Chochs(cs, ps, tf, |ps|) <==> exists i, j :: ChochPair(cs, ps, tf, i, j, x)
  {
    if x in Chochs(cs, ps, tf, |ps|) {
      var i, j := ChochSound(cs, ps, tf, |ps|, x);
    }
    if exists i, j :: ChochPair(cs, ps, tf, i, j, x) {
      var i, j :| ChochPair(cs, ps, tf, i, j, x);
      ChochComplete(cs, ps, tf, |ps|, i, j, x);
    }
  }

  /** Every detected pattern is Pending, carries the requested timeframe and points
      at a candle of the symbol's series; fewer than five candles give nothing. */
  lemma DetectShape(cs: seq<Candle>, symbol: string, tf: AnalysisTimeframe, p: Pattern)
    requires p in Detect(cs, symbol, tf)
    ensures p.status == Pending && p.tf == tf
    ensures p.candle < |cs| && cs[p.candle].symbol == symbol && cs[p.candle].tf == tf
    ensures |SeriesIds(cs, symbol, tf)| >= 5
  {
    var ids := SeriesIds(cs, symbol, tf);
    var ms := Values(cs, ids);
    var base := Structure(ms, ids, tf);
    if p in base {
      StructureCandles(ms, ids, tf, p);
    } else {
      var i, j := ChochSound(cs, base, tf, |base|, p);
      StructureCandles(ms, ids, tf, base[j]);
    }
  }

  /** Three candles of one series, the last 600 seconds after the others, and
      the patterns HH, HH, LH on them. */
  function DupArena(): seq<Candle>
  {
    var c := Candle("X", M5, 1.0, 1.0, 1.0, 1.0, 0, 0, None);
    [c, c, c.(ts := 600)]
  }

  function DupPatterns(): seq<Pattern>
  {
    [NewPattern(0, HH, M5), NewPattern(1, HH, M5), NewPattern(2, LH, M5)]
  }

  lemma DuplicateRowFirst()
    ensures Row(DupArena(), DupPatterns(), M5, 0, 3) == [NewPattern(2, CHoCH, M5)]
  {
    var none: seq<Pattern> := [];
    var x := NewPattern(2, CHoCH, M5);
    assert Cells(DupArena(), DupPatterns(), M5, 0, 3) == [none] + [[x]];
    FlattenAppend([], none);
    FlattenAppend([none], [x]);
  }

  lemma DuplicateRowSecond()
    ensures Row(DupArena(), DupPatterns(), M5, 1, 3) == [NewPattern(2, CHoCH, M5)]
  {
    var x := NewPattern(2, CHoCH, M5);
    assert Cells(DupArena(), DupPatterns(), M5, 1, 3) == [] + [[x]];
    FlattenAppend([], [x]);
  }

  /** The third pattern has no later partner, so its row is empty. */
  lemma DuplicateRowLast()
    ensures Row(DupArena(), DupPatterns(), M5, 2, 3) == []
  {
    assert Cells(DupArena(), DupPatterns(), M5, 2, 3) == [];
  }

  /** The rows of the outer loop: one CHoCH from each HH, none from the LH. */
  lemma DuplicateRows()
    ensures var x := NewPattern(2, CHoCH, M5);
      Rows(DupArena(), DupPatterns(), M5, 3) == [[x], [x], []]
  {
    DuplicateRowFirst();
    DuplicateRowSecond();
    DuplicateRowLast();
  }

  /** Two pivots of the same kind before one reversal give two CHoCH at the same candle. */
  lemma DuplicateChoch()
    ensures Chochs(DupArena(), DupPatterns(), M5, 3) == [NewPattern(2, CHoCH, M5), NewPattern(2, CHoCH, M5)]
  {
    var x := NewPattern(2, CHoCH, M5);
    var none: seq<Pattern> := [];
    DuplicateRows();
    assert [[x], [x], none] == [] + [[x]] + [[x]] + [none];
    FlattenAppend([], [x]);
    FlattenAppend([[x]], [x]);
    FlattenAppend([[x], [x]], none);
  }

  /** At j = 1 the scan compares with the last candle of the series: a later high
      at the end of the series hides a swing at 1. */
  lemma WrapAroundScan()
    ensures var c := Candle("X", M5, 1.0, 1.0, 1.0, 1.0, 0, 0, None);
      var ms := [c, c.(high := 5.0), c, c, c, c.(high := 9.0)];
      !IsSwing(ms, Highs, 1) && IsSwing(ms[..5], Highs, 1)
  {
  }

  // ---------------------------------------------------------------------
  // The detector's loops

  /** The backward scan for the previous swing, stopping at the first one found. */
  method FindPrevSwing(ms: seq<Candle>, side: Side, i: nat) returns (prev: Option<nat>)
    requires 2 <= i && i + 2 < |ms|
    ensures prev == PrevSwing(ms, side, i - 3, ScanFloor(i))
  {
    var lo := ScanFloor(i);
    prev := None;
    var j := i - 3;
    while j > lo
      invariant j <= i - 3 && PrevSwing(ms, side, j, lo) == PrevSwing(ms, side, i - 3, lo)
      decreases j - lo
    {
      if IsSwing(ms, side, j) {
        prev := Some(j);
        break;
      }
      j := j - 1;
    }
  }

  /** The pattern the swing loop records at i for one side. */
  method SwingAt(ms: seq<Candle>, side: Side, i: nat) returns (kind: Option<PatternKind>)
    requires 2 <= i && i + 2 < |ms|
    ensures kind == SwingKind(ms, side, i)
  {
    kind := None;
    if IsSwing(ms, side, i) {
      var prev := FindPrevSwing(ms, side, i);
      if prev.Some? {
        kind := Classify(side, ms[i], ms[prev.value]);
      }
    }
  }

  /** One step of the swing loop: the high and then the low pattern at i follow those before it. */
  lemma SwingsExtend(ms: seq<Candle>, ids: seq<nat>, tf: AnalysisTimeframe, i: nat, p: seq<Pattern>)
    requires |ids| == |ms| && 2 <= i && i + 2 < |ms|
    requires p == Swings(ms, ids, tf, i) + Emit(ids[i], SwingKind(ms, Highs, i), tf) + Emit(ids[i], SwingKind(ms, Lows, i), tf)
    ensures p == Swings(ms, ids, tf, i + 1)
  {
  }

  /** One step of the BOS loop: the breaks at i follow those before it. */
  lemma BreaksExtend(ms: seq<Candle>, ids: seq<nat>, tf: AnalysisTimeframe, i: nat, swings: seq<Pattern>, p: seq<Pattern>)
    requires |ids| == |ms| && 4 <= i < |ms|
    requires p == swings + Breaks(ms, ids, tf, i)
      + (if BullishBreak(ms, i) then [NewPattern(ids[i], BOS, tf)] else [])
      + (if BearishBreak(ms, i) then [NewPattern(ids[i], BOS, tf)] else [])
    ensures p == swings + Breaks(ms, ids, tf, i + 1)
  {
  }

  /** The swing loop over i in [2, |ms| - 2). */
  method FindSwings(ms: seq<Candle>, ids: seq<nat>, tf: AnalysisTimeframe) returns (patterns: seq<Pattern>)
    requires |ids| == |ms| && |ms| >= 5
    ensures patterns == Swings(ms, ids, tf, |ms| - 2)
  {
    patterns := [];
    var i := 2;
    while i < |ms| - 2
      invariant 2 <= i <= |ms| - 2 && patterns == Swings(ms, ids, tf, i)
    {
      ghost var before := patterns;
      var high := SwingAt(ms, Highs, i);
      if high.Some? {
        patterns := patterns + [NewPattern(ids[i], high.value, tf)];
      }
      var low := SwingAt(ms, Lows, i);
      if low.Some? {
        patterns := patterns + [NewPattern(ids[i], low.value, tf)];
      }
      assert patterns == before + Emit(ids[i], high, tf) + Emit(ids[i], low, tf);
      SwingsExtend(ms, ids, tf, i, patterns);
      i := i + 1;
    }
  }

  /** The BOS loop over i in [4, |ms| - 1), appending to the swings. */
  method FindBreaks(ms: seq<Candle>, ids: seq<nat>, tf: AnalysisTimeframe, swings: seq<Pattern>) returns (patterns: seq<Pattern>)
    requires |ids| == |ms| && |ms| >= 5
    ensures patterns == swings + Breaks(ms, ids, tf, |ms| - 1)
  {
    patterns := swings;
    var i := 4;
    while i < |ms| - 1
      invariant 4 <= i <= |ms| - 1 && patterns == swings + Breaks(ms, ids, tf, i)
    {
      ghost var before := patterns;
      var bullish := BullishBreak(ms, i);
      if bullish {
        patterns := patterns + [NewPattern(ids[i], BOS, tf)];
      }
      var bearish := BearishBreak(ms, i);
      if bearish {
        patterns := patterns + [NewPattern(ids[i], BOS, tf)];
      }
      assert patterns == before + (if bullish then [NewPattern(ids[i], BOS, tf)] else [])
        + (if bearish then [NewPattern(ids[i], BOS, tf)] else []);
      BreaksExtend(ms, ids, tf, i, swings, patterns);
      i := i + 1;
    }
  }

  /** A row of a non-pivot pattern is empty. */
  lemma RowOfNonPivot(cs: seq<Candle>, ps: seq<Pattern>, tf: AnalysisTimeframe, i: nat, n: nat)
    requires i < n <= |ps| && !IsPivotKind(ps[i].kind)
    ensures Row(cs, ps, tf, i, n) == []
  {
    var cells := Cells(cs, ps, tf, i, n);
    forall g | 0 <= g < |cells| ensures cells[g] == [] {
      assert cells[g] == ChochFor(cs, ps[i], ps[i + 1 + g], tf);
      assert !Reverses(ps[i].kind, ps[i + 1 + g].kind);
    }
    FlattenEmpty(cells);
  }

  lemma RowStep(cs: seq<Candle>, ps: seq<Pattern>, tf: AnalysisTimeframe, i: nat, j: nat)
    requires i < j < |ps|
    ensures Row(cs, ps, tf, i, j + 1) == Row(cs, ps, tf, i, j) + ChochFor(cs, ps[i], ps[j], tf)
  {
    assert Cells(cs, ps, tf, i, j + 1) == Cells(cs, ps, tf, i, j) + [ChochFor(cs, ps[i], ps[j], tf)];
    FlattenAppend(Cells(cs, ps, tf, i, j), ChochFor(cs, ps[i], ps[j], tf));
  }

  lemma ChochsStep(cs: seq<Candle>, ps: seq<Pattern>, tf: AnalysisTimeframe, i: nat)
    requires i < |ps|
    ensures Chochs(cs, ps, tf, i + 1) == Chochs(cs, ps, tf, i) + Row(cs, ps, tf, i, |ps|)
  {
    assert Rows(cs, ps, tf, i + 1) == Rows(cs, ps, tf, i) + [Row(cs, ps, tf, i, |ps|)];
    FlattenAppend(Rows(cs, ps, tf, i), Row(cs, ps, tf, i, |ps|));
  }

  /** Appending the row of the next P completes the next prefix of the scan. */
  lemma ChochsExtend(cs: seq<Candle>, base: seq<Pattern>, tf: AnalysisTimeframe, i: nat, p: seq<Pattern>)
    requires i < |base| && p == base + Chochs(cs, base, tf, i) + Row(cs, base, tf, i, |base|)
    ensures p == base + Chochs(cs, base, tf, i + 1)
  {
    ChochsStep(cs, base, tf, i);
  }

  function Cap(j: nat, count: nat): nat
  {
    if j <= count then j else count
  }

  /** One step of the inner loop: within the original list it adds the pair's CHoCH,
      beyond it nothing. */
  lemma ScanAdvance(cs: seq<Candle>, ps: seq<Pattern>, tf: AnalysisTimeframe, i: nat, j: nat)
    requires i < j && i < |ps|
    ensures j < |ps| ==> Row(cs, ps, tf, i, Cap(j + 1, |ps|)) == Row(cs, ps, tf, i, Cap(j, |ps|)) + ChochFor(cs, ps[i], ps[j], tf)
    ensures j >= |ps| ==> Row(cs, ps, tf, i, Cap(j + 1, |ps|)) == Row(cs, ps, tf, i, Cap(j, |ps|))
  {
    if j < |ps| {
      RowStep(cs, ps, tf, i, j);
    }
  }

  /** A recorded CHoCH points into the arena and can never be the Q of a pair. */
  lemma LaterChoch(cs: seq<Candle>, ps: seq<Pattern>, tf: AnalysisTimeframe, n: nat, x: Pattern)
    requires n <= |ps| && x in Chochs(cs, ps, tf, n)
    ensures x.candle < |cs| && x.kind == CHoCH
  {
    var _, _ := ChochSound(cs, ps, tf, n, x);
  }

  /** The inner loop of the CHoCH scan for P = base[i]: it runs to the length of the
      list at its start, so it also visits the CHoCH appended by earlier rows,
      which never match. */
  method ScanLater(cs: seq<Candle>, base: seq<Pattern>, tf: AnalysisTimeframe, i: nat, before: seq<Pattern>)
    returns (patterns: seq<Pattern>)
    requires i < |base| && CandlesIn(base, cs) && before == base + Chochs(cs, base, tf, i)
    ensures patterns == before + Row(cs, base, tf, i, |base|)
  {
    ghost var done := Chochs(cs, base, tf, i);
    var count := |base|;
    patterns := before;
    var pattern := patterns[i];
    var t := cs[pattern.candle].ts;
    var m := |patterns|;
    var j := i + 1;
    ghost var row: seq<Pattern> := [];
    while j < m
      invariant i + 1 <= j <= m && m == |before| == count + |done|
      invariant patterns == before + row
      invariant row == Row(cs, base, tf, i, Cap(j, count))
    {
      var next := patterns[j];
      ScanAdvance(cs, base, tf, i, j);
      if j >= count {
        assert next == done[j - count];
        LaterChoch(cs, base, tf, i, next);
      } else {
        assert next == base[j] && pattern == base[i];
      }
      var hit := cs[next.candle].ts - t >= 300 && Reverses(pattern.kind, next.kind);
      if hit {
        patterns := patterns + [NewPattern(next.candle, CHoCH, tf)];
        row := row + [NewPattern(next.candle, CHoCH, tf)];
      }
      j := j + 1;
    }
  }

  /** One pass of the outer CHoCH loop: only the four pivot kinds start an inner scan. */
  method ScanFrom(cs: seq<Candle>, base: seq<Pattern>, tf: AnalysisTimeframe, i: nat, before: seq<Pattern>)
    returns (patterns: seq<Pattern>)
    requires i < |base| && CandlesIn(base, cs) && before == base + Chochs(cs, base, tf, i)
    ensures patterns == base + Chochs(cs, base, tf, i + 1)
  {
    var pattern := before[i];
    assert pattern == base[i];
    if IsPivotKind(pattern.kind) {
      patterns := ScanLater(cs, base, tf, i, before);
    } else {
      RowOfNonPivot(cs, base, tf, i, |base|);
      patterns := before;
      assert patterns == before + Row(cs, base, tf, i, |base|);
    }
    ChochsExtend(cs, base, tf, i, patterns);
  }

  /** The CHoCH loop: the outer range is fixed to the list found by the swing and
      BOS loops. */
  method FindChochs(cs: seq<Candle>, base: seq<Pattern>, tf: AnalysisTimeframe) returns (patterns: seq<Pattern>)
    requires CandlesIn(base, cs)
    ensures patterns == base + Chochs(cs, base, tf, |base|)
  {
    patterns := base;
    var count := |patterns|;
    var i := 0;
    while i < count
      invariant i <= count == |base| && patterns == base + Chochs(cs, base, tf, i)
    {
      patterns := ScanFrom(cs, base, tf, i, patterns);
      i := i + 1;
    }
  }

  /** The swings and breaks of a series point into the arena. */
  lemma StructureIn(cs: seq<Candle>, ids: seq<nat>, ms: seq<Candle>, tf: AnalysisTimeframe)
    requires KeysIn(ids, Timestamps(cs)) && ms == Values(cs, ids) && |ms| >= 5
    ensures CandlesIn(Structure(ms, ids, tf), cs)
  {
    var base := Structure(ms, ids, tf);
    forall k | 0 <= k < |base| ensures base[k].candle < |cs| {
      StructureCandles(ms, ids, tf, base[k]);
    }
  }

  /** Storing the detected patterns keeps every pattern's candle in the arena. */
  lemma DetectWellFormed(cs: seq<Candle>, ps: seq<Pattern>, symbol: string, tf: AnalysisTimeframe)
    requires PatternsWellFormed(cs, ps)
    ensures PatternsWellFormed(cs, ps + Detect(cs, symbol, tf))
  {
    var all := ps + Detect(cs, symbol, tf);
    forall k | 0 <= k < |all| ensures all[k].candle < |cs| {
      if k >= |ps| {
        DetectShape(cs, symbol, tf, all[k]);
      }
    }
  }

  /** The detector's result is what the three loops compute on the series. */
  lemma DetectIs(cs: seq<Candle>, symbol: string, tf: AnalysisTimeframe, ids: seq<nat>, ms: seq<Candle>, patterns: seq<Pattern>)
    requires ids == SeriesIds(cs, symbol, tf) && ms == Values(cs, ids)
    requires |ms| < 5 ==> patterns == []
    requires |ms| >= 5 ==> patterns == Structure(ms, ids, tf) + Chochs(cs, Structure(ms, ids, tf), tf, |Structure(ms, ids, tf)|)
    ensures Detect(cs, symbol, tf) == patterns
  {
  }

  /** Appending patterns that point into the arena keeps the store well formed. */
  lemma PatternsAppended(cs: seq<Candle>, ps: seq<Pattern>, gs: seq<Gap>, ts: seq<Opportunity>, extra: seq<Pattern>)
    requires GapsWellFormed(cs, ps, gs) && TradesWellFormed(ps, gs, ts)
    ensures GapsWellFormed(cs, ps + extra, gs) && TradesWellFormed(ps + extra, gs, ts)
  {
  }

  /** identify_price_action_patterns: only the analysis timeframes are accepted;
      fewer than five candles give no pattern; the patterns found are stored. */
  method IdentifyPriceActionPatterns(db: Database, symbol: string, timeframe: string) returns (r: Result<seq<Pattern>>)
    requires db.Valid()
    modifies db
    ensures db.Valid()
    ensures db.candles == old(db.candles) && db.gaps == old(db.gaps) && db.trades == old(db.trades)
    ensures ParseAnalysis(timeframe).None? ==> r.Err? && db.patterns == old(db.patterns)
    ensures ParseAnalysis(timeframe).Some? ==>
      && r == Ok(Detect(old(db.candles), symbol, ParseAnalysis(timeframe).value))
      && db.patterns == old(db.patterns) + r.value
  {
    var parsed := ParseAnalysis(timeframe);
    if parsed.None? {
      return Err("Unsupported timeframe for analysis: " + timeframe);
    }
    var tf := parsed.value;
    var ids := SeriesIds(db.candles, symbol, tf);
    var candles := Values(db.candles, ids);
    if |candles| < 5 {
      DetectIs(db.candles, symbol, tf, ids, candles, []);
      return Ok([]);
    }
    var swings := FindSwings(candles, ids, tf);
    var base := FindBreaks(candles, ids, tf, swings);
    StructureIn(db.candles, ids, candles, tf);
    var patterns := FindChochs(db.candles, base, tf);
    DetectIs(db.candles, symbol, tf, ids, candles, patterns);
    DetectWellFormed(db.candles, db.patterns, symbol, tf);
    PatternsAppended(db.candles, db.patterns, db.gaps, db.trades, patterns);
    db.patterns := db.patterns + patterns;
    return Ok(patterns);
  }
}
