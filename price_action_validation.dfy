/** validate_patterns: every pattern of the pivot timeframe is judged against
    the other requested timeframes. A coarser timeframe votes through the candle
    that contains the pattern's candle; a finer one votes by majority over the
    candles inside the pattern's candle window. The pattern becomes Valid when
    confirmations outnumber contradictions, and Invalid otherwise. */
module PriceActionValidation {
  import opened Models
  import opened Queries
  import opened PriceActionService

  // ---------------------------------------------------------------------
  // Timeframe order and contradicting kinds

  /** compare_timeframes: the sign of the difference of the bucket widths. */
  function CompareTimeframes(a: Timeframe, b: Timeframe): (r: int)
    ensures r == 1 <==> Minutes(a) > Minutes(b)
    ensures r == -1 <==> Minutes(a) < Minutes(b)
    ensures r == 0 <==> Minutes(a) == Minutes(b)
  {
    if Minutes(a) > Minutes(b) then 1
    else if Minutes(a) < Minutes(b) then -1
    else 0
  }

  /** The width order is the ladder order: widths strictly grow up the ladder. */
  lemma MinutesFollowRank(a: Timeframe, b: Timeframe)
    ensures Minutes(a) < Minutes(b) <==> Rank(a) < Rank(b)
    ensures Minutes(a) == Minutes(b) <==> a == b
  {
  }

  /** The comparison is antisymmetric and only equal timeframes compare equal. */
  lemma CompareAntisymmetric(a: Timeframe, b: Timeframe)
    ensures CompareTimeframes(a, b) == -CompareTimeframes(b, a)
    ensures CompareTimeframes(a, b) == 0 <==> a == b
    ensures CompareTimeframes(a, b) == 1 <==> Rank(a) > Rank(b)
  {
    MinutesFollowRank(a, b);
    MinutesFollowRank(b, a);
  }

  /** get_contradicting_pattern_types. */
  function Contradicting(k: PatternKind): set<PatternKind>
  {
    match k
    case HH => {LL, LH}
    case HL => {LH, LL}
    case LH => {HH, HL}
    case LL => {HH, HL}
    case BOS => {}
    case CHoCH => {}
  }

  /** HH and HL lean up, LH and LL lean down. */
  predicate Bullish(k: PatternKind)
  {
    k.HH? || k.HL?
  }

  /** Two swing kinds contradict exactly when they lean in opposite directions;
      the relation is symmetric and irreflexive, and BOS and CHoCH take no part. */
  lemma ContradictingMeaning(a: PatternKind, b: PatternKind)
    ensures b in Contradicting(a) <==> IsPivotKind(a) && IsPivotKind(b) && Bullish(a) != Bullish(b)
    ensures b in Contradicting(a) <==> a in Contradicting(b)
    ensures a !in Contradicting(a)
    ensures Contradicting(a) == {} <==> !IsPivotKind(a)
  {
    if !IsPivotKind(a) {
    } else {
      assert Contradicting(a) != {} by {
        if Bullish(a) { assert LH in Contradicting(a); } else { assert HH in Contradicting(a); }
      }
    }
  }

  // ---------------------------------------------------------------------
  // The queries a vote makes

  /** Some stored pattern sits on the candle with one of the kinds. */
  predicate HasKind(ps: seq<Pattern>, candle: nat, kinds: set<PatternKind>)
  {
    exists k :: 0 <= k < |ps| && ps[k].candle == candle && ps[k].kind in kinds
  }

  predicate At(c: Candle, symbol: string, tf: Timeframe, ts: int)
  {
    c.symbol == symbol && c.tf == tf && c.ts == ts
  }

  /** The first candle from x on with the symbol, timeframe and timestamp. */
  function FirstAt(cs: seq<Candle>, symbol: string, tf: Timeframe, ts: int, x: nat): Option<nat>
    requires x <= |cs|
    decreases |cs| - x
  {
    if x == |cs| then None
    else if At(cs[x], symbol, tf, ts) then Some(x)
    else FirstAt(cs, symbol, tf, ts, x + 1)
  }

  /** FirstAt finds the first match from x on, and None means there is none. */
  lemma {:induction false} FirstAtFacts(cs: seq<Candle>, symbol: string, tf: Timeframe, ts: int, x: nat)
    requires x <= |cs|
    ensures var r := FirstAt(cs, symbol, tf, ts, x);
      && (r.Some? ==> x <= r.value < |cs| && At(cs[r.value], symbol, tf, ts))
      && (r.Some? ==> forall y :: x <= y < r.value ==> !At(cs[y], symbol, tf, ts))
      && (r.None? ==> forall y :: x <= y < |cs| ==> !At(cs[y], symbol, tf, ts))
    decreases |cs| - x
  {
    if x < |cs| && !At(cs[x], symbol, tf, ts) {
      FirstAtFacts(cs, symbol, tf, ts, x + 1);
    }
  }

  /** find_containing_candle: the first candle of the coarser timeframe, with the
      candle's own symbol, stamped at the candle's bucket start. The minute is
      floored to a multiple of the coarser width and the hour is kept. */
  function ContainingCandle(cs: seq<Candle>, c: Candle, higher: Timeframe): Option<nat>
  {
    FirstAt(cs, c.symbol, higher, Floor(c.ts, Minutes(higher)), 0)
  }

  /** The containing candle is the first candle of the coarser timeframe and the
      candle's symbol stamped at its bucket start; that bucket holds the candle's
      timestamp for the widths up to 1H; None means no such candle is stored. */
  lemma ContainingCandleFacts(cs: seq<Candle>, c: Candle, higher: AnalysisTimeframe)
    ensures var r := ContainingCandle(cs, c, higher);
      && (r.Some? ==> r.value < |cs| && At(cs[r.value], c.symbol, higher, Floor(c.ts, Minutes(higher))))
      && (r.Some? ==> forall y :: 0 <= y < r.value ==> !At(cs[y], c.symbol, higher, Floor(c.ts, Minutes(higher))))
      && (r.None? ==> forall y :: 0 <= y < |cs| ==> !At(cs[y], c.symbol, higher, Floor(c.ts, Minutes(higher))))
      && (r.Some? ==> cs[r.value].ts <= c.ts < cs[r.value].ts + Minutes(higher) * 60)
  {
    FirstAtFacts(cs, c.symbol, higher, Floor(c.ts, Minutes(higher)), 0);
    FloorFacts(c.ts, Minutes(higher));
    FloorWindow(c.ts, Minutes(higher));
  }

  /** Ids below n of the candles of a symbol and timeframe stamped in [start, end). */
  function WindowIds(cs: seq<Candle>, symbol: string, tf: Timeframe, start: int, end: int, n: nat): seq<nat>
    requires n <= |cs|
  {
    if n == 0 then []
    else
      var c := cs[n - 1];
      if c.symbol == symbol && c.tf == tf && start <= c.ts < end then WindowIds(cs, symbol, tf, start, end, n - 1) + [n - 1]
      else WindowIds(cs, symbol, tf, start, end, n - 1)
  }

  /** The window query lists exactly the matching candles, each once. */
  lemma {:induction false} WindowMembers(cs: seq<Candle>, symbol: string, tf: Timeframe, start: int, end: int, n: nat)
    requires n <= |cs|
    ensures var r := WindowIds(cs, symbol, tf, start, end, n);
      && (forall x: nat :: x in r <==> x < n && cs[x].symbol == symbol && cs[x].tf == tf && start <= cs[x].ts < end)
      && (forall k :: 0 <= k < |r| ==> r[k] < n)
      && (forall a, b :: 0 <= a < b < |r| ==> r[a] < r[b])
  {
    if n > 0 {
      WindowMembers(cs, symbol, tf, start, end, n - 1);
      var init := WindowIds(cs, symbol, tf, start, end, n - 1);
      var c := cs[n - 1];
      if c.symbol == symbol && c.tf == tf && start <= c.ts < end {
        var r := init + [n - 1];
        assert forall k :: 0 <= k < |init| ==> r[k] == init[k];
      }
    }
  }

  /** How many of the first n listed candles carry a pattern of one of the kinds. */
  function CountWith(ps: seq<Pattern>, ids: seq<nat>, kinds: set<PatternKind>, n: nat): (r: nat)
    requires n <= |ids|
    ensures r <= n
  {
    if n == 0 then 0
    else CountWith(ps, ids, kinds, n - 1) + (if HasKind(ps, ids[n - 1], kinds) then 1 else 0)
  }

  /** No candle carries a pattern of no kind. */
  lemma {:induction false} CountNone(ps: seq<Pattern>, ids: seq<nat>, n: nat)
    requires n <= |ids|
    ensures CountWith(ps, ids, {}, n) == 0
  {
    if n > 0 {
      CountNone(ps, ids, n - 1);
      assert !HasKind(ps, ids[n - 1], {});
    }
  }

  // ---------------------------------------------------------------------
  // Votes

  datatype Vote = Confirm | Contradict | Abstain

  /** A coarser timeframe confirms when its containing candle carries the same
      kind, and otherwise contradicts when it carries a contradicting kind. */
  function HigherVote(cs: seq<Candle>, ps: seq<Pattern>, p: Pattern, higher: Timeframe): Vote
    requires p.candle < |cs|
  {
    match ContainingCandle(cs, cs[p.candle], higher)
    case None => Abstain
    case Some(h) =>
      if HasKind(ps, h, {p.kind}) then Confirm
      else if HasKind(ps, h, Contradicting(p.kind)) then Contradict
      else Abstain
  }

  /** The finer candles of the argument symbol inside the pattern candle's window
      [ts, ts + pivot width). */
  function LowerWindow(cs: seq<Candle>, symbol: string, p: Pattern, pivot: Timeframe, lower: Timeframe): seq<nat>
    requires p.candle < |cs|
  {
    var start := cs[p.candle].ts;
    WindowIds(cs, symbol, lower, start, start + Minutes(pivot) * 60, |cs|)
  }

  /** A finer timeframe votes by majority of candles carrying the same kind over
      candles carrying a contradicting kind; a tie abstains. */
  function LowerVote(cs: seq<Candle>, ps: seq<Pattern>, symbol: string, p: Pattern, pivot: Timeframe, lower: Timeframe): Vote
    requires p.candle < |cs|
  {
    var ids := LowerWindow(cs, symbol, p, pivot, lower);
    var confirming := CountWith(ps, ids, {p.kind}, |ids|);
    var contradicting := CountWith(ps, ids, Contradicting(p.kind), |ids|);
    if confirming > contradicting then Confirm
    else if contradicting > confirming then Contradict
    else Abstain
  }

  /** The vote of one requested timeframe code: the pivot's own code and codes
      outside the analysis timeframes abstain. */
  function VoteOf(cs: seq<Candle>, ps: seq<Pattern>, symbol: string, p: Pattern, pivot: AnalysisTimeframe, name: string): Vote
    requires p.candle < |cs|
  {
    if name == Name(pivot) then Abstain
    else match ParseAnalysis(name)
      case None => Abstain
      case Some(tf) =>
        if CompareTimeframes(tf, pivot) > 0 then HigherVote(cs, ps, p, tf)
        else LowerVote(cs, ps, symbol, p, pivot, tf)
  }

  /** Confirmations and contradictions from the first n requested codes. */
  function Tally(cs: seq<Candle>, ps: seq<Pattern>, symbol: string, p: Pattern, pivot: AnalysisTimeframe, names: seq<string>, n: nat): (t: (nat, nat))
    requires p.candle < |cs| && n <= |names|
  {
    if n == 0 then (0, 0)
    else
      Count(Tally(cs, ps, symbol, p, pivot, names, n - 1), VoteOf(cs, ps, symbol, p, pivot, names[n - 1]))
  }

  /** A vote added to the running confirmations and contradictions. */
  function Count(t: (nat, nat), v: Vote): (nat, nat)
  {
    match v
    case Confirm => (t.0 + 1, t.1)
    case Contradict => (t.0, t.1 + 1)
    case Abstain => t
  }

  lemma TallyStep(cs: seq<Candle>, ps: seq<Pattern>, symbol: string, p: Pattern, pivot: AnalysisTimeframe, names: seq<string>, i: nat, v: Vote)
    requires p.candle < |cs| && i < |names| && v == VoteOf(cs, ps, symbol, p, pivot, names[i])
    ensures Tally(cs, ps, symbol, p, pivot, names, i + 1) == Count(Tally(cs, ps, symbol, p, pivot, names, i), v)
  {
  }

  /** The status a pattern receives. */
  function Judge(cs: seq<Candle>, ps: seq<Pattern>, symbol: string, p: Pattern, pivot: AnalysisTimeframe, names: seq<string>): ValidationStatus
    requires p.candle < |cs|
  {
    var t := Tally(cs, ps, symbol, p, pivot, names, |names|);
    if t.0 > t.1 then Valid else Invalid
  }

  /** Every requested code casts at most one vote. */
  lemma {:induction false} TallyBound(cs: seq<Candle>, ps: seq<Pattern>, symbol: string, p: Pattern, pivot: AnalysisTimeframe, names: seq<string>, n: nat)
    requires p.candle < |cs| && n <= |names|
    ensures Tally(cs, ps, symbol, p, pivot, names, n).0 + Tally(cs, ps, symbol, p, pivot, names, n).1 <= n
  {
    if n > 0 {
      TallyBound(cs, ps, symbol, p, pivot, names, n - 1);
    }
  }

  /** BOS and CHoCH have no contradicting kind, so no timeframe contradicts them:
      they are Valid exactly when some timeframe confirms them. */
  lemma {:induction false} NoContradictionForBreaks(cs: seq<Candle>, ps: seq<Pattern>, symbol: string, p: Pattern, pivot: AnalysisTimeframe, names: seq<string>, n: nat)
    requires p.candle < |cs| && n <= |names| && !IsPivotKind(p.kind)
    ensures Tally(cs, ps, symbol, p, pivot, names, n).1 == 0
    ensures n == |names| ==> (Judge(cs, ps, symbol, p, pivot, names) == Valid <==> Tally(cs, ps, symbol, p, pivot, names, n).0 > 0)
  {
    if n > 0 {
      NoContradictionForBreaks(cs, ps, symbol, p, pivot, names, n - 1);
      var name := names[n - 1];
      if name != Name(pivot) && ParseAnalysis(name).Some? {
        var tf := ParseAnalysis(name).value;
        if CompareTimeframes(tf, pivot) <= 0 {
          var ids := LowerWindow(cs, symbol, p, pivot, tf);
          CountNone(ps, ids, |ids|);
        }
      }
    }
  }

  /** Requesting only the pivot's own code, or codes outside the analysis
      timeframes, leaves every pattern Invalid. */
  lemma {:induction false} NothingToCompare(cs: seq<Candle>, ps: seq<Pattern>, symbol: string, p: Pattern, pivot: AnalysisTimeframe, names: seq<string>, n: nat)
    requires p.candle < |cs| && n <= |names|
    requires forall k :: 0 <= k < |names| ==> names[k] == Name(pivot) || ParseAnalysis(names[k]).None?
    ensures Tally(cs, ps, symbol, p, pivot, names, n) == (0, 0)
    ensures n == |names| ==> Judge(cs, ps, symbol, p, pivot, names) == Invalid
  {
    if n > 0 {
      NothingToCompare(cs, ps, symbol, p, pivot, names, n - 1);
    }
  }

  // ---------------------------------------------------------------------
  // Votes read only the candle and kind of the stored patterns

  /** The same patterns up to their validation statuses. */
  ghost predicate SameShape(ps: seq<Pattern>, qs: seq<Pattern>)
  {
    |ps| == |qs| && forall k :: 0 <= k < |ps| ==> ps[k].candle == qs[k].candle && ps[k].kind == qs[k].kind
  }

  lemma HasKindSameShape(ps: seq<Pattern>, qs: seq<Pattern>, candle: nat, kinds: set<PatternKind>)
    requires SameShape(ps, qs)
    ensures HasKind(ps, candle, kinds) == HasKind(qs, candle, kinds)
  {
    if HasKind(ps, candle, kinds) {
      var k :| 0 <= k < |ps| && ps[k].candle == candle && ps[k].kind in kinds;
      assert qs[k].candle == candle && qs[k].kind in kinds;
    }
    if HasKind(qs, candle, kinds) {
      var k :| 0 <= k < |qs| && qs[k].candle == candle && qs[k].kind in kinds;
      assert ps[k].candle == candle && ps[k].kind in kinds;
    }
  }

  lemma {:induction false} CountSameShape(ps: seq<Pattern>, qs: seq<Pattern>, ids: seq<nat>, kinds: set<PatternKind>, n: nat)
    requires SameShape(ps, qs) && n <= |ids|
    ensures CountWith(ps, ids, kinds, n) == CountWith(qs, ids, kinds, n)
  {
    if n > 0 {
      CountSameShape(ps, qs, ids, kinds, n - 1);
      HasKindSameShape(ps, qs, ids[n - 1], kinds);
    }
  }

  lemma VoteSameShape(cs: seq<Candle>, ps: seq<Pattern>, qs: seq<Pattern>, symbol: string, p: Pattern, pivot: AnalysisTimeframe, name: string)
    requires p.candle < |cs| && SameShape(ps, qs)
    ensures VoteOf(cs, ps, symbol, p, pivot, name) == VoteOf(cs, qs, symbol, p, pivot, name)
  {
    if name != Name(pivot) && ParseAnalysis(name).Some? {
      var tf := ParseAnalysis(name).value;
      if CompareTimeframes(tf, pivot) > 0 {
        match ContainingCandle(cs, cs[p.candle], tf)
        case None =>
        case Some(h) =>
          HasKindSameShape(ps, qs, h, {p.kind});
          HasKindSameShape(ps, qs, h, Contradicting(p.kind));
      } else {
        var ids := LowerWindow(cs, symbol, p, pivot, tf);
        CountSameShape(ps, qs, ids, {p.kind}, |ids|);
        CountSameShape(ps, qs, ids, Contradicting(p.kind), |ids|);
      }
    }
  }

  lemma {:induction false} TallySameShape(cs: seq<Candle>, ps: seq<Pattern>, qs: seq<Pattern>, symbol: string, p: Pattern, pivot: AnalysisTimeframe, names: seq<string>, n: nat)
    requires p.candle < |cs| && n <= |names| && SameShape(ps, qs)
    ensures Tally(cs, ps, symbol, p, pivot, names, n) == Tally(cs, qs, symbol, p, pivot, names, n)
  {
    if n > 0 {
      TallySameShape(cs, ps, qs, symbol, p, pivot, names, n - 1);
      VoteSameShape(cs, ps, qs, symbol, p, pivot, names[n - 1]);
    }
  }

  /** Changing statuses cannot change any verdict. */
  lemma JudgeSameShape(cs: seq<Candle>, ps: seq<Pattern>, qs: seq<Pattern>, symbol: string, p: Pattern, pivot: AnalysisTimeframe, names: seq<string>)
    requires p.candle < |cs| && SameShape(ps, qs)
    ensures Judge(cs, ps, symbol, p, pivot, names) == Judge(cs, qs, symbol, p, pivot, names)
  {
    TallySameShape(cs, ps, qs, symbol, p, pivot, names, |names|);
  }

  // ---------------------------------------------------------------------
  // The whole pass

  /** Ids below n of the patterns of one timeframe, of any symbol, in arena order. */
  function PatternIds(ps: seq<Pattern>, tf: AnalysisTimeframe, n: nat): seq<nat>
    requires n <= |ps|
  {
    if n == 0 then []
    else if ps[n - 1].tf == tf then PatternIds(ps, tf, n - 1) + [n - 1]
    else PatternIds(ps, tf, n - 1)
  }

  /** The pivot query lists exactly the patterns of the timeframe, each once, in
      store order. */
  lemma {:induction false} PatternIdsFacts(ps: seq<Pattern>, tf: AnalysisTimeframe, n: nat)
    requires n <= |ps|
    ensures var r := PatternIds(ps, tf, n);
      && (forall x: nat :: x in r <==> x < n && ps[x].tf == tf)
      && (forall k :: 0 <= k < |r| ==> r[k] < n)
      && (forall a, b :: 0 <= a < b < |r| ==> r[a] < r[b])
  {
    if n > 0 {
      PatternIdsFacts(ps, tf, n - 1);
      var init := PatternIds(ps, tf, n - 1);
      if ps[n - 1].tf == tf {
        var r := init + [n - 1];
        assert forall k :: 0 <= k < |init| ==> r[k] == init[k];
      }
    }
  }

  /** The patterns after validation: each pattern of the pivot timeframe gets its
      verdict, every other pattern is left as it was. */
  function Validated(cs: seq<Candle>, ps: seq<Pattern>, symbol: string, pivot: AnalysisTimeframe, names: seq<string>): seq<Pattern>
    requires PatternsWellFormed(cs, ps)
  {
    seq(|ps|, k requires 0 <= k < |ps| =>
      if ps[k].tf == pivot then ps[k].(status := Judge(cs, ps, symbol, ps[k], pivot, names)) else ps[k])
  }

  /** Validation changes statuses only: patterns of the pivot timeframe end Valid
      exactly when confirmations outnumber contradictions, and Invalid otherwise;
      nothing stays Pending. */
  lemma ValidatedShape(cs: seq<Candle>, ps: seq<Pattern>, symbol: string, pivot: AnalysisTimeframe, names: seq<string>, k: nat)
    requires PatternsWellFormed(cs, ps) && k < |ps|
    ensures var v := Validated(cs, ps, symbol, pivot, names);
      && SameShape(v, ps) && v[k].tf == ps[k].tf
      && (ps[k].tf != pivot ==> v[k] == ps[k])
      && (ps[k].tf == pivot ==>
            var t := Tally(cs, ps, symbol, ps[k], pivot, names, |names|);
            && v[k].status != Pending
            && (v[k].status == Valid <==> t.0 > t.1))
  {
  }

  /** Validating twice gives the same patterns as validating once. */
  lemma ValidatedIdempotent(cs: seq<Candle>, ps: seq<Pattern>, symbol: string, pivot: AnalysisTimeframe, names: seq<string>)
    requires PatternsWellFormed(cs, ps)
    ensures PatternsWellFormed(cs, Validated(cs, ps, symbol, pivot, names))
    ensures var v := Validated(cs, ps, symbol, pivot, names);
      Validated(cs, v, symbol, pivot, names) == v
  {
    var v := Validated(cs, ps, symbol, pivot, names);
    assert SameShape(v, ps);
    forall k | 0 <= k < |v| && v[k].tf == pivot
      ensures Judge(cs, v, symbol, v[k], pivot, names) == Judge(cs, ps, symbol, ps[k], pivot, names)
    {
      JudgeSameShape(cs, v, ps, symbol, v[k], pivot, names);
      assert v[k].candle == ps[k].candle && v[k].kind == ps[k].kind;
      assert Judge(cs, ps, symbol, v[k], pivot, names) == Judge(cs, ps, symbol, ps[k], pivot, names) by {
        assert v[k] == ps[k].(status := v[k].status);
        JudgeOnlyShape(cs, ps, symbol, ps[k], v[k], pivot, names);
      }
    }
  }

  /** The verdict on a pattern reads its candle and kind, not its status. */
  lemma JudgeOnlyShape(cs: seq<Candle>, ps: seq<Pattern>, symbol: string, p: Pattern, q: Pattern, pivot: AnalysisTimeframe, names: seq<string>)
    requires p.candle < |cs| && q == p.(status := q.status)
    ensures Judge(cs, ps, symbol, p, pivot, names) == Judge(cs, ps, symbol, q, pivot, names)
  {
    TallyOnlyShape(cs, ps, symbol, p, q, pivot, names, |names|);
  }

  lemma VoteOnlyShape(cs: seq<Candle>, ps: seq<Pattern>, symbol: string, p: Pattern, q: Pattern, pivot: AnalysisTimeframe, name: string)
    requires p.candle < |cs| && q == p.(status := q.status)
    ensures VoteOf(cs, ps, symbol, p, pivot, name) == VoteOf(cs, ps, symbol, q, pivot, name)
  {
    assert p.candle == q.candle && p.kind == q.kind;
  }

  lemma {:induction false} TallyOnlyShape(cs: seq<Candle>, ps: seq<Pattern>, symbol: string, p: Pattern, q: Pattern, pivot: AnalysisTimeframe, names: seq<string>, n: nat)
    requires p.candle < |cs| && q == p.(status := q.status) && n <= |names|
    ensures Tally(cs, ps, symbol, p, pivot, names, n) == Tally(cs, ps, symbol, q, pivot, names, n)
  {
    if n > 0 {
      TallyOnlyShape(cs, ps, symbol, p, q, pivot, names, n - 1);
      VoteOnlyShape(cs, ps, symbol, p, q, pivot, names[n - 1]);
    }
  }

  // ---------------------------------------------------------------------
  // The loops

  /** The store part way through the pass: the patterns listed in done carry
      their verdicts, the rest are as they were. */
  ghost predicate PartlyValidated(cur: seq<Pattern>, ps: seq<Pattern>, target: seq<Pattern>, done: seq<nat>)
  {
    && |cur| == |ps| == |target|
    && forall k :: 0 <= k < |ps| ==> cur[k] == if k in done then target[k] else ps[k]
  }

  lemma PartlySameShape(cur: seq<Pattern>, ps: seq<Pattern>, target: seq<Pattern>, done: seq<nat>, id: nat)
    requires PartlyValidated(cur, ps, target, done) && SameShape(target, ps) && id < |ps| && id !in done
    ensures SameShape(cur, ps) && cur[id] == ps[id]
  {
  }

  lemma PartlyStep(cur: seq<Pattern>, ps: seq<Pattern>, target: seq<Pattern>, done: seq<nat>, id: nat)
    requires PartlyValidated(cur, ps, target, done) && id < |ps|
    ensures PartlyValidated(cur[id := target[id]], ps, target, done + [id])
  {
  }

  /** One step of the pass: the next pattern of the pivot timeframe, judged on
      the partly updated store, receives exactly its final verdict. */
  lemma ValidateStep(cs: seq<Candle>, cur: seq<Pattern>, ps: seq<Pattern>, symbol: string, pivot: AnalysisTimeframe, names: seq<string>, done: seq<nat>, id: nat)
    requires PatternsWellFormed(cs, ps)
    requires PartlyValidated(cur, ps, Validated(cs, ps, symbol, pivot, names), done)
    requires id < |ps| && id !in done && ps[id].tf == pivot
    ensures cur[id] == ps[id] && cur[id].candle < |cs|
    ensures var status := Judge(cs, cur, symbol, cur[id], pivot, names);
      PartlyValidated(cur[id := cur[id].(status := status)], ps, Validated(cs, ps, symbol, pivot, names), done + [id])
  {
    var target := Validated(cs, ps, symbol, pivot, names);
    ValidatedShape(cs, ps, symbol, pivot, names, id);
    PartlySameShape(cur, ps, target, done, id);
    JudgeSameShape(cs, cur, ps, symbol, ps[id], pivot, names);
    assert cur[id].(status := Judge(cs, cur, symbol, cur[id], pivot, names)) == target[id];
    PartlyStep(cur, ps, target, done, id);
  }

  lemma PartlyDone(cur: seq<Pattern>, ps: seq<Pattern>, target: seq<Pattern>, ids: seq<nat>)
    requires PartlyValidated(cur, ps, target, ids)
    requires forall k :: 0 <= k < |ps| && k !in ids ==> target[k] == ps[k]
    ensures cur == target
  {
  }

  /** The loop over the finer candles of the window, counting candles with a
      confirming pattern and, separately, candles with a contradicting one. */
  method CountWindow(ps: seq<Pattern>, ids: seq<nat>, kind: PatternKind) returns (confirming: nat, contradicting: nat)
    ensures confirming == CountWith(ps, ids, {kind}, |ids|)
    ensures contradicting == CountWith(ps, ids, Contradicting(kind), |ids|)
  {
    confirming, contradicting := 0, 0;
    var i := 0;
    while i < |ids|
      invariant i <= |ids|
      invariant confirming == CountWith(ps, ids, {kind}, i)
      invariant contradicting == CountWith(ps, ids, Contradicting(kind), i)
    {
      var candle := ids[i];
      if HasKind(ps, candle, {kind}) {
        confirming := confirming + 1;
      }
      if HasKind(ps, candle, Contradicting(kind)) {
        contradicting := contradicting + 1;
      }
      i := i + 1;
    }
  }

  /** One requested code's vote, with the window count done by its loop. */
  method CastVote(cs: seq<Candle>, ps: seq<Pattern>, symbol: string, p: Pattern, pivot: AnalysisTimeframe, name: string) returns (v: Vote)
    requires p.candle < |cs|
    ensures v == VoteOf(cs, ps, symbol, p, pivot, name)
  {
    if name == Name(pivot) {
      return Abstain;
    }
    var parsed := ParseAnalysis(name);
    if parsed.None? {
      return Abstain;
    }
    var tf := parsed.value;
    if CompareTimeframes(tf, pivot) > 0 {
      v := HigherVote(cs, ps, p, tf);
    } else {
      var ids := LowerWindow(cs, symbol, p, pivot, tf);
      var confirming, contradicting := CountWindow(ps, ids, p.kind);
      if confirming > contradicting {
        v := Confirm;
      } else if contradicting > confirming {
        v := Contradict;
      } else {
        v := Abstain;
      }
    }
  }

  /** One pass of the loop over the requested codes: the i-th code's vote is
      added to the running confirmations and contradictions. */
  method TallyCode(cs: seq<Candle>, ps: seq<Pattern>, symbol: string, p: Pattern, pivot: AnalysisTimeframe, names: seq<string>,
                   i: nat, confirmations: nat, contradictions: nat)
    returns (confirmed: nat, contradicted: nat)
    requires p.candle < |cs| && i < |names|
    requires (confirmations, contradictions) == Tally(cs, ps, symbol, p, pivot, names, i)
    ensures (confirmed, contradicted) == Tally(cs, ps, symbol, p, pivot, names, i + 1)
  {
    var v := CastVote(cs, ps, symbol, p, pivot, names[i]);
    TallyStep(cs, ps, symbol, p, pivot, names, i, v);
    confirmed, contradicted := confirmations, contradictions;
    if v.Confirm? {
      confirmed := confirmed + 1;
    } else if v.Contradict? {
      contradicted := contradicted + 1;
    }
  }

  /** The loop over the requested codes for one pattern. */
  method JudgePattern(cs: seq<Candle>, ps: seq<Pattern>, symbol: string, p: Pattern, pivot: AnalysisTimeframe, names: seq<string>)
    returns (status: ValidationStatus)
    requires p.candle < |cs|
    ensures status == Judge(cs, ps, symbol, p, pivot, names)
  {
    var confirmations, contradictions := 0, 0;
    var i := 0;
    while i < |names|
      invariant i <= |names|
      invariant (confirmations, contradictions) == Tally(cs, ps, symbol, p, pivot, names, i)
    {
      confirmations, contradictions := TallyCode(cs, ps, symbol, p, pivot, names, i, confirmations, contradictions);
      i := i + 1;
    }
    status := if confirmations > contradictions then Valid else Invalid;
  }

  /** validate_patterns: an unsupported pivot code is an error and changes
      nothing; otherwise every pattern of the pivot timeframe, of any symbol,
      receives its verdict, and those patterns are returned in store order. */
  method ValidatePatterns(db: Database, symbol: string, pivotName: string, names: seq<string>) returns (r: Result<seq<Pattern>>)
    requires db.Valid()
    modifies db
    ensures db.Valid()
    ensures db.candles == old(db.candles) && db.gaps == old(db.gaps) && db.trades == old(db.trades)
    ensures ParseAnalysis(pivotName).None? ==> r.Err? && db.patterns == old(db.patterns)
    ensures ParseAnalysis(pivotName).Some? ==>
      var pivot := ParseAnalysis(pivotName).value;
      var ids := PatternIds(old(db.patterns), pivot, |old(db.patterns)|);
      && db.patterns == Validated(old(db.candles), old(db.patterns), symbol, pivot, names)
      && r.Ok? && |r.value| == |ids|
      && forall k :: 0 <= k < |ids| ==> ids[k] < |db.patterns| && r.value[k] == db.patterns[ids[k]]
  {
    var parsed := ParseAnalysis(pivotName);
    if parsed.None? {
      return Err("Unsupported pivot timeframe: " + pivotName);
    }
    var pivot := parsed.value;
    ghost var ps0 := db.patterns;
    ghost var target := Validated(db.candles, ps0, symbol, pivot, names);
    ValidatedIdempotent(db.candles, ps0, symbol, pivot, names);
    var ids := PatternIds(db.patterns, pivot, |db.patterns|);
    PatternIdsFacts(db.patterns, pivot, |db.patterns|);
    var i := 0;
    while i < |ids|
      invariant i <= |ids|
      invariant db.candles == old(db.candles) && db.gaps == old(db.gaps) && db.trades == old(db.trades)
      invariant PartlyValidated(db.patterns, ps0, target, ids[..i])
    {
      var id := ids[i];
      assert id !in ids[..i];
      ValidateStep(db.candles, db.patterns, ps0, symbol, pivot, names, ids[..i], id);
      var status := JudgePattern(db.candles, db.patterns, symbol, db.patterns[id], pivot, names);
      assert ids[..i + 1] == ids[..i] + [id];
      db.patterns := db.patterns[id := db.patterns[id].(status := status)];
      i := i + 1;
    }
    assert ids[..i] == ids;
    PartlyDone(db.patterns, ps0, target, ids);
    var final := db.patterns;
    assert |final| == |ps0|;
    var updated := seq(|ids|, k requires 0 <= k < |ids| => final[ids[k]]);
    return Ok(updated);
  }
}
