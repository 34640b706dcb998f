/** link_unlinked_timeframes: for every rung of the ladder (1m to 5m, ..., 1H to
    4H) every candle of the lower timeframe that has no parent is attached to the
    candle one rung up whose timestamp equals its floored bucket start. */
module TimeframeLinker {
  import opened Models
  import opened Queries

  /** The ladder the linker walks, finest first. */
  const Hierarchy: seq<Timeframe> := [M1, M5, M15, M30, H1, H4]

  /** The lookup table of the higher timeframe: timestamp to candle id, built in
      arena order over ids below n, so a later candle with the same timestamp
      replaces an earlier one. */
  function HigherIndex(cs: seq<Candle>, symbol: string, tf: Timeframe, n: nat): map<int, nat>
    requires n <= |cs|
  {
    if n == 0 then map[]
    else
      var m := HigherIndex(cs, symbol, tf, n - 1);
      var c := cs[n - 1];
      if c.symbol == symbol && c.tf == tf then m[c.ts := n - 1] else m
  }

  /** The table maps a timestamp to a candle of the higher timeframe with that
      timestamp, and every such candle's timestamp is a key whose entry is that
      candle or a later one. */
  lemma {:induction false} HigherIndexFacts(cs: seq<Candle>, symbol: string, tf: Timeframe, n: nat)
    requires n <= |cs|
    ensures var m := HigherIndex(cs, symbol, tf, n);
      forall t :: t in m ==> m[t] < n && cs[m[t]].symbol == symbol && cs[m[t]].tf == tf && cs[m[t]].ts == t
    ensures var m := HigherIndex(cs, symbol, tf, n);
      forall x :: 0 <= x < n && cs[x].symbol == symbol && cs[x].tf == tf ==> cs[x].ts in m && x <= m[cs[x].ts]
  {
    if n > 0 {
      HigherIndexFacts(cs, symbol, tf, n - 1);
    }
  }

  /** A candle the pass for `lower` picks up. */
  predicate Unlinked(c: Candle, symbol: string, lower: Timeframe)
  {
    c.symbol == symbol && c.tf == lower && c.parent.None?
  }

  /** The key a lower candle is looked up under. */
  function ParentKey(c: Candle, higher: Timeframe): int
  {
    Floor(c.ts, Minutes(higher))
  }

  /** What the pass does to one candle, given the higher timeframe's table. */
  function LinkOne(c: Candle, symbol: string, lower: Timeframe, higher: Timeframe, idx: map<int, nat>): (r: Candle)
    ensures r == c.(parent := r.parent)
    ensures r != c ==> Unlinked(c, symbol, lower)
    ensures Unlinked(c, symbol, lower) ==> (r.parent.Some? <==> ParentKey(c, higher) in idx)
    ensures Unlinked(c, symbol, lower) && r.parent.Some? ==> r.parent.value == idx[ParentKey(c, higher)]
  {
    var key := ParentKey(c, higher);
    if Unlinked(c, symbol, lower) && key in idx then c.(parent := Some(idx[key])) else c
  }

  /** One rung of the linker, lower to higher. */
  function LinkPass(cs: seq<Candle>, symbol: string, lower: Timeframe, higher: Timeframe): (r: seq<Candle>)
    ensures |r| == |cs|
  {
    var idx := HigherIndex(cs, symbol, higher, |cs|);
    seq(|cs|, x requires 0 <= x < |cs| => LinkOne(cs[x], symbol, lower, higher, idx))
  }

  /** The passes from rung `tf` up to 4H, each seeing the result of the one before. */
  function LinkFrom(cs: seq<Candle>, symbol: string, tf: Timeframe): (r: seq<Candle>)
    ensures |r| == |cs|
    decreases 5 - Rank(tf)
  {
    if tf.H4? then cs
    else
      var higher := Next(tf).value;
      LinkFrom(LinkPass(cs, symbol, tf, higher), symbol, higher)
  }

  /** The whole linker run for one symbol. */
  function LinkAll(cs: seq<Candle>, symbol: string): (r: seq<Candle>)
    ensures |r| == |cs|
  {
    LinkFrom(cs, symbol, M1)
  }

  // ---------------------------------------------------------------------
  // What one pass does

  /** A pass changes only the parent of an unlinked lower candle. A candle it links
      gets as parent the last candle (in arena order) of the higher timeframe whose
      timestamp is the floored bucket start; it links the candle iff such a higher
      candle exists. */
  lemma LinkPassAt(cs: seq<Candle>, symbol: string, lower: Timeframe, higher: Timeframe, x: nat)
    requires x < |cs|
    ensures LinkPass(cs, symbol, lower, higher)[x] == cs[x].(parent := LinkPass(cs, symbol, lower, higher)[x].parent)
    ensures !Unlinked(cs[x], symbol, lower) ==> LinkPass(cs, symbol, lower, higher)[x] == cs[x]
    ensures Unlinked(cs[x], symbol, lower) ==>
      (LinkPass(cs, symbol, lower, higher)[x].parent.Some? <==>
       exists p :: 0 <= p < |cs| && cs[p].symbol == symbol && cs[p].tf == higher && cs[p].ts == ParentKey(cs[x], higher))
    ensures LinkPass(cs, symbol, lower, higher)[x] != cs[x] ==>
      var p := LinkPass(cs, symbol, lower, higher)[x].parent.value;
      && p < |cs| && cs[p].symbol == symbol && cs[p].tf == higher && cs[p].ts == ParentKey(cs[x], higher)
      && forall q :: p < q < |cs| ==> !(cs[q].symbol == symbol && cs[q].tf == higher && cs[q].ts == cs[p].ts)
  {
    var idx := HigherIndex(cs, symbol, higher, |cs|);
    var r := LinkPass(cs, symbol, lower, higher);
    assert r[x] == LinkOne(cs[x], symbol, lower, higher, idx);
    var key := ParentKey(cs[x], higher);
    HigherIndexFacts(cs, symbol, higher, |cs|);
    if Unlinked(cs[x], symbol, lower) {
      if p :| 0 <= p < |cs| && cs[p].symbol == symbol && cs[p].tf == higher && cs[p].ts == key {
        assert key in idx;
      }
    }
  }

  /** Two arenas that differ only in parent links. */
  ghost predicate SameKeys(a: seq<Candle>, b: seq<Candle>)
  {
    |a| == |b| && forall x :: 0 <= x < |a| ==> a[x] == b[x].(parent := a[x].parent)
  }

  /** The lookup table reads no parent link. */
  lemma {:induction false} IndexSameKeys(a: seq<Candle>, b: seq<Candle>, symbol: string, tf: Timeframe, n: nat)
    requires SameKeys(a, b) && n <= |a|
    ensures HigherIndex(a, symbol, tf, n) == HigherIndex(b, symbol, tf, n)
  {
    if n > 0 {
      IndexSameKeys(a, b, symbol, tf, n - 1);
      assert a[n - 1].symbol == b[n - 1].symbol && a[n - 1].tf == b[n - 1].tf && a[n - 1].ts == b[n - 1].ts;
    }
  }

  /** A pass rewrites parent links only. */
  lemma LinkPassSameKeys(cs: seq<Candle>, symbol: string, lower: Timeframe, higher: Timeframe)
    ensures SameKeys(LinkPass(cs, symbol, lower, higher), cs)
  {
  }

  /** What the whole run from rung tf does to one candle: a candle on a rung at or
      above tf (and below 4H) gets what its own pass gives it, looked up in the
      table of the original arena; every other candle is left alone. */
  lemma {:induction false} LinkFromAt(cs: seq<Candle>, symbol: string, tf: Timeframe, x: nat)
    requires x < |cs|
    ensures SameKeys(LinkFrom(cs, symbol, tf), cs)
    ensures Rank(cs[x].tf) >= Rank(tf) && !cs[x].tf.H4? ==>
      var higher := Next(cs[x].tf).value;
      LinkFrom(cs, symbol, tf)[x] == LinkOne(cs[x], symbol, cs[x].tf, higher, HigherIndex(cs, symbol, higher, |cs|))
    ensures Rank(cs[x].tf) < Rank(tf) || cs[x].tf.H4? ==> LinkFrom(cs, symbol, tf)[x] == cs[x]
    decreases 5 - Rank(tf)
  {
    if !tf.H4? {
      var higher := Next(tf).value;
      var cs1 := LinkPass(cs, symbol, tf, higher);
      LinkPassSameKeys(cs, symbol, tf, higher);
      LinkFromAt(cs1, symbol, higher, x);
      var r := LinkFrom(cs1, symbol, higher);
      assert r == LinkFrom(cs, symbol, tf);
      assert SameKeys(r, cs) by {
        forall y | 0 <= y < |r| ensures r[y] == cs[y].(parent := r[y].parent) {
          assert r[y] == cs1[y].(parent := r[y].parent);
          assert cs1[y] == cs[y].(parent := cs1[y].parent);
        }
      }
      LinkPassAt(cs, symbol, tf, higher, x);
      if cs[x].tf == tf {
        // the pass for tf decides x; the later passes see a candle of another rung
        assert cs1[x].tf == tf && Rank(tf) < Rank(higher);
        assert !Unlinked(cs1[x], symbol, cs1[x].tf) || cs1[x] == cs[x];
        IndexSameKeys(cs1, cs, symbol, higher, |cs|);
      } else {
        assert cs1[x] == cs[x];
        if Rank(cs[x].tf) > Rank(tf) && !cs[x].tf.H4? {
          IndexSameKeys(cs1, cs, symbol, Next(cs[x].tf).value, |cs|);
        }
      }
    }
  }

  /** Linking an already linked candle, or one whose key is missing, changes nothing. */
  lemma LinkOneIdempotent(c: Candle, symbol: string, lower: Timeframe, higher: Timeframe, idx: map<int, nat>)
    ensures LinkOne(LinkOne(c, symbol, lower, higher, idx), symbol, lower, higher, idx) == LinkOne(c, symbol, lower, higher, idx)
  {
  }

  /** Running the linker a second time leaves the arena as the first run left it. */
  lemma LinkAllIdempotent(cs: seq<Candle>, symbol: string)
    ensures LinkAll(LinkAll(cs, symbol), symbol) == LinkAll(cs, symbol)
  {
    var a := LinkAll(cs, symbol);
    var b := LinkAll(a, symbol);
    forall x | 0 <= x < |cs| ensures b[x] == a[x] {
      LinkFromAt(cs, symbol, M1, x);
      LinkFromAt(a, symbol, M1, x);
      assert a[x].tf == cs[x].tf;
      if !cs[x].tf.H4? {
        var higher := Next(cs[x].tf).value;
        IndexSameKeys(a, cs, symbol, higher, |cs|);
        LinkOneIdempotent(cs[x], symbol, cs[x].tf, higher, HigherIndex(cs, symbol, higher, |cs|));
      }
    }
  }

  /** The run never rewrites an existing link: a candle that has a parent keeps it. */
  lemma LinkAllKeepsLinks(cs: seq<Candle>, symbol: string, x: nat)
    requires x < |cs| && cs[x].parent.Some?
    ensures LinkAll(cs, symbol)[x] == cs[x]
  {
    LinkFromAt(cs, symbol, M1, x);
  }

  /** A candle the run links, in any rung below 4H, gets a parent of the same symbol
      one rung up whose timestamp is its floored bucket start; it is linked iff the
      arena holds such a candle. */
  lemma LinkAllParent(cs: seq<Candle>, symbol: string, x: nat)
    requires x < |cs| && Unlinked(cs[x], symbol, cs[x].tf) && !cs[x].tf.H4?
    ensures var higher := Next(cs[x].tf).value;
      && (LinkAll(cs, symbol)[x].parent.Some? <==>
          exists p :: 0 <= p < |cs| && cs[p].symbol == symbol && cs[p].tf == higher && cs[p].ts == ParentKey(cs[x], higher))
      && (LinkAll(cs, symbol)[x].parent.Some? ==>
          var p := LinkAll(cs, symbol)[x].parent.value;
          p < |cs| && cs[p].symbol == symbol && cs[p].tf == higher && cs[p].ts == ParentKey(cs[x], higher))
  {
    var higher := Next(cs[x].tf).value;
    LinkFromAt(cs, symbol, M1, x);
    var idx := HigherIndex(cs, symbol, higher, |cs|);
    var key := ParentKey(cs[x], higher);
    HigherIndexFacts(cs, symbol, higher, |cs|);
    if p :| 0 <= p < |cs| && cs[p].symbol == symbol && cs[p].tf == higher && cs[p].ts == key {
      assert key in idx;
    }
  }

  // ---------------------------------------------------------------------
  // The store operation

  /** Ids among `ids` of candles that still have no parent, in the order of `ids`. */
  function KeepParentless(cs: seq<Candle>, ids: seq<nat>): (r: seq<nat>)
    requires KeysIn(ids, Timestamps(cs))
    ensures KeysIn(r, Timestamps(cs))
    ensures forall y :: y in r <==> y in ids && cs[y].parent.None?
    ensures SortedBy(ids, Timestamps(cs)) ==> SortedBy(r, Timestamps(cs))
  {
    if ids == [] then []
    else
      var init := ids[..|ids| - 1];
      var last := ids[|ids| - 1];
      assert ids == init + [last];
      assert forall y :: y in ids <==> y in init || y == last;
      var r0 := KeepParentless(cs, init);
      var r := if cs[last].parent.None? then r0 + [last] else r0;
      assert SortedBy(ids, Timestamps(cs)) ==> SortedBy(r, Timestamps(cs)) by {
        if SortedBy(ids, Timestamps(cs)) && cs[last].parent.None? {
          assert SortedBy(init, Timestamps(cs));
          forall i, j | 0 <= i < j < |r| ensures Timestamps(cs)[r[i]] <= Timestamps(cs)[r[j]] {
            if j == |r| - 1 {
              assert r[i] in init;
              var k :| 0 <= k < |init| && init[k] == r[i];
              assert Timestamps(cs)[ids[k]] <= Timestamps(cs)[ids[|ids| - 1]];
            }
          }
        }
      }
      r
  }

  /** `Candle.query.filter(symbol, timeframe, parent is None).order_by(timestamp)`. */
  function UnlinkedIds(cs: seq<Candle>, symbol: string, tf: Timeframe): (r: seq<nat>)
    ensures KeysIn(r, Timestamps(cs)) && SortedBy(r, Timestamps(cs))
    ensures forall y: nat :: y in r <==> y < |cs| && Unlinked(cs[y], symbol, tf)
  {
    KeepParentless(cs, SeriesIds(cs, symbol, tf))
  }

  /** Builds the higher timeframe's lookup table by one pass over the arena. */
  method BuildIndex(cs: seq<Candle>, symbol: string, tf: Timeframe) returns (idx: map<int, nat>)
    ensures idx == HigherIndex(cs, symbol, tf, |cs|)
  {
    idx := map[];
    var x := 0;
    while x < |cs|
      invariant x <= |cs| && idx == HigherIndex(cs, symbol, tf, x)
    {
      if cs[x].symbol == symbol && cs[x].tf == tf {
        idx := idx[cs[x].ts := x];
      }
      x := x + 1;
    }
  }

  /** A pass with nothing to link changes nothing. */
  lemma LinkPassNothingUnlinked(cs: seq<Candle>, symbol: string, lower: Timeframe, higher: Timeframe)
    requires forall y :: 0 <= y < |cs| ==> !Unlinked(cs[y], symbol, lower)
    ensures LinkPass(cs, symbol, lower, higher) == cs
  {
  }

  /** A pass keeps the candle arena closed: new parents are ids of the arena. */
  lemma LinkPassWellFormed(cs: seq<Candle>, symbol: string, lower: Timeframe, higher: Timeframe)
    requires CandlesWellFormed(cs)
    ensures CandlesWellFormed(LinkPass(cs, symbol, lower, higher))
  {
    var r := LinkPass(cs, symbol, lower, higher);
    forall y | 0 <= y < |r| && r[y].parent.Some? ensures r[y].parent.value < |r| {
      LinkPassAt(cs, symbol, lower, higher, y);
    }
  }

  /** The arena after the per-candle loop of one rung has handled the first k
      listed candles. */
  function LinkFirst(cs: seq<Candle>, unlinked: seq<nat>, k: nat, table: map<int, nat>, minutes: nat): (r: seq<Candle>)
    requires k <= |unlinked| && minutes >= 1
    requires forall j :: 0 <= j < |unlinked| ==> unlinked[j] < |cs|
    ensures |r| == |cs|
  {
    if k == 0 then cs
    else
      var prev := LinkFirst(cs, unlinked, k - 1, table, minutes);
      var x := unlinked[k - 1];
      var start := Floor(prev[x].ts, minutes);
      if start in table then prev[x := prev[x].(parent := Some(table[start]))] else prev
  }

  /** After k steps, exactly the first k listed candles have been looked up, each
      from its original value. */
  lemma {:induction false} LinkFirstAt(cs: seq<Candle>, unlinked: seq<nat>, k: nat, symbol: string,
                                       lower: Timeframe, higher: Timeframe, table: map<int, nat>)
    requires k <= |unlinked| && forall j :: 0 <= j < |unlinked| ==> unlinked[j] < |cs|
    requires forall y: nat :: y in unlinked <==> y < |cs| && Unlinked(cs[y], symbol, lower)
    ensures forall y :: 0 <= y < |cs| ==>
      LinkFirst(cs, unlinked, k, table, Minutes(higher))[y] ==
        if y in unlinked[..k] then LinkOne(cs[y], symbol, lower, higher, table) else cs[y]
  {
    if k > 0 {
      LinkFirstAt(cs, unlinked, k - 1, symbol, lower, higher, table);
      var x := unlinked[k - 1];
      assert x in unlinked;
      assert unlinked[..k] == unlinked[..k - 1] + [x];
    }
  }

  /** The loop over all listed candles is the pass. */
  lemma LinkFirstAll(cs: seq<Candle>, unlinked: seq<nat>, symbol: string, lower: Timeframe, higher: Timeframe)
    requires forall j :: 0 <= j < |unlinked| ==> unlinked[j] < |cs|
    requires forall y: nat :: y in unlinked <==> y < |cs| && Unlinked(cs[y], symbol, lower)
    ensures LinkFirst(cs, unlinked, |unlinked|, HigherIndex(cs, symbol, higher, |cs|), Minutes(higher))
      == LinkPass(cs, symbol, lower, higher)
  {
    var table := HigherIndex(cs, symbol, higher, |cs|);
    LinkFirstAt(cs, unlinked, |unlinked|, symbol, lower, higher, table);
    assert unlinked[..|unlinked|] == unlinked;
  }

  /** The per-candle loop of one rung: each listed candle whose floored bucket start
      is in the table gets the table's candle as parent. */
  method LinkListed(db: Database, unlinked: seq<nat>, table: map<int, nat>, minutes: nat)
    requires minutes >= 1 && forall j :: 0 <= j < |unlinked| ==> unlinked[j] < |db.candles|
    modifies db
    ensures db.patterns == old(db.patterns) && db.gaps == old(db.gaps) && db.trades == old(db.trades)
    ensures db.candles == LinkFirst(old(db.candles), unlinked, |unlinked|, table, minutes)
  {
    var k := 0;
    while k < |unlinked|
      invariant k <= |unlinked|
      invariant db.patterns == old(db.patterns) && db.gaps == old(db.gaps) && db.trades == old(db.trades)
      invariant db.candles == LinkFirst(old(db.candles), unlinked, k, table, minutes)
    {
      var x := unlinked[k];
      var start := Floor(db.candles[x].ts, minutes);
      if start in table {
        db.candles := db.candles[x := db.candles[x].(parent := Some(table[start]))];
      }
      k := k + 1;
    }
  }

  /** One rung of link_unlinked_timeframes on the store. */
  method LinkRung(db: Database, symbol: string, lower: Timeframe, higher: Timeframe)
    requires db.Valid()
    modifies db
    ensures db.Valid()
    ensures db.patterns == old(db.patterns) && db.gaps == old(db.gaps) && db.trades == old(db.trades)
    ensures db.candles == LinkPass(old(db.candles), symbol, lower, higher)
  {
    ghost var cs0 := db.candles;
    var unlinked := UnlinkedIds(db.candles, symbol, lower);
    if unlinked == [] {
      LinkPassNothingUnlinked(cs0, symbol, lower, higher);
      return;
    }
    var table := BuildIndex(db.candles, symbol, higher);
    assert forall j :: 0 <= j < |unlinked| ==> unlinked[j] in unlinked;
    LinkListed(db, unlinked, table, Minutes(higher));
    LinkFirstAll(cs0, unlinked, symbol, lower, higher);
    LinkPassWellFormed(cs0, symbol, lower, higher);
  }

  /** link_unlinked_timeframes: the five rungs in order; always reports success. */
  method LinkUnlinkedTimeframes(db: Database, symbol: string) returns (ok: bool)
    requires db.Valid()
    modifies db
    ensures db.Valid() && ok
    ensures db.patterns == old(db.patterns) && db.gaps == old(db.gaps) && db.trades == old(db.trades)
    ensures db.candles == LinkAll(old(db.candles), symbol)
  {
    var i := 0;
    while i < |Hierarchy| - 1
      invariant 0 <= i <= |Hierarchy| - 1 && db.Valid()
      invariant db.patterns == old(db.patterns) && db.gaps == old(db.gaps) && db.trades == old(db.trades)
      invariant LinkFrom(db.candles, symbol, Hierarchy[i]) == LinkAll(old(db.candles), symbol)
    {
      var lower, higher := Hierarchy[i], Hierarchy[i + 1];
      assert Next(lower) == Some(higher);
      LinkRung(db, symbol, lower, higher);
      i := i + 1;
    }
    return true;
  }
}
