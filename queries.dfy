/** The reads the services make against the store: bucket alignment of
    timestamps and the "filter by symbol and timeframe, order by timestamp"
    query, whose ordering is a stable insertion sort of the arena order. */
module Queries {
  import opened Models

  const SecondsPerHour: int := 3600

  /** Bucket start of `t` for a `w`-minute bucket: the seconds are zeroed and
      the minute-of-hour is floored to a multiple of `w`; the hour is kept.
      For w = 240 this is therefore the start of the hour. */
  function Floor(t: int, w: nat): int
    requires w >= 1
  {
    t - t % 3600 + ((t % 3600) / 60 / w) * w * 60
  }

  /** Facts about Floor: it does not exceed t, stays in the same hour, zeroes the
      seconds, puts the minute on a multiple of w, and is idempotent. */
  lemma FloorFacts(t: int, w: nat)
    requires w >= 1
    ensures Floor(t, w) <= t
    ensures Floor(t, w) / 3600 == t / 3600
    ensures Floor(t, w) % 60 == 0
    ensures (Floor(t, w) % 3600) / 60 % w == 0
    ensures Floor(Floor(t, w), w) == Floor(t, w)
  {
    var h := t % 3600;
    var m := h / 60;
    var q := m / w;
    var base := t - h;
    assert base % 3600 == 0;
    assert 0 <= q * w <= m by { DivMul(m, w); }
    var off := q * w * 60;
    assert 0 <= off <= m * 60 <= h < 3600;
    assert Floor(t, w) == base + off;
    ModOfAligned(base, off);
    assert (base + off) % 3600 == off;
    assert (base + off) / 3600 == t / 3600 by {
      assert base + off == 3600 * (t / 3600) + off;
      DivOfAligned(t / 3600, off);
    }
    assert off == (q * w) * 60;
    assert off % 60 == 0 && off / 60 == q * w by { MulDivExact(q * w, 60); }
    assert (q * w) % w == 0 && (q * w) / w == q by { MulDivExact(q, w); }
    assert (base + off) % 60 == 0 by {
      assert base + off == 60 * (base / 60 + q * w);
    }
  }

  lemma DivMul(m: int, w: int)
    requires m >= 0 && w >= 1
    ensures 0 <= (m / w) * w <= m
  {
  }

  lemma MulDivExact(q: int, w: int)
    requires w >= 1
    ensures (q * w) % w == 0 && (q * w) / w == q
  {
    var d := (q * w) / w;
    var r := (q * w) % w;
    assert q * w == d * w + r && 0 <= r < w;
    assert (q - d) * w == r;
    MulBounds(q - d, w);
  }

  lemma MulBounds(a: int, w: int)
    requires w >= 1
    ensures a >= 1 ==> a * w >= w
    ensures a <= -1 ==> a * w <= -w
  {
  }

  lemma ModOfAligned(base: int, off: int)
    requires base % 3600 == 0 && 0 <= off < 3600
    ensures (base + off) % 3600 == off
  {
  }

  lemma DivOfAligned(k: int, off: int)
    requires 0 <= off < 3600
    ensures (3600 * k + off) / 3600 == k
  {
  }

  /** Floor for a width that divides the hour gives a bucket [Floor, Floor + w minutes) holding t;
      for 4H it gives the hour start. */
  lemma FloorWindow(t: int, w: nat)
    requires w >= 1
    ensures 60 % w == 0 ==> t < Floor(t, w) + w * 60
    ensures w >= 60 ==> Floor(t, w) == t - t % 3600
  {
    var h := t % 3600;
    var m := h / 60;
    var q := m / w;
    if w >= 60 {
      assert q == 0;
    }
    if 60 % w == 0 {
      assert m < q * w + w;
      assert h < 60 * m + 60;
      assert 60 * m + 60 <= 60 * (q * w + w);
    }
  }

  /** A ratio of a part to a positive whole, scaled to a percentage. */
  lemma Percentage(x: real, size: real)
    requires size > 0.0 && 0.0 <= x <= size
    ensures 0.0 <= x / size * 100.0 <= 100.0
    ensures x / size * 100.0 == 100.0 <==> x == size
  {
    assert x / size * size == x;
    assert size / size == 1.0;
  }

  lemma PercentageMonotone(x: real, y: real, size: real)
    requires size > 0.0 && x <= y
    ensures x / size * 100.0 <= y / size * 100.0
  {
    assert y / size - x / size == (y - x) / size;
  }

  // ---------------------------------------------------------------------
  // Ordered queries

  ghost predicate KeysIn(xs: seq<nat>, key: seq<int>)
  {
    forall k :: 0 <= k < |xs| ==> xs[k] < |key|
  }

  ghost predicate SortedBy(xs: seq<nat>, key: seq<int>)
    requires KeysIn(xs, key)
  {
    forall i, j :: 0 <= i < j < |xs| ==> key[xs[i]] <= key[xs[j]]
  }

  /** Insert x after every element whose key is at most x's (stable). */
  function InsertBy(x: nat, xs: seq<nat>, key: seq<int>): (r: seq<nat>)
    requires x < |key| && KeysIn(xs, key)
    ensures multiset(r) == multiset(xs) + multiset{x}
    ensures KeysIn(r, key)
  {
    if xs == [] || key[xs[|xs| - 1]] <= key[x] then xs + [x]
    else
      var init := xs[..|xs| - 1];
      assert xs == init + [xs[|xs| - 1]];
      InsertBy(x, init, key) + [xs[|xs| - 1]]
  }

  /** Every element of the insertion result comes from xs or is x. */
  lemma InsertByMembers(x: nat, xs: seq<nat>, key: seq<int>, y: nat)
    requires x < |key| && KeysIn(xs, key)
    ensures y in InsertBy(x, xs, key) <==> y in xs || y == x
  {
    var r := InsertBy(x, xs, key);
    assert y in r <==> y in multiset(r);
    assert y in xs <==> y in multiset(xs);
  }

  /** Inserting into a sorted list keeps it sorted. */
  lemma {:induction false} InsertBySorted(x: nat, xs: seq<nat>, key: seq<int>)
    requires x < |key| && KeysIn(xs, key) && SortedBy(xs, key)
    ensures SortedBy(InsertBy(x, xs, key), key)
  {
    if xs == [] || key[xs[|xs| - 1]] <= key[x] {
    } else {
      var last := xs[|xs| - 1];
      var init := xs[..|xs| - 1];
      assert xs == init + [last];
      InsertBySorted(x, init, key);
      var r0 := InsertBy(x, init, key);
      forall y | y in r0 ensures key[y] <= key[last] {
        InsertByMembers(x, init, key, y);
      }
      var r := r0 + [last];
      forall i, j | 0 <= i < j < |r| ensures key[r[i]] <= key[r[j]] {
        if j == |r| - 1 {
          assert r[i] in r0;
        }
      }
    }
  }

  /** Stable insertion sort of ids by key (the `order_by` of a query). */
  function SortBy(xs: seq<nat>, key: seq<int>): (r: seq<nat>)
    requires KeysIn(xs, key)
    ensures multiset(r) == multiset(xs)
    ensures KeysIn(r, key) && SortedBy(r, key)
  {
    if xs == [] then []
    else
      var init := xs[..|xs| - 1];
      assert xs == init + [xs[|xs| - 1]];
      var sorted := SortBy(init, key);
      InsertBySorted(xs[|xs| - 1], sorted, key);
      InsertBy(xs[|xs| - 1], sorted, key)
  }

  function Timestamps(cs: seq<Candle>): (key: seq<int>)
    ensures |key| == |cs| && forall i :: 0 <= i < |cs| ==> key[i] == cs[i].ts
  {
    seq(|cs|, i requires 0 <= i < |cs| => cs[i].ts)
  }

  /** Ids below n of the candles of one symbol and timeframe, in arena order. */
  function MatchIds(cs: seq<Candle>, symbol: string, tf: Timeframe, n: nat): (r: seq<nat>)
    requires n <= |cs|
    ensures forall x: nat :: x in r <==> x < n && cs[x].symbol == symbol && cs[x].tf == tf
    ensures KeysIn(r, Timestamps(cs))
  {
    if n == 0 then []
    else if cs[n - 1].symbol == symbol && cs[n - 1].tf == tf then MatchIds(cs, symbol, tf, n - 1) + [n - 1]
    else MatchIds(cs, symbol, tf, n - 1)
  }

  /** `Candle.query.filter_by(symbol, timeframe).order_by(Candle.timestamp)`. */
  function SeriesIds(cs: seq<Candle>, symbol: string, tf: Timeframe): (r: seq<nat>)
    ensures forall x: nat :: x in r <==> x < |cs| && cs[x].symbol == symbol && cs[x].tf == tf
    ensures KeysIn(r, Timestamps(cs)) && SortedBy(r, Timestamps(cs))
  {
    var ids := MatchIds(cs, symbol, tf, |cs|);
    var r := SortBy(ids, Timestamps(cs));
    assert forall x: nat :: x in r <==> x in ids by {
      forall x: nat ensures x in r <==> x in ids {
        assert x in r <==> x in multiset(r);
        assert x in ids <==> x in multiset(ids);
      }
    }
    r
  }

  /** The candles an id list refers to. */
  function Values(cs: seq<Candle>, ids: seq<nat>): (r: seq<Candle>)
    requires KeysIn(ids, Timestamps(cs))
    ensures |r| == |ids| && forall k :: 0 <= k < |ids| ==> r[k] == cs[ids[k]]
  {
    seq(|ids|, k requires 0 <= k < |ids| => cs[ids[k]])
  }

  /** Candle values are in timestamp order. */
  ghost predicate TimeOrdered(cs: seq<Candle>)
  {
    forall i, j :: 0 <= i < j < |cs| ==> cs[i].ts <= cs[j].ts
  }

  /** Candles listed by ids sorted by timestamp are in timestamp order. */
  lemma ValuesOrdered(cs: seq<Candle>, ids: seq<nat>)
    requires KeysIn(ids, Timestamps(cs)) && SortedBy(ids, Timestamps(cs))
    ensures TimeOrdered(Values(cs, ids))
  {
    var r := Values(cs, ids);
    forall i, j | 0 <= i < j < |r| ensures r[i].ts <= r[j].ts {
      assert Timestamps(cs)[ids[i]] <= Timestamps(cs)[ids[j]];
    }
  }

  /** The ordered series of one symbol and timeframe, as values. */
  function Series(cs: seq<Candle>, symbol: string, tf: Timeframe): (r: seq<Candle>)
    ensures TimeOrdered(r)
    ensures forall k :: 0 <= k < |r| ==> r[k].symbol == symbol && r[k].tf == tf
  {
    var ids := SeriesIds(cs, symbol, tf);
    ValuesOrdered(cs, ids);
    assert forall k :: 0 <= k < |ids| ==> ids[k] in ids;
    Values(cs, ids)
  }

  /** The candles strictly later than the given time, in order. */
  function Later(ms: seq<Candle>, t: int): (r: seq<Candle>)
    ensures forall c :: c in r <==> c in ms && c.ts > t
  {
    if ms == [] then []
    else Later(ms[..|ms| - 1], t) + (if Last(ms).ts > t then [Last(ms)] else [])
  }

  lemma {:induction false} LaterAppend(a: seq<Candle>, b: seq<Candle>, t: int)
    ensures Later(a + b, t) == Later(a, t) + Later(b, t)
    decreases |b|
  {
    if b != [] {
      var init := b[..|b| - 1];
      assert (a + b)[..|a + b| - 1] == a + init;
      assert Last(a + b) == Last(b);
      LaterAppend(a, init, t);
      var tail := if Last(b).ts > t then [Last(b)] else [];
      assert Later(a + b, t) == (Later(a, t) + Later(init, t)) + tail;
      assert Later(b, t) == Later(init, t) + tail;
      assert (Later(a, t) + Later(init, t)) + tail == Later(a, t) + (Later(init, t) + tail);
    } else {
      assert a + b == a;
    }
  }

  lemma {:induction false} NoneLater(ms: seq<Candle>, t: int)
    requires forall k :: 0 <= k < |ms| ==> ms[k].ts <= t
    ensures Later(ms, t) == []
  {
    if ms != [] {
      NoneLater(ms[..|ms| - 1], t);
    }
  }

  // ---------------------------------------------------------------------
  // Concatenation of parts

  function Last<T>(s: seq<T>): T
    requires s != []
  {
    s[|s| - 1]
  }

  /** The parts concatenated in order. */
  function Flatten<T>(gs: seq<seq<T>>): seq<T>
  {
    if gs == [] then [] else Flatten(gs[..|gs| - 1]) + Last(gs)
  }

  lemma FlattenAppend<T>(gs: seq<seq<T>>, g: seq<T>)
    ensures Flatten(gs + [g]) == Flatten(gs) + g
  {
    assert (gs + [g])[..|gs|] == gs;
  }

  /** Position k of part g appears in the concatenation. */
  lemma {:induction false} FlattenIndex<T>(gs: seq<seq<T>>, g: nat, k: nat) returns (pos: nat)
    requires g < |gs| && k < |gs[g]|
    ensures pos < |Flatten(gs)| && Flatten(gs)[pos] == gs[g][k]
    decreases |gs|
  {
    var init := gs[..|gs| - 1];
    if g == |gs| - 1 {
      pos := |Flatten(init)| + k;
    } else {
      pos := FlattenIndex(init, g, k);
      assert init[g] == gs[g];
    }
  }

  /** Every position of the concatenation lies in some part. */
  lemma {:induction false} FlattenLocate<T>(gs: seq<seq<T>>, pos: nat) returns (g: nat, k: nat)
    requires pos < |Flatten(gs)|
    ensures g < |gs| && k < |gs[g]| && gs[g][k] == Flatten(gs)[pos]
    decreases |gs|
  {
    var init := gs[..|gs| - 1];
    if pos < |Flatten(init)| {
      g, k := FlattenLocate(init, pos);
      assert init[g] == gs[g];
    } else {
      g, k := |gs| - 1, pos - |Flatten(init)|;
    }
  }


  /** An element of the concatenation belongs to some part, and conversely. */
  lemma FlattenMember<T>(gs: seq<seq<T>>, x: T) returns (g: nat)
    requires x in Flatten(gs)
    ensures g < |gs| && x in gs[g]
  {
    var pos :| 0 <= pos < |Flatten(gs)| && Flatten(gs)[pos] == x;
    var k;
    g, k := FlattenLocate(gs, pos);
  }

  lemma FlattenHas<T>(gs: seq<seq<T>>, g: nat, x: T)
    requires g < |gs| && x in gs[g]
    ensures x in Flatten(gs)
  {
    var k :| 0 <= k < |gs[g]| && gs[g][k] == x;
    var pos := FlattenIndex(gs, g, k);
  }

  /** Empty parts concatenate to nothing. */
  lemma {:induction false} FlattenEmpty<T>(gs: seq<seq<T>>)
    requires forall g :: 0 <= g < |gs| ==> gs[g] == []
    ensures Flatten(gs) == []
  {
    if gs != [] {
      FlattenEmpty(gs[..|gs| - 1]);
    }
  }
}
