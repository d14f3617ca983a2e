/**
  Element by element: every element of the gradient buffer is reduced once a backward pass, to the rank whose
  slice holds it; and the all-gather shards of a step cover the parameters.
*/
module Zero2Tiling {
  import opened Radix
  import opened Zero2Model
  import opened Zero2Run
  import opened Zero2Safety

  // How many of the ranges hold element x.
  function Hits(c: seq<Range>, x: nat): nat {
    if c == [] then 0 else Hits(c[..|c| - 1], x) + Hit(c[|c| - 1], x)
  }

  function Hit(y: Range, x: nat): nat { if y.lo <= x < y.hi then 1 else 0 }

  predicate Ordered(c: seq<Range>) {
    forall i :: 0 <= i < |c| ==> c[i].lo <= c[i].hi
  }

  lemma HitsAppend(c: seq<Range>, y: Range, x: nat)
    ensures Hits(c + [y], x) == Hits(c, x) + Hit(y, x)
  {
    assert (c + [y])[..|c|] == c;
  }

  lemma {:induction false} HitsConcat(c: seq<Range>, d: seq<Range>, x: nat)
    ensures Hits(c + d, x) == Hits(c, x) + Hits(d, x)
    decreases |d|
  {
    if d == [] {
      assert c + d == c;
    } else {
      var n := |d| - 1;
      HitsConcat(c, d[..n], x);
      HitsAppend(c + d[..n], d[n], x);
      assert c + d == c + d[..n] + [d[n]];
    }
  }

  lemma {:induction false} ChainHits(c: seq<Range>, lo: nat, hi: nat, x: nat)
    requires Chain(c, lo, hi)
    ensures lo <= hi && Hits(c, x) == if lo <= x < hi then 1 else 0
    decreases |c|
  {
    var n := |c| - 1;
    if n > 0 {
      assert Follows(c, n - 1);
      forall i | 0 <= i < n - 1
        ensures Follows(c[..n], i)
      {
        assert Follows(c, i);
      }
      ChainHits(c[..n], lo, c[n - 1].hi, x);
    } else {
      assert Hits(c[..0], x) == 0;
    }
  }

  lemma JoinHits(acc: seq<Range>, y: Range, x: nat)
    requires Ordered(acc) && y.lo <= y.hi
    requires acc != [] && acc[|acc| - 1].rank == y.rank ==> acc[|acc| - 1].hi == y.lo
    ensures Ordered(MergeOne(acc, y)) && Hits(MergeOne(acc, y), x) == Hits(acc, x) + Hit(y, x)
  {
    if acc != [] && acc[|acc| - 1].rank == y.rank {
      var m := |acc| - 1;
      HitsAppend(acc[..m], acc[m].(hi := y.hi), x);
    } else {
      HitsAppend(acc, y, x);
    }
  }

  lemma SilentPrefix(flat: seq<Range>, n: nat)
    requires !Warns(flat) && n <= |flat|
    ensures !Warns(flat[..n])
    ensures 0 < n < |flat| && flat[n - 1].rank == flat[n].rank ==> flat[n - 1].hi == flat[n].lo
  {
    forall i | 0 <= i < n - 1
      ensures !BadJoin(flat[..n], i)
    {
      assert !BadJoin(flat, i);
    }
    if 0 < n < |flat| { assert !BadJoin(flat, n - 1); }
  }

  lemma MergeStep(flat: seq<Range>, x: nat)
    requires flat != [] && Ordered(flat) && !Warns(flat) && Ordered(Merge(flat[..|flat| - 1]))
    ensures Ordered(Merge(flat))
    ensures Hits(Merge(flat), x) == Hits(Merge(flat[..|flat| - 1]), x) + Hit(flat[|flat| - 1], x)
  {
    hide MergeOne, Warns, Hits, Hit;
    var n := |flat| - 1;
    SilentPrefix(flat, n);
    MergeLength(flat[..n]);
    JoinHits(Merge(flat[..n]), flat[n], x);
  }

  // Merging without a warning keeps how often each element is held.
  lemma {:induction false} MergeHits(flat: seq<Range>, x: nat)
    requires Ordered(flat) && !Warns(flat)
    ensures Ordered(Merge(flat)) && Hits(Merge(flat), x) == Hits(flat, x)
    decreases |flat|
  {
    if flat == [] {
    } else {
      hide Merge, Warns, Hit;
      SilentPrefix(flat, |flat| - 1);
      MergeHits(flat[..|flat| - 1], x);
      MergeStep(flat, x);
    }
  }

  // Merging keeps every range inside the slice of its rank.
  lemma {:induction false} MergeOwned(b: Buffer, flat: seq<Range>)
    requires b.Valid() && Owned(b, flat)
    ensures Owned(b, Merge(flat))
    decreases |flat|
  {
    if flat != [] {
      hide InSlice;
      var n := |flat| - 1;
      OwnedPrefix(b, flat, n);
      MergeOwned(b, flat[..n]);
      assert InSlice(b, flat[n]);
      MergeOneOwned(b, Merge(flat[..n]), flat[n]);
    }
  }

  lemma OwnedPrefix(b: Buffer, flat: seq<Range>, n: nat)
    requires b.Valid() && Owned(b, flat) && n <= |flat|
    ensures Owned(b, flat[..n])
  {
    hide InSlice;
  }

  lemma MergeOneOwned(b: Buffer, acc: seq<Range>, y: Range)
    requires b.Valid() && Owned(b, acc) && InSlice(b, y)
    ensures Owned(b, MergeOne(acc, y))
  {
    hide Mul, Ceil;
    if acc != [] { assert InSlice(b, acc[|acc| - 1]); }
  }

  lemma {:induction false} FlattenAppend(b: Buffer, bucket: seq<nat>, k: nat)
    requires Within(b, bucket) && k < b.N()
    ensures Within(b, bucket + [k]) && Flatten(b, bucket + [k]) == RangesOf(b, k) + Flatten(b, bucket)
    decreases |bucket|
  {
    hide RangesOf;
    if bucket == [] {
      assert ([k])[1..] == [] && bucket + [k] == [k];
      assert Flatten(b, []) + RangesOf(b, k) == RangesOf(b, k) + Flatten(b, []);
    } else {
      FlattenAppend(b, bucket[1..], k);
      assert (bucket + [k])[1..] == bucket[1..] + [k];
    }
  }

  lemma {:induction false} FlattenOwned(b: Buffer, bucket: seq<nat>)
    requires Within(b, bucket)
    ensures Owned(b, Flatten(b, bucket)) && Ordered(Flatten(b, bucket))
    decreases |bucket|
  {
    hide RangesOf, InSlice;
    if bucket != [] {
      FlattenOwned(b, bucket[1..]);
      RangeMap(b, bucket[0]);
    }
  }

  // The reduces among the items.
  function OnlyReduces(items: seq<Item>): seq<Item> {
    if items == [] then []
    else OnlyReduces(items[..|items| - 1]) + (if items[|items| - 1].Reduce? then [items[|items| - 1]] else [])
  }

  lemma {:induction false} OnlyReducesConcat(items: seq<Item>, more: seq<Item>)
    ensures OnlyReduces(items + more) == OnlyReduces(items) + OnlyReduces(more)
    decreases |more|
  {
    if more == [] {
      assert items + more == items;
    } else {
      var n := |more| - 1;
      OnlyReducesConcat(items, more[..n]);
      assert (items + more)[..|items| + n] == items + more[..n];
    }
  }

  lemma {:induction false} ReducesOnly(c: seq<Range>)
    ensures OnlyReduces(Reduces(c)) == Reduces(c)
    decreases |c|
  {
    if c != [] {
      ReducesOnly(c[..|c| - 1]);
    }
  }

  lemma {:induction false} ReducesConcat(c: seq<Range>, d: seq<Range>)
    ensures Reduces(c + d) == Reduces(c) + Reduces(d)
    decreases |d|
  {
    if d == [] {
      assert c + d == c;
    } else {
      var n := |d| - 1;
      ReducesConcat(c, d[..n]);
      assert (c + d)[..|c| + n] == c + d[..n];
    }
  }

  lemma {:induction false} GathersOnly(c: Cfg, m: nat)
    requires c.Valid()
    ensures OnlyReduces(AllGathers(c, m)) == []
    decreases m
  {
    hide ShardElements, Padded;
    if m > 0 {
      GathersOnly(c, m - 1);
    }
  }

  // ---------- the invariant ----------

  // The reduces so far are those of `reduced`, all in their owners' slices; and element x was produced as often
  // as it was reduced or waits in the bucket, unless elements are missing.
  ghost predicate Tiled(c: Cfg, s: St, passes: nat, k: nat, x: nat)
    requires c.Valid() && k <= c.b.N() && Within(c.b, s.bucket)
  {
    && OnlyReduces(s.items) == Reduces(s.reduced)
    && Owned(c.b, s.reduced)
    && (c.merges && Missing(c, s) == 0 ==>
          Hits(s.reduced, x) + Hits(Flatten(c.b, s.bucket), x) == passes + (if x >= c.b.Start(k) then 1 else 0))
  }

  lemma NothingHit(b: Buffer, x: nat)
    requires b.Valid()
    ensures Hits(Flatten(b, []), x) == 0
  {
  }

  lemma FlushTiles(c: Cfg, s: St, passes: nat, k: nat, x: nat)
    requires BucketOk(c, s, k) && Balanced(c, s, passes, k) && Tiled(c, s, passes, k, x)
    ensures Tiled(c, Flush(c, s), passes, k, x)
  {
    hide Mul, OneSlice, Flatten, Merge, Warns, Produced, Reduces, Hits, Owned, Lost, Length;
    var flat := Flatten(c.b, s.bucket);
    var t := Flush(c, s);
    NothingHit(c.b, x);
    if c.merges {
      FlattenOwned(c.b, s.bucket);
      MergeOwned(c.b, flat);
      OwnedConcat(c.b, s.reduced, Merge(flat));
      OnlyReducesConcat(s.items, Reduces(Merge(flat)));
      ReducesOnly(Merge(flat));
      ReducesConcat(s.reduced, Merge(flat));
      WarnsIffLost(c.b, s.bucket);
      if Missing(c, s) == 0 {
        MergeHits(flat, x);
        HitsConcat(s.reduced, Merge(flat), x);
      }
    } else {
      assert OnlyReduces([AllReduce(s.num * ELEM_SIZE)]) == [] by {
        assert [AllReduce(s.num * ELEM_SIZE)][..0] == [];
      }
      OnlyReducesConcat(s.items, [AllReduce(s.num * ELEM_SIZE)]);
    }
  }

  lemma OwnedConcat(b: Buffer, c: seq<Range>, d: seq<Range>)
    requires b.Valid() && Owned(b, c) && Owned(b, d)
    ensures Owned(b, c + d)
  {
  }

  lemma AddTiles(c: Cfg, s: St, passes: nat, k: nat, x: nat)
    requires 0 < k <= c.b.N() && x < c.b.Size()
    requires BucketOk(c, s, k) && Balanced(c, s, passes, k) && Tiled(c, s, passes, k, x)
    ensures Tiled(c, Add(c, s, k - 1), passes, k - 1, x)
  {
    hide Mul, OneSlice, Flush, RangesOf, Flatten, Owned, Produced, Lost, ReducedBytes, Hits, Chain;
    FlushKeeps(c, s, passes, k);
    FlushTiles(c, s, passes, k, x);
    var t := if c.b.numels[k - 1] + s.num > c.maxBucket then Flush(c, s) else s;
    MulNext(c.b.Size(), t.carried);
    FlattenAppend(c.b, t.bucket, k - 1);
    RangeMap(c.b, k - 1);
    ChainHits(RangesOf(c.b, k - 1), c.b.Start(k - 1), c.b.Start(k), x);
    HitsConcat(RangesOf(c.b, k - 1), Flatten(c.b, t.bucket), x);
  }

  lemma {:induction false} PassTiles(c: Cfg, s: St, passes: nat, k: nat, x: nat)
    requires x < c.b.Size()
    requires BucketOk(c, s, k) && Balanced(c, s, passes, k) && Tiled(c, s, passes, k, x)
    ensures Within(c.b, PassFrom(c, s, k).bucket) && Tiled(c, PassFrom(c, s, k), passes, 0, x)
    decreases k
  {
    hide Balanced, Add, Tiled;
    if k > 0 {
      AddKeeps(c, s, passes, k);
      AddTiles(c, s, passes, k, x);
      PassTiles(c, Add(c, s, k - 1), passes, k - 1, x);
    }
  }

  lemma DoTiles(c: Cfg, s: St, passes: nat, phase: Phase, x: nat)
    requires x < c.b.Size()
    requires BucketOk(c, s, c.b.N()) && Balanced(c, s, passes, c.b.N()) && Tiled(c, s, passes, c.b.N(), x)
    ensures Tiled(c, Do(c, s, phase), if phase == Backward then passes + 1 else passes, c.b.N(), x)
  {
    hide Mul, OneSlice, Flush, PassFrom, Owned, Hits, AllGathers, Balanced, Flatten;
    if phase == Backward {
      PassTiles(c, s, passes, c.b.N(), x);
    } else {
      FlushTiles(c, s, passes, c.b.N(), x);
      var t, m := Flush(c, s), NumShards(c.b.Size(), c.shardLimit);
      assert [HasOverflow][..0] == [];
      OnlyReducesConcat(t.items, [HasOverflow]);
      GathersOnly(c, m);
      OnlyReducesConcat(t.items + [HasOverflow], AllGathers(c, m));
    }
  }

  lemma {:induction false} RunTiles(c: Cfg, phases: seq<Phase>, x: nat)
    requires c.Valid() && x < c.b.Size()
    ensures Tiled(c, RunAll(c, phases), Passes(phases), c.b.N(), x)
    decreases |phases|
  {
    if phases == [] {
      hide OneSlice, Mul;
    } else {
      hide OneSlice, Mul, Do, Tiled, Balanced, BucketOk;
      var rest := phases[..|phases| - 1];
      RunKeeps(c, rest);
      RunTiles(c, rest, x);
      DoTiles(c, RunAll(c, rest), Passes(rest), phases[|phases| - 1], x);
    }
  }

  // After every step of a run that printed no warning, the reduces that were issued hold every element of the
  // buffer exactly once a backward pass, each of them in the slice of the rank it is reduced to.
  lemma ElementsOnce(c: Cfg, phases: seq<Phase>, x: nat)
    requires c.Valid() && c.merges && x < c.b.Size() && !RunAll(c, phases + [Step]).warned
    ensures var s := RunAll(c, phases + [Step]);
            OnlyReduces(s.items) == Reduces(s.reduced) && Owned(c.b, s.reduced) && Hits(s.reduced, x) == Passes(phases)
  {
    hide Mul, OneSlice, Flatten, Merge, Warns, AllGathers, Owned, Reduces, OnlyReduces;
    var all := phases + [Step];
    assert all[..|all| - 1] == phases;
    ReduceTraffic(c, phases);
    RunTiles(c, all, x);
    NothingHit(c.b, x);
  }

  // ---------- the shards of a step ----------

  // The elements of the first m shards.
  function ShardTotal(n: nat, limit: nat, m: nat): int
    requires limit > 0
  {
    if m == 0 then 0 else ShardTotal(n, limit, m - 1) + ShardElements(n, limit, m - 1)
  }

  lemma {:induction false} ShardPrefix(n: nat, limit: nat, m: nat)
    requires limit > 0 && m < NumShards(n, limit)
    ensures ShardTotal(n, limit, m) == Mul(m, ShardSize(n, limit))
    decreases m
  {
    hide Mul, NumShards, ShardSize;
    MulPositive(ShardSize(n, limit), 1);
    if m > 0 {
      ShardPrefix(n, limit, m - 1);
      MulNext(ShardSize(n, limit), m - 1);
    }
  }

  // The shards have all the parameters' elements, and none is smaller than the shard size.  The shard size is
  // at least the bucket size when there is more than one shard, and the last shard has fewer than one element a
  // shard more.
  lemma ShardsCover(n: nat, limit: nat)
    requires limit > 0
    ensures var m := NumShards(n, limit); var size := ShardSize(n, limit);
            && ShardTotal(n, limit, m) == n
            && (m > 1 ==> size >= limit)
            && size <= ShardElements(n, limit, m - 1) < size + m
  {
    hide Mul, Div, Mod;
    var m, size := NumShards(n, limit), ShardSize(n, limit);
    ShardPrefix(n, limit, m - 1);
    SplitDigit(n, m);
    MulNext(size, m - 1);
    MulCommutes(m, size);
    if m > 1 {
      SplitDigit(n, limit);
      MulCommutes(limit, m);
      if size < limit { MulLessStep(m, size, limit); }
    }
  }

  lemma MulLessStep(m: nat, x: nat, y: nat)
    requires x < y
    ensures Mul(m, x) + m <= Mul(m, y)
  {
    if m > 0 { MulLess(x, y, m); }
  }

  // A padded shard is the least multiple of the number of ranks that holds it.
  lemma PaddedIsLeast(elements: int, ranks: nat, other: int)
    requires ranks > 0 && elements <= other && other % ranks == 0
    ensures Padded(elements, ranks) % ranks == 0 && elements <= Padded(elements, ranks) <= other
  {
    var q, r := elements / ranks, elements % ranks;
    assert elements == q * ranks + r && other == other / ranks * ranks;
    if r != 0 {
      NextMultiple(ranks, q, r, other / ranks);
    }
  }

  lemma NextMultiple(d: nat, q: int, r: nat, p: int)
    requires 0 < r < d && q * d + r <= p * d
    ensures q * d + d <= p * d && (q * d + d) % d == 0
  {
    if q < p {
      MulStep(q, p - q - 1, d);
    } else {
      MulStep(p, q - p - 1, d);
    }
    assert q * d + d == (q + 1) * d;
    QuotientIs(q * d + d, d, q + 1);
  }

  lemma MulStep(q: int, e: int, d: nat)
    requires e >= -1
    ensures q * d + e * d + d == (q + e + 1) * d && e * d + d >= 0 && (e >= 0 ==> e * d >= 0)
  {
    if e == -1 { assert e * d == 0 - d; }
  }
}
