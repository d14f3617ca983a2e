/**
  The messages of the ZeRO-1/2 generators one by one: when the bucket is flushed and how much it holds, and what the
  all-gathers of a step carry.
*/
module Zero2Messages {
  import opened Radix
  import opened Zero2Model
  import opened Zero2Safety
  import opened Zero2Run
  import opened Zero2Tiling

  // ---------- the bucket ----------

  // The bucket is within its limit, or holds one parameter.
  predicate Fits(c: Cfg, s: St) { |s.bucket| <= 1 || s.num <= c.maxBucket }

  // A backward pass in progress: parameters N-1 down to k are in.
  function PassTo(c: Cfg, s: St, k: nat): (t: St)
    requires Within(c.b, s.bucket) && k <= c.b.N()
    ensures Within(c.b, t.bucket)
    decreases c.b.N() - k
  {
    if k == c.b.N() then s else Add(c, PassTo(c, s, k + 1), k)
  }

  lemma {:induction false} PassFromTo(c: Cfg, s: St, k: nat)
    requires Within(c.b, s.bucket) && k <= c.b.N()
    ensures PassFrom(c, PassTo(c, s, k), k) == PassFrom(c, s, c.b.N())
    decreases c.b.N() - k
  {
    hide Add;
    if k < c.b.N() { PassFromTo(c, s, k + 1); }
  }

  lemma AddFits(c: Cfg, s: St, k: nat)
    requires Within(c.b, s.bucket) && k < c.b.N()
    ensures Fits(c, Add(c, s, k))
  {
    hide Flatten, Merge, Warns, Reduces;
  }

  lemma {:induction false} PassToKeeps(c: Cfg, s: St, passes: nat, k: nat)
    requires BucketOk(c, s, c.b.N()) && Balanced(c, s, passes, c.b.N()) && Fits(c, s) && k <= c.b.N()
    ensures var t := PassTo(c, s, k);
            Fits(c, t) && (k > 0 || c.b.N() == 0 ==> BucketOk(c, t, k) && Balanced(c, t, passes, k))
            && t.num == Numel(c.b, t.bucket)
    decreases c.b.N() - k
  {
    if k < c.b.N() {
      PassToKeeps(c, s, passes, k + 1);
      var t := PassTo(c, s, k + 1);
      AddFits(c, t, k);
      AddKeeps(c, t, passes, k + 1);
    }
  }

  lemma {:induction false} RunFits(c: Cfg, phases: seq<Phase>)
    requires c.Valid()
    ensures Fits(c, RunAll(c, phases))
  {
    hide Add, Fits;
    if phases == [] {
      InitFits(c);
    } else {
      var rest := phases[..|phases| - 1];
      RunFits(c, rest);
      RunKeeps(c, rest);
      var s := RunAll(c, rest);
      match phases[|phases| - 1]
      case Backward =>
        PassFromTo(c, s, 0);
        PassToKeeps(c, s, Passes(rest), 0);
      case Step => StepFits(c, s);
    }
  }

  lemma InitFits(c: Cfg)
    ensures Fits(c, Init)
  {
  }

  lemma StepFits(c: Cfg, s: St)
    requires c.Valid() && Within(c.b, s.bucket)
    ensures Fits(c, StepOnce(c, s))
  {
    hide Flatten, Merge, Warns, Reduces, AllGathers;
  }

  // What a flush sends.
  function Sends(c: Cfg, bucket: seq<nat>): seq<Item>
    requires Within(c.b, bucket)
  {
    if c.merges then Reduces(Merge(Flatten(c.b, bucket))) else [AllReduce(Numel(c.b, bucket) * ELEM_SIZE)]
  }

  // In every backward pass of every run: the bucket holds at most its limit or one parameter, and it is flushed, all of
  // it, exactly before a parameter that does not fit any more; a flush moves no more than the bucket held.
  lemma FlushedWhenFull(c: Cfg, phases: seq<Phase>, k: nat)
    requires c.Valid() && k < c.b.N()
    ensures PassTo(c, RunAll(c, phases), 0) == RunAll(c, phases + [Backward])
    ensures var s, t := PassTo(c, RunAll(c, phases), k + 1), PassTo(c, RunAll(c, phases), k);
            var held := Numel(c.b, s.bucket);
            && (|s.bucket| <= 1 || held <= c.maxBucket)
            && (if held + c.b.numels[k] <= c.maxBucket then t.bucket == s.bucket + [k] && t.items == s.items
                else t.bucket == [k] && t.items == s.items + Sends(c, s.bucket))
            && ReducedBytes(t.items) - ReducedBytes(s.items) <= ELEM_SIZE * held
  {
    hide Add, Balanced, Numel, RunAll, Sends;
    var r := RunAll(c, phases);
    LastPass(c, phases);
    RunKeeps(c, phases);
    RunFits(c, phases);
    PassToKeeps(c, r, Passes(phases), k + 1);
    var s := PassTo(c, r, k + 1);
    AddSends(c, s, k);
  }

  lemma LastPass(c: Cfg, phases: seq<Phase>)
    requires c.Valid()
    ensures PassTo(c, RunAll(c, phases), 0) == RunAll(c, phases + [Backward])
  {
    hide Add;
    var all := phases + [Backward];
    assert all[..|all| - 1] == phases;
    PassFromTo(c, RunAll(c, phases), 0);
  }

  lemma AddSends(c: Cfg, s: St, k: nat)
    requires BucketOk(c, s, k + 1) && k < c.b.N()
    ensures var t, held := Add(c, s, k), Numel(c.b, s.bucket);
            && (if held + c.b.numels[k] <= c.maxBucket then t.bucket == s.bucket + [k] && t.items == s.items
                else t.bucket == [k] && t.items == s.items + Sends(c, s.bucket))
            && ReducedBytes(t.items) - ReducedBytes(s.items) <= ELEM_SIZE * held
  {
    hide Numel, Flatten, Merge, Warns, Reduces, ReducedBytes, Lost, Length;
    BytesConcat(s.items, Sends(c, s.bucket));
    SendsBytes(c, s.bucket);
  }

  lemma SendsBytes(c: Cfg, bucket: seq<nat>)
    requires Descending(c.b, bucket)
    ensures ReducedBytes(Sends(c, bucket)) <= ELEM_SIZE * Numel(c.b, bucket)
  {
    hide Numel, Flatten, Merge, Lost, Length;
    if c.merges {
      BucketTotal(c.b, bucket);
      ReducesBytes(Merge(Flatten(c.b, bucket)));
    } else {
      assert [AllReduce(Numel(c.b, bucket) * ELEM_SIZE)][..0] == [];
    }
  }

  // ---------- all-reduces of a run ----------

  // Within the limit of the bucket, or of one parameter, or of nothing.
  ghost predicate HoldsOk(c: Cfg, elements: int) {
    elements <= c.maxBucket || elements == 0 || exists p: nat :: p < c.b.N() && elements == c.b.numels[p]
  }

  ghost predicate ItemOk(c: Cfg, x: Item) { x.AllReduce? ==> x.bytes % 2 == 0 && HoldsOk(c, x.bytes / 2) }

  ghost predicate ItemsOk(c: Cfg, items: seq<Item>) { forall x <- items :: ItemOk(c, x) }

  lemma BucketHolds(c: Cfg, s: St)
    requires Within(c.b, s.bucket) && Fits(c, s) && s.num == Numel(c.b, s.bucket)
    ensures HoldsOk(c, s.num)
  {
    if |s.bucket| == 1 { assert s.num == c.b.numels[s.bucket[0]]; }
  }

  lemma {:induction false} ReducesItems(c: Cfg, r: seq<Range>)
    ensures ItemsOk(c, Reduces(r))
  {
    if r != [] { ReducesItems(c, r[..|r| - 1]); }
  }

  lemma FlushItems(c: Cfg, s: St)
    requires Within(c.b, s.bucket) && Fits(c, s) && s.num == Numel(c.b, s.bucket) && ItemsOk(c, s.items)
    ensures ItemsOk(c, Flush(c, s).items)
  {
    hide HoldsOk, Flatten, Merge, Warns, Reduces;
    if c.merges {
      ReducesItems(c, Merge(Flatten(c.b, s.bucket)));
    } else {
      BucketHolds(c, s);
    }
  }

  lemma {:induction false} PassItems(c: Cfg, s: St, passes: nat, k: nat)
    requires BucketOk(c, s, c.b.N()) && Balanced(c, s, passes, c.b.N()) && Fits(c, s) && k <= c.b.N()
    requires Within(c.b, s.bucket) && ItemsOk(c, s.items)
    ensures ItemsOk(c, PassTo(c, s, k).items)
    decreases c.b.N() - k
  {
    hide BucketOk, Balanced, ItemsOk, Flush;
    if k < c.b.N() {
      PassItems(c, s, passes, k + 1);
      PassToKeeps(c, s, passes, k + 1);
      FlushItems(c, PassTo(c, s, k + 1));
    }
  }

  lemma {:induction false} GathersItems(c: Cfg, m: nat)
    requires c.Valid()
    ensures ItemsOk(c, AllGathers(c, m))
  {
    hide ShardElements, Padded;
    if m > 0 { GathersItems(c, m - 1); }
  }

  // Every all-reduce of every run is within the limit of the bucket, or of one parameter, or of nothing.
  lemma {:induction false} AllReducesBounded(c: Cfg, phases: seq<Phase>)
    requires c.Valid()
    ensures ItemsOk(c, RunAll(c, phases).items)
  {
    hide BucketOk, Balanced, Flush, PassFrom, PassTo, AllGathers, Fits, ItemOk;
    if phases != [] {
      var rest := phases[..|phases| - 1];
      var s := RunAll(c, rest);
      AllReducesBounded(c, rest);
      RunKeeps(c, rest);
      RunFits(c, rest);
      match phases[|phases| - 1]
      case Backward =>
        PassItems(c, s, Passes(rest), 0);
        PassFromTo(c, s, 0);
        WholePass(c, s);
      case Step =>
        Counted(c, s, Passes(rest));
        FlushItems(c, s);
        GathersItems(c, NumShards(c.b.Size(), c.shardLimit));
        assert ItemOk(c, HasOverflow) by { OverflowOk(c); }
    }
  }

  lemma OverflowOk(c: Cfg)
    ensures ItemOk(c, HasOverflow)
  {
  }

  lemma WholePass(c: Cfg, s: St)
    requires Within(c.b, s.bucket)
    ensures PassFrom(c, PassTo(c, s, 0), 0) == PassTo(c, s, 0)
  {
    hide PassTo;
  }

  lemma Counted(c: Cfg, s: St, passes: nat)
    requires BucketOk(c, s, c.b.N())
    ensures s.num == Numel(c.b, s.bucket)
  {
  }

  // ---------- the items of a step ----------

  function Gathered(items: seq<Item>): int {
    if items == [] then 0
    else Gathered(items[..|items| - 1]) + if items[|items| - 1].AllGather? then items[|items| - 1].bytes else 0
  }

  lemma GatheredAppend(items: seq<Item>, x: Item)
    ensures Gathered(items + [x]) == Gathered(items) + if x.AllGather? then x.bytes else 0
  {
    assert (items + [x])[..|items|] == items;
  }

  // An equal part for every rank.
  predicate Shared(c: Cfg, x: Item)
    requires c.Valid()
  {
    x.AllGather? && x.bytes % 2 == 0 && (x.bytes / 2) % c.b.ranks == 0
  }

  lemma {:induction false} GathersAre(c: Cfg, m: nat)
    requires c.Valid()
    ensures var g := AllGathers(c, m);
            && |g| == m && (forall i :: 0 <= i < m ==> Shared(c, g[i]))
            && Gathered(g) == 2 * (ShardTotal(c.b.Size(), c.shardLimit, m) + Pads(c, m))
            && 0 <= Pads(c, m) <= Mul(m, c.b.ranks - 1)
  {
    hide ShardElements, Mul;
    MulZero(c.b.ranks - 1);
    if m > 0 {
      GathersAre(c, m - 1);
      var n, ranks := c.b.Size(), c.b.ranks;
      var e := ShardElements(n, c.shardLimit, m - 1);
      var x := AllGather(Padded(e, ranks) * ELEM_SIZE);
      PadIs(e, ranks);
      GatheredAppend(AllGathers(c, m - 1), x);
      MulNext(ranks - 1, m - 1);
      assert Shared(c, x);
    }
  }

  // The elements that pad the first m shards.
  function Pads(c: Cfg, m: nat): int
    requires c.Valid()
  {
    if m == 0 then 0
    else
      var e := ShardElements(c.b.Size(), c.shardLimit, m - 1);
      Pads(c, m - 1) + Padded(e, c.b.ranks) - e
  }

  lemma PadIs(e: int, ranks: nat)
    requires ranks > 0
    ensures Padded(e, ranks) % ranks == 0 && 0 <= Padded(e, ranks) - e <= ranks - 1
  {
    var other := (if e < 0 then 0 else e) * ranks;
    assert other % ranks == 0 by { QuotientIs(other, ranks, if e < 0 then 0 else e); }
    assert other >= e by { MulGrows(if e < 0 then 0 else e, ranks); }
    PaddedIsLeast(e, ranks, other);
  }

  lemma MulGrows(e: nat, ranks: nat)
    requires ranks > 0
    ensures e * ranks >= e
  {
  }

  // What a step adds after its flush: the overflow check, and m all-gathers that each rank has an equal part of.  They
  // carry all the elements, with less than one element a rank more for each; m is the number of whole shard limits in
  // the buffer, or one.
  lemma StepItems(c: Cfg, phases: seq<Phase>) returns (at: nat)
    requires c.Valid()
    ensures var s, t := RunAll(c, phases), RunAll(c, phases + [Step]);
            var size := c.b.Size();
            && at < |t.items| && |s.items| <= at && t.items[..at] == s.items + Sends(c, s.bucket)
            && t.items[at] == HasOverflow
            && (var gathers := t.items[at + 1..]; var m := |gathers|;
                && m >= 1 && (forall i :: 0 <= i < m ==> Shared(c, gathers[i]))
                && size < Mul(m + 1, c.shardLimit) && (m > 1 ==> Mul(m, c.shardLimit) <= size)
                && 2 * size <= Gathered(gathers) <= 2 * (size + Mul(m, c.b.ranks - 1)))
  {
    hide Mul, Div, Flatten, Merge, Warns, Reduces, AllGathers, Numel, Gathered, Shared;
    var all := phases + [Step];
    assert all[..|all| - 1] == phases;
    var s, t := RunAll(c, phases), RunAll(c, all);
    RunKeeps(c, phases);
    Counted(c, s, Passes(phases));
    var m := NumShards(c.b.Size(), c.shardLimit);
    var f := Flush(c, s).items;
    assert f == s.items + Sends(c, s.bucket);
    at := |f|;
    assert t.items == f + [HasOverflow] + AllGathers(c, m);
    assert t.items[at + 1..] == AllGathers(c, m);
    GathersAre(c, m);
    ShardsCover(c.b.Size(), c.shardLimit);
    ShardCount(c.b.Size(), c.shardLimit);
  }

  lemma ShardCount(n: nat, limit: nat)
    requires limit > 0
    ensures var m := NumShards(n, limit);
            m >= 1 && n < Mul(m + 1, limit) && (m > 1 ==> Mul(m, limit) <= n)
  {
    hide Mul, Div, Mod;
    SplitDigit(n, limit);
    var q := Div(n, limit);
    MulCommutes(limit, q);
    MulNext(limit, q);
    MulMonotone(q, NumShards(n, limit), limit);
    MulNext(limit, NumShards(n, limit));
  }

  // ---------- a reduce of less than nothing ----------

  // With one rank, the range of the last parameter joined with that of the first ends before it starts: three
  // parameters of 1, 4 and 1 elements, a limit of 4 and two passes make a reduce of a negative size.
  lemma NegativeReduce()
    ensures var c := Cfg(Buffer([1, 4, 1], 1), 4, 10, true);
            Reduce(0, -8) in RunAll(c, [Backward, Backward]).items
  {
    hide Add, PassTo, Numel, Sends, RunAll;
    var c := Cfg(Buffer([1, 4, 1], 1), 4, 10, true);
    var one := [Backward];
    assert one + [Backward] == [Backward, Backward];
    NoRun(c);
    Held(c);
    LeavesFirst(c);
    Bucketed(c, one, 2);
    assert [0] + [2] == [0, 2];
    Bucketed(c, one, 1);
    JoinedSends(c);
    var s := PassTo(c, RunAll(c, one), 1);
    assert Reduce(0, -8) in s.items;
    Bucketed(c, one, 0);
  }

  // The first pass leaves the first parameter in the bucket.
  lemma LeavesFirst(c: Cfg)
    requires c == Cfg(Buffer([1, 4, 1], 1), 4, 10, true)
    ensures RunAll(c, [Backward]).bucket == [0]
  {
    hide Add, PassTo, Numel, Sends, RunAll;
    NoRun(c);
    Held(c);
    Bucketed(c, [], 2);
    Bucketed(c, [], 1);
    Bucketed(c, [], 0);
    assert [] + [Backward] == [Backward];
  }

  lemma OneReduce(r: Range)
    ensures Reduces([r]) == [Reduce(r.rank, (r.hi - r.lo) * ELEM_SIZE)]
  {
    assert [r][..0] == [];
  }

  lemma NoRun(c: Cfg)
    requires c.Valid()
    ensures RunAll(c, []) == Init && forall phases :: PassTo(c, RunAll(c, phases), c.b.N()) == RunAll(c, phases)
  {
  }

  // One parameter of a pass, by the elements in the bucket.
  lemma Bucketed(c: Cfg, phases: seq<Phase>, k: nat)
    requires c.Valid() && k < c.b.N()
    ensures PassTo(c, RunAll(c, phases), 0) == RunAll(c, phases + [Backward])
    ensures var s, t := PassTo(c, RunAll(c, phases), k + 1), PassTo(c, RunAll(c, phases), k);
            && (if Numel(c.b, s.bucket) + c.b.numels[k] <= c.maxBucket then t.bucket == s.bucket + [k] && t.items == s.items
                else t.bucket == [k] && t.items == s.items + Sends(c, s.bucket))
  {
    hide PassTo, RunAll, Numel, Sends;
    FlushedWhenFull(c, phases, k);
  }

  lemma Held(c: Cfg)
    requires c.b == Buffer([1, 4, 1], 1)
    ensures Numel(c.b, []) == 0 && Numel(c.b, [2]) == 1 && Numel(c.b, [1]) == 4 && Numel(c.b, [0]) == 1
    ensures Numel(c.b, [0, 2]) == 2 && [] + [2] == [2]
  {
    assert [0, 2][1..] == [2];
  }

  lemma JoinedSends(c: Cfg)
    requires c.b == Buffer([1, 4, 1], 1) && c.merges
    ensures Within(c.b, [0, 2]) && Sends(c, [0, 2]) == [Reduce(0, -8)]
  {
    hide Merge, Flatten, Reduces;
    JoinedRange();
    OneReduce(Range(0, 5, 1));
  }

  lemma JoinedRange()
    ensures Merge(Flatten(Buffer([1, 4, 1], 1), [0, 2])) == [Range(0, 5, 1)]
  {
    var b := Buffer([1, 4, 1], 1);
    assert Within(b, [0, 2]);
    OneRank(b, 0);
    OneRank(b, 2);
    assert b.Start(1) == 1 && b.Start(2) == 5 && b.Start(3) == 6;
    assert Flatten(b, [2]) == RangesOf(b, 2) by { assert [2][1..] == []; }
    assert [0, 2][1..] == [2];
    var flat := Flatten(b, [0, 2]);
    assert flat == [Range(0, 5, 6), Range(0, 0, 1)];
    assert flat[..1] == [Range(0, 5, 6)] && flat[..1][..0] == [];
    assert Merge(flat[..1]) == [Range(0, 5, 6)];
  }

  lemma {:induction false} OneRank(b: Buffer, k: nat)
    requires b.ranks == 1 && k < b.N()
    ensures RankBefore(b, k) == 0 && RangesOf(b, k) == [Range(0, b.Start(k), b.Start(k + 1))]
  {
    StartGrows(b, k + 1, b.N());
    OnlySlice(b);
    if k > 0 { OneRank(b, k - 1); }
  }

  lemma OnlySlice(b: Buffer)
    requires b.ranks == 1
    ensures b.SliceEnd(0) == b.Size()
  {
    CeilCovers(b.Size(), 1);
    MulPositive(b.PartitionSize(), 1);
    MulZero(b.PartitionSize());
  }
}
