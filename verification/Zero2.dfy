/**
  The ZeRO-1/2 generator object.  The range map is built once; the methods fill and flush the bucket in place
  and are proved to do exactly what Zero2Run says.
*/
module Zero2 {
  import opened Radix
  import opened Zero2Model
  import opened Zero2Run
  import Zero2Safety

  // The slice boundaries of the ranks.
  method WorldRanges(b: Buffer) returns (ranges: seq<(nat, nat)>)
    requires b.Valid()
    ensures |ranges| == b.ranks && forall r :: 0 <= r < b.ranks ==> ranges[r] == (b.SliceStart(r), b.SliceEnd(r))
  {
    hide Mul;
    var gbufSize := 0;
    for k := 0 to |b.numels|
      invariant gbufSize == b.Start(k)
    {
      gbufSize := gbufSize + b.numels[k];
    }
    var partition := (gbufSize + b.ranks - 1) / b.ranks;
    assert partition == b.PartitionSize();
    ranges := [];
    for r := 0 to b.ranks
      invariant |ranges| == r && forall i :: 0 <= i < r ==> ranges[i] == (b.SliceStart(i), b.SliceEnd(i))
    {
      var start := Mul(r, partition);
      var end := if gbufSize < start + partition then gbufSize else start + partition;
      ranges := ranges + [(start, end)];
    }
  }

  method BuildModelGbufParamRangeMap(b: Buffer) returns (paramRangeMap: seq<seq<Range>>)
    requires b.Valid()
    ensures |paramRangeMap| == b.N() && forall k :: 0 <= k < b.N() ==> paramRangeMap[k] == RangesOf(b, k)
  {
    hide RangesOf, Cut, RankBefore;
    Zero2Safety.FirstRank(b);
    var gbufWorldAllRanges := WorldRanges(b);
    var startIdx, r := 0, 0;
    var gbufWorldEnd := gbufWorldAllRanges[r].1;
    paramRangeMap := [];
    for k := 0 to |b.numels|
      invariant |paramRangeMap| == k && forall i :: 0 <= i < k ==> paramRangeMap[i] == RangesOf(b, i)
      invariant startIdx == b.Start(k) && r == RankBefore(b, k) && gbufWorldEnd == b.SliceEnd(r)
    {
      var endIdx := startIdx + b.numels[k];
      StartGrows(b, k + 1, b.N());
      var pieces, paramStartIdx := [], startIdx;
      while gbufWorldEnd < endIdx
        invariant r < b.ranks && gbufWorldEnd == b.SliceEnd(r)
        invariant pieces + Cut(b, r, paramStartIdx, endIdx) == Cut(b, RankBefore(b, k), startIdx, endIdx)
        decreases b.ranks - r
      {
        NextRank(b, r, endIdx);
        NextPiece(b, r, paramStartIdx, endIdx, pieces);
        pieces := pieces + [Range(r, paramStartIdx, gbufWorldEnd)];
        paramStartIdx := gbufWorldEnd;
        r := r + 1;
        gbufWorldEnd := gbufWorldAllRanges[r].1;
      }
      LastPiece(b, k, r, paramStartIdx, pieces);
      paramRangeMap := paramRangeMap + [pieces + [Range(r, paramStartIdx, endIdx)]];
      startIdx := endIdx;
    }
  }

  lemma NextPiece(b: Buffer, r: nat, lo: nat, hi: nat, pieces: seq<Range>)
    requires b.Valid() && hi <= b.Size() && r + 1 < b.ranks && b.SliceEnd(r) < hi
    ensures pieces + Cut(b, r, lo, hi) ==
            pieces + [Range(r, lo, b.SliceEnd(r))] + Cut(b, r + 1, b.SliceEnd(r), hi)
  {
    hide Mul, Ceil;
    NextRank(b, r, hi);
    var e := b.SliceEnd(r);
    assert Cut(b, r, lo, hi) == [Range(r, lo, e)] + Cut(b, r + 1, e, hi);
  }

  lemma LastPiece(b: Buffer, k: nat, r: nat, lo: nat, pieces: seq<Range>)
    requires b.Valid() && k < b.N() && r < b.ranks && b.Start(k + 1) <= b.Size() && b.SliceEnd(r) >= b.Start(k + 1)
    requires pieces + Cut(b, r, lo, b.Start(k + 1)) == Cut(b, RankBefore(b, k), b.Start(k), b.Start(k + 1))
    ensures RangesOf(b, k) == pieces + [Range(r, lo, b.Start(k + 1))] && RankBefore(b, k + 1) == r
  {
    hide Mul, Ceil;
    var c := Cut(b, RankBefore(b, k), b.Start(k), b.Start(k + 1));
    assert Cut(b, r, lo, b.Start(k + 1)) == [Range(r, lo, b.Start(k + 1))];
    assert c[|c| - 1] == Range(r, lo, b.Start(k + 1));
  }

  class DeepSpeedStage2 {
    const cfg: Cfg
    var reduceBucket: seq<nat>
    var numInReduceBucket: nat
    var paramRangeMap: seq<seq<Range>>
    var workload: seq<Item>
    var warned: bool
    ghost var reduced: seq<Range>
    ghost var carried: nat

    ghost function View(): St
      reads this
    {
      St(reduceBucket, numInReduceBucket, workload, warned, reduced, carried)
    }

    ghost predicate Valid()
      reads this
    {
      && cfg.Valid() && Within(cfg.b, reduceBucket)
      && |paramRangeMap| == cfg.b.N()
      && forall k :: 0 <= k < cfg.b.N() ==> paramRangeMap[k] == RangesOf(cfg.b, k)
    }

    constructor (cfg: Cfg)
      requires cfg.Valid()
      ensures this.cfg == cfg && Valid() && View() == Init
    {
      this.cfg := cfg;
      reduceBucket, numInReduceBucket, workload, warned := [], 0, [], false;
      reduced, carried := [], 0;
      new;
      var ranges := BuildModelGbufParamRangeMap(cfg.b);
      paramRangeMap := ranges;
    }

    // The merged ranges of the bucket, and whether a join printed the warning.
    method MergeRanges() returns (merged: seq<Range>, warning: bool)
      requires Valid()
      ensures merged == Merge(Flatten(cfg.b, reduceBucket)) && warning == Warns(Flatten(cfg.b, reduceBucket))
    {
      hide RangesOf, Flatten, Merge, Warns;
      ghost var b := cfg.b;
      merged, warning := [], false;
      NothingRead(b);
      var i := |reduceBucket|;
      assert reduceBucket[i..] == [];
      while i > 0
        invariant 0 <= i <= |reduceBucket|
        invariant merged == Merge(Flatten(b, reduceBucket[i..])) && warning == Warns(Flatten(b, reduceBucket[i..]))
      {
        i := i - 1;
        var ranges := paramRangeMap[reduceBucket[i]];
        ghost var flat := Flatten(b, reduceBucket[i + 1..]);
        assert flat + ranges[..0] == flat;
        for j := 0 to |ranges|
          invariant merged == Merge(flat + ranges[..j]) && warning == Warns(flat + ranges[..j])
        {
          var x := ranges[j];
          ReadOne(flat + ranges[..j], x);
          assert flat + ranges[..j + 1] == flat + ranges[..j] + [x];
          if merged != [] && merged[|merged| - 1].rank == x.rank {
            if merged[|merged| - 1].hi != x.lo { warning := true; }
            merged := merged[..|merged| - 1] + [merged[|merged| - 1].(hi := x.hi)];
          } else {
            merged := merged + [x];
          }
        }
        assert ranges[..|ranges|] == ranges;
        NextParam(b, reduceBucket, i);
      }
      assert reduceBucket[0..] == reduceBucket;
    }

    method ReduceIpgGrads()
      requires Valid()
      modifies this
      ensures Valid() && View() == Flush(cfg, old(View())) && reduceBucket == []
    {
      hide RangesOf, Flatten, Merge, Warns;
      if !cfg.merges {
        workload := workload + [AllReduce(numInReduceBucket * ELEM_SIZE)];
        reduceBucket, numInReduceBucket := [], 0;
        return;
      }
      ghost var start := workload;
      var merged, warning := MergeRanges();
      for i := 0 to |merged|
        invariant Valid() && View() == old(View()).(items := workload) && paramRangeMap == old(paramRangeMap)
        invariant workload == start + Reduces(merged[..i])
      {
        assert merged[..i + 1][..i] == merged[..i];
        workload := workload + [Reduce(merged[i].rank, (merged[i].hi - merged[i].lo) * ELEM_SIZE)];
      }
      assert merged[..|merged|] == merged;
      warned := warned || warning;
      reduced := reduced + merged;
      reduceBucket, numInReduceBucket := [], 0;
    }

    method Backward()
      requires Valid()
      modifies this
      ensures Valid() && View() == Do(cfg, old(View()), Phase.Backward)
    {
      hide RangesOf, Flush;
      var k := |cfg.b.numels|;
      while k > 0
        invariant 0 <= k <= cfg.b.N() && Valid()
        invariant PassFrom(cfg, View(), k) == PassFrom(cfg, old(View()), cfg.b.N())
      {
        ghost var before := View();
        k := k - 1;
        if cfg.b.numels[k] + numInReduceBucket > cfg.maxBucket {
          ReduceIpgGrads();
        }
        if reduceBucket != [] && k + 1 == |cfg.b.numels| { carried := carried + 1; }
        reduceBucket := reduceBucket + [k];
        numInReduceBucket := numInReduceBucket + cfg.b.numels[k];
        assert View() == Add(cfg, before, k);
      }
    }

    method Step()
      requires Valid()
      modifies this
      ensures Valid() && View() == Do(cfg, old(View()), Phase.Step)
    {
      hide RangesOf, Flush, Padded;
      ReduceIpgGrads();
      ghost var t := View();
      workload := workload + [HasOverflow];
      var numParams := 0;
      for k := 0 to |cfg.b.numels|
        invariant Valid() && View() == t.(items := t.items + [HasOverflow])
        invariant numParams == cfg.b.Start(k)
      {
        numParams := numParams + cfg.b.numels[k];
      }
      var numShards := NumShards(numParams, cfg.shardLimit);
      var shardSize := numParams / numShards;
      assert shardSize == ShardSize(cfg.b.Size(), cfg.shardLimit);
      for i := 0 to numShards
        invariant Valid() && View() == t.(items := workload)
        invariant workload == t.items + [HasOverflow] + AllGathers(cfg, i)
      {
        var numElements: int := if i == numShards - 1 then numParams - Mul(i, shardSize) else shardSize;
        workload := workload + [AllGather(Padded(numElements, cfg.b.ranks) * ELEM_SIZE)];
      }
    }
  }

  lemma NothingRead(b: Buffer)
    requires b.Valid()
    ensures Flatten(b, []) == [] && Merge([]) == [] && !Warns([])
  {
  }

  lemma NextParam(b: Buffer, bucket: seq<nat>, i: nat)
    requires Within(b, bucket) && i < |bucket|
    ensures Flatten(b, bucket[i..]) == Flatten(b, bucket[i + 1..]) + RangesOf(b, bucket[i])
  {
    hide RangesOf;
    assert bucket[i..][1..] == bucket[i + 1..];
  }

  // What reading one range more does to the merged list and to the warning.
  lemma ReadOne(flat: seq<Range>, x: Range)
    ensures var m := Merge(flat);
            && Merge(flat + [x]) == MergeOne(m, x)
            && (Warns(flat + [x]) <==>
                Warns(flat) || (m != [] && m[|m| - 1].rank == x.rank && m[|m| - 1].hi != x.lo))
  {
    hide MergeOne;
    assert (flat + [x])[..|flat|] == flat;
    Zero2Safety.MergeLength(flat);
    if flat == [] {
      assert !Warns([x]);
    } else {
      assert [x][0] == x && !Warns([x]);
      Zero2Safety.WarnsConcat(flat, [x]);
    }
  }
}
