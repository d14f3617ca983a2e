/**
  The reduces of the ZeRO-2 generator tile the gradient buffer.
*/
module Zero2Safety {
  import opened Radix
  import opened Zero2Model

  // ---------- the range map covers every parameter ----------

  // The ranges follow each other from lo to hi.
  ghost predicate Chain(c: seq<Range>, lo: nat, hi: nat) {
    && c != [] && c[0].lo == lo && c[|c| - 1].hi == hi
    && (forall i :: 0 <= i < |c| ==> c[i].lo <= c[i].hi)
    && (forall i :: 0 <= i < |c| - 1 ==> Follows(c, i))
  }

  predicate Follows(c: seq<Range>, i: nat)
    requires i + 1 < |c|
  {
    c[i].hi == c[i + 1].lo && c[i].rank < c[i + 1].rank
  }

  // Each range lies in the slice of its rank, and the rank exists.
  ghost predicate Owned(b: Buffer, c: seq<Range>)
    requires b.Valid()
  {
    forall i :: 0 <= i < |c| ==> InSlice(b, c[i])
  }

  predicate InSlice(b: Buffer, x: Range)
    requires b.Valid()
  {
    x.rank < b.ranks && b.SliceStart(x.rank) <= x.lo && x.hi <= b.SliceEnd(x.rank)
  }

  lemma {:induction false} CutTiles(b: Buffer, r: nat, lo: nat, hi: nat)
    requires b.Valid() && r < b.ranks && lo <= hi <= b.Size()
    requires b.SliceStart(r) <= lo <= b.SliceEnd(r)
    ensures Chain(Cut(b, r, lo, hi), lo, hi) && Owned(b, Cut(b, r, lo, hi))
    decreases b.ranks - r
  {
    hide Mul, Ceil;
    if b.SliceEnd(r) < hi {
      NextRank(b, r, hi);
      var e := b.SliceEnd(r);
      NextSliceEnd(b, r);
      CutTiles(b, r + 1, e, hi);
      CutNonEmpty(b, r + 1, e, hi);
      var rest := Cut(b, r + 1, e, hi);
      var c := Cut(b, r, lo, hi);
      assert c == [Range(r, lo, e)] + rest;
      forall i | 0 <= i < |c| - 1
        ensures Follows(c, i)
      {
        if i > 0 { assert Follows(rest, i - 1); }
      }
    }
  }

  lemma NextSliceEnd(b: Buffer, r: nat)
    requires b.Valid() && b.SliceEnd(r) < b.Size() && b.SliceEnd(r) == b.SliceStart(r + 1)
    ensures b.SliceEnd(r) <= b.SliceEnd(r + 1)
  {
    hide Mul, Ceil;
  }

  // Before parameter k the map stands at a rank whose slice holds the parameter's start.
  lemma {:induction false} RankHolds(b: Buffer, k: nat)
    requires b.Valid() && k <= b.N()
    ensures b.SliceStart(RankBefore(b, k)) <= b.Start(k) <= b.SliceEnd(RankBefore(b, k))
  {
    hide Mul, Ceil, Cut;
    if k == 0 {
      MulPositive(b.PartitionSize(), 1);
    } else {
      RankHolds(b, k - 1);
      StartGrows(b, k, b.N());
      StartGrows(b, k - 1, k);
      var r := RankBefore(b, k - 1);
      var c := Cut(b, r, b.Start(k - 1), b.Start(k));
      CutTiles(b, r, b.Start(k - 1), b.Start(k));
      CutNonEmpty(b, r, b.Start(k - 1), b.Start(k));
      assert InSlice(b, c[|c| - 1]);
    }
  }

  // The range map, for every parameter: contiguous ranges that exactly cover it, on increasing ranks that
  // exist, each inside the slice of its rank.
  lemma RangeMap(b: Buffer, k: nat)
    requires b.Valid() && k < b.N()
    ensures Chain(RangesOf(b, k), b.Start(k), b.Start(k + 1)) && Owned(b, RangesOf(b, k))
  {
    hide Mul, Ceil, Cut;
    RankHolds(b, k);
    StartGrows(b, k, k + 1);
    StartGrows(b, k + 1, b.N());
    CutTiles(b, RankBefore(b, k), b.Start(k), b.Start(k + 1));
  }

  // ---------- merging ranges ----------

  function Length(c: seq<Range>): int {
    if c == [] then 0 else Length(c[..|c| - 1]) + c[|c| - 1].hi - c[|c| - 1].lo
  }

  // How far the joined ranges are apart, summed over all joins.
  function Gaps(c: seq<Range>): int {
    if |c| <= 1 then 0
    else Gaps(c[..|c| - 1]) + GapAt(c, |c| - 2)
  }

  function GapAt(c: seq<Range>, i: nat): int
    requires i + 1 < |c|
  {
    if c[i].rank == c[i + 1].rank then c[i + 1].lo - c[i].hi else 0
  }

  lemma LengthAppend(c: seq<Range>, x: Range)
    ensures Length(c + [x]) == Length(c) + x.hi - x.lo
  {
    assert (c + [x])[..|c|] == c;
  }

  lemma {:induction false} LengthConcat(c: seq<Range>, d: seq<Range>)
    ensures Length(c + d) == Length(c) + Length(d)
  {
    if d == [] {
      assert c + d == c;
    } else {
      var n := |d| - 1;
      LengthConcat(c, d[..n]);
      LengthAppend(c + d[..n], d[n]);
      assert c + d == c + d[..n] + [d[n]];
    }
  }

  // The merged ranges have the elements of the given ones, plus the gaps that were joined over.
  lemma {:induction false} MergeLength(flat: seq<Range>)
    ensures Length(Merge(flat)) == Length(flat) + Gaps(flat)
    ensures flat != [] ==> Merge(flat) != [] && var m := Merge(flat);
              m[|m| - 1].rank == flat[|flat| - 1].rank && m[|m| - 1].hi == flat[|flat| - 1].hi
  {
    if flat != [] {
      var n := |flat| - 1;
      MergeLength(flat[..n]);
      var acc, x := Merge(flat[..n]), flat[n];
      if acc != [] && acc[|acc| - 1].rank == x.rank {
        LengthAppend(acc[..|acc| - 1], acc[|acc| - 1].(hi := x.hi));
      } else {
        LengthAppend(acc, x);
      }
    }
  }

  lemma {:induction false} ChainLength(c: seq<Range>, lo: nat, hi: nat)
    requires Chain(c, lo, hi)
    ensures Length(c) == hi - lo && Gaps(c) == 0
  {
    var n := |c| - 1;
    if n > 0 {
      assert Follows(c, n - 1);
      forall i | 0 <= i < n - 1
        ensures Follows(c[..n], i)
      {
        assert Follows(c, i);
      }
      ChainLength(c[..n], lo, c[n - 1].hi);
    }
  }

  lemma {:induction false} GapsConcat(c: seq<Range>, d: seq<Range>)
    requires c != [] && d != []
    ensures Gaps(c + d) == Gaps(c) + Gaps(d) + (if c[|c| - 1].rank == d[0].rank then d[0].lo - c[|c| - 1].hi else 0)
  {
    var n := |d| - 1;
    var e := c + d;
    assert e[..|e| - 1] == c + d[..n];
    if n == 0 {
      assert c + d[..n] == c;
    } else {
      GapsConcat(c, d[..n]);
    }
  }

  // ---------- buckets ----------

  // A bucket goes down through the parameters, and wraps from the first to the last one when backward
  // passes follow each other without a flush.
  ghost predicate Descending(b: Buffer, bucket: seq<nat>) {
    && Within(b, bucket)
    && forall i :: 0 <= i < |bucket| - 1 ==> GoesDown(b, bucket, i)
  }

  predicate GoesDown(b: Buffer, bucket: seq<nat>, i: nat)
    requires i + 1 < |bucket|
  {
    bucket[i + 1] + 1 == if bucket[i] == 0 then b.N() else bucket[i]
  }

  // The whole buffer is in the slice of the first rank.
  predicate OneSlice(b: Buffer)
    requires b.Valid()
  {
    RankBefore(b, b.N()) == 0
  }

  // The elements lost by joining over the wraps inside one slice: the whole buffer each time.
  function Lost(b: Buffer, bucket: seq<nat>): nat
    requires b.Valid()
    decreases |bucket|
  {
    if |bucket| <= 1 then 0
    else Lost(b, bucket[1..]) + (if bucket[0] == 0 && OneSlice(b) then b.Size() else 0)
  }

  // The list ends with the last range of parameter k.
  predicate EndsAt(b: Buffer, flat: seq<Range>, k: nat)
    requires b.Valid() && k < b.N()
  {
    flat != [] && flat[|flat| - 1].rank == RankBefore(b, k + 1) && flat[|flat| - 1].hi == b.Start(k + 1)
  }

  // The ranges of a bucket add up to its parameters.
  lemma {:induction false} BucketLength(b: Buffer, bucket: seq<nat>)
    requires Within(b, bucket)
    ensures Length(Flatten(b, bucket)) == Numel(b, bucket)
    decreases |bucket|
  {
    if bucket != [] {
      hide Mul, Ceil, RankBefore, RangesOf, Length;
      var k, rest := bucket[0], bucket[1..];
      RangeMap(b, k);
      ChainLength(RangesOf(b, k), b.Start(k), b.Start(k + 1));
      BucketLength(b, rest);
      LengthConcat(Flatten(b, rest), RangesOf(b, k));
    }
  }

  lemma BucketEnds(b: Buffer, bucket: seq<nat>)
    requires bucket != [] && Within(b, bucket)
    ensures EndsAt(b, Flatten(b, bucket), bucket[0])
  {
    hide RankBefore, RangesOf;
    EndOfRanges(b, bucket[0]);
  }

  // Its gaps are the wraps from the end of the buffer to its start inside one rank.
  lemma {:induction false} BucketGaps(b: Buffer, bucket: seq<nat>)
    requires Descending(b, bucket)
    ensures Gaps(Flatten(b, bucket)) + Lost(b, bucket) == 0
    decreases |bucket|
  {
    if |bucket| <= 1 {
      FewGaps(b, bucket);
    } else {
      assert b.Valid() && bucket[0] < b.N();
      hide Mul, Flatten, Gaps, Descending, Within, OneSlice;
      NearGaps(b, bucket[0]);
      DescendingRest(b, bucket);
      BucketGaps(b, bucket[1..]);
      JoinGap(b, bucket);
    }
  }

  lemma FewGaps(b: Buffer, bucket: seq<nat>)
    requires |bucket| <= 1 && Within(b, bucket)
    ensures Gaps(Flatten(b, bucket)) == 0
  {
    hide RangesOf;
    if bucket != [] {
      NearGaps(b, bucket[0]);
      assert Flatten(b, bucket[1..]) + RangesOf(b, bucket[0]) == RangesOf(b, bucket[0]);
    }
  }

  lemma NearGaps(b: Buffer, k: nat)
    requires b.Valid() && k < b.N()
    ensures Gaps(RangesOf(b, k)) == 0
  {
    hide RangesOf, Owned;
    RangeMap(b, k);
    ChainLength(RangesOf(b, k), b.Start(k), b.Start(k + 1));
  }

  lemma JoinGap(b: Buffer, bucket: seq<nat>)
    requires |bucket| > 1 && Descending(b, bucket)
    ensures Within(b, bucket[1..])
    ensures Gaps(Flatten(b, bucket)) ==
            Gaps(Flatten(b, bucket[1..])) + Gaps(RangesOf(b, bucket[0]))
            - (if bucket[0] == 0 && OneSlice(b) then b.Size() else 0)
  {
    hide Mul, Ceil, RankBefore, RangesOf, Gaps;
    var rest := bucket[1..];
    DescendingRest(b, bucket);
    assert GoesDown(b, bucket, 0);
    EndOfRanges(b, bucket[0]);
    BucketEnds(b, rest);
    GapsConcat(Flatten(b, rest), RangesOf(b, bucket[0]));
    FirstRank(b);
  }

  lemma EndOfRanges(b: Buffer, k: nat)
    requires b.Valid() && k < b.N()
    ensures var c := RangesOf(b, k);
            c != [] && c[0].rank == RankBefore(b, k) && c[0].lo == b.Start(k)
            && c[|c| - 1].rank == RankBefore(b, k + 1) && c[|c| - 1].hi == b.Start(k + 1)
  {
    hide Mul, Ceil, Cut;
    StartGrows(b, k + 1, b.N());
    CutNonEmpty(b, RankBefore(b, k), b.Start(k), b.Start(k + 1));
  }

  lemma FirstRank(b: Buffer)
    requires b.Valid()
    ensures RankBefore(b, 0) == 0 && b.Start(0) == 0
  {
  }

  // The merged reduces of a bucket: their sizes add up to the bucket, except that every wrap inside one slice
  // loses the whole buffer.
  lemma BucketTotal(b: Buffer, bucket: seq<nat>)
    requires Descending(b, bucket)
    ensures Length(Merge(Flatten(b, bucket))) == Numel(b, bucket) - Lost(b, bucket)
  {
    hide Flatten, Lost, Merge;
    BucketLength(b, bucket);
    BucketGaps(b, bucket);
    MergeLength(Flatten(b, bucket));
  }

  // The warning: the joins inside a parameter never print it, so it depends on the joins between parameters.
  lemma {:induction false} WarnsConcat(c: seq<Range>, d: seq<Range>)
    requires c != [] && d != []
    ensures Warns(c + d) <==>
            Warns(c) || Warns(d) || (c[|c| - 1].rank == d[0].rank && c[|c| - 1].hi != d[0].lo)
  {
    var e, n := c + d, |c|;
    forall i | 0 <= i < |e| - 1
      ensures i < n - 1 ==> (BadJoin(e, i) <==> BadJoin(c, i))
      ensures i >= n ==> (BadJoin(e, i) <==> BadJoin(d, i - n))
    {
    }
    if Warns(c) {
      var i :| 0 <= i < |c| - 1 && BadJoin(c, i);
      assert BadJoin(e, i);
    }
    if Warns(d) {
      var i :| 0 <= i < |d| - 1 && BadJoin(d, i);
      assert BadJoin(e, i + n);
    }
    if c[n - 1].rank == d[0].rank && c[n - 1].hi != d[0].lo {
      assert BadJoin(e, n - 1);
    }
  }

  lemma ChainSilent(c: seq<Range>, lo: nat, hi: nat)
    requires Chain(c, lo, hi)
    ensures !Warns(c)
  {
    forall i | 0 <= i < |c| - 1
      ensures !BadJoin(c, i)
    {
      assert Follows(c, i);
    }
  }

  // Merging a bucket prints the warning exactly when it loses elements.
  lemma {:induction false} WarnsIffLost(b: Buffer, bucket: seq<nat>)
    requires Descending(b, bucket)
    ensures Warns(Flatten(b, bucket)) <==> Lost(b, bucket) > 0
  {
    assert !Warns([]);
    hide Mul, Ceil, RankBefore, RangesOf, Warns, Numel;
    if bucket == [] {
    } else {
      var k := bucket[0];
      var rest := bucket[1..];
      var near, far := RangesOf(b, k), Flatten(b, rest);
      RangeMap(b, k);
      ChainSilent(near, b.Start(k), b.Start(k + 1));
      EndOfRanges(b, k);
      DescendingRest(b, bucket);
      if rest != [] { BucketEnds(b, rest); }
      WarnsIffLost(b, rest);
      if rest == [] {
        assert far + near == near;
      } else {
        assert GoesDown(b, bucket, 0);
        WarnsConcat(far, near);
        FirstRank(b);
      }
    }
  }

  lemma DescendingRest(b: Buffer, bucket: seq<nat>)
    requires bucket != [] && Descending(b, bucket)
    ensures Descending(b, bucket[1..])
  {
    var rest := bucket[1..];
    forall i | 0 <= i < |rest| - 1
      ensures GoesDown(b, rest, i)
    {
      assert GoesDown(b, bucket, i + 1);
    }
  }

  // When the whole buffer lies in one slice: there is only one rank, or at most one element.
  lemma OneSliceIff(b: Buffer)
    requires b.Valid()
    ensures OneSlice(b) <==> b.ranks == 1 || b.Size() <= 1
  {
    hide Mul, Ceil, RankBefore;
    RankHolds(b, b.N());
    var p := b.PartitionSize();
    CeilCovers(b.Size(), b.ranks);
    MulPositive(p, 1);
    if OneSlice(b) {
      assert b.Size() <= p;
      if b.ranks > 1 && b.Size() > 1 {
        TooSmall(b.Size(), b.ranks, p);
        assert false;
      }
    } else {
      NotFirst(b);
    }
  }

  lemma TooSmall(x: nat, d: nat, p: nat)
    requires d > 1 && x > 1 && p > 0 && Mul(d, p - 1) < x
    ensures x > p
  {
    hide Mul;
    if p >= x {
      MulMonotone(2, d, p - 1);
      MulNext(p - 1, 1);
      MulPositive(p - 1, 1);
    }
  }

  // A later rank is only reached when the first slice ends before the buffer does.
  lemma NotFirst(b: Buffer)
    requires b.Valid() && !OneSlice(b)
    ensures b.ranks > 1 && b.Size() > 1
  {
    hide Mul, Ceil;
    if b.SliceEnd(0) >= b.Size() { StaysFirst(b, b.N()); }
    var p := b.PartitionSize();
    CeilCovers(b.Size(), b.ranks);
    MulPositive(p, 1);
    MulPositive(b.ranks, p);
    assert b.SliceStart(0) == 0;
    assert p < b.Size();
    MulNext(b.ranks, 0);
    MulPositive(b.ranks, 1);
  }

  lemma {:induction false} StaysFirst(b: Buffer, k: nat)
    requires b.Valid() && k <= b.N() && b.SliceEnd(0) >= b.Size()
    ensures RankBefore(b, k) == 0
  {
    hide Mul, Ceil;
    if k > 0 {
      StaysFirst(b, k - 1);
      StartGrows(b, k, b.N());
    }
  }
}
