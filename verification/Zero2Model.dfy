/**
  The gradient buffer of the ZeRO-1/2 generators.

  The parameters lie one after the other in one buffer, which is cut into one slice a rank.  The range map
  cuts each parameter at the slice boundaries; a reduce merges the ranges of the bucketed parameters
  that follow each other on one rank.
*/
module Zero2Model {
  import opened Radix

  const ELEM_SIZE := 2

  // Elements `lo` to `hi` (exclusive) of the buffer, to be reduced to `rank`.
  datatype Range = Range(rank: nat, lo: nat, hi: nat)

  // The communication items of a workload.  HasOverflow is the one-byte all-reduce that opens every step.
  datatype Item = AllReduce(bytes: int) | Reduce(dst: nat, bytes: int) | HasOverflow | AllGather(bytes: int)

  // The parameters' sizes and the number of ranks.
  datatype Buffer = Buffer(numels: seq<nat>, ranks: nat)
  {
    predicate Valid() { ranks > 0 }

    function N(): nat { |numels| }

    // Where parameter k starts.
    function Start(k: nat): nat
      requires k <= N()
    {
      if k == 0 then 0 else Start(k - 1) + numels[k - 1]
    }

    function Size(): nat { Start(N()) }

    function PartitionSize(): nat
      requires Valid()
    {
      Ceil(Size(), ranks)
    }

    function SliceStart(r: nat): nat
      requires Valid()
    {
      Mul(r, PartitionSize())
    }

    function SliceEnd(r: nat): nat
      requires Valid()
    {
      Min(Size(), SliceStart(r) + PartitionSize())
    }
  }

  // The smallest q with q * d >= x.
  function Ceil(x: nat, d: nat): nat
    requires d > 0
  {
    Div(x + d - 1, d)
  }

  lemma CeilCovers(x: nat, d: nat)
    requires d > 0
    ensures Mul(d, Ceil(x, d)) >= x
    ensures x > 0 ==> Mul(d, Ceil(x, d) - 1) < x
  {
    var y := x + d - 1;
    SplitDigit(y, d);
    var q := Ceil(x, d);
    if x > 0 {
      assert q >= 1 by { if q == 0 { MulPositive(d, 1); } }
      MulNext(d, q - 1);
    }
  }

  // ---------- the range map ----------

  // A slice that ends before some element is not the last one: the rank index stays in bounds.
  lemma NextRank(b: Buffer, r: nat, hi: nat)
    requires b.Valid() && hi <= b.Size() && b.SliceEnd(r) < hi
    ensures r + 1 < b.ranks && b.SliceEnd(r) == b.SliceStart(r + 1) == b.SliceStart(r) + b.PartitionSize()
  {
    hide Mul;
    var p := b.PartitionSize();
    CeilCovers(b.Size(), b.ranks);
    MulNext(p, r);
    if r + 1 >= b.ranks { MulMonotone(b.ranks, r + 1, p); }
  }

  lemma {:induction false} StartGrows(b: Buffer, k: nat, m: nat)
    requires k <= m <= b.N()
    ensures b.Start(k) <= b.Start(m)
    decreases m
  {
    if k < m { StartGrows(b, k, m - 1); }
  }

  // The ranges a parameter at [lo, hi) is cut into, starting with rank r.
  function Cut(b: Buffer, r: nat, lo: nat, hi: nat): seq<Range>
    requires b.Valid() && r < b.ranks && hi <= b.Size()
    decreases b.ranks - r
  {
    if b.SliceEnd(r) < hi then
      NextRank(b, r, hi);
      [Range(r, lo, b.SliceEnd(r))] + Cut(b, r + 1, b.SliceEnd(r), hi)
    else [Range(r, lo, hi)]
  }

  lemma {:induction false} CutNonEmpty(b: Buffer, r: nat, lo: nat, hi: nat)
    requires b.Valid() && r < b.ranks && hi <= b.Size()
    ensures var c := Cut(b, r, lo, hi);
            c != [] && c[0].rank == r && c[0].lo == lo && r <= c[|c| - 1].rank < b.ranks && c[|c| - 1].hi == hi
    decreases b.ranks - r
  {
    hide Mul, Ceil;
    if b.SliceEnd(r) < hi {
      NextRank(b, r, hi);
      CutNonEmpty(b, r + 1, b.SliceEnd(r), hi);
    }
  }

  // The rank the map stands at before parameter k, and the ranges of parameter k.
  function RankBefore(b: Buffer, k: nat): (r: nat)
    requires b.Valid() && k <= b.N()
    ensures r < b.ranks
  {
    if k == 0 then 0
    else
      StartGrows(b, k, b.N());
      var c := Cut(b, RankBefore(b, k - 1), b.Start(k - 1), b.Start(k));
      CutNonEmpty(b, RankBefore(b, k - 1), b.Start(k - 1), b.Start(k));
      c[|c| - 1].rank
  }

  function RangesOf(b: Buffer, k: nat): seq<Range>
    requires b.Valid() && k < b.N()
  {
    StartGrows(b, k + 1, b.N());
    Cut(b, RankBefore(b, k), b.Start(k), b.Start(k + 1))
  }

  // ---------- merging ----------

  // One range more: it extends the last merged range when that has the same rank.
  function MergeOne(acc: seq<Range>, x: Range): seq<Range> {
    if acc != [] && acc[|acc| - 1].rank == x.rank then acc[..|acc| - 1] + [acc[|acc| - 1].(hi := x.hi)]
    else acc + [x]
  }

  function Merge(flat: seq<Range>): seq<Range> {
    if flat == [] then [] else MergeOne(Merge(flat[..|flat| - 1]), flat[|flat| - 1])
  }

  // The source warns when the extended range does not end where the new one starts.
  predicate Warns(flat: seq<Range>) {
    exists i :: 0 <= i < |flat| - 1 && BadJoin(flat, i)
  }

  predicate BadJoin(flat: seq<Range>, i: nat)
    requires i + 1 < |flat|
  {
    flat[i].rank == flat[i + 1].rank && flat[i].hi != flat[i + 1].lo
  }

  predicate Within(b: Buffer, bucket: seq<nat>) {
    b.Valid() && forall i :: 0 <= i < |bucket| ==> bucket[i] < b.N()
  }

  // The ranges of a bucket: the bucket is filled backwards, so it is read from its end.
  function Flatten(b: Buffer, bucket: seq<nat>): seq<Range>
    requires Within(b, bucket)
  {
    if bucket == [] then [] else Flatten(b, bucket[1..]) + RangesOf(b, bucket[0])
  }

  function Numel(b: Buffer, bucket: seq<nat>): nat
    requires Within(b, bucket)
  {
    if bucket == [] then 0 else Numel(b, bucket[1..]) + b.numels[bucket[0]]
  }
}
