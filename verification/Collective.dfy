/**
  Collectives: the chunks a collective is cut into, the phases of each chunk over the dimensions of the topology,
  and the streams and the data set that are made for them.
*/
module Collective {
  import opened DataSets
  import opened Radix

  // ---------- the chunk loop ----------

  function ChunkSize(size: nat, splits: nat): nat
    requires splits > 0
  {
    Div(size, splits)
  }

  // The loop after some rounds: the bytes left, the chunk size, the chunks made, and whether the data set is still
  // active.  It ends with no bytes left, or with the first chunk that has no phases.
  datatype Loop = Loop(left: nat, chunk: nat, made: seq<nat>, active: bool)
  {
    predicate Over() { left == 0 || !active }

    function Take(): nat { Min(chunk, left) }

    // One round; `phases` says whether the chunk has any.
    function Round(phases: bool): Loop {
      Loop(left - Take(), Take(), if phases then made + [Take()] else made, phases)
    }
  }

  function Rounds(l: Loop, phases: bool, n: nat): Loop
    decreases n
  {
    if n == 0 || l.Over() then l else Rounds(l.Round(phases), phases, n - 1)
  }

  // The loop ends exactly for no data, for at least as many bytes as splits, or when no dimension takes part so that
  // the first chunk has no phases.  Otherwise its chunks have no bytes and it goes on forever.
  lemma LoopEnds(size: nat, splits: nat, takesPart: set<nat>)
    requires splits > 0
    ensures (exists n: nat :: OverAfter(size, ChunkSize(size, splits), takesPart, n)) <==> LoopGuard(size, splits, takesPart)
  {
    hide Div;
    SplitDigit(size, splits);
    var chunk := ChunkSize(size, splits);
    var start := Loop(size, chunk, [], true);
    if size == 0 {
      assert OverAfter(size, chunk, takesPart, 0);
    } else if takesPart == {} {
      assert Rounds(start.Round(false), false, 0).Over();
      assert OverAfter(size, chunk, takesPart, 1);
    } else if size >= splits {
      assert chunk > 0 by { if chunk == 0 { MulZero(splits); } }
      var n := LoopShrinks(start);
      assert OverAfter(size, chunk, takesPart, n);
    } else {
      if chunk > 0 { MulNext(splits, chunk - 1); }
      forall n: nat
        ensures !OverAfter(size, chunk, takesPart, n)
      {
        LoopStuck(start, n);
      }
    }
  }

  // The loop of a collective is over after at most n rounds.
  predicate OverAfter(size: nat, chunk: nat, takesPart: set<nat>, n: nat) {
    Rounds(Loop(size, chunk, [], true), takesPart != {}, n).Over()
  }

  predicate LoopGuard(size: nat, splits: nat, takesPart: set<nat>) { size == 0 || size >= splits || takesPart == {} }

  lemma {:induction false} LoopShrinks(l: Loop) returns (n: nat)
    requires l.chunk > 0 || l.left == 0
    ensures Rounds(l, true, n).Over()
    decreases l.left
  {
    n := 0;
    if l.left > 0 {
      var m := LoopShrinks(l.Round(true));
      n := m + 1;
    }
  }

  lemma {:induction false} LoopStuck(l: Loop, n: nat)
    requires l.left > 0 && l.chunk == 0 && l.active
    ensures Rounds(l, true, n).left == l.left && !Rounds(l, true, n).Over()
    decreases n
  {
    if n > 0 { LoopStuck(l.Round(true), n - 1); }
  }

  function Chunks(size: nat, chunk: nat): seq<nat>
    requires chunk > 0 || size == 0
    decreases size
  {
    if size == 0 then [] else [Min(chunk, size)] + Chunks(size - Min(chunk, size), Min(chunk, size))
  }

  // After n rounds the loop has ended, with or without all its streams.
  predicate EndsWith(size: nat, chunk: nat, takesPart: set<nat>, n: nat, made: bool, count: nat) {
    var l := Rounds(Loop(size, chunk, [], true), takesPart != {}, n);
    l.Over() && l.active == made && |l.made| == count
  }

  lemma {:induction false} RoundsNext(l: Loop, phases: bool, n: nat)
    requires !Rounds(l, phases, n).Over()
    ensures Rounds(l, phases, n + 1) == Rounds(l, phases, n).Round(phases)
    decreases n
  {
    if n > 0 { RoundsNext(l.Round(phases), phases, n - 1); }
  }

  // What the loop has made, and what it will still make, are all the chunks.
  lemma {:induction false} RoundsMade(l: Loop, n: nat)
    requires l.active && (l.chunk > 0 || l.left == 0)
    ensures var e := Rounds(l, true, n);
            && (e.chunk > 0 || e.left == 0) && e.made + Chunks(e.left, e.chunk) == l.made + Chunks(l.left, l.chunk)
    decreases n
  {
    if n > 0 && !l.Over() {
      RoundsMade(l.Round(true), n - 1);
      assert l.made + [l.Take()] + Chunks(l.left - l.Take(), l.Take()) ==
             l.made + ([l.Take()] + Chunks(l.left - l.Take(), l.Take()));
    }
  }

  function Sum(xs: seq<nat>): nat { if xs == [] then 0 else xs[0] + Sum(xs[1..]) }

  // The number of streams the data set is made for.
  function Streams(size: nat, chunk: nat): nat
    requires chunk > 0 || size == 0
  {
    if size == 0 then 0 else Div(size + chunk - 1, chunk)
  }

  // The chunks have all the bytes, only the last may be smaller, and they are as many as the data set expects.
  lemma {:induction false} ChunksCover(size: nat, chunk: nat)
    requires chunk > 0 || size == 0
    ensures var xs := Chunks(size, chunk);
            && Sum(xs) == size && |xs| == Streams(size, chunk)
            && (forall i :: 0 <= i < |xs| ==> 0 < xs[i] <= chunk && (i < |xs| - 1 ==> xs[i] == chunk))
    decreases size
  {
    if size > 0 {
      var m := Min(chunk, size);
      ChunksCover(size - m, m);
      if size <= chunk {
        OneMore(size - 1, chunk);
      } else {
        OneMore(size - 1, chunk);
        OneMore(size - chunk - 1, chunk);
      }
    }
  }

  // Adding the divisor adds one to the quotient.
  lemma OneMore(x: nat, d: nat)
    requires d > 0
    ensures Div(x + d, d) == Div(x, d) + 1 && (x < d ==> Div(x, d) == 0)
  {
    QuotientIs(x + d, d, x / d + 1);
  }

  // At least as many chunks as splits, and fewer than twice as many.
  lemma ChunkCount(size: nat, splits: nat)
    requires 1 <= splits <= size
    ensures ChunkSize(size, splits) > 0
    ensures splits <= Streams(size, ChunkSize(size, splits)) <= 2 * splits - 1
  {
    hide Div, Mod, Mul;
    var chunk := ChunkSize(size, splits);
    SplitDigit(size, splits);
    if chunk == 0 { MulZero(splits); }
    var n := Streams(size, chunk);
    SplitDigit(size + chunk - 1, chunk);
    if n < splits { MulMonotone(n + 1, splits, chunk); MulNext(chunk, n); MulCommutes(chunk, splits); }
    if n >= 2 * splits {
      MulMonotone(2 * splits, n, chunk);
      MulCommutes(chunk, splits);
      MulDouble(chunk, splits);
      MulAtLeast(splits, chunk);
    }
  }

  lemma MulDouble(d: nat, x: nat)
    ensures Mul(d, 2 * x) == Mul(d, x) + Mul(d, x)
  {
    Spread(d, x, x);
  }

  lemma {:induction false} MulAtLeast(x: nat, y: nat)
    requires x > 0 && y > 0
    ensures Mul(x, y) >= x + y - 1
    decreases y
  {
    hide Mul;
    MulPositive(x, 1);
    if y > 1 {
      MulAtLeast(x, y - 1);
      MulNext(x, y - 1);
    }
  }

  // ---------- the phases of a chunk ----------

  datatype ComType = AllReduce | AllGather | ReduceScatter | AllToAll

  datatype Phase = Phase(comType: ComType, dim: nat)

  // The dimensions that have more than one node and take part, in the order of the mapper.
  function Active(mapper: seq<nat>, takesPart: set<nat>): seq<nat>
  {
    if mapper == [] then []
    else Active(mapper[..|mapper| - 1], takesPart) +
         (if mapper[|mapper| - 1] in takesPart then [mapper[|mapper| - 1]] else [])
  }

  function Each(comType: ComType, dims: seq<nat>): seq<Phase> {
    if dims == [] then [] else Each(comType, dims[..|dims| - 1]) + [Phase(comType, dims[|dims| - 1])]
  }

  function Reverse(dims: seq<nat>): seq<nat> {
    if dims == [] then [] else [dims[|dims| - 1]] + Reverse(dims[..|dims| - 1])
  }

  // A plain collective takes the active dimensions in order.  The other kind of all-reduce scatters over all
  // but the last of them, reduces over the last, and gathers back in the opposite order.
  function Plan(comType: ComType, baseline: bool, dims: seq<nat>): seq<Phase> {
    if comType != AllReduce || baseline || dims == [] then Each(comType, dims)
    else
      var n := |dims| - 1;
      Each(ReduceScatter, dims[..n]) + [Phase(AllReduce, dims[n])] + Each(AllGather, Reverse(dims[..n]))
  }

  lemma EachAppend(comType: ComType, dims: seq<nat>, d: nat)
    ensures Each(comType, dims + [d]) == Each(comType, dims) + [Phase(comType, d)]
  {
    assert (dims + [d])[..|dims|] == dims;
  }

  lemma {:induction false} EachAt(comType: ComType, dims: seq<nat>)
    ensures |Each(comType, dims)| == |dims|
    ensures forall i :: 0 <= i < |dims| ==> Each(comType, dims)[i] == Phase(comType, dims[i])
    decreases |dims|
  {
    if dims != [] { EachAt(comType, dims[..|dims| - 1]); }
  }

  lemma {:induction false} ReverseAt(dims: seq<nat>)
    ensures |Reverse(dims)| == |dims|
    ensures forall i :: 0 <= i < |dims| ==> Reverse(dims)[i] == dims[|dims| - 1 - i]
    decreases |dims|
  {
    if dims != [] { ReverseAt(dims[..|dims| - 1]); }
  }

  // The hierarchical all-reduce is a mirror: every dimension but the last is scattered once and gathered once, at
  // mirrored places, around the one reduce.
  lemma PlanMirrors(dims: seq<nat>, i: nat)
    requires i < |dims|
    ensures var p := Plan(AllReduce, false, dims); var n := |dims| - 1;
            && |p| == 2 * n + 1
            && p[i] == Phase(if i < n then ReduceScatter else AllReduce, dims[i])
            && p[2 * n - i] == Phase(if i < n then AllGather else AllReduce, dims[i])
  {
    var n := |dims| - 1;
    EachAt(ReduceScatter, dims[..n]);
    ReverseAt(dims[..n]);
    EachAt(AllGather, Reverse(dims[..n]));
  }

  lemma ActiveStep(mapper: seq<nat>, takesPart: set<nat>, k: nat)
    requires k < |mapper|
    ensures Active(mapper[..k + 1], takesPart) ==
            Active(mapper[..k], takesPart) + (if mapper[k] in takesPart then [mapper[k]] else [])
  {
    assert mapper[..k + 1][..k] == mapper[..k];
  }

  lemma ReverseAppend(dims: seq<nat>, d: nat)
    ensures Reverse(dims + [d]) == [d] + Reverse(dims)
  {
    assert (dims + [d])[..|dims|] == dims;
  }

  lemma {:induction false} EachConcat(comType: ComType, a: seq<nat>, b: seq<nat>)
    ensures Each(comType, a + b) == Each(comType, a) + Each(comType, b)
    decreases |b|
  {
    if b == [] {
      assert a + b == a;
    } else {
      EachConcat(comType, a, b[..|b| - 1]);
      EachAppend(comType, a + b[..|b| - 1], b[|b| - 1]);
      assert a + b == a + b[..|b| - 1] + [b[|b| - 1]];
    }
  }

  lemma PlainPlan(comType: ComType, baseline: bool, dims: seq<nat>)
    requires comType != AllReduce || baseline || dims == []
    ensures Plan(comType, baseline, dims) == Each(comType, dims) && (dims == [] ==> Each(comType, dims) == [])
  {
  }

  // The phases of one chunk, with the loops of the source.
  method ChunkPhases(comType: ComType, baseline: bool, mapper: seq<nat>, takesPart: set<nat>)
      returns (vect: seq<Phase>)
    requires mapper != []
    ensures vect == Plan(comType, baseline, Active(mapper, takesPart))
  {
    assert Active(mapper[..0], takesPart) == [] && Each(comType, []) == [];
    hide Active, Each, Plan;
    vect := [];
    if comType != AllReduce || baseline {
      for dim := 0 to |mapper|
        invariant vect == Each(comType, Active(mapper[..dim], takesPart))
      {
        ActiveStep(mapper, takesPart, dim);
        if mapper[dim] in takesPart {
          EachAppend(comType, Active(mapper[..dim], takesPart), mapper[dim]);
          vect := vect + [Phase(comType, mapper[dim])];
        } else {
          assert Active(mapper[..dim], takesPart) + [] == Active(mapper[..dim], takesPart);
        }
      }
      assert mapper[..|mapper|] == mapper;
      PlainPlan(comType, baseline, Active(mapper, takesPart));
    } else {
      vect := HierarchicalPhases(mapper, takesPart);
    }
  }

  predicate NoneFrom(mapper: seq<nat>, takesPart: set<nat>, a: nat, b: nat)
    requires b <= |mapper|
  {
    forall i :: a <= i < b ==> mapper[i] !in takesPart
  }

  lemma {:induction false} ActiveNone(mapper: seq<nat>, takesPart: set<nat>, a: nat, b: nat)
    requires a <= b <= |mapper| && NoneFrom(mapper, takesPart, a, b)
    ensures Active(mapper[..b], takesPart) == Active(mapper[..a], takesPart)
    decreases b
  {
    if a < b {
      ActiveNone(mapper, takesPart, a, b - 1);
      ActiveStep(mapper, takesPart, b - 1);
    }
  }

  // The last place of the mapper that takes part, or the first when none does.
  method LastActive(mapper: seq<nat>, takesPart: set<nat>) returns (last: nat)
    requires mapper != []
    ensures last < |mapper| && (last == 0 || mapper[last] in takesPart)
    ensures Active(mapper, takesPart) ==
            Active(mapper[..last], takesPart) + (if mapper[last] in takesPart then [mapper[last]] else [])
  {
    last := 0;
    for dim := 0 to |mapper|
      invariant last < |mapper| && (last == 0 || (last < dim && mapper[last] in takesPart))
      invariant NoneFrom(mapper, takesPart, last + 1, dim)
    {
      if mapper[dim] in takesPart { last := dim; }
    }
    ActiveNone(mapper, takesPart, last + 1, |mapper|);
    assert mapper[..|mapper|] == mapper;
    ActiveStep(mapper, takesPart, last);
  }

  method HierarchicalPhases(mapper: seq<nat>, takesPart: set<nat>) returns (vect: seq<Phase>)
    requires mapper != []
    ensures vect == Plan(AllReduce, false, Active(mapper, takesPart))
  {
    assert Active(mapper[..0], takesPart) == [] && Each(ReduceScatter, []) == [];
    hide Active, Each, Reverse;
    var last := LastActive(mapper, takesPart);
    vect := [];
    var dim: nat := 0;
    while dim < last
      invariant dim <= last && vect == Each(ReduceScatter, Active(mapper[..dim], takesPart))
    {
      ActiveStep(mapper, takesPart, dim);
      if mapper[dim] in takesPart {
        EachAppend(ReduceScatter, Active(mapper[..dim], takesPart), mapper[dim]);
        vect := vect + [Phase(ReduceScatter, mapper[dim])];
      } else {
        assert Active(mapper[..dim], takesPart) + [] == Active(mapper[..dim], takesPart);
      }
      dim := dim + 1;
    }
    ghost var dims := Active(mapper[..last], takesPart);
    // The source goes back to an active dimension here; it is already at one, or at the first.
    assert !(dim > 0 && mapper[dim] !in takesPart);
    if mapper[dim] !in takesPart {
      assert last == 0 && dims + [] == [];
      PlainPlan(AllReduce, false, []);
      return;
    }
    vect := vect + [Phase(AllReduce, mapper[dim])];
    var back := GatherPhases(mapper, takesPart, dim);
    vect := vect + back;
    assert (dims + [mapper[last]])[..|dims|] == dims;
  }

  // The gathers of the first n places, last one first.
  method GatherPhases(mapper: seq<nat>, takesPart: set<nat>, n: nat) returns (vect: seq<Phase>)
    requires n <= |mapper|
    ensures vect == Each(AllGather, Reverse(Active(mapper[..n], takesPart)))
  {
    assert Each(AllGather, Reverse(Active(mapper[..0], takesPart))) == [];
    hide Active, Each, Reverse;
    vect := [];
    ghost var want := Each(AllGather, Reverse(Active(mapper[..n], takesPart)));
    assert [] + want == want;
    var dim := n - 1;
    while dim >= 0
      invariant -1 <= dim < n
      invariant want == vect + Each(AllGather, Reverse(Active(mapper[..dim + 1], takesPart)))
      decreases dim
    {
      ghost var rest := Active(mapper[..dim], takesPart);
      ActiveStep(mapper, takesPart, dim);
      if mapper[dim] in takesPart {
        ReverseAppend(rest, mapper[dim]);
        EachConcat(AllGather, [mapper[dim]], Reverse(rest));
        EachOne(AllGather, mapper[dim]);
        vect := vect + [Phase(AllGather, mapper[dim])];
      } else {
        assert rest + [] == rest;
      }
      dim := dim - 1;
    }
  }

  lemma EachOne(comType: ComType, d: nat)
    ensures Each(comType, [d]) == [Phase(comType, d)]
  {
    assert [d][..0] == [];
  }

  // ---------- a collective ----------

  datatype Policy = Ascending | RoundRobin

  datatype Stream = Stream(number: nat, bytes: nat, phases: seq<Phase>)

  function Iota(d: nat): seq<nat> { if d == 0 then [] else Iota(d - 1) + [d - 1] }

  function Rotate(xs: seq<nat>, k: nat): seq<nat>
    requires k <= |xs|
  {
    xs[k..] + xs[..k]
  }

  lemma {:induction false} IotaAt(d: nat)
    ensures |Iota(d)| == d && forall i :: 0 <= i < d ==> Iota(d)[i] == i
    decreases d
  {
    if d > 0 { IotaAt(d - 1); }
  }

  function Order(d: nat, comType: ComType): seq<nat> {
    if comType == AllGather then Reverse(Iota(d)) else Iota(d)
  }

  // The order of the dimensions for the k-th chunk of a collective.
  function Mapper(d: nat, comType: ComType, policy: Policy, start: nat, k: nat): seq<nat>
    requires d > 0
  {
    if policy == RoundRobin then
      OrderAt(d, comType);
      Rotate(Order(d, comType), (start + k) % d)
    else Order(d, comType)
  }

  lemma OrderAt(d: nat, comType: ComType)
    ensures |Order(d, comType)| == d
    ensures forall i :: 0 <= i < d ==> Order(d, comType)[i] == if comType == AllGather then d - 1 - i else i
  {
    IotaAt(d);
    ReverseAt(Iota(d));
  }

  lemma FirstOf(d: nat, comType: ComType, start: nat, k: nat, dim: nat)
    requires d > 0 && dim < d
    ensures FirstIs(d, comType, start, k, dim) <==> (start + k) % d == if comType == AllGather then d - 1 - dim else dim
  {
    OrderAt(d, comType);
  }

  predicate FirstIs(d: nat, comType: ComType, start: nat, k: nat, dim: nat)
    requires d > 0
  {
    OrderAt(d, comType);
    Mapper(d, comType, RoundRobin, start, k)[0] == dim
  }

  // Round robin is fair: in any d chunks that follow each other every dimension comes first exactly once.
  lemma RoundRobinFair(d: nat, comType: ComType, start: nat, k: nat, dim: nat)
    requires d > 0 && dim < d
    ensures exists j :: k <= j < k + d && FirstIs(d, comType, start, j, dim)
    ensures forall i, j :: (k <= i < j < k + d && FirstIs(d, comType, start, i, dim)) ==>
                           !FirstIs(d, comType, start, j, dim)
  {
    hide FirstIs;
    var place := if comType == AllGather then d - 1 - dim else dim;
    var j := Reaches(d, start, k, place);
    FirstOf(d, comType, start, j, dim);
    forall i, l | k <= i < l < k + d && FirstIs(d, comType, start, i, dim)
      ensures !FirstIs(d, comType, start, l, dim)
    {
      FirstOf(d, comType, start, i, dim);
      FirstOf(d, comType, start, l, dim);
      SameRemainder(start + i, start + l, d);
    }
  }

  lemma Reaches(d: nat, start: nat, k: nat, place: nat) returns (j: nat)
    requires place < d
    ensures k <= j < k + d && (start + j) % d == place
  {
    var q, x := (start + k) / d, (start + k) % d;
    assert start + k == q * d + x;
    if place >= x {
      j := k + place - x;
      QuotientIs(start + j, d, q);
    } else {
      j := k + place - x + d;
      assert (q + 1) * d == q * d + d;
      QuotientIs(start + j, d, q + 1);
    }
  }

  lemma SameRemainder(a: nat, b: nat, d: nat)
    requires d > 0 && a < b < a + d
    ensures a % d != b % d
  {
    var q, r := a / d, a % d;
    assert a == q * d + r;
    if b < q * d + d {
      QuotientIs(b, d, q);
    } else {
      assert (q + 1) * d == q * d + d;
      QuotientIs(b, d, q + 1);
    }
  }

  // What is common to the chunks of a collective: the number of its first stream, the number of dimensions, the
  // kind, the policies, where round robin starts, and the dimensions with other nodes that are involved.
  datatype Job = Job(number: nat, d: nat, comType: ComType, baseline: bool, policy: Policy, start: nat,
                     takesPart: set<nat>)
  {
    predicate Valid() { d > 0 && forall x <- takesPart :: x < d }

    function PlanOf(k: nat): seq<Phase>
      requires Valid()
    {
      Plan(comType, baseline, Active(Mapper(d, comType, policy, start, k), takesPart))
    }

    // The stream of the k-th chunk.
    function StreamOf(k: nat, bytes: nat): Stream
      requires Valid()
    {
      Stream(number + k, bytes, PlanOf(k))
    }
  }

  // The streams of the chunks.
  function Made(job: Job, sizes: seq<nat>): seq<Stream>
    requires job.Valid()
    decreases |sizes|
  {
    if sizes == [] then []
    else Made(job, sizes[..|sizes| - 1]) + [job.StreamOf(|sizes| - 1, sizes[|sizes| - 1])]
  }

  lemma NoStreams(job: Job)
    requires job.Valid()
    ensures Made(job, []) == []
  {
  }

  lemma MadeStep(job: Job, sizes: seq<nat>, next: nat)
    requires job.Valid()
    ensures Made(job, sizes + [next]) == Made(job, sizes) + [job.StreamOf(|sizes|, next)]
  {
    assert (sizes + [next])[..|sizes|] == sizes;
  }

  class Sys {
    const preferredDatasetSplits: nat
    const policy: Policy
    const baseline: bool
    var roundRobin: nat
    var streamCounter: nat
    var streamsInjected: nat
    // The streams made so far, in the order they go to the ready list.
    var streams: seq<Stream>

    constructor (splits: nat, policy: Policy, baseline: bool)
      ensures preferredDatasetSplits == splits && this.policy == policy && this.baseline == baseline
      ensures roundRobin == 0 && streamCounter == 0 && streamsInjected == 0 && streams == []
    {
      preferredDatasetSplits, this.policy, this.baseline := splits, policy, baseline;
      roundRobin, streamCounter, streamsInjected, streams := 0, 0, 0, [];
    }

    function JobOf(comType: ComType, d: nat, takesPart: set<nat>): Job
      reads this
    {
      Job(streamCounter, d, comType, baseline, policy, roundRobin, takesPart)
    }

    ghost predicate At(job: Job, count: nat)
      requires job.Valid()
      reads this
    {
      && job.baseline == baseline && job.policy == policy && streamCounter == job.number + count
      && roundRobin < job.d
      && roundRobin == if policy == RoundRobin then (job.start + count) % job.d else job.start
    }

    // With no dimension that takes part the data set of a collective is not active and nothing is made.  Otherwise
    // the streams are those of all chunks, and the data set waits for as many as there are.
    method GenerateCollective(size: nat, comType: ComType, d: nat, takesPart: set<nat>) returns (dataset: DataSet)
      requires preferredDatasetSplits > 0 && LoopGuard(size, preferredDatasetSplits, takesPart)
      requires roundRobin < d && JobOf(comType, d, takesPart).Valid()
      modifies this
      ensures fresh(dataset) && dataset.Valid() && dataset.View() == Start(dataset.totalStreams) && roundRobin < d
      ensures dataset.active <==> size == 0 || takesPart != {}
      ensures !dataset.active ==> streams == old(streams) && streamsInjected == old(streamsInjected)
      ensures dataset.active ==>
        && (ChunkSize(size, preferredDatasetSplits) > 0 || size == 0)
        && dataset.totalStreams == Streams(size, ChunkSize(size, preferredDatasetSplits))
        && streams == old(streams) + Made(old(JobOf(comType, d, takesPart)),
                                          Chunks(size, ChunkSize(size, preferredDatasetSplits)))
        && streamsInjected == old(streamsInjected) + dataset.totalStreams
        && streamCounter == old(streamCounter) + dataset.totalStreams
    {
      hide Made, Div, Streams, Sum, Chunks;
      var chunkSize: nat := ChunkSize(size, preferredDatasetSplits);
      if size >= preferredDatasetSplits { ChunkCount(size, preferredDatasetSplits); }
      // With chunks of no bytes the source converts a quotient by zero: any number of streams.
      var total: nat := *;
      if chunkSize > 0 || size == 0 {
        ChunksCover(size, chunkSize);
        total := Streams(size, chunkSize);
      }
      dataset := new DataSet(total);
      var count, made := MakeStreams(size, chunkSize, comType, d, takesPart);
      if made {
        streamsInjected := streamsInjected + count;
        dataset.totalStreams := count;
      } else {
        dataset.active := false;
      }
    }

    // The streams of all chunks, until one has no phases: the rounds of the loop, to its end.
    method MakeStreams(size: nat, chunk: nat, comType: ComType, d: nat, takesPart: set<nat>)
        returns (count: nat, made: bool)
      requires (chunk > 0 || size == 0 || takesPart == {}) && roundRobin < d && JobOf(comType, d, takesPart).Valid()
      modifies this`roundRobin, this`streamCounter, this`streams
      ensures exists n: nat :: EndsWith(size, chunk, takesPart, n, made, count)
      ensures made <==> size == 0 || takesPart != {}
      ensures roundRobin < d && (!made ==> streams == old(streams))
      ensures made ==>
        && (chunk > 0 || size == 0) && count == |Chunks(size, chunk)| && streamCounter == old(streamCounter) + count
        && streams == old(streams) + Made(old(JobOf(comType, d, takesPart)), Chunks(size, chunk))
    {
      hide Made;
      ghost var job := JobOf(comType, d, takesPart);
      ghost var base := streams;
      ghost var start := Loop(size, chunk, [], true);
      ghost var done: seq<nat> := [];
      NoStreams(job);
      assert At(job, 0) by { if policy == RoundRobin { Small(roundRobin, d); } }
      var left: nat, chunkSize: nat := size, chunk;
      count, made := 0, true;
      while left > 0
        invariant Rounds(start, takesPart != {}, count) == Loop(left, chunkSize, done, true) && count == |done|
        invariant chunkSize > 0 || left == 0 || takesPart == {}
        invariant streams == base + Made(job, done) && At(job, count)
        invariant (left < size ==> takesPart != {}) && (left == size ==> done == [])
        decreases left
      {
        RoundsNext(start, takesPart != {}, count);
        chunkSize := if chunkSize < left then chunkSize else left;
        left := left - chunkSize;
        made := MakeStream(comType, d, takesPart, chunkSize, job, done, base);
        if !made {
          assert EndsWith(size, chunk, takesPart, count + 1, made, count);
          return;
        }
        count := count + 1;
        done := done + [chunkSize];
      }
      assert EndsWith(size, chunk, takesPart, count, made, count);
      if size > 0 {
        RoundsMade(start, count);
        assert done + Chunks(0, chunkSize) == done && [] + Chunks(size, chunk) == Chunks(size, chunk);
      }
    }

    // The stream of one chunk, when it has any phases.
    method MakeStream(comType: ComType, d: nat, takesPart: set<nat>, chunkSize: nat,
                      ghost job: Job, ghost done: seq<nat>, ghost base: seq<Stream>) returns (made: bool)
      requires job.Valid() && job.comType == comType && job.d == d && job.takesPart == takesPart
      requires At(job, |done|) && streams == base + Made(job, done)
      modifies this`roundRobin, this`streamCounter, this`streams
      ensures made <==> takesPart != {}
      ensures made ==> At(job, |done| + 1) && streams == base + Made(job, done + [chunkSize])
      ensures !made ==> streams == old(streams) && roundRobin < d
    {
      hide Made, Mapper, Plan, Active;
      var dimMapper := NextMapper(d, comType, |done|, job.start);
      var vect := ChunkPhases(comType, baseline, dimMapper, takesPart);
      PlanEmpty(job, |done|);
      MadeStep(job, done, chunkSize);
      made := |vect| > 0;
      if made {
        streams := streams + [Stream(streamCounter, chunkSize, vect)];
        streamCounter := streamCounter + 1;
      }
    }

    // The dimensions of the next chunk; round robin moves on to the next start.
    method NextMapper(d: nat, comType: ComType, ghost count: nat, ghost start: nat) returns (dimMapper: seq<nat>)
      requires roundRobin < d && roundRobin == if policy == RoundRobin then (start + count) % d else start
      modifies this`roundRobin
      ensures dimMapper == Mapper(d, comType, policy, start, count) && dimMapper != []
      ensures roundRobin < d && roundRobin == if policy == RoundRobin then (start + (count + 1)) % d else start
    {
      OrderAt(d, comType);
      dimMapper := Iota(d);
      if comType == AllGather {
        dimMapper := Reverse(dimMapper);
      }
      if policy == RoundRobin {
        dimMapper := dimMapper[roundRobin..] + dimMapper[..roundRobin];
        NextRemainder(start + count, d);
        roundRobin := roundRobin + 1;
        if roundRobin == d {
          roundRobin := 0;
        }
      }
    }
  }

  lemma NextRemainder(x: nat, d: nat)
    requires d > 0
    ensures (x + 1) % d == if x % d + 1 == d then 0 else x % d + 1
  {
    var q, r := x / d, x % d;
    assert x == q * d + r;
    if r + 1 == d {
      assert (q + 1) * d == q * d + d;
      QuotientIs(x + 1, d, q + 1);
    } else {
      QuotientIs(x + 1, d, q);
    }
  }

  lemma {:induction false} ActiveEmpty(mapper: seq<nat>, takesPart: set<nat>)
    ensures Active(mapper, takesPart) == [] <==> forall d <- mapper :: d !in takesPart
    decreases |mapper|
  {
    if mapper != [] {
      var n := |mapper| - 1;
      ActiveEmpty(mapper[..n], takesPart);
      assert mapper == mapper[..n] + [mapper[n]];
    }
  }

  // A chunk has no phases exactly when no dimension takes part.
  lemma PlanEmpty(job: Job, k: nat)
    requires job.Valid()
    ensures job.PlanOf(k) == [] <==> job.takesPart == {}
  {
    hide Active;
    var d := job.d;
    var mapper := Mapper(d, job.comType, job.policy, job.start, k);
    var dims := Active(mapper, job.takesPart);
    ActiveEmpty(mapper, job.takesPart);
    EachAt(job.comType, dims);
    OrderAt(d, job.comType);
    forall x | 0 <= x < d
      ensures x in mapper
    {
      var order := Order(d, job.comType);
      assert order[if job.comType == AllGather then d - 1 - x else x] == x;
      if job.policy == RoundRobin { assert order == order[..(job.start + k) % d] + order[(job.start + k) % d..]; }
    }
    forall x <- mapper
      ensures x < d
    {
    }
  }
}
