/**
  The messages of the ZeRO-3 generator one by one: what an all-gather takes from the queue and where it stops, and how
  much a reduce-scatter holds.
*/
module Zero3Messages {
  import opened Zero3Model
  import opened Zero3Safety
  import opened Zero3Results

  // ---------- what the entries of the queue add ----------

  datatype Amount = Count | Elements | Bytes
  {
    function Of(p: Param): nat {
      match this
      case Count => 1
      case Elements => p.numel
      case Bytes => p.MsgSize()
    }
  }

  ghost predicate Known(cfg: Cfg, g: seq<bool>, q: seq<Use>) { |g| == cfg.N() && forall u <- q :: u.param < cfg.N() }

  // What the first j entries of a queue bring: each of their parameters that is not gathered yet, once.
  function Brings(cfg: Cfg, m: Amount, g: seq<bool>, q: seq<Use>, j: nat): nat
    requires Known(cfg, g, q) && j <= |q|
    decreases j
  {
    if j == 0 then 0
    else
      var p := q[0].param;
      (if g[p] then 0 else m.Of(cfg.params[p])) + Brings(cfg, m, g[p := true], q[1..], j - 1)
  }

  // The prefetch stops after j entries: not before, and not later.
  ghost predicate StopsAfter(cfg: Cfg, live: int, numel: nat, g: seq<bool>, q: seq<Use>, j: nat)
    requires Known(cfg, g, q)
  {
    && j <= |q|
    && (forall i :: 0 <= i < j ==> Below(cfg, live, numel, g, q, i))
    && (j < |q| ==> !Below(cfg, live, numel, g, q, j))
  }

  // With i entries taken, the message and the live elements are both below their limits.
  ghost predicate Below(cfg: Cfg, live: int, numel: nat, g: seq<bool>, q: seq<Use>, i: nat)
    requires Known(cfg, g, q) && i <= |q|
  {
    var more := Brings(cfg, Elements, g, q, i);
    numel + more < cfg.prefetchBucketSize && live + more < cfg.maxLive
  }

  ghost predicate Takes(cfg: Cfg, st: St, b: Batch, j: nat, s: St, c: Batch)
    requires Sized(cfg, st)
  {
    var g, q := st.gathered, st.queue;
    && StopsAfter(cfg, st.live, b.numel, g, q, j)
    && s.queue == q[j..]
    && s.live == st.live + Brings(cfg, Elements, g, q, j)
    && c.numel == b.numel + Brings(cfg, Elements, g, q, j)
    && c.bytes == b.bytes + Brings(cfg, Bytes, g, q, j)
    && c.count == b.count + Brings(cfg, Count, g, q, j)
    && Fetched(g, s.gathered, q, j)
  }

  // The parameters of the first j entries are gathered too.
  ghost predicate Fetched(g: seq<bool>, h: seq<bool>, q: seq<Use>, j: nat)
    requires j <= |q|
  {
    |h| == |g| && forall p :: 0 <= p < |g| ==> (h[p] <==> g[p] || exists i :: 0 <= i < j && q[i].param == p)
  }

  lemma BringsNext(cfg: Cfg, m: Amount, g: seq<bool>, q: seq<Use>, j: nat)
    requires Known(cfg, g, q) && 0 < j <= |q|
    ensures Known(cfg, g[q[0].param := true], q[1..])
    ensures Brings(cfg, m, g, q, j) ==
            (if g[q[0].param] then 0 else m.Of(cfg.params[q[0].param]))
            + Brings(cfg, m, g[q[0].param := true], q[1..], j - 1)
  {
  }

  lemma {:induction false} PrefetchTakes(cfg: Cfg, st: St, b: Batch) returns (j: nat)
    requires Sized(cfg, st)
    ensures j <= |st.queue| && Takes(cfg, st, b, j, Prefetch(cfg, st, b).0, Prefetch(cfg, st, b).1)
    decreases |st.queue|
  {
    var g, q := st.gathered, st.queue;
    if MayPrefetch(cfg, st, b) {
      var t, c := PrefetchOne(cfg, st), BatchOne(cfg, st, b);
      var i := PrefetchTakes(cfg, t, c);
      j := i + 1;
      OneTaken(cfg, st, b, i, Prefetch(cfg, t, c).0, Prefetch(cfg, t, c).1);
    } else {
      j := 0;
    }
  }

  lemma OneTaken(cfg: Cfg, st: St, b: Batch, i: nat, s: St, c: Batch)
    requires Sized(cfg, st) && MayPrefetch(cfg, st, b)
    requires Takes(cfg, PrefetchOne(cfg, st), BatchOne(cfg, st, b), i, s, c)
    ensures Takes(cfg, st, b, i + 1, s, c)
  {
    hide Brings;
    var g, q := st.gathered, st.queue;
    var t := PrefetchOne(cfg, st);
    assert t.gathered == g[q[0].param := true] && t.queue == q[1..];
    BringsNext(cfg, Elements, g, q, i + 1);
    BringsNext(cfg, Bytes, g, q, i + 1);
    BringsNext(cfg, Count, g, q, i + 1);
    BringsNone(cfg, g, q);
    forall k | 0 <= k < i + 1
      ensures Below(cfg, st.live, b.numel, g, q, k)
    {
      if k > 0 {
        BringsNext(cfg, Elements, g, q, k);
        assert Below(cfg, t.live, BatchOne(cfg, st, b).numel, t.gathered, t.queue, k - 1);
      }
    }
    assert q[1..][i..] == q[i + 1..];
    FetchedNext(g, s.gathered, q, i);
  }

  lemma FetchedNext(g: seq<bool>, h: seq<bool>, q: seq<Use>, i: nat)
    requires i < |q| && q[0].param < |g| && Fetched(g[q[0].param := true], h, q[1..], i)
    ensures Fetched(g, h, q, i + 1)
  {
    forall p | 0 <= p < |g|
      ensures h[p] <==> g[p] || exists k :: 0 <= k < i + 1 && q[k].param == p
    {
      if k :| 0 <= k < i && q[1..][k].param == p { assert q[k + 1].param == p; }
      if k :| 0 < k < i + 1 && q[k].param == p { assert q[1..][k - 1].param == p; }
    }
  }

  // ---------- the message of one use ----------

  // The entries behind the one of the parameter in use.
  function Behind(st: St, p: nat): seq<Use>
    requires p < |st.gathered| && st.queue != []
  {
    if st.gathered[p] then st.queue else st.queue[1..]
  }

  function Own(cfg: Cfg, st: St, m: Amount, p: nat): nat
    requires p < cfg.N() == |st.gathered|
  {
    if st.gathered[p] then 0 else m.Of(cfg.params[p])
  }

  // What gathering parameter p from a queue does, for any limits and persistent set: it takes its own entry when it is
  // not gathered, and then entries until none is left, or the message has reached the prefetch size, or the live
  // elements have reached their limit, and not after that; all that was not gathered before goes into one message.
  lemma GatherTakes(cfg: Cfg, st: St, p: nat) returns (j: nat)
    requires Sized(cfg, st) && p < cfg.N() && st.queue != []
    ensures j <= |Behind(st, p)|
    ensures var q, g := Behind(st, p), st.gathered[p := true];
            var s, n := Gather(cfg, st, p), Own(cfg, st, Elements, p);
            && Known(cfg, g, q) && StopsAfter(cfg, st.live + n, n, g, q, j)
            && s.queue == q[j..] && Fetched(g, s.gathered, q, j)
            && s.live == st.live + n + Brings(cfg, Elements, g, q, j)
            && s.log == st.log + if Own(cfg, st, Count, p) + Brings(cfg, Count, g, q, j) == 0 then []
                                 else [AllGather(Own(cfg, st, Bytes, p) + Brings(cfg, Bytes, g, q, j))]
  {
    hide Prefetch, Brings, StopsAfter, Fetched, OrderFrom;
    var none := Batch(0, 0, 0);
    var s0, b0 := st, none;
    if !st.gathered[p] { s0, b0 := PopCurrent(cfg, st, p), none.Add(cfg.params[p]); }
    assert s0.gathered == st.gathered[p := true] && s0.queue == Behind(st, p);
    j := PrefetchTakes(cfg, s0, b0);
    PrefetchLog(cfg, s0, b0);
  }

  // ---------- the size of a message ----------

  lemma {:induction false} BringsLast(cfg: Cfg, m: Amount, g: seq<bool>, q: seq<Use>, j: nat)
    requires Known(cfg, g, q) && 0 < j <= |q|
    ensures Brings(cfg, m, g, q, j - 1) <= Brings(cfg, m, g, q, j)
    ensures exists p: nat :: p < cfg.N() && Brings(cfg, m, g, q, j) <= Brings(cfg, m, g, q, j - 1) + m.Of(cfg.params[p])
    decreases j
  {
    BringsNext(cfg, m, g, q, j);
    if j == 1 {
      BringsNone(cfg, g, q);
      BringsNone(cfg, g[q[0].param := true], q[1..]);
      var p: nat := q[0].param;
      assert q[0] in q && Brings(cfg, m, g, q, 1) <= Brings(cfg, m, g, q, 0) + m.Of(cfg.params[p]);
    } else {
      BringsNext(cfg, m, g, q, j - 1);
      BringsLast(cfg, m, g[q[0].param := true], q[1..], j - 1);
    }
  }

  lemma {:induction false} BringsBytes(cfg: Cfg, g: seq<bool>, q: seq<Use>, j: nat)
    requires Known(cfg, g, q) && j <= |q| && TwoBytes(cfg)
    ensures Brings(cfg, Bytes, g, q, j) == 2 * Brings(cfg, Elements, g, q, j)
    decreases j
  {
    if j > 0 {
      BringsNext(cfg, Bytes, g, q, j);
      BringsNext(cfg, Elements, g, q, j);
      BringsBytes(cfg, g[q[0].param := true], q[1..], j - 1);
      assert q[0] in q;
    }
  }

  // A message is of one parameter, or of fewer elements than the prefetch size and the largest parameter together.
  ghost predicate GatherOk(cfg: Cfg, bytes: nat) {
    || bytes < 2 * (cfg.prefetchBucketSize + Largest(cfg.params))
    || exists p: nat :: p < cfg.N() && bytes == cfg.params[p].MsgSize()
  }

  // A reduce-scatter is within the bucket size, or of one parameter, or of nothing.
  ghost predicate HoldsOk(cfg: Cfg, elements: nat) {
    elements <= cfg.reduceBucketSize || elements == 0 || exists p: nat :: p < cfg.N() && elements == cfg.params[p].numel
  }

  ghost predicate ItemOk(cfg: Cfg, x: Item) {
    match x
    case AllGather(n) => GatherOk(cfg, n)
    case ReduceScatter(n) => n % 2 == 0 && HoldsOk(cfg, n / 2)
    case AllReduce(n) => n in {1, 8}
  }

  ghost predicate MessagesOk(cfg: Cfg, st: St) { HoldsOk(cfg, st.bucket) && forall x <- st.log :: ItemOk(cfg, x) }

  lemma TakenOk(cfg: Cfg, st: St, p: nat, j: nat)
    requires Sized(cfg, st) && p < cfg.N() && st.queue != [] && TwoBytes(cfg)
    requires Known(cfg, st.gathered[p := true], Behind(st, p)) && j <= |Behind(st, p)|
    requires StopsAfter(cfg, st.live + Own(cfg, st, Elements, p), Own(cfg, st, Elements, p), st.gathered[p := true],
                        Behind(st, p), j)
    requires Own(cfg, st, Count, p) + Brings(cfg, Count, st.gathered[p := true], Behind(st, p), j) > 0
    ensures GatherOk(cfg, Own(cfg, st, Bytes, p) + Brings(cfg, Bytes, st.gathered[p := true], Behind(st, p), j))
  {
    hide Brings, Largest;
    var q, g, n := Behind(st, p), st.gathered[p := true], Own(cfg, st, Elements, p);
    BringsBytes(cfg, g, q, j);
    if j == 0 {
      BringsNone(cfg, g, q);
      assert Own(cfg, st, Bytes, p) == cfg.params[p].MsgSize();
    } else {
      assert Below(cfg, st.live + n, n, g, q, j - 1);
      BringsLast(cfg, Elements, g, q, j);
      var more := Brings(cfg, Elements, g, q, j - 1);
      var x: nat :| x < cfg.N() && Brings(cfg, Elements, g, q, j) <= more + cfg.params[x].numel;
      LargestBound(cfg.params, x);
    }
  }

  lemma GatherMessages(cfg: Cfg, st: St, p: nat)
    requires Sized(cfg, st) && p < cfg.N() && TwoBytes(cfg) && MessagesOk(cfg, st)
    ensures MessagesOk(cfg, Gather(cfg, st, p))
  {
    hide Brings, StopsAfter, Fetched, Prefetch, HoldsOk, Largest;
    if st.queue == [] {
      assert GatherOk(cfg, cfg.params[p].MsgSize());
    } else {
      var j := GatherTakes(cfg, st, p);
      GatherBucket(cfg, st, p);
      if Own(cfg, st, Count, p) + Brings(cfg, Count, st.gathered[p := true], Behind(st, p), j) > 0 {
        TakenOk(cfg, st, p, j);
      }
    }
  }

  lemma GatherBucket(cfg: Cfg, st: St, p: nat)
    requires Sized(cfg, st) && p < cfg.N()
    ensures Gather(cfg, st, p).bucket == st.bucket
  {
    hide Prefetch;
    if st.queue != [] {
      var none := Batch(0, 0, 0);
      if st.gathered[p] {
        PrefetchLog(cfg, st, none);
      } else {
        PrefetchLog(cfg, PopCurrent(cfg, st, p), none.Add(cfg.params[p]));
      }
    }
  }

  lemma ReduceMessages(cfg: Cfg, st: St, p: nat)
    requires p < cfg.N() && TwoBytes(cfg) && MessagesOk(cfg, st)
    ensures MessagesOk(cfg, ReduceWithBucket(cfg, st, p))
  {
    assert HoldsOk(cfg, cfg.params[p].numel);
  }

  lemma UseMessages(cfg: Cfg, st: St, k: nat)
    requires Sized(cfg, st) && k < 2 * cfg.N() && TwoBytes(cfg) && MessagesOk(cfg, st)
    ensures MessagesOk(cfg, UseParam(cfg, st, k))
  {
    hide Gather, MessagesOk, ReduceWithBucket;
    var p := ParamAt(cfg.N(), k);
    GatherMessages(cfg, st, p);
    var s := Partition(cfg, Gather(cfg, st, p), p, k);
    LogAndBucket(cfg, Gather(cfg, st, p), s);
    ReduceMessages(cfg, s, p);
  }

  lemma LogAndBucket(cfg: Cfg, st: St, s: St)
    requires MessagesOk(cfg, st) && s.log == st.log && s.bucket == st.bucket
    ensures MessagesOk(cfg, s)
  {
  }

  lemma {:induction false} UsesMessages(cfg: Cfg, st: St, lo: nat, hi: nat)
    requires Sized(cfg, st) && lo <= hi <= 2 * cfg.N() && TwoBytes(cfg) && MessagesOk(cfg, st)
    ensures MessagesOk(cfg, Uses(cfg, st, lo, hi))
    decreases hi
  {
    hide MessagesOk, UseParam;
    if lo < hi {
      UsesMessages(cfg, st, lo, hi - 1);
      UseMessages(cfg, Uses(cfg, st, lo, hi - 1), hi - 1);
    }
  }

  lemma {:induction false} PersistentMessages(cfg: Cfg, st: St, p: nat)
    requires Sized(cfg, st) && p <= cfg.N() && TwoBytes(cfg) && MessagesOk(cfg, st)
    ensures MessagesOk(cfg, GatherPersistent(cfg, st, p))
  {
    hide Largest, HoldsOk;
    if p > 0 {
      PersistentMessages(cfg, st, p - 1);
      assert GatherOk(cfg, cfg.params[p - 1].MsgSize());
    }
  }

  lemma StepMessages(cfg: Cfg, st: St)
    requires Sized(cfg, st) && TwoBytes(cfg) && MessagesOk(cfg, st)
    ensures MessagesOk(cfg, Step(cfg, st))
  {
    hide Largest, GatherPersistent;
    var s := st.(log := st.log + [ReduceScatter(st.bucket * 2), AllReduce(1), AllReduce(8)], bucket := 0,
                 gathered := seq(cfg.N(), _ => false), live := 0);
    assert st.bucket * 2 / 2 == st.bucket;
    PersistentMessages(cfg, s, cfg.N());
  }

  // In every run of phases in any order, persistent parameters included, with two-byte elements: every all-gather is
  // of one parameter or of fewer elements than the prefetch size and the largest parameter together, and every reduce-
  // scatter is within the bucket size, or of one parameter, or empty.
  lemma {:induction false} RunMessages(cfg: Cfg, phases: seq<Phase>)
    requires cfg.Valid() && TwoBytes(cfg)
    ensures MessagesOk(cfg, RunAll(cfg, Init(cfg), phases))
  {
    hide MessagesOk, Uses, Step;
    if phases == [] {
      InitMessages(cfg);
    } else {
      var rest := phases[..|phases| - 1];
      RunMessages(cfg, rest);
      var st := RunAll(cfg, Init(cfg), rest);
      match phases[|phases| - 1]
      case ForwardPhase => UsesMessages(cfg, st, 0, cfg.N());
      case BackwardPhase =>
        UsesMessages(cfg, st, cfg.N(), 2 * cfg.N());
        LogAndBucket(cfg, Uses(cfg, st, cfg.N(), 2 * cfg.N()), Backward(cfg, st));
      case StepPhase => StepMessages(cfg, st);
    }
  }

  lemma InitMessages(cfg: Cfg)
    requires cfg.Valid()
    ensures MessagesOk(cfg, Init(cfg))
  {
  }

  // ---------- when a reduce-scatter is sent ----------

  function Scatters(log: seq<Item>): seq<Item> {
    if log == [] then []
    else Scatters(log[..|log| - 1]) + if log[|log| - 1].ReduceScatter? then [log[|log| - 1]] else []
  }

  lemma ScattersAppend(log: seq<Item>, x: Item)
    ensures Scatters(log + [x]) == Scatters(log) + if x.ReduceScatter? then [x] else []
  {
    assert (log + [x])[..|log|] == log;
  }

  lemma GatherScatters(cfg: Cfg, st: St, p: nat)
    requires Sized(cfg, st) && p < cfg.N()
    ensures Scatters(Gather(cfg, st, p).log) == Scatters(st.log)
  {
    hide Scatters, Prefetch, Brings, StopsAfter, Fetched;
    if st.queue == [] {
      ScattersAppend(st.log, AllGather(cfg.params[p].MsgSize()));
    } else {
      var j := GatherTakes(cfg, st, p);
      var more := Brings(cfg, Bytes, st.gathered[p := true], Behind(st, p), j);
      ScattersAppend(st.log, AllGather(Own(cfg, st, Bytes, p) + more));
      assert st.log + [] == st.log;
    }
  }

  // A use of the backward pass sends the bucket, all of it, exactly when its own gradient does not fit any more; none
  // is sent in the forward pass.  Nothing of a gradient is lost.
  lemma SendsWhenFull(cfg: Cfg, st: St, k: nat)
    requires Sized(cfg, st) && k < 2 * cfg.N()
    ensures var s, p := UseParam(cfg, st, k), cfg.params[ParamAt(cfg.N(), k)];
            if k < cfg.N() then Scatters(s.log) == Scatters(st.log) && s.bucket == st.bucket
            else if st.bucket + p.numel <= cfg.reduceBucketSize then
              Scatters(s.log) == Scatters(st.log) && s.bucket == st.bucket + p.numel
            else Scatters(s.log) == Scatters(st.log) + [ReduceScatter(st.bucket * p.elemSize)] && s.bucket == p.numel
  {
    hide Scatters, Gather;
    var p := ParamAt(cfg.N(), k);
    GatherBucket(cfg, st, p);
    GatherScatters(cfg, st, p);
    var g := Gather(cfg, st, p);
    ScattersAppend(g.log, ReduceScatter(g.bucket * cfg.params[p].elemSize));
  }

  lemma BringsNone(cfg: Cfg, g: seq<bool>, q: seq<Use>)
    requires Known(cfg, g, q)
    ensures forall m :: Brings(cfg, m, g, q, 0) == 0
  {
  }
}
