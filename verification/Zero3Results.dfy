/**
  The results about whole passes and whole runs of the ZeRO-3 generator.
*/
module Zero3Results {
  import opened Zero3Model
  import opened Zero3Safety

  lemma {:induction false} UsesSplit(cfg: Cfg, st: St, mid: nat, hi: nat)
    requires Sized(cfg, st) && mid <= hi <= 2 * cfg.N()
    ensures Uses(cfg, st, 0, hi) == Uses(cfg, Uses(cfg, st, 0, mid), mid, hi)
    decreases hi
  {
    hide UseParam;
    if mid < hi { UsesSplit(cfg, st, mid, hi - 1); }
  }

  // Where a pass may start: nothing is gathered, and the queue is either not there yet or just refilled.
  ghost predicate PassStart(cfg: Cfg, st: St) {
    && NoPersistent(cfg) && Accounted(cfg, st, 0)
    && (forall p :: 0 <= p < cfg.N() ==> !st.gathered[p])
    && !st.mismatched && 0 <= st.peak
    && (cfg.maxLive >= 1 ==> st.peak < PeakBound(cfg))
    && (st.queue == [] || (st.queue == OrderFrom(cfg.N(), 0) && st.recent == map[]))
  }

  lemma InitPassStart(cfg: Cfg)
    requires NoPersistent(cfg)
    ensures PassStart(cfg, Init(cfg))
  {
    InitAccounted(cfg);
  }

  lemma PassEntry(cfg: Cfg, st: St)
    requires PassStart(cfg, st)
    ensures Core(cfg, st, st.gathers, 0) && Mode(cfg, st, 0)
  {
    hide LiveSum, GatherSum, GatherBytes, Largest;
    NoneLive(cfg.params, st.gathered, cfg.N());
    if st.queue != [] {
      assert cfg.N() > 0;
      assert Win(cfg, st, 0, 0, 0);
    }
  }

  lemma {:induction false} UsesKeep(cfg: Cfg, st: St, k: nat)
    requires PassStart(cfg, st) && k <= 2 * cfg.N()
    ensures var s := Uses(cfg, st, 0, k);
            Core(cfg, s, st.gathers, k) && Mode(cfg, s, k) && Accounted(cfg, s, 0)
  {
    hide Core, Mode, Accounted, UseParam;
    if k == 0 {
      PassEntry(cfg, st);
      StartAccounted(cfg, st);
    } else {
      StartAccounted(cfg, st);
      UsesKeep(cfg, st, k - 1);
      UseKeeps(cfg, Uses(cfg, st, 0, k - 1), st.gathers, k - 1);
    }
  }

  lemma StartAccounted(cfg: Cfg, st: St)
    requires PassStart(cfg, st)
    ensures Accounted(cfg, st, 0) && Sized(cfg, st)
  {
    hide LiveSum, GatherSum, GatherBytes;
  }

  // The sliding window: before use k of a pass with a queue, the queue stands at some entry q, and exactly the
  // parameters of the entries k .. q - 1, already popped and not used yet, are gathered.
  lemma SlidingWindow(cfg: Cfg, st: St, k: nat) returns (q: nat)
    requires PassStart(cfg, st) && k < 2 * cfg.N()
    requires Uses(cfg, st, 0, k).queue != []
    ensures k <= q < 2 * cfg.N()
    ensures var s := Uses(cfg, st, 0, k);
            && s.queue == OrderFrom(cfg.N(), q)
            && forall p: nat :: p < cfg.N() ==>
                 (s.gathered[p] <==> exists t: nat :: k <= t < q && ParamAt(cfg.N(), t) == p)
  {
    hide Core, Uses, Largest, LiveSum;
    UsesKeep(cfg, st, k);
    var s := Uses(cfg, st, 0, k);
    q :| q < 2 * cfg.N() && Win(cfg, s, k, k, q);
    WindowMeans(cfg.N(), k, q);
  }

  lemma WindowMeans(n: nat, k: nat, q: nat)
    requires k <= q <= 2 * n
    ensures forall p: nat :: p < n ==> (InWindow(n, k, q, p) <==> exists t: nat :: k <= t < q && ParamAt(n, t) == p)
  {
    forall p: nat | p < n
      ensures InWindow(n, k, q, p) <==> exists t: nat :: k <= t < q && ParamAt(n, t) == p
    {
      if k <= p < q { assert ParamAt(n, p) == p; }
      if k <= 2 * n - 1 - p < q { assert ParamAt(n, 2 * n - 1 - p) == p; }
    }
  }

  // Alignment: whenever a parameter is popped for its own use, the head of the queue is that use.
  lemma Alignment(cfg: Cfg, st: St, k: nat)
    requires PassStart(cfg, st) && k < 2 * cfg.N()
    requires var s := Uses(cfg, st, 0, k); s.queue != [] && !s.gathered[ParamAt(cfg.N(), k)]
    ensures Uses(cfg, st, 0, k).queue[0] == Use(ParamAt(cfg.N(), k), k)
  {
    hide Core, Accounted, Uses, Largest, LiveSum;
    var q := SlidingWindow(cfg, st, k);
    if q > k {
      assert false;
    }
    OrderHead(cfg.N(), k);
  }

  // One forward and backward pass: it ends where a pass may start, each parameter has been gathered once or
  // twice whatever the prefetch and live limits are, and nothing is live.
  lemma PassTraffic(cfg: Cfg, st: St)
    requires PassStart(cfg, st)
    ensures var s := Backward(cfg, Forward(cfg, st));
            && PassStart(cfg, s) && s.live == 0
            && forall p :: 0 <= p < cfg.N() ==> st.gathers[p] + 1 <= s.gathers[p] <= st.gathers[p] + 2
  {
    hide Uses, Largest, LiveSum, GatherSum, GatherBytes;
    var n := cfg.N();
    UsesSplit(cfg, st, n, 2 * n);
    UsesKeep(cfg, st, 2 * n);
    var s := Uses(cfg, st, 0, 2 * n);
    forall p: nat | p < n
      ensures !s.gathered[p] && st.gathers[p] + 1 <= s.gathers[p] <= st.gathers[p] + 2
    {
      NoneLeft(cfg, s, p);
      assert CountOk(s.gathers[p] as int - st.gathers[p] as int, UsesSoFar(n, 2 * n, p), s.gathered[p]);
    }
    NoneLive(cfg.params, s.gathered, n);
  }

  lemma NoneLeft(cfg: Cfg, s: St, p: nat)
    requires Mode(cfg, s, 2 * cfg.N()) && p < cfg.N()
    ensures Sized(cfg, s) && !s.gathered[p]
  {
    hide Largest, LiveSum;
  }

  lemma {:induction false} NothingPersistent(cfg: Cfg, st: St, p: nat)
    requires NoPersistent(cfg) && Sized(cfg, st) && p <= cfg.N()
    ensures GatherPersistent(cfg, st, p) == st
  {
    if p > 0 { NothingPersistent(cfg, st, p - 1); }
  }

  lemma StepKeeps(cfg: Cfg, st: St)
    requires PassStart(cfg, st)
    ensures PassStart(cfg, Step(cfg, st)) && Step(cfg, st).gathers == st.gathers
  {
    hide LiveSum, GatherSum, GatherBytes, Largest, GatherPersistent, OrderFrom;
    StepAccounted(cfg, st);
    NothingPersistent(cfg, st.(log := st.log + [ReduceScatter(st.bucket * 2), AllReduce(1), AllReduce(8)], bucket := 0,
                               gathered := seq(cfg.N(), _ => false), live := 0), cfg.N());
  }

  lemma {:induction false} PassesKeep(cfg: Cfg, st: St, m: nat)
    requires PassStart(cfg, st)
    ensures PassStart(cfg, Passes(cfg, st, m))
    ensures forall p :: 0 <= p < cfg.N() ==> st.gathers[p] + m <= Passes(cfg, st, m).gathers[p] <= st.gathers[p] + 2 * m
  {
    hide PassStart, Forward, Backward;
    if m == 0 {
      StartAccounted(cfg, st);
    } else {
      StartAccounted(cfg, st);
      PassesKeep(cfg, st, m - 1);
      PassTraffic(cfg, Passes(cfg, st, m - 1));
    }
  }

  // Runs of e epochs of m passes each, from the start: no warning is ever printed, the live elements stayed
  // below the peak bound, nothing is gathered, and each parameter was gathered once or twice a pass.
  lemma {:induction false} EpochsKeep(cfg: Cfg, m: nat, e: nat)
    requires NoPersistent(cfg)
    ensures var s := Epochs(cfg, Init(cfg), m, e);
            && PassStart(cfg, s)
            && forall p :: 0 <= p < cfg.N() ==> e * m <= s.gathers[p] <= 2 * (e * m)
  {
    hide PassStart, Passes, Step;
    if e == 0 {
      InitPassStart(cfg);
    } else {
      EpochsKeep(cfg, m, e - 1);
      var s := Epochs(cfg, Init(cfg), m, e - 1);
      PassesKeep(cfg, s, m);
      StepKeeps(cfg, Passes(cfg, s, m));
      Distribute(e, m);
    }
  }

  lemma Distribute(e: nat, m: nat)
    requires e > 0
    ensures e * m == (e - 1) * m + m
  {
  }

  // The peak at any use of any pass that may occur in a run.
  lemma PeakMemory(cfg: Cfg, m: nat, e: nat, j: nat, k: nat)
    requires NoPersistent(cfg) && cfg.maxLive >= 1 && k <= 2 * cfg.N()
    ensures var s := Uses(cfg, Passes(cfg, Epochs(cfg, Init(cfg), m, e), j), 0, k);
            && s.live <= s.peak < cfg.maxLive + Largest(cfg.params) && !s.mismatched
            && s.live == LiveSum(cfg.params, s.gathered, cfg.N())
  {
    hide Uses, Passes, Epochs, Mode, Largest, LiveSum, PassStart;
    EpochsKeep(cfg, m, e);
    PassesKeep(cfg, Epochs(cfg, Init(cfg), m, e), j);
    var st := Passes(cfg, Epochs(cfg, Init(cfg), m, e), j);
    UsesKeep(cfg, st, k);
  }

  // ---------- reduce-scatter traffic ----------

  // Bytes reduced so far, counting what still lies in the bucket at two bytes an element.
  function Reduced(st: St): nat { ScatterBytes(st.log) + 2 * st.bucket }

  function NumelFrom(params: seq<Param>, lo: nat): nat
    requires lo <= |params|
    decreases |params| - lo
  {
    if lo == |params| then 0 else params[lo].numel + NumelFrom(params, lo + 1)
  }

  ghost predicate TwoBytes(cfg: Cfg) { forall p :: 0 <= p < cfg.N() ==> cfg.params[p].elemSize == 2 }

  lemma {:induction false} PrefetchLog(cfg: Cfg, st: St, b: Batch)
    requires Sized(cfg, st)
    ensures Prefetch(cfg, st, b).0.log == st.log && Prefetch(cfg, st, b).0.bucket == st.bucket
    decreases |st.queue|
  {
    if MayPrefetch(cfg, st, b) {
      PrefetchLog(cfg, PrefetchOne(cfg, st), BatchOne(cfg, st, b));
    }
  }

  lemma GatherReduced(cfg: Cfg, st: St, p: nat)
    requires Sized(cfg, st) && p < cfg.N()
    ensures Reduced(Gather(cfg, st, p)) == Reduced(st)
  {
    hide ScatterBytes, Prefetch, MayPrefetch;
    if st.queue == [] {
      LogAppend(st.log, AllGather(cfg.params[p].MsgSize()));
    } else {
      var none := Batch(0, 0, 0);
      var s0, b0 := st, none;
      if !st.gathered[p] { s0, b0 := PopCurrent(cfg, st, p), none.Add(cfg.params[p]); }
      PrefetchLog(cfg, s0, b0);
      var (s, b) := Prefetch(cfg, s0, b0);
      LogAppend(s.log, AllGather(b.bytes));
    }
  }

  lemma UseReduced(cfg: Cfg, st: St, k: nat)
    requires Sized(cfg, st) && TwoBytes(cfg) && k < 2 * cfg.N()
    ensures Reduced(UseParam(cfg, st, k)) ==
            Reduced(st) + (if k < cfg.N() then 0 else 2 * cfg.params[ParamAt(cfg.N(), k)].numel)
  {
    hide ScatterBytes, Gather;
    var p := ParamAt(cfg.N(), k);
    GatherReduced(cfg, st, p);
    var s := Partition(cfg, Gather(cfg, st, p), p, k);
    LogAppend(s.log, ReduceScatter(s.bucket * cfg.params[p].elemSize));
  }

  lemma {:induction false} UsesReduced(cfg: Cfg, st: St, lo: nat, hi: nat)
    requires Sized(cfg, st) && TwoBytes(cfg) && lo <= hi <= 2 * cfg.N() && (hi <= cfg.N() || lo == cfg.N())
    ensures Reduced(Uses(cfg, st, lo, hi)) ==
            Reduced(st) + (if hi <= cfg.N() then 0 else 2 * NumelFrom(cfg.params, 2 * cfg.N() - hi))
    decreases hi
  {
    hide Reduced, UseParam;
    if lo < hi {
      UsesReduced(cfg, st, lo, hi - 1);
      UseReduced(cfg, Uses(cfg, st, lo, hi - 1), hi - 1);
    }
  }

  lemma {:induction false} PassesReduced(cfg: Cfg, st: St, m: nat)
    requires Sized(cfg, st) && TwoBytes(cfg)
    ensures Reduced(Passes(cfg, st, m)) == Reduced(st) + m * (2 * NumelFrom(cfg.params, 0))
  {
    hide ScatterBytes, Uses, NumelFrom;
    if m > 0 {
      PassesReduced(cfg, st, m - 1);
      var s := Passes(cfg, st, m - 1);
      UsesReduced(cfg, s, 0, cfg.N());
      UsesReduced(cfg, Forward(cfg, s), cfg.N(), 2 * cfg.N());
      Distribute(m, 2 * NumelFrom(cfg.params, 0));
      NumelEnd(cfg.params);
    }
  }

  lemma NumelEnd(params: seq<Param>)
    ensures NumelFrom(params, |params|) == 0
  {
  }

  lemma {:induction false} PersistentReduced(cfg: Cfg, st: St, p: nat)
    requires Sized(cfg, st) && p <= cfg.N()
    ensures Reduced(GatherPersistent(cfg, st, p)) == Reduced(st)
    ensures GatherPersistent(cfg, st, p).bucket == st.bucket
  {
    hide ScatterBytes;
    if p > 0 {
      PersistentReduced(cfg, st, p - 1);
      LogAppend(GatherPersistent(cfg, st, p - 1).log, AllGather(cfg.params[p - 1].MsgSize()));
    }
  }

  lemma StepReduced(cfg: Cfg, t: St)
    requires Sized(cfg, t)
    ensures ScatterBytes(Step(cfg, t).log) == Reduced(t) && Step(cfg, t).bucket == 0
  {
    hide ScatterBytes, GatherPersistent;
    var a, b, c := ReduceScatter(t.bucket * 2), AllReduce(1), AllReduce(8);
    LogAppend(t.log, a);
    LogAppend(t.log + [a], b);
    LogAppend(t.log + [a] + [b], c);
    assert t.log + [a] + [b] + [c] == t.log + [a, b, c];
    PersistentReduced(cfg, t.(log := t.log + [a, b, c], bucket := 0, gathered := seq(cfg.N(), _ => false), live := 0),
                      cfg.N());
  }

  // Gradient traffic, for any persistent set: with two-byte elements the reduce-scatter messages between two
  // steps carry two bytes for every element and every backward pass.
  lemma ReduceTraffic(cfg: Cfg, st: St, m: nat)
    requires Sized(cfg, st) && TwoBytes(cfg) && st.bucket == 0
    ensures var s := Step(cfg, Passes(cfg, st, m));
            ScatterBytes(s.log) == ScatterBytes(st.log) + m * (2 * NumelFrom(cfg.params, 0)) && s.bucket == 0
  {
    hide ScatterBytes, NumelFrom, Passes, Step;
    PassesReduced(cfg, st, m);
    StepReduced(cfg, Passes(cfg, st, m));
  }
}
