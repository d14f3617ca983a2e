/**
  What every run of the ZeRO-3 parameter machine keeps.

  For any persistent set: the live counter is the number of gathered elements, and the all-gather bytes are
  the gathers times the parameter sizes.  Without persistent parameters the gathered set is a sliding
  window over the queue, which gives the alignment, traffic and peak results.
*/
module Zero3Safety {
  import opened Zero3Model

  // ---------- live elements ----------

  // The elements of the parameters below n that are set in g.
  function LiveSum(params: seq<Param>, g: seq<bool>, n: nat): nat
    requires n <= |params| && n <= |g|
  {
    if n == 0 then 0 else LiveSum(params, g, n - 1) + (if g[n - 1] then params[n - 1].numel else 0)
  }

  // The bytes of g[p] gathers of every parameter p below n.
  function GatherSum(params: seq<Param>, g: seq<nat>, n: nat): nat
    requires n <= |params| && n <= |g|
  {
    if n == 0 then 0 else GatherSum(params, g, n - 1) + g[n - 1] * params[n - 1].MsgSize()
  }

  function GatherBytes(log: seq<Item>): nat {
    if log == [] then 0
    else GatherBytes(log[..|log| - 1]) + (if log[|log| - 1].AllGather? then log[|log| - 1].bytes else 0)
  }

  function ScatterBytes(log: seq<Item>): nat {
    if log == [] then 0
    else ScatterBytes(log[..|log| - 1]) + (if log[|log| - 1].ReduceScatter? then log[|log| - 1].bytes else 0)
  }

  lemma LogAppend(log: seq<Item>, x: Item)
    ensures GatherBytes(log + [x]) == GatherBytes(log) + (if x.AllGather? then x.bytes else 0)
    ensures ScatterBytes(log + [x]) == ScatterBytes(log) + (if x.ReduceScatter? then x.bytes else 0)
  {
    assert (log + [x])[..|log|] == log;
  }

  lemma {:induction false} LiveSumUpdate(params: seq<Param>, g: seq<bool>, n: nat, p: nat, b: bool)
    requires n <= |params| && n <= |g| && p < |g| && g[p] != b
    ensures LiveSum(params, g[p := b], n) ==
            LiveSum(params, g, n) + (if p >= n then 0 else if b then params[p].numel as int else -(params[p].numel as int))
  {
    if n > 0 { LiveSumUpdate(params, g, n - 1, p, b); }
  }

  lemma {:induction false} LiveSumMono(params: seq<Param>, g: seq<bool>, h: seq<bool>, n: nat)
    requires n <= |params| && n <= |g| && n <= |h| && forall p :: 0 <= p < n && g[p] ==> h[p]
    ensures LiveSum(params, g, n) <= LiveSum(params, h, n)
  {
    if n > 0 { LiveSumMono(params, g, h, n - 1); }
  }

  lemma {:induction false} NoneLive(params: seq<Param>, g: seq<bool>, n: nat)
    requires n <= |params| && n <= |g| && forall p :: 0 <= p < n ==> !g[p]
    ensures LiveSum(params, g, n) == 0
  {
    if n > 0 { NoneLive(params, g, n - 1); }
  }

  lemma {:induction false} GatherSumUpdate(params: seq<Param>, g: seq<nat>, n: nat, p: nat)
    requires n <= |params| && n <= |g| && p < |g|
    ensures GatherSum(params, g[p := g[p] + 1], n) ==
            GatherSum(params, g, n) + (if p < n then params[p].MsgSize() else 0)
  {
    if n > 0 {
      GatherSumUpdate(params, g, n - 1, p);
      if p == n - 1 { OneMore(g[p], params[p].MsgSize()); }
    }
  }

  lemma OneMore(g: nat, m: nat)
    ensures (g + 1) * m == g * m + m
  {
  }

  // The accounting invariant; `pending` are the bytes of a message still being filled.
  ghost predicate Accounted(cfg: Cfg, st: St, pending: nat) {
    && Sized(cfg, st)
    && st.live == LiveSum(cfg.params, st.gathered, cfg.N())
    && GatherBytes(st.log) + pending == GatherSum(cfg.params, st.gathers, cfg.N())
  }

  lemma InitAccounted(cfg: Cfg)
    requires cfg.Valid()
    ensures Accounted(cfg, Init(cfg), 0)
  {
    NoneLive(cfg.params, Init(cfg).gathered, cfg.N());
    NoneGathered(cfg.params, Init(cfg).gathers, cfg.N());
  }

  lemma {:induction false} NoneGathered(params: seq<Param>, g: seq<nat>, n: nat)
    requires n <= |params| && n <= |g| && forall p :: 0 <= p < n ==> g[p] == 0
    ensures GatherSum(params, g, n) == 0
  {
    if n > 0 { NoneGathered(params, g, n - 1); }
  }

  lemma AcquireAccounted(cfg: Cfg, st: St, p: nat, pending: nat)
    requires Accounted(cfg, st, pending) && p < cfg.N() && !st.gathered[p]
    ensures Accounted(cfg, Acquire(cfg, st, p), pending + cfg.params[p].MsgSize())
  {
    hide LiveSum, GatherSum, GatherBytes;
    LiveSumUpdate(cfg.params, st.gathered, cfg.N(), p, true);
    GatherSumUpdate(cfg.params, st.gathers, cfg.N(), p);
  }

  lemma ReleaseAccounted(cfg: Cfg, st: St, p: nat)
    requires Accounted(cfg, st, 0) && p < cfg.N() && st.gathered[p]
    ensures Accounted(cfg, Release(cfg, st, p), 0)
  {
    hide LiveSum, GatherSum, GatherBytes;
    LiveSumUpdate(cfg.params, st.gathered, cfg.N(), p, false);
  }

  lemma SentAccounted(cfg: Cfg, st: St, bytes: nat)
    requires Accounted(cfg, st, bytes)
    ensures Accounted(cfg, st.(log := st.log + [AllGather(bytes)]), 0)
  {
    hide LiveSum, GatherSum, GatherBytes;
    LogAppend(st.log, AllGather(bytes));
  }

  lemma GatherDirectlyAccounted(cfg: Cfg, st: St, p: nat)
    requires Accounted(cfg, st, 0) && p < cfg.N()
    ensures Accounted(cfg, GatherDirectly(cfg, st, p), 0) && GatherDirectly(cfg, st, p).gathered[p]
  {
    hide LiveSum, GatherSum, GatherBytes;
    if !st.gathered[p] {
      AcquireAccounted(cfg, st, p, 0);
      SentAccounted(cfg, Acquire(cfg, st, p), cfg.params[p].MsgSize());
    }
  }

  lemma PrefetchOneAccounted(cfg: Cfg, st: St, b: Batch)
    requires Accounted(cfg, st, b.bytes) && st.queue != []
    ensures Accounted(cfg, PrefetchOne(cfg, st), BatchOne(cfg, st, b).bytes)
  {
    hide LiveSum, GatherSum, GatherBytes;
    var u := st.queue[0];
    var s := st.(queue := st.queue[1..], recent := st.recent[u.param := Max(u.step, st.Recent(u.param))]);
    assert Accounted(cfg, s, b.bytes);
    if !st.gathered[u.param] { AcquireAccounted(cfg, s, u.param, b.bytes); }
  }

  lemma {:induction false} PrefetchAccounted(cfg: Cfg, st: St, b: Batch)
    requires Accounted(cfg, st, b.bytes)
    requires b.count == 0 ==> b.bytes == 0
    ensures var r := Prefetch(cfg, st, b);
            && Accounted(cfg, r.0, r.1.bytes) && (r.1.count == 0 ==> r.1.bytes == 0)
            && forall p :: 0 <= p < cfg.N() && st.gathered[p] ==> r.0.gathered[p]
    decreases |st.queue|
  {
    hide LiveSum, GatherSum, GatherBytes;
    if MayPrefetch(cfg, st, b) {
      PrefetchOneAccounted(cfg, st, b);
      PrefetchAccounted(cfg, PrefetchOne(cfg, st), BatchOne(cfg, st, b));
    }
  }

  lemma GatherAccounted(cfg: Cfg, st: St, p: nat)
    requires Accounted(cfg, st, 0) && p < cfg.N()
    ensures Accounted(cfg, Gather(cfg, st, p), 0) && Gather(cfg, st, p).gathered[p]
  {
    hide LiveSum, GatherSum, GatherBytes, Prefetch;
    if st.queue == [] {
      GatherDirectlyAccounted(cfg, st, p);
    } else {
      var none := Batch(0, 0, 0);
      var s0, b0 := st, none;
      if !st.gathered[p] {
        var t := st.(queue := st.queue[1..], mismatched := st.mismatched || st.queue[0].param != p);
        assert Accounted(cfg, t, 0);
        AcquireAccounted(cfg, t, p, 0);
        s0, b0 := PopCurrent(cfg, st, p), none.Add(cfg.params[p]);
      }
      PrefetchAccounted(cfg, s0, b0);
      var (s, b) := Prefetch(cfg, s0, b0);
      if b.count > 0 { SentAccounted(cfg, s, b.bytes); }
    }
  }

  lemma UseAccounted(cfg: Cfg, st: St, k: nat)
    requires Accounted(cfg, st, 0) && k < 2 * cfg.N()
    ensures Accounted(cfg, UseParam(cfg, st, k), 0)
  {
    hide LiveSum, GatherSum, GatherBytes, Gather;
    var p := ParamAt(cfg.N(), k);
    GatherAccounted(cfg, st, p);
    var s := Gather(cfg, st, p);
    ReleaseAccounted(cfg, s, p);
    var t := Partition(cfg, s, p, k);
    LogAppend(t.log, ReduceScatter(t.bucket * cfg.params[p].elemSize));
  }

  lemma {:induction false} UsesAccounted(cfg: Cfg, st: St, lo: nat, hi: nat)
    requires Accounted(cfg, st, 0) && lo <= hi <= 2 * cfg.N()
    ensures Accounted(cfg, Uses(cfg, st, lo, hi), 0)
    decreases hi
  {
    hide LiveSum, GatherSum, GatherBytes, UseParam;
    if lo < hi {
      UsesAccounted(cfg, st, lo, hi - 1);
      UseAccounted(cfg, Uses(cfg, st, lo, hi - 1), hi - 1);
    }
  }

  lemma {:induction false} PersistentAccounted(cfg: Cfg, st: St, p: nat)
    requires Accounted(cfg, st, 0) && p <= cfg.N()
    ensures Accounted(cfg, GatherPersistent(cfg, st, p), 0)
  {
    hide LiveSum, GatherSum, GatherBytes, GatherDirectly;
    if p > 0 {
      PersistentAccounted(cfg, st, p - 1);
      if cfg.persistent[p - 1] { GatherDirectlyAccounted(cfg, GatherPersistent(cfg, st, p - 1), p - 1); }
    }
  }

  lemma StepAccounted(cfg: Cfg, st: St)
    requires Accounted(cfg, st, 0)
    ensures Accounted(cfg, Step(cfg, st), 0)
  {
    hide LiveSum, GatherSum, GatherBytes, GatherPersistent;
    var log := st.log + [ReduceScatter(st.bucket * 2), AllReduce(1), AllReduce(8)];
    var s := st.(log := log, bucket := 0, gathered := seq(cfg.N(), _ => false), live := 0);
    LogAppend(st.log, ReduceScatter(st.bucket * 2));
    LogAppend(st.log + [ReduceScatter(st.bucket * 2)], AllReduce(1));
    LogAppend(st.log + [ReduceScatter(st.bucket * 2)] + [AllReduce(1)], AllReduce(8));
    assert log == st.log + [ReduceScatter(st.bucket * 2)] + [AllReduce(1)] + [AllReduce(8)];
    NoneLive(cfg.params, s.gathered, cfg.N());
    PersistentAccounted(cfg, s, cfg.N());
  }

  // Memory accounting, for every persistent set and every run of forward, backward and step calls in any
  // order: the counter of live elements is the size of the gathered parameters, and the all-gather
  // messages add up to the gathers of the parameters times their sizes.
  lemma {:induction false} MemoryAccounting(cfg: Cfg, phases: seq<Phase>)
    requires cfg.Valid()
    ensures var st := RunAll(cfg, Init(cfg), phases);
            && st.live == LiveSum(cfg.params, st.gathered, cfg.N())
            && GatherBytes(st.log) == GatherSum(cfg.params, st.gathers, cfg.N())
    decreases |phases|
  {
    RunAccounted(cfg, phases);
  }

  lemma {:induction false} RunAccounted(cfg: Cfg, phases: seq<Phase>)
    requires cfg.Valid()
    ensures Accounted(cfg, RunAll(cfg, Init(cfg), phases), 0)
    decreases |phases|
  {
    hide LiveSum, GatherSum, GatherBytes, Uses, Step;
    if phases == [] {
      InitAccounted(cfg);
    } else {
      var rest := phases[..|phases| - 1];
      RunAccounted(cfg, rest);
      var s := RunAll(cfg, Init(cfg), rest);
      match phases[|phases| - 1]
      case ForwardPhase => UsesAccounted(cfg, s, 0, cfg.N());
      case BackwardPhase => UsesAccounted(cfg, s, cfg.N(), 2 * cfg.N());
      case StepPhase => StepAccounted(cfg, s);
    }
  }

  // ---------- the sliding window ----------

  ghost predicate NoPersistent(cfg: Cfg) {
    cfg.Valid() && forall p :: 0 <= p < cfg.N() ==> !cfg.persistent[p]
  }

  // Parameter p is used at one of the steps k .. q - 1.
  predicate InWindow(n: nat, k: nat, q: nat, p: nat) { k <= p < q || k <= 2 * n - 1 - p < q }

  // The queue stands at entry q, exactly the parameters used at steps k .. q - 1 are gathered, and the
  // recent fetches are known for the steps r .. q - 1.
  ghost predicate Win(cfg: Cfg, st: St, k: nat, r: nat, q: nat) {
    var n := cfg.N();
    && Sized(cfg, st) && k <= q <= 2 * n
    && st.queue == OrderFrom(n, q)
    && (forall p: nat :: p < n ==> (st.gathered[p] <==> InWindow(n, k, q, p)))
    && (forall p: nat :: p < n ==> RecentOk(n, r, q, p, st.Recent(p)))
  }

  predicate RecentOk(n: nat, r: nat, q: nat, p: nat, recent: int) {
    && (recent >= 0 ==> recent < q && (recent == p || recent == 2 * n - 1 - p))
    && (r <= p < q ==> recent >= p)
    && (r <= 2 * n - 1 - p < q ==> recent >= 2 * n - 1 - p)
  }

  lemma OrderHead(n: nat, q: nat)
    requires q < 2 * n
    ensures OrderFrom(n, q) != [] && OrderFrom(n, q)[0] == Use(ParamAt(n, q), q)
    ensures OrderFrom(n, q)[1..] == OrderFrom(n, q + 1)
  {
  }

  lemma WindowNext(n: nat, k: nat, q: nat, p: nat)
    requires k <= q < 2 * n && p < n
    ensures InWindow(n, k, q + 1, p) <==> InWindow(n, k, q, p) || p == ParamAt(n, q)
  {
  }

  lemma RecentNext(n: nat, r: nat, q: nat, p: nat, recent: int, next: int)
    requires r <= q < 2 * n && p < n && RecentOk(n, r, q, p, recent)
    requires next == if p == ParamAt(n, q) then Max(q, recent) else recent
    ensures RecentOk(n, r, q + 1, p, next)
  {
  }

  lemma PrefetchOneWin(cfg: Cfg, st: St, k: nat, r: nat, q: nat)
    requires Win(cfg, st, k, r, q) && r <= q && st.queue != []
    ensures q < 2 * cfg.N() && Win(cfg, PrefetchOne(cfg, st), k, r, q + 1)
  {
    hide InWindow, RecentOk;
    var n := cfg.N();
    assert |st.queue| == 2 * n - q;
    OrderHead(n, q);
    var t := PrefetchOne(cfg, st);
    forall p: nat | p < n
      ensures (t.gathered[p] <==> InWindow(n, k, q + 1, p)) && RecentOk(n, r, q + 1, p, t.Recent(p))
    {
      WindowNext(n, k, q, p);
      RecentNext(n, r, q, p, st.Recent(p), t.Recent(p));
    }
  }

  // The window is about the queue, the gathered flags and the recent fetches only.
  lemma WinSame(cfg: Cfg, st: St, t: St, k: nat, r: nat, q: nat)
    requires Win(cfg, st, k, r, q)
    requires t.queue == st.queue && t.gathered == st.gathered && t.recent == st.recent && |t.gathers| == cfg.N()
    ensures Win(cfg, t, k, r, q)
  {
    hide InWindow, RecentOk, OrderFrom;
    forall p: nat | p < cfg.N()
      ensures RecentOk(cfg.N(), r, q, p, t.Recent(p))
    {
      assert RecentOk(cfg.N(), r, q, p, st.Recent(p));
    }
  }

  // ---------- peak and traffic ----------

  function Largest(params: seq<Param>): nat {
    if params == [] then 0 else Max(Largest(params[1..]), params[0].numel)
  }

  lemma {:induction false} LargestBound(params: seq<Param>, p: nat)
    requires p < |params|
    ensures params[p].numel <= Largest(params)
  {
    if p > 0 { LargestBound(params[1..], p - 1); }
  }

  function PeakBound(cfg: Cfg): int { cfg.maxLive + Largest(cfg.params) }

  // Uses of parameter p among the first k of a pass.
  function UsesSoFar(n: nat, k: nat, p: nat): nat { (if p < k then 1 else 0) + (if 2 * n - 1 - p < k then 1 else 0) }

  // Since `base`, at most one gather a use, and one more when it is gathered now; at least one when it
  // has been used or is gathered.
  ghost predicate Counted(cfg: Cfg, st: St, base: seq<nat>, k: nat) {
    && Sized(cfg, st) && |base| == cfg.N()
    && forall p: nat :: p < cfg.N() ==>
         CountOk(st.gathers[p] as int - base[p] as int, UsesSoFar(cfg.N(), k, p), st.gathered[p])
  }

  predicate CountOk(g: int, uses: nat, gathered: bool) {
    && g <= uses + (if gathered then 1 else 0)
    && (gathered || uses > 0 ==> g >= 1)
    && g >= 0
  }

  // Kept all along a pass.
  ghost predicate Core(cfg: Cfg, st: St, base: seq<nat>, k: nat) {
    && NoPersistent(cfg)
    && Counted(cfg, st, base, k)
    && !st.mismatched
    && st.live <= st.peak
    && (cfg.maxLive >= 1 ==> st.live < PeakBound(cfg) && st.peak < PeakBound(cfg))
  }

  lemma AcquireCore(cfg: Cfg, st: St, base: seq<nat>, k: nat, p: nat)
    requires Core(cfg, st, base, k) && p < cfg.N() && !st.gathered[p]
    requires cfg.maxLive >= 1 ==> st.live + cfg.params[p].numel < PeakBound(cfg)
    ensures Core(cfg, Acquire(cfg, st, p), base, k)
  {
    hide Largest;
  }

  lemma PrefetchOneCore(cfg: Cfg, st: St, base: seq<nat>, k: nat)
    requires Core(cfg, st, base, k) && st.queue != [] && st.live < cfg.maxLive
    ensures Core(cfg, PrefetchOne(cfg, st), base, k)
  {
    hide Largest;
    var u := st.queue[0];
    var s := st.(queue := st.queue[1..], recent := st.recent[u.param := Max(u.step, st.Recent(u.param))]);
    LargestBound(cfg.params, u.param);
    if !st.gathered[u.param] { AcquireCore(cfg, s, base, k, u.param); }
  }

  lemma {:induction false} PrefetchKeeps(cfg: Cfg, st: St, b: Batch, base: seq<nat>, k: nat, r: nat, q: nat) returns (q': nat)
    requires Core(cfg, st, base, k) && Win(cfg, st, k, r, q) && r <= q
    ensures q <= q' && Core(cfg, Prefetch(cfg, st, b).0, base, k) && Win(cfg, Prefetch(cfg, st, b).0, k, r, q')
    decreases |st.queue|
  {
    hide Core, InWindow, RecentOk, OrderFrom, PrefetchOne, BatchOne;
    q' := q;
    if MayPrefetch(cfg, st, b) {
      PrefetchOneCore(cfg, st, base, k);
      PrefetchOneWin(cfg, st, k, r, q);
      QueueShrinks(cfg, st);
      q' := PrefetchKeeps(cfg, PrefetchOne(cfg, st), BatchOne(cfg, st, b), base, k, r, q + 1);
    }
  }

  lemma QueueShrinks(cfg: Cfg, st: St)
    requires Sized(cfg, st) && st.queue != []
    ensures |PrefetchOne(cfg, st).queue| < |st.queue|
  {
  }

  // The head of the queue is the parameter in use: the mismatch warning is not printed.
  lemma PopCurrentKeeps(cfg: Cfg, st: St, base: seq<nat>, k: nat, q: nat)
    requires Core(cfg, st, base, k) && Win(cfg, st, k, k, q) && Accounted(cfg, st, 0) && k < 2 * cfg.N()
    requires !st.gathered[ParamAt(cfg.N(), k)]
    ensures q == k && st.queue != [] && st.queue[0] == Use(ParamAt(cfg.N(), k), k)
    ensures var s := PopCurrent(cfg, st, ParamAt(cfg.N(), k));
            Core(cfg, s, base, k) && Win(cfg, s, k, k + 1, k + 1)
  {
    hide Largest, LiveSum, GatherSum, GatherBytes, RecentOk;
    var p := ParamAt(cfg.N(), k);
    assert !InWindow(cfg.N(), k, q, p);
    OrderHead(cfg.N(), k);
    LargestBound(cfg.params, p);
    NoneLive(cfg.params, st.gathered, cfg.N());
    var t := st.(queue := st.queue[1..], mismatched := st.mismatched || st.queue[0].param != p);
    AcquireCore(cfg, t, base, k, p);
    PopCurrentWin(cfg, st, k);
  }

  lemma PopCurrentWin(cfg: Cfg, st: St, k: nat)
    requires Win(cfg, st, k, k, k) && k < 2 * cfg.N()
    ensures st.queue != [] && Win(cfg, PopCurrent(cfg, st, ParamAt(cfg.N(), k)), k, k + 1, k + 1)
  {
    var n := cfg.N();
    OrderHead(n, k);
    var t := PopCurrent(cfg, st, ParamAt(n, k));
    forall p: nat | p < n
      ensures (t.gathered[p] <==> InWindow(n, k, k + 1, p)) && RecentOk(n, k + 1, k + 1, p, t.Recent(p))
    {
      assert RecentOk(n, k, k, p, st.Recent(p));
    }
  }

  lemma WinWeaken(cfg: Cfg, st: St, k: nat, q: nat)
    requires Win(cfg, st, k, k, q) && k < 2 * cfg.N() && st.gathered[ParamAt(cfg.N(), k)]
    ensures k < q && Win(cfg, st, k, k + 1, q)
  {
  }

  // Gathering from the queue leaves a window that starts at the current use.
  lemma GatherWin(cfg: Cfg, st: St, base: seq<nat>, k: nat, q: nat) returns (q': nat)
    requires Core(cfg, st, base, k) && Win(cfg, st, k, k, q) && Accounted(cfg, st, 0)
    requires k < 2 * cfg.N() && st.queue != []
    ensures var s := Gather(cfg, st, ParamAt(cfg.N(), k));
            k < q' && Core(cfg, s, base, k) && Win(cfg, s, k, k + 1, q')
  {
    hide Core, Prefetch, PopCurrent, Accounted;
    var p := ParamAt(cfg.N(), k);
    var none := Batch(0, 0, 0);
    var s0, b0, q0 := st, none, q;
    if st.gathered[p] {
      WinWeaken(cfg, st, k, q);
    } else {
      PopCurrentKeeps(cfg, st, base, k, q);
      s0, b0, q0 := PopCurrent(cfg, st, p), none.Add(cfg.params[p]), k + 1;
    }
    q' := PrefetchKeeps(cfg, s0, b0, base, k, k + 1, q0);
    var (s, b) := Prefetch(cfg, s0, b0);
    LogIrrelevant(cfg, s, base, k, s.log + [AllGather(b.bytes)]);
    WinSame(cfg, s, s.(log := s.log + [AllGather(b.bytes)]), k, k + 1, q');
  }

  lemma LogIrrelevant(cfg: Cfg, st: St, base: seq<nat>, k: nat, log: seq<Item>)
    requires Core(cfg, st, base, k)
    ensures Core(cfg, st.(log := log), base, k)
  {
    hide Largest;
  }

  // The parameters still used at step k or later.
  function Needed(n: nat, k: nat): seq<bool> { seq(n, p => p + k < 2 * n) }

  // The queue is used up: only parameters that are still needed are gathered, and all of them together
  // would still be below the peak bound.
  ghost predicate Drained(cfg: Cfg, st: St, k: nat) {
    var n := cfg.N();
    && Sized(cfg, st) && st.queue == []
    && (forall p :: 0 <= p < n && st.gathered[p] ==> Needed(n, k)[p])
    && (cfg.maxLive >= 1 ==> LiveSum(cfg.params, Needed(n, k), n) < PeakBound(cfg))
  }

  // Before the first backward pass there is no queue.
  ghost predicate Fresh(cfg: Cfg, st: St) {
    Sized(cfg, st) && st.queue == [] && forall p :: 0 <= p < cfg.N() ==> !st.gathered[p]
  }

  // Between two uses of a pass.
  ghost predicate Mode(cfg: Cfg, st: St, k: nat) {
    Fresh(cfg, st) || Drained(cfg, st, k) || exists q: nat :: q < 2 * cfg.N() && Win(cfg, st, k, k, q)
  }

  lemma NeededShrinks(cfg: Cfg, k: nat)
    ensures LiveSum(cfg.params, Needed(cfg.N(), k + 1), cfg.N()) <= LiveSum(cfg.params, Needed(cfg.N(), k), cfg.N())
  {
    LiveSumMono(cfg.params, Needed(cfg.N(), k + 1), Needed(cfg.N(), k), cfg.N());
  }

  // Partition at use k, while the queue is not used up.
  lemma PartitionWin(cfg: Cfg, s: St, base: seq<nat>, k: nat, q: nat)
    requires Core(cfg, s, base, k) && Win(cfg, s, k, k + 1, q) && k < q < 2 * cfg.N()
    ensures var t := Partition(cfg, s, ParamAt(cfg.N(), k), k);
            Core(cfg, t, base, k + 1) && Win(cfg, t, k + 1, k + 1, q)
  {
    hide Largest, PeakBound, OrderFrom;
    var n := cfg.N();
    OrderHead(n, q);
    var t := Partition(cfg, s, ParamAt(n, k), k);
    forall p: nat | p < n
      ensures (t.gathered[p] <==> InWindow(n, k + 1, q, p)) && RecentOk(n, k + 1, q, p, t.Recent(p))
    {
      assert RecentOk(n, k + 1, q, p, s.Recent(p));
    }
  }

  // Partition at use k, when the prefetch has taken the last entry.
  lemma PartitionLast(cfg: Cfg, s: St, base: seq<nat>, k: nat)
    requires Core(cfg, s, base, k) && Win(cfg, s, k, k + 1, 2 * cfg.N()) && k < 2 * cfg.N()
    requires s.live == LiveSum(cfg.params, s.gathered, cfg.N())
    ensures var t := Partition(cfg, s, ParamAt(cfg.N(), k), k);
            Core(cfg, t, base, k + 1) && Drained(cfg, t, k + 1)
  {
    hide Largest, PeakBound, LiveSum;
    assert s.gathered == Needed(cfg.N(), k);
    NeededShrinks(cfg, k);
  }

  lemma DirectDrained(cfg: Cfg, st: St, base: seq<nat>, k: nat)
    requires Core(cfg, st, base, k) && Drained(cfg, st, k) && Accounted(cfg, st, 0) && k < 2 * cfg.N()
    ensures var s := GatherDirectly(cfg, st, ParamAt(cfg.N(), k));
            Core(cfg, s, base, k) && Drained(cfg, s, k) && s.gathered[ParamAt(cfg.N(), k)]
  {
    hide Largest, LiveSum, GatherSum, GatherBytes, PeakBound;
    var p := ParamAt(cfg.N(), k);
    if !st.gathered[p] {
      var a := Acquire(cfg, st, p);
      AcquireAccounted(cfg, st, p, 0);
      LiveSumMono(cfg.params, a.gathered, Needed(cfg.N(), k), cfg.N());
      AcquireCore(cfg, st, base, k, p);
      LogIrrelevant(cfg, a, base, k, a.log + [AllGather(cfg.params[p].MsgSize())]);
    }
  }

  lemma PartitionDrained(cfg: Cfg, s: St, base: seq<nat>, k: nat)
    requires Core(cfg, s, base, k) && Drained(cfg, s, k) && k < 2 * cfg.N() && s.gathered[ParamAt(cfg.N(), k)]
    ensures var t := Partition(cfg, s, ParamAt(cfg.N(), k), k);
            Core(cfg, t, base, k + 1) && Drained(cfg, t, k + 1)
  {
    hide Largest, PeakBound, LiveSum;
    NeededShrinks(cfg, k);
  }

  lemma UseFresh(cfg: Cfg, st: St, base: seq<nat>, k: nat)
    requires Core(cfg, st, base, k) && Fresh(cfg, st) && Accounted(cfg, st, 0) && k < 2 * cfg.N()
    ensures var p := ParamAt(cfg.N(), k);
            var t := Partition(cfg, Gather(cfg, st, p), p, k);
            Core(cfg, t, base, k + 1) && Fresh(cfg, t)
  {
    hide Largest, LiveSum, GatherSum, GatherBytes;
    var p := ParamAt(cfg.N(), k);
    NoneLive(cfg.params, st.gathered, cfg.N());
    LargestBound(cfg.params, p);
    var a := Acquire(cfg, st, p);
    AcquireCore(cfg, st, base, k, p);
    LogIrrelevant(cfg, a, base, k, a.log + [AllGather(cfg.params[p].MsgSize())]);
  }

  lemma UseWin(cfg: Cfg, st: St, base: seq<nat>, k: nat, q: nat)
    requires Core(cfg, st, base, k) && Win(cfg, st, k, k, q) && q < 2 * cfg.N() && Accounted(cfg, st, 0) && k < 2 * cfg.N()
    ensures var p := ParamAt(cfg.N(), k);
            var t := Partition(cfg, Gather(cfg, st, p), p, k);
            Core(cfg, t, base, k + 1) && Mode(cfg, t, k + 1)
  {
    hide Core, Largest, LiveSum, GatherSum, GatherBytes, Gather, Partition;
    var p := ParamAt(cfg.N(), k);
    OrderHead(cfg.N(), q);
    var q' := GatherWin(cfg, st, base, k, q);
    var s := Gather(cfg, st, p);
    if q' < 2 * cfg.N() {
      PartitionWin(cfg, s, base, k, q');
    } else {
      GatherAccounted(cfg, st, p);
      PartitionLast(cfg, s, base, k);
    }
  }

  lemma ReduceIrrelevant(cfg: Cfg, st: St, base: seq<nat>, k: nat, p: nat)
    requires Core(cfg, st, base, k) && Mode(cfg, st, k) && p < cfg.N()
    ensures Core(cfg, ReduceWithBucket(cfg, st, p), base, k) && Mode(cfg, ReduceWithBucket(cfg, st, p), k)
  {
    hide Largest, LiveSum, InWindow, RecentOk, PeakBound;
    var t := ReduceWithBucket(cfg, st, p);
    if q: nat :| q < 2 * cfg.N() && Win(cfg, st, k, k, q) {
      WinSame(cfg, st, t, k, k, q);
    }
  }

  // One use of a pass keeps everything.
  lemma UseKeeps(cfg: Cfg, st: St, base: seq<nat>, k: nat)
    requires Core(cfg, st, base, k) && Mode(cfg, st, k) && Accounted(cfg, st, 0) && k < 2 * cfg.N()
    ensures var t := UseParam(cfg, st, k);
            Core(cfg, t, base, k + 1) && Mode(cfg, t, k + 1) && Accounted(cfg, t, 0)
  {
    hide Core, Largest, LiveSum, GatherSum, GatherBytes, GatherPrefetch, GatherDirectly, Partition, ReduceWithBucket;
    var p := ParamAt(cfg.N(), k);
    UseAccounted(cfg, st, k);
    if Fresh(cfg, st) {
      UseFresh(cfg, st, base, k);
    } else if Drained(cfg, st, k) {
      DirectDrained(cfg, st, base, k);
      PartitionDrained(cfg, Gather(cfg, st, p), base, k);
    } else {
      var q: nat :| q < 2 * cfg.N() && Win(cfg, st, k, k, q);
      UseWin(cfg, st, base, k, q);
    }
    ReduceIrrelevant(cfg, Partition(cfg, Gather(cfg, st, p), p, k), base, k + 1, p);
  }
}
