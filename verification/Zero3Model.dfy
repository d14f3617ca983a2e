/**
  The parameter machine of the ZeRO-3 workload generator: gather, prefetch, partition, reduce.

  `St` is the state of the generator; the functions say what each of its methods does to it.  A pass uses
  the n parameters forwards and then backwards: use number k is of parameter `ParamAt(n, k)`.
*/
module Zero3Model {

  datatype Param = Param(numel: nat, elemSize: nat)
  {
    function MsgSize(): nat { numel * elemSize }
  }

  datatype Cfg = Cfg(
    params: seq<Param>,
    persistent: seq<bool>,
    prefetchBucketSize: int,
    maxLive: int,
    reduceBucketSize: int)
  {
    function N(): nat { |params| }

    predicate Valid() { |persistent| == |params| }
  }

  datatype Item = AllGather(bytes: nat) | ReduceScatter(bytes: nat) | AllReduce(bytes: nat)

  // An entry of the parameter queue: parameter `param` is used at step `step` of a pass.
  datatype Use = Use(param: nat, step: nat)

  // `gathers`, `peak` and `mismatched` record history: how often each parameter was gathered, the largest
  // number of live elements so far, and whether the mismatch warning was ever printed.
  datatype St = St(
    gathered: seq<bool>,
    live: int,
    queue: seq<Use>,
    recent: map<nat, nat>,
    bucket: nat,
    log: seq<Item>,
    gathers: seq<nat>,
    peak: int,
    mismatched: bool)
  {
    // The defaultdict of the most recent fetch: -1 when there is none.
    function Recent(p: nat): int { if p in recent then recent[p] else -1 }
  }

  predicate Sized(cfg: Cfg, st: St) {
    && cfg.Valid()
    && |st.gathered| == |st.gathers| == cfg.N()
    && forall u :: u in st.queue ==> u.param < cfg.N()
  }

  function Max(x: int, y: int): int { if x < y then y else x }

  function ParamAt(n: nat, k: nat): nat
    requires k < 2 * n
  {
    if k < n then k else 2 * n - 1 - k
  }

  // The queue as it is refilled at the end of a backward pass, from entry q on.
  function OrderFrom(n: nat, q: nat): seq<Use>
    requires q <= 2 * n
  {
    seq(2 * n - q, i requires 0 <= i < 2 * n - q => Use(ParamAt(n, q + i), q + i))
  }

  function Init(cfg: Cfg): St {
    St(seq(cfg.N(), _ => false), 0, [], map[], 0, [], seq(cfg.N(), _ => 0), 0, false)
  }

  // ---------- gathering and releasing one parameter ----------

  function Acquire(cfg: Cfg, st: St, p: nat): St
    requires Sized(cfg, st) && p < cfg.N()
  {
    var live := st.live + cfg.params[p].numel;
    st.(gathered := st.gathered[p := true], live := live,
        gathers := st.gathers[p := st.gathers[p] + 1], peak := Max(st.peak, live))
  }

  function Release(cfg: Cfg, st: St, p: nat): St
    requires Sized(cfg, st) && p < cfg.N()
  {
    st.(gathered := st.gathered[p := false], live := st.live - cfg.params[p].numel)
  }

  function GatherDirectly(cfg: Cfg, st: St, p: nat): St
    requires Sized(cfg, st) && p < cfg.N()
  {
    if st.gathered[p] then st
    else
      var s := Acquire(cfg, st, p);
      s.(log := s.log + [AllGather(cfg.params[p].MsgSize())])
  }

  // The head of the queue is taken for parameter p; a different head only prints a warning.
  function PopCurrent(cfg: Cfg, st: St, p: nat): St
    requires Sized(cfg, st) && p < cfg.N() && st.queue != []
  {
    Acquire(cfg, st.(queue := st.queue[1..], mismatched := st.mismatched || st.queue[0].param != p), p)
  }

  // A message that is still being filled: what it gathers so far, in elements and in bytes.
  datatype Batch = Batch(count: nat, numel: nat, bytes: nat)
  {
    function Add(p: Param): Batch { Batch(count + 1, numel + p.numel, bytes + p.MsgSize()) }
  }

  // One round of the prefetch loop takes the head of the queue ...
  function PrefetchOne(cfg: Cfg, st: St): St
    requires Sized(cfg, st) && st.queue != []
  {
    var u := st.queue[0];
    var s := st.(queue := st.queue[1..], recent := st.recent[u.param := Max(u.step, st.Recent(u.param))]);
    if st.gathered[u.param] then s else Acquire(cfg, s, u.param)
  }

  function BatchOne(cfg: Cfg, st: St, b: Batch): Batch
    requires Sized(cfg, st) && st.queue != []
  {
    var p := st.queue[0].param;
    if st.gathered[p] then b else b.Add(cfg.params[p])
  }

  predicate MayPrefetch(cfg: Cfg, st: St, b: Batch) {
    st.queue != [] && b.numel < cfg.prefetchBucketSize && st.live < cfg.maxLive
  }

  // ... and the loop runs while the limits allow.
  function Prefetch(cfg: Cfg, st: St, b: Batch): (r: (St, Batch))
    requires Sized(cfg, st)
    ensures Sized(cfg, r.0)
    decreases |st.queue|
  {
    if MayPrefetch(cfg, st, b) then Prefetch(cfg, PrefetchOne(cfg, st), BatchOne(cfg, st, b)) else (st, b)
  }

  function GatherPrefetch(cfg: Cfg, st: St, p: nat): (s: St)
    requires Sized(cfg, st) && p < cfg.N() && st.queue != []
    ensures Sized(cfg, s)
  {
    var none := Batch(0, 0, 0);
    var (s, b) := if st.gathered[p] then Prefetch(cfg, st, none)
                  else Prefetch(cfg, PopCurrent(cfg, st, p), none.Add(cfg.params[p]));
    if b.count > 0 then s.(log := s.log + [AllGather(b.bytes)]) else s
  }

  function Gather(cfg: Cfg, st: St, p: nat): (s: St)
    requires Sized(cfg, st) && p < cfg.N()
    ensures Sized(cfg, s)
  {
    if st.queue == [] then GatherDirectly(cfg, st, p) else GatherPrefetch(cfg, st, p)
  }

  function Partition(cfg: Cfg, st: St, p: nat, step: nat): (s: St)
    requires Sized(cfg, st) && p < cfg.N()
    ensures Sized(cfg, s)
  {
    if st.queue == [] then Release(cfg, st, p)
    else if cfg.persistent[p] || st.Recent(p) > step then st
    else Release(cfg, st, p)
  }

  function ReduceWithBucket(cfg: Cfg, st: St, p: nat): St
    requires p < cfg.N()
  {
    if cfg.params[p].numel + st.bucket > cfg.reduceBucketSize then
      st.(log := st.log + [ReduceScatter(st.bucket * cfg.params[p].elemSize)], bucket := cfg.params[p].numel)
    else st.(bucket := st.bucket + cfg.params[p].numel)
  }

  // ---------- passes ----------

  // Use number k of a pass: gather, partition, and on the way back reduce the gradient.
  function UseParam(cfg: Cfg, st: St, k: nat): (s: St)
    requires Sized(cfg, st) && k < 2 * cfg.N()
    ensures Sized(cfg, s)
  {
    var p := ParamAt(cfg.N(), k);
    var s := Partition(cfg, Gather(cfg, st, p), p, k);
    if k < cfg.N() then s else ReduceWithBucket(cfg, s, p)
  }

  function Uses(cfg: Cfg, st: St, lo: nat, hi: nat): (s: St)
    requires Sized(cfg, st) && lo <= hi <= 2 * cfg.N()
    ensures Sized(cfg, s)
    decreases hi
  {
    if lo == hi then st else UseParam(cfg, Uses(cfg, st, lo, hi - 1), hi - 1)
  }

  function Forward(cfg: Cfg, st: St): (s: St)
    requires Sized(cfg, st)
    ensures Sized(cfg, s)
  {
    Uses(cfg, st, 0, cfg.N())
  }

  function Backward(cfg: Cfg, st: St): (s: St)
    requires Sized(cfg, st)
    ensures Sized(cfg, s)
  {
    Uses(cfg, st, cfg.N(), 2 * cfg.N()).(queue := OrderFrom(cfg.N(), 0), recent := map[])
  }

  // Gathers the persistent parameters below p.
  function GatherPersistent(cfg: Cfg, st: St, p: nat): (s: St)
    requires Sized(cfg, st) && p <= cfg.N()
    ensures Sized(cfg, s)
  {
    if p == 0 then st
    else
      var s := GatherPersistent(cfg, st, p - 1);
      if cfg.persistent[p - 1] then GatherDirectly(cfg, s, p - 1) else s
  }

  function Step(cfg: Cfg, st: St): (s: St)
    requires Sized(cfg, st)
    ensures Sized(cfg, s)
  {
    GatherPersistent(cfg, st.(log := st.log + [ReduceScatter(st.bucket * 2), AllReduce(1), AllReduce(8)], bucket := 0,
                              gathered := seq(cfg.N(), _ => false), live := 0), cfg.N())
  }

  // ---------- runs ----------

  datatype Phase = ForwardPhase | BackwardPhase | StepPhase

  function Do(cfg: Cfg, st: St, ph: Phase): (s: St)
    requires Sized(cfg, st)
    ensures Sized(cfg, s)
  {
    match ph
    case ForwardPhase => Forward(cfg, st)
    case BackwardPhase => Backward(cfg, st)
    case StepPhase => Step(cfg, st)
  }

  function RunAll(cfg: Cfg, st: St, phases: seq<Phase>): (s: St)
    requires Sized(cfg, st)
    ensures Sized(cfg, s)
  {
    if phases == [] then st else Do(cfg, RunAll(cfg, st, phases[..|phases| - 1]), phases[|phases| - 1])
  }

  // m forward and backward passes ...
  function Passes(cfg: Cfg, st: St, m: nat): (s: St)
    requires Sized(cfg, st)
    ensures Sized(cfg, s)
  {
    if m == 0 then st else Backward(cfg, Forward(cfg, Passes(cfg, st, m - 1)))
  }

  // ... and an optimizer step, e times over.
  function Epochs(cfg: Cfg, st: St, m: nat, e: nat): (s: St)
    requires Sized(cfg, st)
    ensures Sized(cfg, s)
  {
    if e == 0 then st else Step(cfg, Passes(cfg, Epochs(cfg, st, m, e - 1), m))
  }
}
