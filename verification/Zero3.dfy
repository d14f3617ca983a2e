/**
  The ZeRO-3 generator object.  Each method updates the fields in place and is proved to do exactly what
  Zero3Model says.
*/
module Zero3 {
  import opened Zero3Model

  class DeepSpeedStage3 {
    const cfg: Cfg
    var hasBeenAllgather: seq<bool>
    var currentLiveParameters: int
    var paramQueue: seq<Use>
    var mostRecentStep: map<nat, nat>
    var reduceBucket: nat
    var workload: seq<Item>
    ghost var gathers: seq<nat>
    ghost var peak: int
    ghost var mismatched: bool

    ghost function View(): St
      reads this
    {
      St(hasBeenAllgather, currentLiveParameters, paramQueue, mostRecentStep, reduceBucket, workload,
         gathers, peak, mismatched)
    }

    ghost predicate Valid()
      reads this
    {
      Sized(cfg, View())
    }

    constructor (cfg: Cfg)
      requires cfg.Valid()
      ensures this.cfg == cfg && Valid() && View() == Init(cfg)
    {
      this.cfg := cfg;
      hasBeenAllgather := seq(|cfg.params|, _ => false);
      currentLiveParameters, reduceBucket := 0, 0;
      paramQueue, mostRecentStep, workload := [], map[], [];
      gathers, peak, mismatched := seq(|cfg.params|, _ => 0), 0, false;
    }

    method Acquire(p: nat)
      requires Valid() && p < cfg.N()
      modifies this
      ensures Valid() && View() == Zero3Model.Acquire(cfg, old(View()), p)
    {
      hasBeenAllgather := hasBeenAllgather[p := true];
      currentLiveParameters := currentLiveParameters + cfg.params[p].numel;
      gathers := gathers[p := gathers[p] + 1];
      peak := Max(peak, currentLiveParameters);
    }

    method GatherParamDirectly(p: nat)
      requires Valid() && p < cfg.N()
      modifies this
      ensures Valid() && View() == GatherDirectly(cfg, old(View()), p)
    {
      if !hasBeenAllgather[p] {
        workload := workload + [AllGather(cfg.params[p].MsgSize())];
        Acquire(p);
      }
    }

    method GatherParamPrefetch(p: nat)
      requires Valid() && p < cfg.N() && paramQueue != []
      modifies this
      ensures Valid() && View() == GatherPrefetch(cfg, old(View()), p)
    {
      hide Prefetch;
      var prefetchBucket := Batch(0, 0, 0);
      if !hasBeenAllgather[p] {
        prefetchBucket := prefetchBucket.Add(cfg.params[p]);
        var future := paramQueue[0];
        paramQueue := paramQueue[1..];
        mismatched := mismatched || future.param != p;
        Acquire(p);
      }
      prefetchBucket := PrefetchLoop(prefetchBucket);
      if prefetchBucket.count > 0 {
        workload := workload + [AllGather(prefetchBucket.bytes)];
      }
    }

    method PrefetchLoop(start: Batch) returns (batch: Batch)
      requires Valid()
      modifies this
      ensures Valid() && (View(), batch) == Prefetch(cfg, old(View()), start)
    {
      batch := start;
      while |paramQueue| > 0 && batch.numel < cfg.prefetchBucketSize && currentLiveParameters < cfg.maxLive
        invariant Valid() && Prefetch(cfg, View(), batch) == Prefetch(cfg, old(View()), start)
        decreases |paramQueue|
      {
        ghost var before := View();
        ghost var filled := BatchOne(cfg, before, batch);
        var u := paramQueue[0];
        paramQueue := paramQueue[1..];
        var recent := if u.param in mostRecentStep then mostRecentStep[u.param] else -1;
        mostRecentStep := mostRecentStep[u.param := Max(u.step, recent)];
        if !hasBeenAllgather[u.param] {
          batch := batch.Add(cfg.params[u.param]);
          Acquire(u.param);
        }
        assert View() == PrefetchOne(cfg, before) && batch == filled;
      }
    }

    method PartitionParam(p: nat, step: nat)
      requires Valid() && p < cfg.N()
      modifies this
      ensures Valid() && View() == Partition(cfg, old(View()), p, step)
    {
      if |paramQueue| == 0 {
        hasBeenAllgather := hasBeenAllgather[p := false];
        currentLiveParameters := currentLiveParameters - cfg.params[p].numel;
        return;
      }
      if cfg.persistent[p] {
        return;
      }
      if (if p in mostRecentStep then mostRecentStep[p] else -1) > step {
        return;
      }
      hasBeenAllgather := hasBeenAllgather[p := false];
      currentLiveParameters := currentLiveParameters - cfg.params[p].numel;
    }

    method ReduceParamWithBucket(p: nat)
      requires Valid() && p < cfg.N()
      modifies this
      ensures Valid() && View() == ReduceWithBucket(cfg, old(View()), p)
    {
      if cfg.params[p].numel + reduceBucket > cfg.reduceBucketSize {
        workload := workload + [ReduceScatter(reduceBucket * cfg.params[p].elemSize)];
        reduceBucket := cfg.params[p].numel;
      } else {
        reduceBucket := reduceBucket + cfg.params[p].numel;
      }
    }

    method Forward()
      requires Valid()
      modifies this
      ensures Valid() && View() == Zero3Model.Forward(cfg, old(View()))
    {
      hide GatherDirectly, GatherPrefetch, Partition;
      var i := 0;
      while i < |cfg.params|
        invariant i <= |cfg.params| && Valid()
        invariant View() == Uses(cfg, old(View()), 0, i)
      {
        if |paramQueue| == 0 {
          GatherParamDirectly(i);
        } else {
          GatherParamPrefetch(i);
        }
        PartitionParam(i, i);
        i := i + 1;
      }
    }

    method Backward()
      requires Valid()
      modifies this
      ensures Valid() && View() == Zero3Model.Backward(cfg, old(View()))
    {
      hide GatherDirectly, GatherPrefetch, Partition, ReduceWithBucket;
      var n := |cfg.params|;
      var i := 0;
      while i < n
        invariant i <= n && Valid()
        invariant View() == Uses(cfg, old(View()), n, n + i)
      {
        var p := n - 1 - i;
        if |paramQueue| == 0 {
          GatherParamDirectly(p);
        } else {
          GatherParamPrefetch(p);
        }
        PartitionParam(p, i + n);
        ReduceParamWithBucket(p);
        i := i + 1;
      }
      paramQueue := OrderFrom(n, 0);
      mostRecentStep := map[];
    }

    method Step()
      requires Valid()
      modifies this
      ensures Valid() && View() == Zero3Model.Step(cfg, old(View()))
    {
      hide GatherDirectly;
      workload := workload + [ReduceScatter(reduceBucket * 2), AllReduce(1), AllReduce(8)];
      reduceBucket := 0;
      hasBeenAllgather := seq(|cfg.params|, _ => false);
      currentLiveParameters := 0;
      ghost var cleared := View();
      var p := 0;
      while p < |cfg.params|
        invariant p <= |cfg.params| && Valid()
        invariant View() == GatherPersistent(cfg, cleared, p)
      {
        if cfg.persistent[p] {
          GatherParamDirectly(p);
        }
        p := p + 1;
      }
    }

    // The order of calls in a run: forward and backward for every microbatch, then a step, each epoch.
    method Run(epochs: nat, microbatches: nat)
      requires Valid()
      modifies this
      ensures Valid() && View() == Epochs(cfg, old(View()), microbatches, epochs)
    {
      hide Zero3Model.Forward, Zero3Model.Backward, Zero3Model.Step;
      var e := 0;
      while e < epochs
        invariant e <= epochs && Valid()
        invariant View() == Epochs(cfg, old(View()), microbatches, e)
      {
        ghost var start := View();
        var m := 0;
        while m < microbatches
          invariant m <= microbatches && Valid()
          invariant View() == Passes(cfg, start, m)
        {
          Forward();
          Backward();
          m := m + 1;
        }
        Step();
        e := e + 1;
      }
    }
  }
}
