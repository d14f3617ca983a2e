/**
  Persistent parameters of the ZeRO-3 generator, and the checks of its steps.
*/
module Zero3Persistent {
  import opened Zero3Model
  import opened Zero3Safety
  import opened Zero3Messages

  // ---------- persistent parameters ----------

  lemma {:induction false} PersistentGathered(cfg: Cfg, st: St, p: nat)
    requires Sized(cfg, st) && p <= cfg.N()
    ensures var s := GatherPersistent(cfg, st, p);
            && s.queue == st.queue
            && forall x :: 0 <= x < cfg.N() ==> (s.gathered[x] <==> st.gathered[x] || (x < p && cfg.persistent[x]))
  {
    if p > 0 { PersistentGathered(cfg, st, p - 1); }
  }

  // After a step exactly the persistent parameters are gathered.
  lemma StepGathers(cfg: Cfg, st: St)
    requires Sized(cfg, st)
    ensures Step(cfg, st).gathered == cfg.persistent && Step(cfg, st).queue == st.queue
  {
    hide GatherPersistent;
    PersistentGathered(cfg, st.(log := st.log + [ReduceScatter(st.bucket * 2), AllReduce(1), AllReduce(8)], bucket := 0,
                                gathered := seq(cfg.N(), _ => false), live := 0), cfg.N());
  }

  // A use never fills the queue, and keeps what is gathered but its own parameter.
  lemma GatherKeeps(cfg: Cfg, st: St, p: nat, x: nat)
    requires Sized(cfg, st) && p < cfg.N() && x < cfg.N()
    ensures Gather(cfg, st, p).queue != [] ==> st.queue != []
    ensures st.gathered[x] || x == p ==> Gather(cfg, st, p).gathered[x]
  {
    hide Prefetch, Brings, StopsAfter;
    if st.queue != [] {
      var j := GatherTakes(cfg, st, p);
    }
  }

  // While the queue lasts a persistent parameter stays gathered, whatever is used.
  lemma {:induction false} PersistentHeld(cfg: Cfg, st: St, lo: nat, hi: nat, x: nat)
    requires Sized(cfg, st) && lo <= hi <= 2 * cfg.N() && x < cfg.N()
    requires cfg.persistent[x] && st.gathered[x] && Uses(cfg, st, lo, hi).queue != []
    ensures Uses(cfg, st, lo, hi).gathered[x]
    decreases hi
  {
    hide Gather;
    if lo < hi {
      var s := Uses(cfg, st, lo, hi - 1);
      GatherKeeps(cfg, s, ParamAt(cfg.N(), hi - 1), x);
      PersistentHeld(cfg, st, lo, hi - 1, x);
    }
  }

  // When the queue is used up, or not there yet, the parameter in use is released, persistent or not.
  lemma UsedReleased(cfg: Cfg, st: St, k: nat)
    requires Sized(cfg, st) && k < 2 * cfg.N() && UseParam(cfg, st, k).queue == []
    ensures !UseParam(cfg, st, k).gathered[ParamAt(cfg.N(), k)]
  {
    hide Gather;
  }

  // ---------- the checks of the steps ----------

  function Checks(log: seq<Item>): seq<Item> {
    if log == [] then []
    else Checks(log[..|log| - 1]) + if log[|log| - 1].AllReduce? then [log[|log| - 1]] else []
  }

  lemma ChecksAppend(log: seq<Item>, x: Item)
    ensures Checks(log + [x]) == Checks(log) + if x.AllReduce? then [x] else []
  {
    assert (log + [x])[..|log|] == log;
  }

  lemma UseChecks(cfg: Cfg, st: St, k: nat)
    requires Sized(cfg, st) && k < 2 * cfg.N()
    ensures Checks(UseParam(cfg, st, k).log) == Checks(st.log)
  {
    hide Checks, Prefetch, Brings, StopsAfter, Fetched;
    var p := ParamAt(cfg.N(), k);
    var g := Gather(cfg, st, p);
    if st.queue == [] {
      ChecksAppend(st.log, AllGather(cfg.params[p].MsgSize()));
    } else {
      var j := GatherTakes(cfg, st, p);
      var more := Brings(cfg, Bytes, st.gathered[p := true], Behind(st, p), j);
      ChecksAppend(st.log, AllGather(Own(cfg, st, Bytes, p) + more));
      assert st.log + [] == st.log;
    }
    hide Gather;
    ChecksAppend(g.log, ReduceScatter(g.bucket * cfg.params[p].elemSize));
    assert Checks(UseParam(cfg, st, k).log) == Checks(g.log);
  }

  lemma {:induction false} UsesChecks(cfg: Cfg, st: St, lo: nat, hi: nat)
    requires Sized(cfg, st) && lo <= hi <= 2 * cfg.N()
    ensures Checks(Uses(cfg, st, lo, hi).log) == Checks(st.log)
    decreases hi
  {
    hide Checks, UseParam;
    if lo < hi {
      UsesChecks(cfg, st, lo, hi - 1);
      UseChecks(cfg, Uses(cfg, st, lo, hi - 1), hi - 1);
    }
  }

  lemma {:induction false} PersistentChecks(cfg: Cfg, st: St, p: nat)
    requires Sized(cfg, st) && p <= cfg.N()
    ensures Checks(GatherPersistent(cfg, st, p).log) == Checks(st.log)
  {
    hide Checks;
    if p > 0 {
      PersistentChecks(cfg, st, p - 1);
      ChecksAppend(GatherPersistent(cfg, st, p - 1).log, AllGather(cfg.params[p - 1].MsgSize()));
    }
  }

  // The checks that the steps of a run make: the overflow flag, then the norm.
  function ChecksOf(phases: seq<Phase>): seq<Item> {
    if phases == [] then []
    else ChecksOf(phases[..|phases| - 1]) + if phases[|phases| - 1].StepPhase? then [AllReduce(1), AllReduce(8)] else []
  }

  // In every run there are two all-reduces a step, of one and of eight bytes, and no others.
  lemma {:induction false} RunChecks(cfg: Cfg, phases: seq<Phase>)
    requires cfg.Valid()
    ensures Checks(RunAll(cfg, Init(cfg), phases).log) == ChecksOf(phases)
  {
    hide Checks, Uses, GatherPersistent;
    if phases == [] {
      NoChecks();
    } else {
      var rest := phases[..|phases| - 1];
      RunChecks(cfg, rest);
      var st := RunAll(cfg, Init(cfg), rest);
      match phases[|phases| - 1]
      case ForwardPhase => UsesChecks(cfg, st, 0, cfg.N());
      case BackwardPhase => UsesChecks(cfg, st, cfg.N(), 2 * cfg.N());
      case StepPhase => StepChecks(cfg, st);
    }
  }

  lemma NoChecks()
    ensures Checks([]) == []
  {
  }

  lemma StepChecks(cfg: Cfg, st: St)
    requires Sized(cfg, st)
    ensures Checks(Step(cfg, st).log) == Checks(st.log) + [AllReduce(1), AllReduce(8)]
  {
    hide Checks, GatherPersistent;
    var a, b, c := ReduceScatter(st.bucket * 2), AllReduce(1), AllReduce(8);
    ChecksAppend(st.log, a);
    ChecksAppend(st.log + [a], b);
    ChecksAppend(st.log + [a] + [b], c);
    assert st.log + [a] + [b] + [c] == st.log + [a, b, c];
    PersistentChecks(cfg, st.(log := st.log + [a, b, c], bucket := 0, gathered := seq(cfg.N(), _ => false), live := 0),
                     cfg.N());
  }
}
