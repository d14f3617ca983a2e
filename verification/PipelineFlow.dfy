/**
  The data flow of the 1F1B schedule: a stage computes on what it has received, sends what it has computed, and runs its
  backward passes in the order the schedule is named for.
*/
module PipelineFlow {
  import opened Radix
  import opened Pipeline
  import opened PipelineRun

  // ---------- one stage ----------

  // Each activation is received before it is used and used before it is sent on, and so is each gradient; at most one
  // of either waits at a stage.
  predicate Flows(a: Plan, r: nat, t: Tally) {
    && (r > 0 ==> t.fwd <= t.recvPrev <= t.fwd + 1 && t.sendPrev <= t.bwd <= t.sendPrev + 1)
    && (r + 1 < a.stages ==> t.sendNext <= t.fwd <= t.sendNext + 1 && t.bwd <= t.recvNext <= t.bwd + 1)
  }

  // The item x comes at its time, after prog: backward pass k after the first P - r + k forward passes, or all of them,
  // and a forward pass after its two broadcasts.
  ghost predicate InTurn(a: Plan, r: nat, prog: seq<Item>, x: Item) {
    && (x == Backward ==> TallyOf(prog).fwd == Min(a.stages - r + TallyOf(prog).bwd, a.microbatches))
    && (x == Forward ==>
          |prog| >= 2 && prog[|prog| - 2] == TpBroadcast(5 * 8) && prog[|prog| - 1] == TpBroadcast(a.tokenBytes))
  }

  ghost predicate Sound(a: Plan, r: nat, prog: seq<Item>) {
    && Flows(a, r, TallyOf(prog))
    && (prog != [] ==> Sound(a, r, prog[..|prog| - 1]) && InTurn(a, r, prog[..|prog| - 1], prog[|prog| - 1]))
  }

  function Sum(t: Tally): nat { t.sendNext + t.recvPrev + t.recvNext + t.sendPrev + t.fwd + t.bwd }

  // A prefix of a program, its tally and its broadcasts.
  ghost predicate Flow(a: Plan, r: nat, prog: seq<Item>, t: Tally, broadcasts: nat) {
    TallyOf(prog) == t && Sound(a, r, prog) && |prog| == Sum(t) + broadcasts
  }

  lemma EmitFlow(a: Plan, r: nat, prog: seq<Item>, x: Item, t: Tally, n: nat)
    requires Flow(a, r, prog, t, n) && Flows(a, r, t.Add(x)) && InTurn(a, r, prog, x)
    ensures Flow(a, r, prog + [x], t.Add(x), if x.TpBroadcast? then n + 1 else n)
  {
    assert (prog + [x])[..|prog|] == prog;
  }

  lemma EmitIfFlow(a: Plan, r: nat, b: bool, prog: seq<Item>, x: Item, t: Tally, n: nat)
    requires Flow(a, r, prog, t, n) && x.P2P() && (b ==> Flows(a, r, t.Add(x)))
    ensures Flow(a, r, EmitIf(b, prog, x), if b then t.Add(x) else t, n)
  {
    hide Flow, Flows;
    if b { EmitFlow(a, r, prog, x, t, n); }
  }

  lemma ForwardFlow(a: Plan, r: nat, prog: seq<Item>, t: Tally, n: nat)
    requires Flow(a, r, prog, t, n) && Flows(a, r, t) && Flows(a, r, t.(fwd := t.fwd + 1))
    ensures Flow(a, r, ForwardStep(a, prog), t.(fwd := t.fwd + 1), n + 2)
  {
    hide Flow, Flows;
    var x, y := TpBroadcast(5 * 8), TpBroadcast(a.tokenBytes);
    EmitFlow(a, r, prog, x, t, n);
    EmitFlow(a, r, prog + [x], y, t, n + 1);
    EmitFlow(a, r, prog + [x] + [y], Forward, t, n + 2);
  }

  lemma BackwardFlow(a: Plan, r: nat, prog: seq<Item>, t: Tally, n: nat)
    requires Flow(a, r, prog, t, n) && Flows(a, r, t.(bwd := t.bwd + 1))
    requires t.fwd == Min(a.stages - r + t.bwd, a.microbatches)
    ensures Flow(a, r, prog + [Backward], t.(bwd := t.bwd + 1), n)
  {
    EmitFlow(a, r, prog, Backward, t, n);
  }

  lemma {:induction false} WarmupFlow(a: Plan, r: nat, n: nat)
    requires r < a.stages && n <= WarmupCount(a, r)
    ensures Flow(a, r, Warmup(a, r, n), Tally(n, If(r > 0, n), 0, 0, n, 0), 2 * n)
  {
    hide Flow, ForwardStep;
    if n == 0 {
      EmptyFlow(a, r);
    } else {
      WarmupFlow(a, r, n - 1);
      var p := Warmup(a, r, n - 1);
      var t := Tally(n - 1, If(r > 0, n - 1), 0, 0, n - 1, 0);
      var x := Recv(Prev, a.bytes);
      EmitIfFlow(a, r, r != 0, p, x, t, 2 * n - 2);
      var p1 := EmitIf(r != 0, p, x);
      var t1 := if r != 0 then t.Add(x) else t;
      ForwardFlow(a, r, p1, t1, 2 * n - 2);
      EmitIfFlow(a, r, true, ForwardStep(a, p1), Send(Next, a.bytes), t1.(fwd := n), 2 * n);
    }
  }

  lemma EmptyFlow(a: Plan, r: nat)
    ensures Flow(a, r, [], Tally(0, 0, 0, 0, 0, 0), 0)
  {
  }

  lemma {:induction false} SteadyFlow(a: Plan, r: nat, i: nat)
    requires r < a.stages && i <= Remaining(a, r)
    ensures Flow(a, r, Steady(a, r, i), SteadyTally(a, r, i), 2 * (WarmupCount(a, r) + i))
  {
    hide Flow, SteadyStep, Warmup;
    var w := WarmupCount(a, r);
    if i == 0 {
      WarmupFlow(a, r, w);
      EmitIfFlow(a, r, Remaining(a, r) > 0 && r != 0, Warmup(a, r, w), Recv(Prev, a.bytes),
                 Tally(w, If(r > 0, w), 0, 0, w, 0), 2 * w);
    } else {
      SteadyFlow(a, r, i - 1);
      SteadyStepFlow(a, r, i - 1);
    }
  }

  lemma SteadyStepFlow(a: Plan, r: nat, i: nat)
    requires r < a.stages && i < Remaining(a, r)
    requires Flow(a, r, Steady(a, r, i), SteadyTally(a, r, i), 2 * (WarmupCount(a, r) + i))
    ensures Flow(a, r, Steady(a, r, i + 1), SteadyTally(a, r, i + 1), 2 * (WarmupCount(a, r) + i + 1))
  {
    hide Flow, ForwardStep, SteadyBase;
    var t, p := SteadyTally(a, r, i), Steady(a, r, i);
    var n := 2 * (WarmupCount(a, r) + i);
    var inner, last := r != a.stages - 1, i == Remaining(a, r) - 1;
    var rn, sn, sp, rp := Recv(Next, a.bytes), Send(Next, a.bytes), Send(Prev, a.bytes), Recv(Prev, a.bytes);
    ForwardFlow(a, r, p, t, n);
    var p1, t1 := ForwardStep(a, p), t.(fwd := t.fwd + 1);
    EmitIfFlow(a, r, inner, p1, rn, t1, n + 2);
    var p2, t2 := EmitIf(inner, p1, rn), if inner then t1.Add(rn) else t1;
    EmitIfFlow(a, r, inner, p2, sn, t2, n + 2);
    var p3, t3 := EmitIf(inner, p2, sn), if inner then t2.Add(sn) else t2;
    BackwardFlow(a, r, p3, t3, n + 2);
    var p4, t4 := p3 + [Backward], t3.(bwd := t3.bwd + 1);
    EmitIfFlow(a, r, r != 0, p4, sp, t4, n + 2);
    EmitIfFlow(a, r, r != 0 && !last, EmitIf(r != 0, p4, sp), rp, if r != 0 then t4.Add(sp) else t4, n + 2);
  }

  lemma {:induction false} CooldownFlow(a: Plan, r: nat, j: nat)
    requires r < a.stages && j <= WarmupCount(a, r)
    ensures Flow(a, r, Cooldown(a, r, j), DrainTally(a, r, Remaining(a, r) + j), 2 * a.microbatches)
  {
    hide Flow, Steady;
    if j == 0 {
      SteadyFlow(a, r, Remaining(a, r));
    } else {
      hide CooldownBase;
      CooldownFlow(a, r, j - 1);
      var m := Remaining(a, r) + j - 1;
      var p, t := Cooldown(a, r, j - 1), DrainTally(a, r, m);
      var rn, sp := Recv(Next, a.bytes), Send(Prev, a.bytes);
      EmitIfFlow(a, r, r != a.stages - 1, p, rn, t, 2 * a.microbatches);
      BackwardFlow(a, r, p + [rn], t.Add(rn), 2 * a.microbatches);
      EmitIfFlow(a, r, r != 0, p + [rn] + [Backward], sp, t.Add(rn).Add(Backward), 2 * a.microbatches);
    }
  }

  lemma ProgramFlow(a: Plan, r: nat)
    requires r < a.stages
    ensures Sound(a, r, Program(a, r))
    ensures |Program(a, r)| == Sum(TallyOf(Program(a, r))) + 2 * a.microbatches
  {
    hide CooldownBase, Sound, Cooldown;
    CooldownFlow(a, r, WarmupCount(a, r));
  }

  lemma {:induction false} SoundAt(a: Plan, r: nat, prog: seq<Item>, i: nat)
    requires Sound(a, r, prog) && i <= |prog|
    ensures Flows(a, r, TallyOf(prog[..i]))
    ensures i < |prog| ==> InTurn(a, r, prog[..i], prog[i])
  {
    hide Flows, InTurn;
    if i == |prog| {
      assert prog[..i] == prog;
    } else {
      assert prog[..|prog| - 1][..i] == prog[..i];
      SoundAt(a, r, prog[..|prog| - 1], i);
    }
  }

  // In every prefix of every stage's program: no forward pass without its activation from the previous stage, none sent
  // on that is not computed, no backward pass without its gradient from the next stage, and none sent back that is not
  // computed.
  lemma ComputesReceived(a: Plan, r: nat, i: nat)
    requires r < a.stages && i <= |Program(a, r)|
    ensures var t := TallyOf(Program(a, r)[..i]);
            && (r > 0 ==> t.fwd <= t.recvPrev <= t.fwd + 1 && t.sendPrev <= t.bwd <= t.sendPrev + 1)
            && (r + 1 < a.stages ==> t.sendNext <= t.fwd <= t.sendNext + 1 && t.bwd <= t.recvNext <= t.bwd + 1)
  {
    hide Program, Sound, TallyOf;
    ProgramFlow(a, r);
    SoundAt(a, r, Program(a, r), i);
  }

  // One forward, one backward: backward pass k of stage r comes after exactly its first min(P - r + k, M) forward
  // passes, and each forward pass right after its two broadcasts, of which there are no others.
  lemma OneForwardOneBackward(a: Plan, r: nat, i: nat)
    requires r < a.stages && i < |Program(a, r)|
    ensures var prog := Program(a, r); var t := TallyOf(prog[..i]);
            && (prog[i] == Backward ==> t.fwd == Min(a.stages - r + t.bwd, a.microbatches))
            && (prog[i] == Forward ==>
                  i >= 2 && prog[i - 2] == TpBroadcast(5 * 8) && prog[i - 1] == TpBroadcast(a.tokenBytes))
            && |prog| == Sum(TallyOf(prog)) + 2 * a.microbatches
  {
    hide Program, Sound, TallyOf, Flows;
    ProgramFlow(a, r);
    SoundAt(a, r, Program(a, r), i);
  }

  // ---------- all stages ----------

  // At every moment of every run: a stage has done no more forward passes than any stage before it, and no more
  // backward passes than any stage after it.  The k-th pass of a stage comes after the k-th pass it depends on.
  lemma {:induction false} PassesInOrder(a: Plan, steps: seq<Step>, s: State, q: nat, r: nat)
    requires Run(a, Init(a), steps, s) && q <= r < a.stages
    ensures Balanced(a, s)
    ensures Executed(a, s, r).fwd <= Executed(a, s, q).fwd && Executed(a, s, q).bwd <= Executed(a, s, r).bwd
    decreases r - q
  {
    hide Program, TallyOf, Run;
    InitBalanced(a);
    RunKeepsBalance(a, Init(a), steps, s);
    if q < r {
      PassesInOrder(a, steps, s, q, r - 1);
      ComputesReceived(a, r, s[r]);
      ComputesReceived(a, r - 1, s[r - 1]);
      assert LinkBalanced(a, s, r - 1);
    }
  }
}
