/**
  The 1F1B schedule: the item list one pipeline stage records in its workload.

  `Program(a, r)` is the list stage `r` emits.  The generator class below appends exactly
  that list, loop by loop.  The lemmas give the numbers of the operations in it, the
  timestamps that grow along it, the activation bound and the duality of the two
  ends of a link.
*/
module Pipeline {
  import opened Radix

  datatype Peer = Prev | Next

  // One LogItem of the workload.  `Forward` and `Backward` stand for everything that
  // `model.forward()` and `model.backward()` record: they are local to the stage.
  datatype Item =
    | TpBroadcast(bytes: nat)
    | Forward
    | Backward
    | Send(peer: Peer, bytes: nat)
    | Recv(peer: Peer, bytes: nat)
  {
    predicate P2P() { Send? || Recv? }
  }

  datatype Args = Args(
    stages: nat,
    microbatches: nat,
    worldSize: nat,
    seqLength: nat,
    microBatch: nat,
    hiddenSize: nat)

  // The arguments as far as they shape the schedule: the numbers of stages and microbatches, the size of
  // a p2p message and the size of the second broadcast.
  datatype Plan = Plan(stages: nat, microbatches: nat, bytes: nat, tokenBytes: nat)

  function PlanOf(args: Args): Plan {
    Plan(args.stages, args.microbatches,
         2 * (args.hiddenSize * args.seqLength * args.microBatch),
         8 * (args.worldSize + args.seqLength * args.microBatch))
  }

  function GetPpRank(rank: nat, worldSize: nat, stages: nat): nat
    requires 0 < stages <= worldSize
  {
    rank / (worldSize / stages)
  }

  // ---------- what the three phases append ----------

  function WarmupCount(a: Plan, r: nat): int { Min(a.stages - r - 1, a.microbatches) }

  function Remaining(a: Plan, r: nat): int { a.microbatches - WarmupCount(a, r) }

  function EmitIf(b: bool, prog: seq<Item>, x: Item): seq<Item> { if b then prog + [x] else prog }

  function ForwardStep(a: Plan, prog: seq<Item>): seq<Item> {
    prog + [TpBroadcast(5 * 8)] + [TpBroadcast(a.tokenBytes)] + [Forward]
  }

  function WarmupStep(a: Plan, r: nat, prog: seq<Item>): seq<Item> {
    EmitIf(r != a.stages - 1, ForwardStep(a, EmitIf(r != 0, prog, Recv(Prev, a.bytes))), Send(Next, a.bytes))
  }

  function Warmup(a: Plan, r: nat, n: nat): seq<Item> {
    if n == 0 then [] else WarmupStep(a, r, Warmup(a, r, n - 1))
  }

  function SteadyBase(a: Plan, r: nat): seq<Item> {
    var w := WarmupCount(a, r);
    EmitIf(Remaining(a, r) > 0 && r != 0, Warmup(a, r, if w < 0 then 0 else w), Recv(Prev, a.bytes))
  }

  function ExchangeNext(a: Plan, r: nat, prog: seq<Item>): seq<Item> {
    if r != a.stages - 1 then prog + [Recv(Next, a.bytes)] + [Send(Next, a.bytes)] else prog
  }

  function SteadyStep(a: Plan, r: nat, prog: seq<Item>, last: bool): seq<Item> {
    var p := ExchangeNext(a, r, ForwardStep(a, prog)) + [Backward];
    EmitIf(r != 0 && !last, EmitIf(r != 0, p, Send(Prev, a.bytes)), Recv(Prev, a.bytes))
  }

  function Steady(a: Plan, r: nat, i: nat): seq<Item> {
    if i == 0 then SteadyBase(a, r)
    else SteadyStep(a, r, Steady(a, r, i - 1), i - 1 == Remaining(a, r) - 1)
  }

  function CooldownBase(a: Plan, r: nat): seq<Item> {
    Steady(a, r, if Remaining(a, r) < 0 then 0 else Remaining(a, r))
  }

  function CooldownStep(a: Plan, r: nat, prog: seq<Item>): seq<Item> {
    EmitIf(r != 0, EmitIf(r != a.stages - 1, prog, Recv(Next, a.bytes)) + [Backward], Send(Prev, a.bytes))
  }

  function Cooldown(a: Plan, r: nat, j: nat): seq<Item> {
    if j == 0 then CooldownBase(a, r) else CooldownStep(a, r, Cooldown(a, r, j - 1))
  }

  function Program(a: Plan, r: nat): seq<Item> {
    Cooldown(a, r, if WarmupCount(a, r) < 0 then 0 else WarmupCount(a, r))
  }

  // ---------- the generator ----------

  class MegatronWorkload {
    const args: Args
    var workload: seq<Item>

    constructor (args: Args)
      ensures this.args == args && workload == []
    {
      this.args := args;
      workload := [];
    }

    // Appends one item; `now` is what has been appended since the workload was `before`.
    method Append(x: Item, ghost before: seq<Item>, ghost prog: seq<Item>) returns (ghost now: seq<Item>)
      requires workload == before + prog
      modifies this
      ensures now == prog + [x] && workload == before + now
    {
      workload := workload + [x];
      now := prog + [x];
    }

    method AppendForward(ghost before: seq<Item>, ghost prog: seq<Item>) returns (ghost now: seq<Item>)
      requires workload == before + prog
      modifies this
      ensures now == ForwardStep(PlanOf(args), prog) && workload == before + now
    {
      now := Append(TpBroadcast(5 * 8), before, prog);
      now := Append(TpBroadcast(8 * (args.worldSize + args.seqLength * args.microBatch)), before, now);
      now := Append(Forward, before, now);
    }

    method WarmupItems(ppRank: nat, warmup: int, ghost before: seq<Item>) returns (ghost now: seq<Item>)
      requires workload == before
      requires warmup == WarmupCount(PlanOf(args), ppRank)
      modifies this
      ensures now == Warmup(PlanOf(args), ppRank, if warmup < 0 then 0 else warmup) && workload == before + now
    {
      hide ForwardStep;
      var bytes := 2 * (args.hiddenSize * args.seqLength * args.microBatch);
      now := [];
      var i := 0;
      while i < warmup
        invariant 0 <= i && (i <= warmup || i == 0)
        invariant now == Warmup(PlanOf(args), ppRank, i) && workload == before + now
      {
        if ppRank != 0 {
          now := Append(Recv(Prev, bytes), before, now);
        }
        now := AppendForward(before, now);
        if ppRank != args.stages - 1 {
          now := Append(Send(Next, bytes), before, now);
        }
        i := i + 1;
      }
    }

    method SteadyItems(ppRank: nat, remaining: int, ghost before: seq<Item>, ghost prog: seq<Item>)
      returns (ghost now: seq<Item>)
      requires workload == before + prog && prog == SteadyBase(PlanOf(args), ppRank)
      requires remaining == Remaining(PlanOf(args), ppRank)
      modifies this
      ensures now == CooldownBase(PlanOf(args), ppRank) && workload == before + now
    {
      hide ForwardStep, SteadyBase;
      var bytes := 2 * (args.hiddenSize * args.seqLength * args.microBatch);
      now := prog;
      var i := 0;
      while i < remaining
        invariant 0 <= i && (i <= remaining || i == 0)
        invariant now == Steady(PlanOf(args), ppRank, i) && workload == before + now
      {
        var lastIter := i == remaining - 1;
        now := AppendForward(before, now);
        if ppRank != args.stages - 1 {
          now := Append(Recv(Next, bytes), before, now);
          now := Append(Send(Next, bytes), before, now);
        }
        now := Append(Backward, before, now);
        if ppRank != 0 {
          if lastIter {
            now := Append(Send(Prev, bytes), before, now);
          } else {
            now := Append(Send(Prev, bytes), before, now);
            now := Append(Recv(Prev, bytes), before, now);
          }
        }
        i := i + 1;
      }
    }

    method CooldownItems(ppRank: nat, warmup: int, ghost before: seq<Item>, ghost prog: seq<Item>)
      returns (ghost now: seq<Item>)
      requires workload == before + prog && prog == CooldownBase(PlanOf(args), ppRank)
      requires warmup == WarmupCount(PlanOf(args), ppRank)
      modifies this
      ensures now == Program(PlanOf(args), ppRank) && workload == before + now
    {
      hide CooldownBase;
      var bytes := 2 * (args.hiddenSize * args.seqLength * args.microBatch);
      now := prog;
      var i := 0;
      while i < warmup
        invariant 0 <= i && (i <= warmup || i == 0)
        invariant now == Cooldown(PlanOf(args), ppRank, i) && workload == before + now
      {
        if ppRank != args.stages - 1 {
          now := Append(Recv(Next, bytes), before, now);
        }
        now := Append(Backward, before, now);
        if ppRank != 0 {
          now := Append(Send(Prev, bytes), before, now);
        }
        i := i + 1;
      }
    }

    method WithPipelineForwardBackward(rank: nat)
      requires 0 < args.stages <= args.worldSize
      modifies this
      ensures workload ==
              old(workload) + Program(PlanOf(args), GetPpRank(rank, args.worldSize, args.stages))
    {
      hide Program, CooldownBase, Warmup;
      ghost var before := workload;
      var ppRank := GetPpRank(rank, args.worldSize, args.stages);
      var warmup := Min(args.stages - ppRank - 1, args.microbatches);
      var remaining := args.microbatches - warmup;
      ghost var now := WarmupItems(ppRank, warmup, before);
      if remaining > 0 && ppRank != 0 {
        now := Append(Recv(Prev, 2 * (args.hiddenSize * args.seqLength * args.microBatch)), before, now);
      }
      now := SteadyItems(ppRank, remaining, before, now);
      now := CooldownItems(ppRank, warmup, before, now);
    }
  }

  // ---------- counting operations ----------

  // How many operations of each kind a prefix of a program holds.
  datatype Tally = Tally(sendNext: nat, recvPrev: nat, recvNext: nat, sendPrev: nat, fwd: nat, bwd: nat)
  {
    function Of(x: Item): nat {
      match x
      case Send(Next, _) => sendNext
      case Recv(Prev, _) => recvPrev
      case Recv(Next, _) => recvNext
      case Send(Prev, _) => sendPrev
      case Forward => fwd
      case Backward => bwd
      case TpBroadcast(_) => 0
    }

    function Add(x: Item): Tally {
      match x
      case Send(Next, _) => this.(sendNext := sendNext + 1)
      case Recv(Prev, _) => this.(recvPrev := recvPrev + 1)
      case Recv(Next, _) => this.(recvNext := recvNext + 1)
      case Send(Prev, _) => this.(sendPrev := sendPrev + 1)
      case Forward => this.(fwd := fwd + 1)
      case Backward => this.(bwd := bwd + 1)
      case TpBroadcast(_) => this
    }
  }

  function TallyOf(prog: seq<Item>): Tally {
    if prog == [] then Tally(0, 0, 0, 0, 0, 0)
    else TallyOf(prog[..|prog| - 1]).Add(prog[|prog| - 1])
  }

  // Global time of the k-th operation of this kind at stage r: both ends of a transfer get the
  // same number.
  function Stamp(a: Plan, r: int, x: Item, k: int): int {
    match x
    case Send(Next, _) => ForwardTime(a, k, r)
    case Recv(Prev, _) => ForwardTime(a, k, r - 1)
    case Recv(Next, _) => GradTime(k, r)
    case Send(Prev, _) => GradTime(k, r - 1)
    case _ => 0
  }

  // Activation of microbatch k from stage r to stage r + 1.
  function ForwardTime(a: Plan, k: int, r: int): int { 4 * k + 2 * r - 4 * (a.stages - 1) + 1 }

  // Gradient of microbatch k from stage r + 1 to stage r.
  function GradTime(k: int, r: int): int { 4 * k - 2 * r }

  function StampAt(a: Plan, r: nat, prog: seq<Item>, i: nat): int
    requires i < |prog|
  {
    Stamp(a, r, prog[i], TallyOf(prog[..i]).Of(prog[i]))
  }

  // The p2p operations of `prog` carry messages of the plan's size and have increasing timestamps, all
  // below `bound`.
  ghost predicate Ordered(a: Plan, r: nat, prog: seq<Item>, bound: int) {
    prog != [] ==>
      var n := |prog| - 1;
      if prog[n].P2P() then prog[n].bytes == a.bytes && StampAt(a, r, prog, n) < bound && Ordered(a, r, prog[..n], StampAt(a, r, prog, n))
      else Ordered(a, r, prog[..n], bound)
  }

  // In every prefix the activations held are between 0 and `cap`.
  ghost predicate ActivationsWithin(prog: seq<Item>, cap: int) {
    && 0 <= TallyOf(prog).fwd - TallyOf(prog).bwd <= cap
    && (prog != [] ==> ActivationsWithin(prog[..|prog| - 1], cap))
  }

  lemma Emit(a: Plan, r: nat, prog: seq<Item>, x: Item, bound: int)
    ensures TallyOf(prog + [x]) == TallyOf(prog).Add(x)
    ensures x.P2P() && x.bytes == a.bytes && Ordered(a, r, prog, Stamp(a, r, x, TallyOf(prog).Of(x))) && Stamp(a, r, x, TallyOf(prog).Of(x)) < bound
            ==> Ordered(a, r, prog + [x], bound)
    ensures !x.P2P() && Ordered(a, r, prog, bound) ==> Ordered(a, r, prog + [x], bound)
    ensures forall cap :: ActivationsWithin(prog, cap) && 0 <= TallyOf(prog + [x]).fwd - TallyOf(prog + [x]).bwd <= cap
                          ==> ActivationsWithin(prog + [x], cap)
  {
    assert (prog + [x])[..|prog|] == prog;
  }

  lemma {:induction false} OrderedWeaken(a: Plan, r: nat, prog: seq<Item>, b: int, c: int)
    requires Ordered(a, r, prog, b) && b <= c
    ensures Ordered(a, r, prog, c)
  {
    if prog != [] && !prog[|prog| - 1].P2P() {
      OrderedWeaken(a, r, prog[..|prog| - 1], b, c);
    }
  }

  // Emit, with the bound the program had before.
  lemma EmitAt(a: Plan, r: nat, prog: seq<Item>, x: Item, b: int, cap: int)
    requires Ordered(a, r, prog, b) && ActivationsWithin(prog, cap)
    requires 0 <= TallyOf(prog).Add(x).fwd - TallyOf(prog).Add(x).bwd <= cap
    requires x.P2P() ==> x.bytes == a.bytes && b <= Stamp(a, r, x, TallyOf(prog).Of(x))
    ensures TallyOf(prog + [x]) == TallyOf(prog).Add(x)
    ensures ActivationsWithin(prog + [x], cap)
    ensures Ordered(a, r, prog + [x], if x.P2P() then Stamp(a, r, x, TallyOf(prog).Of(x)) + 1 else b)
  {
    if x.P2P() {
      var t := Stamp(a, r, x, TallyOf(prog).Of(x));
      OrderedWeaken(a, r, prog, b, t);
      Emit(a, r, prog, x, t + 1);
    } else {
      Emit(a, r, prog, x, b);
    }
  }

  // What is known about a prefix of stage r's program: its tally, an upper bound of its timestamps,
  // and the activation bound.
  ghost predicate Built(a: Plan, r: nat, prog: seq<Item>, t: Tally, bound: int) {
    && TallyOf(prog) == t
    && Ordered(a, r, prog, bound)
    && ActivationsWithin(prog, Cap(a, r))
  }

  function Cap(a: Plan, r: int): int { Min(a.stages - r, a.microbatches) }

  function If(b: bool, n: nat): nat { if b then n else 0 }

  lemma ForwardStepBuilt(a: Plan, r: nat, prog: seq<Item>, t: Tally, bound: int)
    requires Built(a, r, prog, t, bound)
    requires 0 <= t.fwd + 1 - t.bwd <= Cap(a, r)
    ensures Built(a, r, ForwardStep(a, prog), t.(fwd := t.fwd + 1), bound)
  {
    var x := TpBroadcast(5 * 8);
    var y := TpBroadcast(a.tokenBytes);
    EmitAt(a, r, prog, x, bound, Cap(a, r));
    EmitAt(a, r, prog + [x], y, bound, Cap(a, r));
    EmitAt(a, r, prog + [x] + [y], Forward, bound, Cap(a, r));
  }

  lemma EmitBuilt(a: Plan, r: nat, b: bool, prog: seq<Item>, x: Item, t: Tally, bound: int, after: int)
    requires Built(a, r, prog, t, bound)
    requires b ==> 0 <= t.Add(x).fwd - t.Add(x).bwd <= Cap(a, r)
    requires b && x.P2P() ==> x.bytes == a.bytes && bound <= Stamp(a, r, x, t.Of(x)) < after
    requires !b || !x.P2P() ==> bound <= after
    ensures Built(a, r, EmitIf(b, prog, x), if b then t.Add(x) else t, after)
  {
    if b {
      EmitAt(a, r, prog, x, bound, Cap(a, r));
      OrderedWeaken(a, r, prog + [x], if x.P2P() then Stamp(a, r, x, t.Of(x)) + 1 else bound, after);
    } else {
      OrderedWeaken(a, r, prog, bound, after);
    }
  }

  lemma EmptyBuilt(a: Plan, r: nat)
    requires r < a.stages
    ensures Built(a, r, [], Tally(0, 0, 0, 0, 0, 0), 2 * r - 4 * a.stages + 3)
  {
  }

  lemma {:induction false} WarmupBuilt(a: Plan, r: nat, n: nat)
    requires r < a.stages && n <= WarmupCount(a, r)
    ensures Built(a, r, Warmup(a, r, n), Tally(n, If(r > 0, n), 0, 0, n, 0), 4 * n + 2 * r - 4 * a.stages + 3)
  {
    hide Built, ForwardStep;
    if n == 0 {
      EmptyBuilt(a, r);
    } else {
      WarmupBuilt(a, r, n - 1);
      var b := 4 * n + 2 * r - 4 * a.stages;
      var p := Warmup(a, r, n - 1);
      var t := Tally(n - 1, If(r > 0, n - 1), 0, 0, n - 1, 0);
      var x := Recv(Prev, a.bytes);
      EmitBuilt(a, r, r != 0, p, x, t, b - 1, b);
      var p1 := EmitIf(r != 0, p, x);
      var t1 := if r != 0 then t.Add(x) else t;
      ForwardStepBuilt(a, r, p1, t1, b);
      EmitBuilt(a, r, true, ForwardStep(a, p1), Send(Next, a.bytes), t1.(fwd := n), b, b + 3);
    }
  }

  // Tally of stage r after its warm-up and i steady iterations.
  function SteadyTally(a: Plan, r: nat, i: nat): Tally
    requires r < a.stages && i <= Remaining(a, r)
  {
    var w := WarmupCount(a, r);
    var got := if i < Remaining(a, r) then w + i + 1 else w + i;
    Tally(If(r < a.stages - 1, w + i), If(r > 0, got), If(r < a.stages - 1, i), If(r > 0, i), w + i, i)
  }

  lemma {:induction false} SteadyBuilt(a: Plan, r: nat, i: nat)
    requires r < a.stages && i <= Remaining(a, r)
    ensures Built(a, r, Steady(a, r, i), SteadyTally(a, r, i), 4 * i - 2 * r)
  {
    hide Built, SteadyStep, Warmup;
    var w := WarmupCount(a, r);
    if i == 0 {
      WarmupBuilt(a, r, w);
      EmitBuilt(a, r, Remaining(a, r) > 0 && r != 0, Warmup(a, r, w), Recv(Prev, a.bytes),
                Tally(w, If(r > 0, w), 0, 0, w, 0), 4 * w + 2 * r - 4 * a.stages + 3, -2 * r);
    } else {
      SteadyBuilt(a, r, i - 1);
      SteadyStepBuilt(a, r, i - 1);
    }
  }

  // The forward half of a steady step, up to the exchange with the next stage.
  lemma ExchangeBuilt(a: Plan, r: nat, prog: seq<Item>, t: Tally, i: nat)
    requires r < a.stages && Built(a, r, prog, t, 4 * i - 2 * r)
    requires t.recvNext == i || r == a.stages - 1
    requires t.sendNext == a.stages - 1 - r + i || r == a.stages - 1
    requires 0 <= t.fwd + 1 - t.bwd <= Cap(a, r)
    ensures Built(a, r, ExchangeNext(a, r, ForwardStep(a, prog)),
                  t.(fwd := t.fwd + 1, recvNext := t.recvNext + If(r < a.stages - 1, 1), sendNext := t.sendNext + If(r < a.stages - 1, 1)),
                  4 * i - 2 * r + 2)
  {
    hide Built, ForwardStep;
    var b := 4 * i - 2 * r;
    var rn, sn := Recv(Next, a.bytes), Send(Next, a.bytes);
    ForwardStepBuilt(a, r, prog, t, b);
    var p1, t1 := ForwardStep(a, prog), t.(fwd := t.fwd + 1);
    var inner := r != a.stages - 1;
    EmitBuilt(a, r, inner, p1, rn, t1, b, b + 1);
    EmitBuilt(a, r, inner, EmitIf(inner, p1, rn), sn, if inner then t1.Add(rn) else t1, b + 1, b + 2);
  }

  // The backward half: the backward pass and the exchange with the previous stage.
  lemma ReturnBuilt(a: Plan, r: nat, last: bool, prog: seq<Item>, t: Tally, i: nat)
    requires r < a.stages && Built(a, r, prog, t, 4 * i - 2 * r + 2)
    requires t.sendPrev == i || r == 0
    requires t.recvPrev == a.stages - r + i || r == 0
    requires 0 <= t.fwd - t.bwd - 1 <= Cap(a, r)
    ensures Built(a, r, EmitIf(r != 0 && !last, EmitIf(r != 0, prog + [Backward], Send(Prev, a.bytes)), Recv(Prev, a.bytes)),
                  t.(bwd := t.bwd + 1, sendPrev := t.sendPrev + If(r != 0, 1), recvPrev := t.recvPrev + If(r != 0 && !last, 1)),
                  4 * (i + 1) - 2 * r)
  {
    hide Built;
    var b := 4 * i - 2 * r + 2;
    var sp, rp := Send(Prev, a.bytes), Recv(Prev, a.bytes);
    EmitBuilt(a, r, true, prog, Backward, t, b, b);
    var p1, t1 := prog + [Backward], t.(bwd := t.bwd + 1);
    EmitBuilt(a, r, r != 0, p1, sp, t1, b, b + 1);
    EmitBuilt(a, r, r != 0 && !last, EmitIf(r != 0, p1, sp), rp, if r != 0 then t1.Add(sp) else t1, b + 1, b + 2);
  }

  lemma SteadyStepBuilt(a: Plan, r: nat, i: nat)
    requires r < a.stages && i < Remaining(a, r)
    requires Built(a, r, Steady(a, r, i), SteadyTally(a, r, i), 4 * i - 2 * r)
    ensures Built(a, r, Steady(a, r, i + 1), SteadyTally(a, r, i + 1), 4 * (i + 1) - 2 * r)
  {
    hide Built, ForwardStep, SteadyBase, ExchangeNext;
    var t := SteadyTally(a, r, i);
    var p := Steady(a, r, i);
    var inner := If(r < a.stages - 1, 1);
    ExchangeBuilt(a, r, p, t, i);
    ReturnBuilt(a, r, i == Remaining(a, r) - 1, ExchangeNext(a, r, ForwardStep(a, p)),
                t.(fwd := t.fwd + 1, recvNext := t.recvNext + inner, sendNext := t.sendNext + inner), i);
  }

  // Tally of stage r when all forwards and m backwards are done.
  function DrainTally(a: Plan, r: nat, m: nat): Tally {
    Tally(If(r < a.stages - 1, a.microbatches), If(r > 0, a.microbatches), If(r < a.stages - 1, m), If(r > 0, m), a.microbatches, m)
  }

  lemma {:induction false} CooldownBuilt(a: Plan, r: nat, j: nat)
    requires r < a.stages && j <= WarmupCount(a, r)
    ensures Built(a, r, Cooldown(a, r, j), DrainTally(a, r, Remaining(a, r) + j), 4 * (Remaining(a, r) + j) - 2 * r)
  {
    hide Built, Steady;
    if j == 0 {
      SteadyBuilt(a, r, Remaining(a, r));
    } else {
      hide CooldownBase;
      CooldownBuilt(a, r, j - 1);
      var m := Remaining(a, r) + j - 1;
      var b := 4 * m - 2 * r;
      var p, t := Cooldown(a, r, j - 1), DrainTally(a, r, m);
      var rn, sp := Recv(Next, a.bytes), Send(Prev, a.bytes);
      EmitBuilt(a, r, true, p, rn, t, b, b + 1);
      EmitBuilt(a, r, true, p + [rn], Backward, t.Add(rn), b + 1, b + 1);
      EmitBuilt(a, r, r != 0, p + [rn] + [Backward], sp, t.Add(rn).Add(Backward), b + 1, b + 4);
    }
  }

  // Stage r's whole program: every operation occurs once a microbatch on each link the stage has, the
  // timestamps increase along it, and it never holds more than min(P - r, M) activations.
  lemma ProgramShape(a: Plan, r: nat)
    requires r < a.stages
    ensures TallyOf(Program(a, r)) ==
            var m := a.microbatches;
            var inner, notFirst := If(r < a.stages - 1, m), If(r > 0, m);
            Tally(inner, notFirst, inner, notFirst, m, m)
    ensures Ordered(a, r, Program(a, r), 4 * a.microbatches - 2 * r)
    ensures ActivationsWithin(Program(a, r), Min(a.stages - r, a.microbatches))
  {
    hide CooldownBase, Ordered, ActivationsWithin;
    CooldownBuilt(a, r, WarmupCount(a, r));
  }

  // ---------- reading the facts off a program ----------

  lemma {:induction false} ActivationBound(prog: seq<Item>, cap: int, i: nat)
    requires ActivationsWithin(prog, cap) && i <= |prog|
    ensures 0 <= TallyOf(prog[..i]).fwd - TallyOf(prog[..i]).bwd <= cap
  {
    if i == |prog| {
      assert prog[..i] == prog;
    } else {
      assert prog[..|prog| - 1][..i] == prog[..i];
      ActivationBound(prog[..|prog| - 1], cap, i);
    }
  }

  lemma {:induction false} StampBelow(a: Plan, r: nat, prog: seq<Item>, bound: int, i: nat)
    requires Ordered(a, r, prog, bound) && i < |prog| && prog[i].P2P()
    ensures prog[i].bytes == a.bytes && StampAt(a, r, prog, i) < bound
  {
    var n := |prog| - 1;
    if i < n {
      assert prog[..n][..i] == prog[..i];
      StampBelow(a, r, prog[..n], if prog[n].P2P() then StampAt(a, r, prog, n) else bound, i);
    }
  }

  lemma {:induction false} StampsIncrease(a: Plan, r: nat, prog: seq<Item>, bound: int, i: nat, j: nat)
    requires Ordered(a, r, prog, bound) && i < j < |prog| && prog[i].P2P() && prog[j].P2P()
    ensures StampAt(a, r, prog, i) < StampAt(a, r, prog, j)
  {
    var n := |prog| - 1;
    assert prog[..n][..i] == prog[..i];
    if j == n {
      StampBelow(a, r, prog[..n], StampAt(a, r, prog, n), i);
    } else {
      assert prog[..n][..j] == prog[..j];
      StampsIncrease(a, r, prog[..n], if prog[n].P2P() then StampAt(a, r, prog, n) else bound, i, j);
    }
  }

  lemma TallyStep(prog: seq<Item>, i: nat)
    requires i < |prog|
    ensures TallyOf(prog[..i + 1]) == TallyOf(prog[..i]).Add(prog[i])
  {
    assert prog[..i + 1][..i] == prog[..i];
  }

  lemma {:induction false} TallyGrows(prog: seq<Item>, i: nat, j: nat, x: Item)
    requires i <= j <= |prog|
    ensures TallyOf(prog[..i]).Of(x) <= TallyOf(prog[..j]).Of(x)
    decreases j
  {
    if i < j {
      TallyStep(prog, j - 1);
      TallyGrows(prog, i, j - 1, x);
    }
  }

  predicate SameKind(x: Item, y: Item) {
    match (x, y)
    case (Send(p, _), Send(q, _)) => p == q
    case (Recv(p, _), Recv(q, _)) => p == q
    case _ => false
  }

  // When more than k operations of a kind occur in all, the one with number k is found.
  lemma {:induction false} FindOp(prog: seq<Item>, x: Item, k: nat) returns (j: nat)
    requires x.P2P() && k < TallyOf(prog).Of(x)
    ensures j < |prog| && SameKind(prog[j], x) && TallyOf(prog[..j]).Of(x) == k
  {
    var n := |prog| - 1;
    if k < TallyOf(prog[..n]).Of(x) {
      j := FindOp(prog[..n], x, k);
      assert prog[..n][..j] == prog[..j];
    } else {
      j := n;
    }
  }

  // ---------- the two ends of a link ----------

  // The p2p operations of a program towards one neighbour, in order.
  function LinkOps(prog: seq<Item>, peer: Peer): seq<Item> {
    if prog == [] then []
    else
      var n := |prog| - 1;
      var x := prog[n];
      if x.P2P() && x.peer == peer then LinkOps(prog[..n], peer) + [x] else LinkOps(prog[..n], peer)
  }

  // What the other end of the link has to do for `x`.
  function Dual(x: Item): Item
    requires x.P2P()
  {
    var other := if x.peer == Next then Prev else Next;
    if x.Send? then Recv(other, x.bytes) else Send(other, x.bytes)
  }

  ghost predicate DualSeqs(near: seq<Item>, far: seq<Item>) {
    && |near| == |far|
    && forall i :: 0 <= i < |near| ==> near[i].P2P() && far[i] == Dual(near[i])
  }

  lemma LinkEmpty(peer: Peer)
    ensures LinkOps([], peer) == []
  {
  }

  lemma LinkEmit(prog: seq<Item>, x: Item, peer: Peer)
    ensures LinkOps(prog + [x], peer) ==
            if x.P2P() && x.peer == peer then LinkOps(prog, peer) + [x] else LinkOps(prog, peer)
  {
    assert (prog + [x])[..|prog|] == prog;
  }

  lemma LinkForwardStep(a: Plan, prog: seq<Item>, peer: Peer)
    ensures LinkOps(ForwardStep(a, prog), peer) == LinkOps(prog, peer)
  {
    hide LinkOps;
    var x := TpBroadcast(5 * 8);
    var y := TpBroadcast(a.tokenBytes);
    LinkEmit(prog, x, peer);
    LinkEmit(prog + [x], y, peer);
    LinkEmit(prog + [x] + [y], Forward, peer);
  }

  lemma LinkWarmupStep(a: Plan, r: nat, prog: seq<Item>)
    ensures LinkOps(WarmupStep(a, r, prog), Next) ==
            EmitIf(r != a.stages - 1, LinkOps(prog, Next), Send(Next, a.bytes))
    ensures LinkOps(WarmupStep(a, r, prog), Prev) ==
            EmitIf(r != 0, LinkOps(prog, Prev), Recv(Prev, a.bytes))
  {
    hide LinkOps, ForwardStep;
    var x, y := Recv(Prev, a.bytes), Send(Next, a.bytes);
    var p1 := EmitIf(r != 0, prog, x);
    var p2 := ForwardStep(a, p1);
    LinkEmit(prog, x, Next); LinkEmit(prog, x, Prev);
    LinkForwardStep(a, p1, Next); LinkForwardStep(a, p1, Prev);
    LinkEmit(p2, y, Next); LinkEmit(p2, y, Prev);
  }

  lemma LinkSteadyStep(a: Plan, r: nat, prog: seq<Item>, last: bool)
    ensures LinkOps(SteadyStep(a, r, prog, last), Next) == ExchangeNext(a, r, LinkOps(prog, Next))
    ensures LinkOps(SteadyStep(a, r, prog, last), Prev) ==
            EmitIf(r != 0 && !last, EmitIf(r != 0, LinkOps(prog, Prev), Send(Prev, a.bytes)), Recv(Prev, a.bytes))
  {
    hide LinkOps, ForwardStep;
    var rn, sn, sp, rp := Recv(Next, a.bytes), Send(Next, a.bytes), Send(Prev, a.bytes), Recv(Prev, a.bytes);
    var p1 := ForwardStep(a, prog);
    var p2 := ExchangeNext(a, r, p1);
    var p3 := p2 + [Backward];
    var p4 := EmitIf(r != 0, p3, sp);
    LinkForwardStep(a, prog, Next); LinkForwardStep(a, prog, Prev);
    LinkEmit(p1, rn, Next); LinkEmit(p1, rn, Prev);
    LinkEmit(p1 + [rn], sn, Next); LinkEmit(p1 + [rn], sn, Prev);
    LinkEmit(p2, Backward, Next); LinkEmit(p2, Backward, Prev);
    LinkEmit(p3, sp, Next); LinkEmit(p3, sp, Prev);
    LinkEmit(p4, rp, Next); LinkEmit(p4, rp, Prev);
  }

  lemma LinkCooldownStep(a: Plan, r: nat, prog: seq<Item>)
    ensures LinkOps(CooldownStep(a, r, prog), Next) ==
            EmitIf(r != a.stages - 1, LinkOps(prog, Next), Recv(Next, a.bytes))
    ensures LinkOps(CooldownStep(a, r, prog), Prev) ==
            EmitIf(r != 0, LinkOps(prog, Prev), Send(Prev, a.bytes))
  {
    hide LinkOps;
    var rn, sp := Recv(Next, a.bytes), Send(Prev, a.bytes);
    var p1 := EmitIf(r != a.stages - 1, prog, rn);
    LinkEmit(prog, rn, Next); LinkEmit(prog, rn, Prev);
    LinkEmit(p1, Backward, Next); LinkEmit(p1, Backward, Prev);
    LinkEmit(p1 + [Backward], sp, Next); LinkEmit(p1 + [Backward], sp, Prev);
  }

  lemma {:induction false} DualWarmup(a: Plan, r: nat, n: nat)
    requires r + 1 < a.stages
    ensures DualSeqs(LinkOps(Warmup(a, r, n), Next), LinkOps(Warmup(a, r + 1, n), Prev))
  {
    hide LinkOps, WarmupStep;
    if n == 0 {
      LinkEmpty(Next);
      LinkEmpty(Prev);
    } else {
      DualWarmup(a, r, n - 1);
      LinkWarmupStep(a, r, Warmup(a, r, n - 1));
      LinkWarmupStep(a, r + 1, Warmup(a, r + 1, n - 1));
    }
  }

  lemma {:induction false} LinkWarmupSplit(a: Plan, r: nat, n: nat)
    requires r + 1 < a.stages && n > 0
    ensures LinkOps(Warmup(a, r, n), Next) == LinkOps(Warmup(a, r, n - 1), Next) + [Send(Next, a.bytes)]
  {
    LinkWarmupStep(a, r, Warmup(a, r, n - 1));
  }

  // Stage r is in its steady phase: stage r + 1 has one warm-up microbatch less and one steady one more.
  lemma {:induction false} DualSteady(a: Plan, r: nat, i: nat)
    requires r + 1 < a.stages && i <= Remaining(a, r) && WarmupCount(a, r) == a.stages - r - 1
    ensures DualSeqs(LinkOps(Steady(a, r, i), Next), LinkOps(Steady(a, r + 1, i), Prev))
  {
    hide LinkOps, SteadyStep, Warmup;
    if i == 0 {
      var w := WarmupCount(a, r);
      DualWarmup(a, r, w - 1);
      LinkWarmupSplit(a, r, w);
      LinkEmit(Warmup(a, r, w), Recv(Prev, a.bytes), Next);
      LinkEmit(Warmup(a, r + 1, w - 1), Recv(Prev, a.bytes), Prev);
    } else {
      DualSteady(a, r, i - 1);
      LinkSteadyStep(a, r, Steady(a, r, i - 1), i - 1 == Remaining(a, r) - 1);
      LinkSteadyStep(a, r + 1, Steady(a, r + 1, i - 1), i - 1 == Remaining(a, r + 1) - 1);
    }
  }

  // The cool-downs: stage r drains `j` gradients while stage r + 1 drains `k`.
  lemma {:induction false} DualCooldown(a: Plan, r: nat, j: nat, k: nat)
    requires r + 1 < a.stages && k <= j
    requires DualSeqs(LinkOps(Cooldown(a, r, j - k), Next), LinkOps(Cooldown(a, r + 1, 0), Prev))
    ensures DualSeqs(LinkOps(Cooldown(a, r, j), Next), LinkOps(Cooldown(a, r + 1, k), Prev))
    decreases k
  {
    hide LinkOps, CooldownStep, CooldownBase;
    if k > 0 {
      DualCooldown(a, r, j - 1, k - 1);
      LinkCooldownStep(a, r, Cooldown(a, r, j - 1));
      LinkCooldownStep(a, r + 1, Cooldown(a, r + 1, k - 1));
    }
  }

  // Link duality: what stage r does on its link to r + 1 is, operation by operation, the dual of what
  // stage r + 1 does on that link.
  lemma LinkDuality(a: Plan, r: nat)
    requires r + 1 < a.stages
    ensures DualSeqs(LinkOps(Program(a, r), Next), LinkOps(Program(a, r + 1), Prev))
  {
    hide LinkOps, SteadyStep, Warmup;
    var w, v := WarmupCount(a, r), WarmupCount(a, r + 1);
    if w == a.stages - r - 1 {
      var m := Remaining(a, r);
      DualSteady(a, r, m);
      LinkSteadyStep(a, r + 1, Steady(a, r + 1, m), true);
      LinkCooldownStep(a, r, Cooldown(a, r, 0));
      DualCooldown(a, r, w, v);
    } else {
      DualWarmup(a, r, w);
      LinkEmit(Warmup(a, r, w), Recv(Prev, a.bytes), Next);
      DualCooldown(a, r, w, v);
    }
  }
}
