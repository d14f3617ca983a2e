/**
  Running all stage programs of the 1F1B schedule at once.

  The applyer executes a stage's items one at a time and waits for every p2p operation, so a transfer
  happens exactly when its two ends are both at it.  A state is the seq of the stages' positions; a
  run is any sequence of enabled steps.  The results: no reachable state is stuck before the end, every
  run is finite, and the k-th send on a link always meets the k-th receive.
*/
module PipelineRun {
  import opened Pipeline
  import opened Radix

  type State = seq<nat>

  datatype Step =
    | Local(stage: nat)       // a stage runs an item of its own
    | ToNext(stage: nat)      // an activation goes from `stage` to `stage + 1`
    | ToPrev(stage: nat)      // a gradient goes from `stage + 1` to `stage`

  ghost predicate Positions(a: Plan, s: State) {
    && |s| == a.stages
    && forall r :: 0 <= r < |s| ==> s[r] <= |Program(a, r)|
  }

  function Init(a: Plan): State { seq(a.stages, _ => 0) }

  ghost predicate Done(a: Plan, s: State) {
    |s| == a.stages && forall r :: 0 <= r < |s| ==> s[r] == |Program(a, r)|
  }

  // Stage r has an item left, and it is of the kind of x.
  predicate FacesKind(a: Plan, s: State, r: nat, x: Item) {
    r < |s| && s[r] < |Program(a, r)| && SameKind(Program(a, r)[s[r]], x)
  }

  predicate Enabled(a: Plan, s: State, st: Step) {
    match st
    case Local(r) => r < |s| && s[r] < |Program(a, r)| && !Program(a, r)[s[r]].P2P()
    case ToNext(r) => FacesKind(a, s, r, Send(Next, 0)) && FacesKind(a, s, r + 1, Recv(Prev, 0))
    case ToPrev(r) => FacesKind(a, s, r, Recv(Next, 0)) && FacesKind(a, s, r + 1, Send(Prev, 0))
  }

  function After(s: State, st: Step): State
    requires st.stage < |s| && (!st.Local? ==> st.stage + 1 < |s|)
  {
    var r := st.stage;
    if st.Local? then s[r := s[r] + 1] else s[r := s[r] + 1][r + 1 := s[r + 1] + 1]
  }

  ghost predicate Run(a: Plan, s: State, steps: seq<Step>, end: State)
    decreases |steps|
  {
    if steps == [] then s == end
    else Enabled(a, s, steps[0]) && Run(a, After(s, steps[0]), steps[1..], end)
  }

  // What stage r has executed so far.
  function Executed(a: Plan, s: State, r: nat): Tally
    requires r < |s| && s[r] <= |Program(a, r)|
  {
    TallyOf(Program(a, r)[..s[r]])
  }

  // On every link both ends have completed the same transfers.
  ghost predicate Balanced(a: Plan, s: State) {
    && Positions(a, s)
    && forall r :: 0 <= r < |s| - 1 ==> LinkBalanced(a, s, r)
  }

  ghost predicate LinkBalanced(a: Plan, s: State, r: nat)
    requires Positions(a, s) && r + 1 < |s|
  {
    && Executed(a, s, r).sendNext == Executed(a, s, r + 1).recvPrev
    && Executed(a, s, r).recvNext == Executed(a, s, r + 1).sendPrev
  }

  lemma InitBalanced(a: Plan)
    ensures Balanced(a, Init(a))
  {
  }

  lemma ExecutedAfter(a: Plan, s: State, r: nat)
    requires Positions(a, s) && r < |s| && s[r] < |Program(a, r)|
    ensures TallyOf(Program(a, r)[..s[r] + 1]) == Executed(a, s, r).Add(Program(a, r)[s[r]])
  {
    hide Program, TallyOf;
    TallyStep(Program(a, r), s[r]);
  }

  lemma StepKeepsBalance(a: Plan, s: State, st: Step)
    requires Balanced(a, s) && Enabled(a, s, st)
    ensures Balanced(a, After(s, st))
  {
    hide Program, TallyOf;
    var r := st.stage;
    ExecutedAfter(a, s, r);
    if !st.Local? { ExecutedAfter(a, s, r + 1); }
    var t := After(s, st);
    forall q | 0 <= q < |t| - 1
      ensures LinkBalanced(a, t, q)
    {
      assert LinkBalanced(a, s, q);
    }
  }

  lemma {:induction false} RunKeepsBalance(a: Plan, s: State, steps: seq<Step>, end: State)
    requires Balanced(a, s) && Run(a, s, steps, end)
    ensures Balanced(a, end)
    decreases |steps|
  {
    hide Program, Balanced, After;
    if steps != [] {
      StepKeepsBalance(a, s, steps[0]);
      RunKeepsBalance(a, After(s, steps[0]), steps[1..], end);
    }
  }

  // ---------- every send meets its receive ----------

  // In a reachable state a transfer joins the k-th send with the k-th receive of that direction, and
  // the two agree on the message size.
  lemma TransfersMatch(a: Plan, steps: seq<Step>, s: State, st: Step)
    requires Run(a, Init(a), steps, s) && Enabled(a, s, st) && !st.Local?
    ensures Balanced(a, s)
    ensures var r := st.stage;
            var x, y := Program(a, r)[s[r]], Program(a, r + 1)[s[r + 1]];
            && y == Dual(x)
            && Executed(a, s, r).Of(x) == Executed(a, s, r + 1).Of(y)
  {
    hide Program, TallyOf, Ordered, ActivationsWithin;
    InitBalanced(a);
    RunKeepsBalance(a, Init(a), steps, s);
    var r := st.stage;
    ProgramShape(a, r);
    ProgramShape(a, r + 1);
    StampBelow(a, r, Program(a, r), 4 * a.microbatches - 2 * r, s[r]);
    StampBelow(a, r + 1, Program(a, r + 1), 4 * a.microbatches - 2 * (r + 1), s[r + 1]);
    assert LinkBalanced(a, s, r);
  }

  // ---------- no deadlock ----------

  predicate Unfinished(a: Plan, s: State, r: nat)
    requires r < |s|
  {
    s[r] < |Program(a, r)|
  }

  // Timestamp of the operation stage r is waiting at.
  function WaitStamp(a: Plan, s: State, r: nat): int
    requires r < |s| && Unfinished(a, s, r)
  {
    StampAt(a, r, Program(a, r), s[r])
  }

  // Among the unfinished stages below n one waits at a smallest timestamp.
  lemma {:induction false} Earliest(a: Plan, s: State, n: nat) returns (r: nat)
    requires n <= |s| && exists q :: 0 <= q < n && Unfinished(a, s, q)
    ensures r < n && Unfinished(a, s, r)
    ensures forall q :: 0 <= q < n && Unfinished(a, s, q) ==> WaitStamp(a, s, r) <= WaitStamp(a, s, q)
  {
    hide Program, Unfinished, WaitStamp;
    if exists q :: 0 <= q < n - 1 && Unfinished(a, s, q) {
      r := Earliest(a, s, n - 1);
      if Unfinished(a, s, n - 1) && WaitStamp(a, s, n - 1) < WaitStamp(a, s, r) {
        r := n - 1;
      }
    } else {
      r := n - 1;
    }
  }

  // Stage q must still do operation number k of kind y, and is not waiting at an earlier timestamp: then
  // it waits at exactly that operation.
  lemma NeighbourReady(a: Plan, s: State, q: nat, y: Item, k: nat, t: int)
    requires q < |s| == a.stages && s[q] <= |Program(a, q)| && y.P2P()
    requires Executed(a, s, q).Of(y) == k < TallyOf(Program(a, q)).Of(y)
    requires Stamp(a, q, y, k) == t
    requires Unfinished(a, s, q) ==> Program(a, q)[s[q]].P2P() && t <= WaitStamp(a, s, q)
    ensures FacesKind(a, s, q, y)
  {
    hide Program, TallyOf, Ordered, ActivationsWithin;
    var prog := Program(a, q);
    var j := FindOp(prog, y, k);
    if j < s[q] {
      TallyStep(prog, j);
      TallyGrows(prog, j + 1, s[q], y);
      assert false;
    }
    if s[q] < j {
      ProgramShape(a, q);
      StampsIncrease(a, q, prog, 4 * a.microbatches - 2 * q, s[q], j);
      assert false;
    }
  }

  // Balanced and not done: some step is enabled.
  lemma Progress(a: Plan, s: State) returns (st: Step)
    requires Balanced(a, s) && !Done(a, s)
    ensures Enabled(a, s, st)
  {
    hide Program, TallyOf;
    if r :| 0 <= r < |s| && Unfinished(a, s, r) && !Program(a, r)[s[r]].P2P() {
      return Local(r);
    }
    var u :| 0 <= u < |s| && s[u] != |Program(a, u)|;
    assert Unfinished(a, s, u);
    var r := Earliest(a, s, |s|);
    st := Partner(a, s, r);
  }

  // The stage waiting at the smallest timestamp finds its neighbour ready.
  lemma Partner(a: Plan, s: State, r: nat) returns (st: Step)
    requires Balanced(a, s) && r < |s| && Unfinished(a, s, r)
    requires forall q :: 0 <= q < |s| && Unfinished(a, s, q) ==>
               Program(a, q)[s[q]].P2P() && WaitStamp(a, s, r) <= WaitStamp(a, s, q)
    ensures Enabled(a, s, st)
  {
    hide Program, TallyOf, Ordered, ActivationsWithin;
    var prog := Program(a, r);
    var x := prog[s[r]];
    var k := Executed(a, s, r).Of(x);
    TallyStep(prog, s[r]);
    TallyGrows(prog, s[r] + 1, |prog|, x);
    assert prog[..|prog|] == prog;
    assert k < TallyOf(prog).Of(x);
    ProgramShape(a, r);
    if x.peer == Next {
      ProgramShape(a, r + 1);
      assert LinkBalanced(a, s, r);
      NeighbourReady(a, s, r + 1, Dual(x), k, WaitStamp(a, s, r));
      st := if x.Send? then ToNext(r) else ToPrev(r);
    } else {
      ProgramShape(a, r - 1);
      assert LinkBalanced(a, s, r - 1);
      NeighbourReady(a, s, r - 1, Dual(x), k, WaitStamp(a, s, r));
      st := if x.Send? then ToPrev(r - 1) else ToNext(r - 1);
    }
  }

  // ---------- every run ends, and only when all stages are done ----------

  // Items left in stages 0 .. n - 1.
  function ItemsLeft(a: Plan, s: State, n: nat): int
    requires n <= |s|
  {
    if n == 0 then 0 else ItemsLeft(a, s, n - 1) + |Program(a, n - 1)| - s[n - 1]
  }

  lemma {:induction false} ItemsLeftUpdate(a: Plan, s: State, n: nat, r: nat)
    requires n <= |s| && r < |s|
    ensures ItemsLeft(a, s[r := s[r] + 1], n) == ItemsLeft(a, s, n) - (if r < n then 1 else 0)
  {
    hide Program;
    if n > 0 { ItemsLeftUpdate(a, s, n - 1, r); }
  }

  lemma {:induction false} ItemsLeftNonNegative(a: Plan, s: State, n: nat)
    requires Positions(a, s) && n <= |s|
    ensures ItemsLeft(a, s, n) >= 0
  {
    hide Program;
    if n > 0 { ItemsLeftNonNegative(a, s, n - 1); }
  }

  lemma StepUsesItems(a: Plan, s: State, st: Step)
    requires Positions(a, s) && Enabled(a, s, st)
    ensures ItemsLeft(a, After(s, st), |s|) < ItemsLeft(a, s, |s|)
  {
    hide Program, ItemsLeft;
    var r := st.stage;
    ItemsLeftUpdate(a, s, |s|, r);
    if !st.Local? { ItemsLeftUpdate(a, s[r := s[r] + 1], |s|, r + 1); }
  }

  lemma {:induction false} RunBounded(a: Plan, s: State, steps: seq<Step>, end: State)
    requires Balanced(a, s) && Run(a, s, steps, end)
    ensures |end| == |s| && |steps| + ItemsLeft(a, end, |end|) <= ItemsLeft(a, s, |s|)
    decreases |steps|
  {
    hide Program, ItemsLeft;
    if steps != [] {
      StepKeepsBalance(a, s, steps[0]);
      StepUsesItems(a, s, steps[0]);
      RunBounded(a, After(s, steps[0]), steps[1..], end);
    }
  }

  // Deadlock freedom.  For every plan and every run of all stages: the run is no longer than the
  // items there are, and where it cannot continue every stage has finished its program.
  lemma DeadlockFree(a: Plan, steps: seq<Step>, s: State)
    requires Run(a, Init(a), steps, s)
    ensures |steps| <= ItemsLeft(a, Init(a), a.stages)
    ensures (forall st :: !Enabled(a, s, st)) ==> Done(a, s)
    ensures Balanced(a, s)
  {
    hide Program, ItemsLeft, TallyOf, Enabled;
    InitBalanced(a);
    RunKeepsBalance(a, Init(a), steps, s);
    RunBounded(a, Init(a), steps, s);
    ItemsLeftNonNegative(a, s, |s|);
    if !Done(a, s) { var st := Progress(a, s); }
  }

  // From every reachable state the run can be continued to completion.
  lemma {:induction false} Completable(a: Plan, s: State) returns (steps: seq<Step>, end: State)
    requires Balanced(a, s)
    ensures Run(a, s, steps, end) && Done(a, end)
    decreases ItemsLeft(a, s, |s|)
  {
    hide Program, ItemsLeft, TallyOf, Balanced, Enabled, Done;
    if Done(a, s) {
      return [], s;
    }
    var st := Progress(a, s);
    CanStep(a, s, st);
    assert st.stage < |s|;
    StepKeepsBalance(a, s, st);
    StepUsesItems(a, s, st);
    ItemsLeftNonNegative(a, s, |s|);
    var rest, e := Completable(a, After(s, st));
    steps, end := [st] + rest, e;
    assert steps[1..] == rest;
  }

  lemma CanStep(a: Plan, s: State, st: Step)
    requires Balanced(a, s) && Enabled(a, s, st)
    ensures Positions(a, s) && st.stage < |s| && (!st.Local? ==> st.stage + 1 < |s|)
  {
  }

  // At any moment of any run stage r holds at most min(P - r, M) activations.
  lemma ActivationsHeld(a: Plan, steps: seq<Step>, s: State, r: nat)
    requires Run(a, Init(a), steps, s) && r < a.stages
    ensures Balanced(a, s)
    ensures 0 <= Executed(a, s, r).fwd - Executed(a, s, r).bwd <= Min(a.stages - r, a.microbatches)
  {
    hide Program, TallyOf, Ordered;
    InitBalanced(a);
    RunKeepsBalance(a, Init(a), steps, s);
    ProgramShape(a, r);
    ActivationBound(Program(a, r), Min(a.stages - r, a.microbatches), s[r]);
  }

  // When all stages are done every link has carried each microbatch's activation and gradient once.
  lemma AllDelivered(a: Plan, s: State, r: nat)
    requires Done(a, s) && r + 1 < a.stages
    ensures Executed(a, s, r).sendNext == Executed(a, s, r + 1).recvPrev == a.microbatches
    ensures Executed(a, s, r).recvNext == Executed(a, s, r + 1).sendPrev == a.microbatches
  {
    hide Program, TallyOf, Ordered, ActivationsWithin;
    ProgramShape(a, r);
    ProgramShape(a, r + 1);
    assert Program(a, r)[..s[r]] == Program(a, r);
    assert Program(a, r + 1)[..s[r + 1]] == Program(a, r + 1);
  }
}
