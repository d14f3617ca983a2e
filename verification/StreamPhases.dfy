/**
  Each stream by itself: when stream numbers are not given twice, the phases that a stream has ended are the ones of
  its plan, in order, each once.
*/
module StreamPhases {
  import opened StreamModel
  import opened StreamSafety

  // The queue that a step ends a phase of stream k in.
  function Visit(c: Cfg, before: seq<Step>, step: Step, k: nat): seq<nat> {
    var o := After(c, before);
    if step.Proceed? && o.State? && Enabled(c, o.s, step) && o.s.active[step.queue][step.index].id == k then [step.queue]
    else []
  }

  // The queues that stream k has ended a phase in, in order.
  function Visits(c: Cfg, steps: seq<Step>, k: nat): seq<nat> {
    if steps == [] then []
    else Visits(c, steps[..|steps| - 1], k) + Visit(c, steps[..|steps| - 1], steps[|steps| - 1], k)
  }

  function Number(k: nat): Measure { DataSet(k, k + 1) }

  // ---------- counting one number ----------

  lemma {:induction false} TallyMember(m: Measure, list: seq<Stream>, i: nat)
    requires (Lasting(m) || m.Nothing? || m.InStep?) && i < |list|
    ensures Tally(m, list) >= Weight(m, list[i]) >= 0
    decreases |list|
  {
    TallyPositive(m, list[..|list| - 1]);
    if i < |list| - 1 { TallyMember(m, list[..|list| - 1], i); }
  }

  lemma {:induction false} AllMember(m: Measure, lists: seq<seq<Stream>>, q: nat)
    requires (Lasting(m) || m.Nothing? || m.InStep?) && q < |lists|
    ensures All(m, lists) >= Tally(m, lists[q]) >= 0
    decreases |lists|
  {
    var n := |lists| - 1;
    AllPositive(m, lists[..n]);
    TallyPositive(m, lists[n]);
    if q < n { AllMember(m, lists[..n], q); }
  }

  // Two measures that never count the same stream stay below one that counts the streams of both.
  ghost predicate Apart(a: Measure, b: Measure, m: Measure) {
    forall x: Stream :: Weight(a, x) + Weight(b, x) <= Weight(m, x)
  }

  lemma {:induction false} TallyApart(a: Measure, b: Measure, m: Measure, list: seq<Stream>)
    requires Apart(a, b, m)
    ensures Tally(a, list) + Tally(b, list) <= Tally(m, list)
    decreases |list|
  {
    if list != [] {
      hide Weight;
      TallyApart(a, b, m, list[..|list| - 1]);
    }
  }

  lemma {:induction false} AllApart(a: Measure, b: Measure, m: Measure, lists: seq<seq<Stream>>)
    requires Apart(a, b, m)
    ensures All(a, lists) + All(b, lists) <= All(m, lists)
    decreases |lists|
  {
    if lists != [] {
      AllApart(a, b, m, lists[..|lists| - 1]);
      TallyApart(a, b, m, lists[|lists| - 1]);
    }
  }

  // A number is at one stage of one plan at most as often as it is there at all.
  lemma ReachedApart(s: St, k: nat, p: seq<nat>, n: nat, p2: seq<nat>, n2: nat)
    requires p != p2 || n != n2
    ensures 0 <= Reached(s, k, p, n) && 0 <= Reached(s, k, p2, n2)
    ensures Reached(s, k, p, n) + Reached(s, k, p2, n2) <= Population(Number(k), s)
  {
    hide Tally, All;
    var m := Number(k);
    var r, r2 := IfAt(0, n, k, p), IfAt(0, n2, k, p2);
    var f, f2 := IfAt(|p|, n, k, p), IfAt(|p2|, n2, k, p2);
    TallyApart(r, r2, m, s.ready);
    TallyApart(f, f2, m, s.finished);
    AllApart(InStep(k, p, n + 1), InStep(k, p2, n2 + 1), m, s.active);
    TallyPositive(r, s.ready);
    TallyPositive(r2, s.ready);
    TallyPositive(f, s.finished);
    TallyPositive(f2, s.finished);
    AllPositive(InStep(k, p, n + 1), s.active);
    AllPositive(InStep(k, p2, n2 + 1), s.active);
  }

  lemma ReachedActive(s: St, q: nat, i: nat)
    requires q < |s.active| && i < |s.active[q]| && s.active[q][i].steps >= 1
    ensures var x := s.active[q][i];
            Reached(s, x.id, x.plan, x.steps - 1) >= 1 && Population(Number(x.id), s) >= 1
  {
    hide Tally, All;
    var x := s.active[q][i];
    var n, m := x.steps - 1, Number(x.id);
    TallyPositive(IfAt(0, n, x.id, x.plan), s.ready);
    TallyPositive(IfAt(|x.plan|, n, x.id, x.plan), s.finished);
    TallyMember(InStep(x.id, x.plan, x.steps), s.active[q], i);
    AllMember(InStep(x.id, x.plan, x.steps), s.active, q);
    TallyPositive(m, s.ready);
    TallyPositive(m, s.finished);
    TallyMember(m, s.active[q], i);
    AllMember(m, s.active, q);
  }

  lemma MembersPositive(s: St, m: Measure)
    requires Lasting(m)
    ensures Population(m, s) >= 0
  {
    TallyPositive(m, s.ready);
    TallyPositive(m, s.finished);
    AllPositive(m, s.active);
  }

  // ---------- one step ----------

  // What a step does to the stages of one number.
  lemma StepReached(c: Cfg, s: St, step: Step, k: nat, plan: seq<nat>, n: nat)
    requires Steady(c, s) && Enabled(c, s, step)
    ensures Reached(Do(c, s, step), k, plan, n) ==
            Reached(s, k, plan, n) + Tally(IfAt(0, n, k, plan), NewBy(c, s, step))
            + (if step.Proceed? then Shift(s.active[step.queue][step.index], k, plan, n) else 0)
  {
    hide Work, Do, Steady, NewBy, Population, Reached, Enabled, Tally, Shift;
    StepMoves(c, s, step);
  }

  // New streams of a number are also counted by the number.
  lemma NewCounted(xs: seq<Stream>, k: nat, plan: seq<nat>, n: nat)
    ensures 0 <= Tally(IfAt(0, n, k, plan), xs) <= Tally(Number(k), xs)
  {
    hide Tally;
    TallyPositive(IfAt(0, n, k, plan), xs);
    TallyApart(IfAt(0, n, k, plan), Nothing, Number(k), xs);
    TallyPositive(Nothing, xs);
  }

  lemma {:induction false} VisitsEntered(c: Cfg, steps: seq<Step>, k: nat)
    requires After(c, steps).State? && Visits(c, steps, k) != []
    ensures Entered(Number(k), c, steps) >= 1
    decreases |steps|
  {
    hide Enabled, Do, NewBy, Tally, All, Population;
    var rest, step := steps[..|steps| - 1], steps[|steps| - 1];
    if Visits(c, rest, k) != [] {
      VisitsEntered(c, rest, k);
    } else {
      RunKeeps(c, rest);
      var s := After(c, rest).s;
      StepPlaced(c, s, step);
      ReachedActive(s, step.queue, step.index);
      StreamsConserved(c, rest, Number(k));
    }
    TallyPositive(Number(k), NewAt(c, rest, step));
  }

  lemma StepPlaced(c: Cfg, s: St, step: Step)
    requires Steady(c, s) && Enabled(c, s, step) && step.Proceed?
    ensures step.queue < |s.active| && step.index < |s.active[step.queue]|
    ensures Placed(c, s.active[step.queue][step.index], step.queue, s.clock)
  {
    hide Steady, Do, Work, NewBy, Advances;
    StepMoves(c, s, step);
  }

  lemma EnteredNext(c: Cfg, steps: seq<Step>, k: nat)
    requires steps != [] && After(c, steps).State?
    ensures var rest, step := steps[..|steps| - 1], steps[|steps| - 1];
            && After(c, rest).State? && Enabled(c, After(c, rest).s, step)
            && Entered(Number(k), c, steps) ==
               Entered(Number(k), c, rest) + Tally(Number(k), NewBy(c, After(c, rest).s, step))
            && 0 <= Entered(Number(k), c, rest) == Population(Number(k), After(c, rest).s)
            && 0 <= Tally(Number(k), NewBy(c, After(c, rest).s, step))
            && After(c, steps).s == Do(c, After(c, rest).s, step)
  {
    hide Enabled, Do, NewBy, Tally, Population;
    var rest, step := steps[..|steps| - 1], steps[|steps| - 1];
    StreamsConserved(c, rest, Number(k));
    MembersPositive(After(c, rest).s, Number(k));
    TallyPositive(Number(k), NewBy(c, After(c, rest).s, step));
  }

  // A step that does not end a phase of stream k.
  lemma OtherStep(c: Cfg, steps: seq<Step>, k: nat, plan: seq<nat>, n: nat)
    requires steps != [] && After(c, steps).State? && Entered(Number(k), c, steps) <= 1
    requires Visit(c, steps[..|steps| - 1], steps[|steps| - 1], k) == []
    requires Reached(After(c, steps).s, k, plan, n) > 0
    ensures var rest := steps[..|steps| - 1];
            && After(c, rest).State?
            && (Reached(After(c, rest).s, k, plan, n) > 0 || (n == 0 && Visits(c, rest, k) == []))
  {
    hide Do, NewBy, Tally, Population, Reached, Steady, After, Entered;
    EnteredNext(c, steps, k);
    var rest, step := steps[..|steps| - 1], steps[|steps| - 1];
    var s := After(c, rest).s;
    RunKeeps(c, rest);
    StepReached(c, s, step, k, plan, n);
    NewCounted(NewBy(c, s, step), k, plan, n);
    if Reached(s, k, plan, n) <= 0 {
      NothingNew(NewBy(c, s, step), n, k, plan);
      if Visits(c, rest, k) != [] { VisitsEntered(c, rest, k); }
    }
  }

  lemma NothingNew(xs: seq<Stream>, n: nat, k: nat, plan: seq<nat>)
    requires Tally(IfAt(0, n, k, plan), xs) > 0
    ensures n == 0
  {
    if n != 0 { TallyNothing(xs); }
  }

  lemma {:induction false} TallyNothing(xs: seq<Stream>)
    ensures Tally(Nothing, xs) == 0
    decreases |xs|
  {
    if xs != [] { TallyNothing(xs[..|xs| - 1]); }
  }

  // A step that ends a phase of stream k: the stream is at its next stage, and nowhere else.
  lemma OwnStep(c: Cfg, steps: seq<Step>, k: nat, plan: seq<nat>, n: nat)
    requires steps != [] && After(c, steps).State? && Entered(Number(k), c, steps) <= 1
    requires Visit(c, steps[..|steps| - 1], steps[|steps| - 1], k) != []
    requires Reached(After(c, steps).s, k, plan, n) > 0
    ensures var rest, step := steps[..|steps| - 1], steps[|steps| - 1];
            && After(c, rest).State? && 1 <= n <= |plan| && plan[n - 1] == step.queue
            && Visit(c, rest, step, k) == [step.queue] && Reached(After(c, rest).s, k, plan, n - 1) > 0
  {
    hide Do, NewBy, Tally, Population, Reached, Steady, Entered, Enabled;
    EnteredNext(c, steps, k);
    hide After;
    var rest, step := steps[..|steps| - 1], steps[|steps| - 1];
    var s := After(c, rest).s;
    RunKeeps(c, rest);
    StepPlaced(c, s, step);
    var x := s.active[step.queue][step.index];
    ReachedActive(s, step.queue, step.index);
    StepReached(c, s, step, k, plan, n);
    NewCounted(NewBy(c, s, step), k, plan, n);
    if plan != x.plan || n != x.steps - 1 { ReachedApart(s, k, plan, n, x.plan, x.steps - 1); }
    else { ReachedApart(s, k, plan, n, plan, n + 1); }
  }

  // ---------- results ----------

  // A stream number given once: at stage n of a plan its ended phases are the first n of the plan, in order.
  lemma {:induction false} PhasesInOrder(c: Cfg, steps: seq<Step>, k: nat, plan: seq<nat>, n: nat)
    requires After(c, steps).State? && Entered(Number(k), c, steps) <= 1
    requires Reached(After(c, steps).s, k, plan, n) > 0
    ensures n <= |plan| && Visits(c, steps, k) == plan[..n]
    decreases |steps|
  {
    hide Do, NewBy, Tally, Population, Reached, Enabled, Visit, Visits, After, Entered;
    if steps == [] {
      NoneReached(c, k, plan, n);
    } else {
      var rest, step := steps[..|steps| - 1], steps[|steps| - 1];
      EnteredNext(c, steps, k);
      VisitsNext(c, steps, k);
      if Visit(c, rest, step, k) == [] {
        OtherStep(c, steps, k, plan, n);
        if Reached(After(c, rest).s, k, plan, n) > 0 { PhasesInOrder(c, rest, k, plan, n); }
      } else {
        OwnStep(c, steps, k, plan, n);
        PhasesInOrder(c, rest, k, plan, n - 1);
      }
    }
  }

  lemma VisitsNext(c: Cfg, steps: seq<Step>, k: nat)
    requires steps != []
    ensures Visits(c, steps, k) ==
            Visits(c, steps[..|steps| - 1], k) + Visit(c, steps[..|steps| - 1], steps[|steps| - 1], k)
  {
  }

  lemma NoneReached(c: Cfg, k: nat, plan: seq<nat>, n: nat)
    ensures After(c, []) == State(Init(c)) && Reached(Init(c), k, plan, n) == 0
  {
    AllNone(InStep(k, plan, n + 1), c.queues);
  }

  // Every phase of every stream, once and in the order of its plan: what stream k has ended phases in is nothing
  // while it waits, the phases before its present one while it is in a queue, and its whole plan when it is finished.
  lemma EachPhaseOnce(c: Cfg, steps: seq<Step>, k: nat)
    requires After(c, steps).State? && Entered(Number(k), c, steps) <= 1
    ensures var s := After(c, steps).s;
            && (forall x <- s.ready :: x.id == k ==> Visits(c, steps, k) == [])
            && (forall q, i :: 0 <= q < |s.active| && 0 <= i < |s.active[q]| && s.active[q][i].id == k ==>
                  1 <= s.active[q][i].steps <= |s.active[q][i].plan|
                  && Visits(c, steps, k) == s.active[q][i].plan[..s.active[q][i].steps - 1])
            && (forall x <- s.finished :: x.id == k ==> x.steps == |x.plan| && Visits(c, steps, k) == x.plan)
  {
    hide Visits, After, Tally, All, Steady, Entered;
    var s := After(c, steps).s;
    RunKeeps(c, steps);
    forall x | x in s.ready && x.id == k
      ensures Visits(c, steps, k) == []
    {
      var i :| 0 <= i < |s.ready| && s.ready[i] == x;
      ReachedReady(s, i);
      PhasesInOrder(c, steps, k, x.plan, 0);
    }
    forall q, i | 0 <= q < |s.active| && 0 <= i < |s.active[q]| && s.active[q][i].id == k
      ensures 1 <= s.active[q][i].steps <= |s.active[q][i].plan|
      ensures Visits(c, steps, k) == s.active[q][i].plan[..s.active[q][i].steps - 1]
    {
      SteadyPlaced(c, s, q, i);
      ReachedActive(s, q, i);
      PhasesInOrder(c, steps, k, s.active[q][i].plan, s.active[q][i].steps - 1);
    }
    StreamsConserved(c, steps, Number(k));
    forall x | x in s.finished && x.id == k
      ensures Visits(c, steps, k) == x.plan
    {
      var i :| 0 <= i < |s.finished| && s.finished[i] == x;
      ReachedFinished(s, i);
      PhasesInOrder(c, steps, k, x.plan, |x.plan|);
      assert x.plan[..|x.plan|] == x.plan;
    }
  }

  lemma SteadyPlaced(c: Cfg, s: St, q: nat, i: nat)
    requires Steady(c, s) && q < |s.active| && i < |s.active[q]|
    ensures Placed(c, s.active[q][i], q, s.clock)
  {
    assert QueueAt(c, s, q);
  }

  lemma ReachedReady(s: St, i: nat)
    requires i < |s.ready|
    ensures Reached(s, s.ready[i].id, s.ready[i].plan, 0) >= 1
  {
    hide Tally, All;
    var x := s.ready[i];
    TallyMember(IfAt(0, 0, x.id, x.plan), s.ready, i);
    TallyPositive(IfAt(|x.plan|, 0, x.id, x.plan), s.finished);
    AllPositive(InStep(x.id, x.plan, 1), s.active);
  }

  lemma ReachedFinished(s: St, i: nat)
    requires i < |s.finished|
    ensures var x := s.finished[i]; Reached(s, x.id, x.plan, |x.plan|) >= 1
  {
    hide Tally, All;
    var x := s.finished[i];
    TallyMember(IfAt(|x.plan|, |x.plan|, x.id, x.plan), s.finished, i);
    TallyPositive(IfAt(0, |x.plan|, x.id, x.plan), s.ready);
    AllPositive(InStep(x.id, x.plan, |x.plan| + 1), s.active);
  }
}
