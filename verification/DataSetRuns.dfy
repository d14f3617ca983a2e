/**
  The data set of a collective over whole runs of the scheduler: it is told of each of its streams when the stream
  completes, and turns finished when the last of them has gone through all its phases.
*/
module DataSetRuns {
  import C = Collective
  import D = DataSets
  import opened StreamModel
  import opened StreamPhases
  import opened StreamSafety

  // The streams of a data set have the numbers from lo on.
  function Own(lo: nat, total: nat): Measure { DataSet(lo, lo + total) }

  // The stream that a step completes.
  function Completed(c: Cfg, before: seq<Step>, step: Step): seq<Stream> {
    var o := After(c, before);
    if o.State? && Enabled(c, o.s, step) && Completes(c, o.s, step) then [o.s.active[step.queue][step.index]] else []
  }

  function Told(d: D.State, lo: nat, total: nat, xs: seq<Stream>): D.State {
    if xs != [] && lo <= xs[0].id < lo + total then D.Notified(d) else d
  }

  // The data set after a run in which every completed stream of its own notifies it.
  function StateAfter(c: Cfg, steps: seq<Step>, lo: nat, total: nat): D.State {
    if steps == [] then D.Start(total)
    else
      Told(StateAfter(c, steps[..|steps| - 1], lo, total), lo, total,
           Completed(c, steps[..|steps| - 1], steps[|steps| - 1]))
  }

  // How often the flag has gone up.
  function Ups(c: Cfg, steps: seq<Step>, lo: nat, total: nat): nat {
    if steps == [] then 0
    else Ups(c, steps[..|steps| - 1], lo, total) +
         (if !StateAfter(c, steps[..|steps| - 1], lo, total).finished && StateAfter(c, steps, lo, total).finished then 1
          else 0)
  }

  // It has been notified once for every stream of its own in the scheduler's list of finished ones.
  lemma {:induction false} NotifiedAsFinished(c: Cfg, steps: seq<Step>, lo: nat, total: nat)
    requires After(c, steps).State?
    ensures var n := Tally(Own(lo, total), After(c, steps).s.finished);
            n >= 0 && StateAfter(c, steps, lo, total) == D.Times(D.Start(total), n)
    decreases |steps|
  {
    hide Do, Enabled, Tally, Completed, After, Told, StateAfter, D.Times;
    StateNext(c, steps, lo, total);
    if steps != [] {
      var rest, step := steps[..|steps| - 1], steps[|steps| - 1];
      FinishedNext(c, steps);
      NotifiedAsFinished(c, rest, lo, total);
      var xs := Completed(c, rest, step);
      TallyConcat(Own(lo, total), After(c, rest).s.finished, xs);
      ToldIs(total, Tally(Own(lo, total), After(c, rest).s.finished), lo, xs);
    }
  }

  lemma StateNext(c: Cfg, steps: seq<Step>, lo: nat, total: nat)
    ensures steps == [] ==> Tally(Own(lo, total), After(c, steps).s.finished) == 0
                            && StateAfter(c, steps, lo, total) == D.Times(D.Start(total), 0)
    ensures steps != [] ==> var rest := steps[..|steps| - 1];
                            StateAfter(c, steps, lo, total) == Told(StateAfter(c, rest, lo, total), lo, total,
                                                                    Completed(c, rest, steps[|steps| - 1]))
  {
    hide Do, Enabled, Told, Completed;
  }

  // A step appends what it completes.
  lemma FinishedNext(c: Cfg, steps: seq<Step>)
    requires steps != [] && After(c, steps).State?
    ensures var rest := steps[..|steps| - 1]; var xs := Completed(c, rest, steps[|steps| - 1]);
            && After(c, rest).State? && |xs| <= 1
            && After(c, steps).s.finished == After(c, rest).s.finished + xs
  {
    hide Do, Enabled, Steady, NewBy, Grows, Advances, Work;
    var rest, step := steps[..|steps| - 1], steps[|steps| - 1];
    RunKeeps(c, rest);
    StepMoves(c, After(c, rest).s, step);
  }

  lemma ToldIs(total: nat, n: nat, lo: nat, xs: seq<Stream>)
    requires |xs| <= 1
    ensures Tally(Own(lo, total), xs) >= 0
    ensures Told(D.Times(D.Start(total), n), lo, total, xs) == D.Times(D.Start(total), n + Tally(Own(lo, total), xs))
  {
    if xs != [] {
      assert xs == [xs[0]];
      TallyOne(Own(lo, total), xs[0]);
    }
  }

  // The flag goes up once at most, and stays up; the layer is told when it does.
  lemma {:induction false} UpOnce(c: Cfg, steps: seq<Step>, lo: nat, total: nat)
    requires After(c, steps).State?
    ensures var d := StateAfter(c, steps, lo, total); Ups(c, steps, lo, total) == d.told == if d.finished then 1 else 0
    decreases |steps|
  {
    NotifiedAsFinished(c, steps, lo, total);
    D.TimesIs(total, Tally(Own(lo, total), After(c, steps).s.finished));
    if steps != [] {
      hide Do, Enabled, Tally, Completed;
      var rest := steps[..|steps| - 1];
      UpOnce(c, rest, lo, total);
      NotifiedAsFinished(c, rest, lo, total);
      D.TimesIs(total, Tally(Own(lo, total), After(c, rest).s.finished));
      StaysUp(StateAfter(c, rest, lo, total), lo, total, Completed(c, rest, steps[|steps| - 1]));
    }
  }

  lemma StaysUp(d: D.State, lo: nat, total: nat, xs: seq<Stream>)
    ensures d.finished ==> Told(d, lo, total, xs).finished
  {
  }

  // ---------- when the flag is up ----------

  lemma NumberIn(list: seq<Stream>, k: nat)
    ensures Tally(Number(k), list) >= 1 <==> exists x :: x in list && x.id == k
  {
    hide Tally;
    if Tally(Number(k), list) >= 1 {
      var i := NumberAt(list, k);
    } else {
      forall i | 0 <= i < |list|
        ensures list[i].id != k
      {
        TallyMember(Number(k), list, i);
      }
    }
  }

  lemma {:induction false} NumberAt(list: seq<Stream>, k: nat) returns (i: nat)
    requires Tally(Number(k), list) >= 1
    ensures i < |list| && list[i].id == k
    decreases |list|
  {
    i := |list| - 1;
    if list[i].id != k { i := NumberAt(list[..i], k); }
  }

  lemma {:induction false} TallyRange(list: seq<Stream>, lo: nat, n: nat)
    ensures Tally(DataSet(lo, lo + n + 1), list) == Tally(DataSet(lo, lo + n), list) + Tally(Number(lo + n), list)
    decreases |list|
  {
    if list != [] { TallyRange(list[..|list| - 1], lo, n); }
  }

  lemma {:induction false} TallyEmptyRange(list: seq<Stream>, lo: nat)
    ensures Tally(DataSet(lo, lo), list) == 0
    decreases |list|
  {
    if list != [] { TallyEmptyRange(list[..|list| - 1], lo); }
  }

  // Numbers that occur once at most: as many as there are numbers means that each occurs.
  lemma {:induction false} AllNumbers(list: seq<Stream>, lo: nat, n: nat)
    requires forall k: nat :: lo <= k < lo + n ==> Tally(Number(k), list) <= 1
    ensures Tally(DataSet(lo, lo + n), list) <= n
    ensures Tally(DataSet(lo, lo + n), list) == n <==>
            forall k: nat :: lo <= k < lo + n ==> Tally(Number(k), list) >= 1
    decreases n
  {
    hide Tally;
    if n == 0 {
      TallyEmptyRange(list, lo);
    } else {
      AllNumbers(list, lo, n - 1);
      TallyRange(list, lo, n - 1);
      assert Tally(Number(lo + n - 1), list) <= 1;
    }
  }

  // Stream k is finished, after all the phases of its plan, in order.
  ghost predicate Through(c: Cfg, steps: seq<Step>, k: nat)
    requires After(c, steps).State?
  {
    exists x :: x in After(c, steps).s.finished && Ran(c, steps, k, x)
  }

  predicate Ran(c: Cfg, steps: seq<Step>, k: nat, x: Stream) {
    x.id == k && x.steps == |x.plan| && Visits(c, steps, k) == x.plan
  }

  lemma ThroughIff(c: Cfg, steps: seq<Step>, k: nat)
    requires After(c, steps).State? && Entered(Number(k), c, steps) <= 1
    ensures Through(c, steps, k) <==> Tally(Number(k), After(c, steps).s.finished) >= 1
    ensures Tally(Number(k), After(c, steps).s.finished) <= 1
  {
    hide After, Tally, Visits, All, Entered;
    var s := After(c, steps).s;
    NumberIn(s.finished, k);
    EachPhaseOnce(c, steps, k);
    StreamsConserved(c, steps, Number(k));
    TallyPositive(Number(k), s.ready);
    AllPositive(Number(k), s.active);
    if exists x :: x in s.finished && x.id == k {
      var x :| x in s.finished && x.id == k;
      assert Ran(c, steps, k, x);
    }
  }

  // At every moment of every run: a data set whose stream numbers are not given twice is finished exactly when each of
  // its streams is finished, after all its phases in order.  It has been told so once then, and never before.
  lemma FinishedIff(c: Cfg, steps: seq<Step>, lo: nat, total: nat)
    requires After(c, steps).State? && forall k: nat :: lo <= k < lo + total ==> Entered(Number(k), c, steps) <= 1
    ensures var d := StateAfter(c, steps, lo, total);
            && (d.finished <==> total > 0 && forall k: nat :: lo <= k < lo + total ==> Through(c, steps, k))
            && Ups(c, steps, lo, total) == d.told == if d.finished then 1 else 0
  {
    hide After, Tally, Through, StateAfter, Ups, Entered;
    UpOnce(c, steps, lo, total);
    NotifiedAsFinished(c, steps, lo, total);
    var done := After(c, steps).s.finished;
    D.TimesIs(total, Tally(Own(lo, total), done));
    forall k: nat | lo <= k < lo + total
      ensures Tally(Number(k), done) <= 1 && (Through(c, steps, k) <==> Tally(Number(k), done) >= 1)
    {
      ThroughIff(c, steps, k);
    }
    AllNumbers(done, lo, total);
  }

  // ---------- the streams of a collective ----------

  // The plan of a stream takes the phases of a chunk, one queue for each, in a queue of the phase's dimension.
  predicate Carries(plan: seq<nat>, y: C.Stream, dimOf: seq<nat>) {
    |plan| == |y.phases| && forall i :: 0 <= i < |plan| ==> plan[i] < |dimOf| && dimOf[plan[i]] == y.phases[i].dim
  }

  // Whatever is added under the number of a chunk's stream carries that chunk.
  ghost predicate Dispatched(c: Cfg, steps: seq<Step>, ys: seq<C.Stream>, dimOf: seq<nat>) {
    forall i, plan: seq<nat> :: 0 <= i < |ys| && Entered(Exactly(ys[i].number, plan), c, steps) > 0 ==>
      Carries(plan, ys[i], dimOf)
  }

  // The chunk's stream has ended its phases in order, in queues of their dimensions.
  ghost predicate ChunkDone(c: Cfg, steps: seq<Step>, y: C.Stream, dimOf: seq<nat>)
    requires After(c, steps).State?
  {
    Through(c, steps, y.number) && Carries(Visits(c, steps, y.number), y, dimOf)
  }

  lemma {:induction false} MadeNumbers(job: C.Job, sizes: seq<nat>, i: nat)
    requires job.Valid() && i < |sizes|
    ensures |C.Made(job, sizes)| == |sizes| && C.Made(job, sizes)[i].number == job.number + i
    decreases |sizes|
  {
    hide C.Plan, C.Active, C.Mapper;
    var n := |sizes| - 1;
    if i < n {
      MadeNumbers(job, sizes[..n], i);
    } else if n > 0 {
      MadeNumbers(job, sizes[..n], 0);
    }
  }

  lemma ThroughCarries(c: Cfg, steps: seq<Step>, y: C.Stream, dimOf: seq<nat>)
    requires After(c, steps).State? && Through(c, steps, y.number)
    requires forall plan: seq<nat> :: Entered(Exactly(y.number, plan), c, steps) > 0 ==> Carries(plan, y, dimOf)
    ensures Carries(Visits(c, steps, y.number), y, dimOf)
  {
    hide After, Visits, Carries, Tally, All, Entered;
    var s := After(c, steps).s;
    var x :| x in s.finished && Ran(c, steps, y.number, x);
    var m := Exactly(y.number, x.plan);
    var i :| 0 <= i < |s.finished| && s.finished[i] == x;
    TallyMember(m, s.finished, i);
    TallyPositive(m, s.ready);
    AllPositive(m, s.active);
    StreamsConserved(c, steps, m);
  }

  // The data set of a collective is finished exactly when every chunk of it has gone through all its phases, in order.
  lemma CollectiveCompletes(c: Cfg, steps: seq<Step>, job: C.Job, sizes: seq<nat>, dimOf: seq<nat>)
    requires job.Valid() && After(c, steps).State? && Dispatched(c, steps, C.Made(job, sizes), dimOf)
    requires forall k: nat :: job.number <= k < job.number + |sizes| ==> Entered(Number(k), c, steps) <= 1
    ensures var ys := C.Made(job, sizes); var d := StateAfter(c, steps, job.number, |sizes|);
            && (d.finished <==> ys != [] && forall i :: 0 <= i < |ys| ==> ChunkDone(c, steps, ys[i], dimOf))
            && Ups(c, steps, job.number, |sizes|) == d.told == if d.finished then 1 else 0
  {
    hide After, Through, StateAfter, Ups, Entered, Visits, Carries, C.Made;
    FinishedIff(c, steps, job.number, |sizes|);
    var ys := C.Made(job, sizes);
    MadeAll(job, sizes);
    forall i | 0 <= i < |ys| && Through(c, steps, ys[i].number)
      ensures ChunkDone(c, steps, ys[i], dimOf)
    {
      ThroughCarries(c, steps, ys[i], dimOf);
    }
    if forall i :: 0 <= i < |ys| ==> ChunkDone(c, steps, ys[i], dimOf) {
      forall k: nat | job.number <= k < job.number + |sizes|
        ensures Through(c, steps, k)
      {
        assert ChunkDone(c, steps, ys[k - job.number], dimOf);
      }
    }
    if forall k: nat :: job.number <= k < job.number + |sizes| ==> Through(c, steps, k) {
      forall i | 0 <= i < |ys|
        ensures ChunkDone(c, steps, ys[i], dimOf)
      {
        assert Through(c, steps, ys[i].number);
      }
    }
  }

  lemma MadeAll(job: C.Job, sizes: seq<nat>)
    requires job.Valid()
    ensures var ys := C.Made(job, sizes);
            |ys| == |sizes| && forall i :: 0 <= i < |ys| ==> ys[i].number == job.number + i
  {
    if sizes == [] {
    } else {
      MadeNumbers(job, sizes, 0);
      forall i | 0 <= i < |sizes|
        ensures C.Made(job, sizes)[i].number == job.number + i
      {
        MadeNumbers(job, sizes, i);
      }
    }
  }
}
