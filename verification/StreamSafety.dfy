/**
  The queue discipline and the admission of streams, in every run.
*/
module StreamSafety {
  import opened Radix
  import opened StreamModel

  // ---------- the invariant ----------

  // Higher priority first, and the earlier one of equals.
  predicate Ahead(x: Stream, y: Stream) {
    x.priority > y.priority || (x.priority == y.priority && x.arrival < y.arrival)
  }

  predicate Ranked(list: seq<Stream>, run: nat) {
    forall i, j :: run <= i < j < |list| ==> Ahead(list[i], list[j])
  }

  // A stream of queue q is in the phase that belongs to the queue.
  predicate Placed(c: Cfg, x: Stream, q: nat, clock: nat) {
    PlanOk(c, x.plan) && 1 <= x.steps <= |x.plan| && x.plan[x.steps - 1] == q && x.arrival < clock
  }

  // The running streams are the first ones of the list, and the others are ranked.
  predicate QueueOk(c: Cfg, list: seq<Stream>, run: nat, q: nat, clock: nat) {
    && run <= |list| && run <= c.queueThreshold
    && (forall i :: 0 <= i < |list| ==> (list[i].initialized <==> i < run))
    && Ranked(list, run)
    && (forall i :: 0 <= i < |list| ==> Placed(c, list[i], q, clock))
  }

  predicate ReadyOk(c: Cfg, ready: seq<Stream>, clock: nat) {
    && (forall i :: 0 <= i < |ready| ==> NewStream(c, ready[i]) && ready[i].arrival < clock)
    && Ranked(ready, 0)
  }

  predicate QueueAt(c: Cfg, s: St, q: nat)
    requires Fits(c, s) && q < c.queues
  {
    QueueOk(c, s.active[q], s.running[q], q, s.clock)
  }

  predicate Core(c: Cfg, s: St) {
    && Fits(c, s) && ReadyStreams(c, s)
    && ReadyOk(c, s.ready, s.clock)
    && (forall q :: 0 <= q < c.queues ==> QueueAt(c, s, q))
  }

  predicate Full(c: Cfg, s: St, q: nat)
    requires Fits(c, s) && q < c.queues
  {
    s.running[q] == Min(c.queueThreshold, |s.active[q]|)
  }

  predicate FullExcept(c: Cfg, s: St, open: set<nat>)
    requires Fits(c, s)
  {
    forall q :: 0 <= q < c.queues && q !in open ==> Full(c, s, q)
  }

  // ---------- sums over the queues ----------

  // DataSet counts the streams with a number in the given range: those of one data set.  Exactly counts a number with
  // a plan, and InStep those of them that have begun the given number of phases.
  datatype Measure = Streams | Firsts | Phases | Nothing | DataSet(lo: nat, hi: nat)
                   | Exactly(id: nat, plan: seq<nat>) | InStep(id: nat, plan: seq<nat>, steps: nat)

  function Weight(m: Measure, x: Stream): int {
    match m
    case Streams => 1
    case Firsts => if x.steps == 1 then 1 else 0
    case Phases => |x.plan| - x.steps + 1
    case Nothing => 0
    case DataSet(lo, hi) => if lo <= x.id < hi then 1 else 0
    case Exactly(id, plan) => if x.id == id && x.plan == plan then 1 else 0
    case InStep(id, plan, steps) => if x.id == id && x.plan == plan && x.steps == steps then 1 else 0
  }

  function Tally(m: Measure, list: seq<Stream>): int {
    if list == [] then 0 else Tally(m, list[..|list| - 1]) + Weight(m, list[|list| - 1])
  }

  function All(m: Measure, lists: seq<seq<Stream>>): int {
    if lists == [] then 0 else All(m, lists[..|lists| - 1]) + Tally(m, lists[|lists| - 1])
  }

  lemma {:induction false} TallyConcat(m: Measure, a: seq<Stream>, b: seq<Stream>)
    ensures Tally(m, a + b) == Tally(m, a) + Tally(m, b)
    decreases |b|
  {
    if b == [] {
      assert a + b == a;
    } else {
      var n := |b| - 1;
      TallyConcat(m, a, b[..n]);
      assert (a + b)[..|a| + n] == a + b[..n];
    }
  }

  lemma TallyOne(m: Measure, x: Stream)
    ensures Tally(m, [x]) == Weight(m, x)
  {
    assert [x][..0] == [];
  }

  lemma TallySplice(m: Measure, list: seq<Stream>, i: nat, mid: seq<Stream>, j: nat)
    requires i <= j <= |list|
    ensures Tally(m, list[..i] + mid + list[j..]) == Tally(m, list) - Tally(m, list[i..j]) + Tally(m, mid)
  {
    hide Tally;
    TallyConcat(m, list[..i] + mid, list[j..]);
    TallyConcat(m, list[..i], mid);
    TallyConcat(m, list[..i], list[i..j]);
    TallyConcat(m, list[..j], list[j..]);
    SliceJoins(list, i, j);
  }

  lemma SliceJoins(list: seq<Stream>, i: nat, j: nat)
    requires i <= j <= |list|
    ensures list[..i] + list[i..j] == list[..j] && list[..j] + list[j..] == list
  {
  }

  lemma {:induction false} AllUpdate(m: Measure, lists: seq<seq<Stream>>, q: nat, list: seq<Stream>)
    requires q < |lists|
    ensures All(m, lists[q := list]) == All(m, lists) - Tally(m, lists[q]) + Tally(m, list)
    decreases |lists|
  {
    var n := |lists| - 1;
    if q == n {
      assert lists[q := list][..n] == lists[..n];
    } else {
      AllUpdate(m, lists[..n], q, list);
      assert lists[q := list][..n] == lists[..n][q := list];
    }
  }

  lemma {:induction false} AllNone(m: Measure, n: nat)
    ensures All(m, seq(n, _ => [])) == 0
  {
    if n > 0 {
      var none: seq<seq<Stream>> := seq(n, _ => []);
      AllNone(m, n - 1);
      assert none[..n - 1] == seq(n - 1, _ => []);
    }
  }

  // ---------- inserting ----------

  lemma InsertRanked(list: seq<Stream>, run: nat, y: Stream)
    requires run <= |list| && Ranked(list, run) && !y.initialized
    requires forall i :: 0 <= i < |list| ==> (list[i].initialized <==> i < run) && list[i].arrival < y.arrival
    ensures Spot(list, y, 0) >= run && Ranked(Insert(list, y), run)
  {
    var k := Spot(list, y, 0);
    if k < run { assert Passed(list[k], y); }
    var longer := Insert(list, y);
    forall i, j | run <= i < j < |longer|
      ensures Ahead(longer[i], longer[j])
    {
      if j == k {
        assert Passed(list[i], y);
      } else if i == k {
        assert !Passed(list[k], y);
        if j - 1 > k { assert Ahead(list[k], list[j - 1]); }
      } else {
        var a, b := if i < k then i else i - 1, if j < k then j else j - 1;
        assert Ahead(list[a], list[b]);
      }
    }
  }

  lemma InsertElements(list: seq<Stream>, y: Stream, i: nat)
    requires i < |Insert(list, y)|
    ensures var k := Spot(list, y, 0);
            Insert(list, y)[i] == if i < k then list[i] else if i == k then y else list[i - 1]
  {
  }

  lemma InsertOk(c: Cfg, list: seq<Stream>, run: nat, q: nat, clock: nat, y: Stream)
    requires QueueOk(c, list, run, q, clock)
    requires !y.initialized && y.arrival == clock && Placed(c, y, q, clock + 1)
    ensures QueueOk(c, Insert(list, y), run, q, clock + 1) && Spot(list, y, 0) >= run
  {
    assert |Insert(list, y)| == |list| + 1;
    hide Ranked, Insert;
    InsertRanked(list, run, y);
    forall i | 0 <= i < |list| + 1
      ensures (Insert(list, y)[i].initialized <==> i < run) && Placed(c, Insert(list, y)[i], q, clock + 1)
    {
      InsertElements(list, y, i);
    }
  }

  // ---------- what each step keeps ----------

  // Running streams stay where they are.
  predicate Stable(s: St, t: St) {
    && |s.active| == |t.active| == |s.running| == |t.running|
    && forall q :: 0 <= q < |s.active| ==> KeepsPrefix(s, t, q)
  }

  predicate KeepsPrefix(s: St, t: St, q: nat)
    requires |s.active| == |t.active| == |s.running| == |t.running| && q < |s.active|
  {
    s.running[q] <= t.running[q] && s.running[q] <= |s.active[q]| && s.running[q] <= |t.active[q]|
    && s.active[q][..s.running[q]] == t.active[q][..s.running[q]]
  }

  lemma StableTransitive(s: St, t: St, u: St)
    requires Stable(s, t) && Stable(t, u)
    ensures Stable(s, u)
  {
    forall q | 0 <= q < |s.active|
      ensures KeepsPrefix(s, u, q)
    {
      assert KeepsPrefix(s, t, q) && KeepsPrefix(t, u, q);
      var r := s.running[q];
      assert t.active[q][..t.running[q]][..r] == t.active[q][..r];
      assert u.active[q][..t.running[q]][..r] == u.active[q][..r];
    }
  }

  lemma InitNextKeeps(c: Cfg, s: St, q: nat, open: set<nat>)
    requires Core(c, s) && FullExcept(c, s, open + {q}) && q < c.queues && HasRoom(c, s, q)
    ensures var t := InitNext(c, s, q);
            Core(c, t) && FullExcept(c, t, open + {q}) && Stable(s, t) && forall m :: All(m, t.active) == All(m, s.active)
  {
    hide All, QueueOk;
    var t := InitNext(c, s, q);
    forall m: Measure
      ensures All(m, t.active) == All(m, s.active)
    {
      InitSums(c, s, q, m);
    }
    assert QueueAt(c, s, q);
    forall k | 0 <= k < c.queues
      ensures QueueAt(c, t, k) && KeepsPrefix(s, t, k) && (k !in open + {q} ==> Full(c, t, k))
    {
      assert QueueAt(c, s, k);
      LaterClock(c, s.active[k], s.running[k], k, s.clock);
      if k == q { InitRanked(c, s, q); }
      assert k !in open + {q} ==> Full(c, s, k);
    }
  }

  lemma InitSums(c: Cfg, s: St, q: nat, m: Measure)
    requires Fits(c, s) && q < c.queues && HasRoom(c, s, q)
    ensures All(m, InitNext(c, s, q).active) == All(m, s.active)
  {
    hide All, Tally;
    var list, r := s.active[q], s.running[q];
    var y := list[r].(initialized := true);
    TallySplice(m, list, r, [y], r + 1);
    assert list[..r] + [y] + list[r + 1..] == list[r := y];
    assert list[r..r + 1] == [list[r]];
    TallyOne(m, list[r]);
    TallyOne(m, y);
    AllUpdate(m, s.active, q, list[r := y]);
  }

  lemma InitRanked(c: Cfg, s: St, q: nat)
    requires Fits(c, s) && q < c.queues && HasRoom(c, s, q) && QueueAt(c, s, q)
    ensures QueueAt(c, InitNext(c, s, q), q)
  {
    var list, t := s.active[q], InitNext(c, s, q);
    forall i | 0 <= i < |list|
      ensures (t.active[q][i].initialized <==> i < s.running[q] + 1) && Placed(c, t.active[q][i], q, s.clock)
    {
      assert Placed(c, list[i], q, s.clock);
    }
    forall i, j | s.running[q] + 1 <= i < j < |list|
      ensures Ahead(t.active[q][i], t.active[q][j])
    {
      assert Ahead(list[i], list[j]);
    }
  }

  lemma {:induction false} FillKeeps(c: Cfg, s: St, q: nat, open: set<nat>)
    requires Core(c, s) && FullExcept(c, s, open + {q}) && q < c.queues
    ensures var t := Fill(c, s, q);
            Core(c, t) && FullExcept(c, t, open) && Stable(s, t) && forall m :: All(m, t.active) == All(m, s.active)
    decreases if HasRoom(c, s, q) then c.queueThreshold - s.running[q] else 0
  {
    if HasRoom(c, s, q) {
      var t := InitNext(c, s, q);
      assert t.running[q] == s.running[q] + 1;
      hide Core, FullExcept, Stable, InitNext;
      InitNextKeeps(c, s, q, open);
      FillKeeps(c, t, q, open);
      StableTransitive(s, t, Fill(c, t, q));
    } else {
      assert QueueAt(c, s, q);
      forall k | 0 <= k < c.queues
        ensures KeepsPrefix(s, s, k) && (k !in open ==> Full(c, s, k))
      {
        assert QueueAt(c, s, k);
      }
    }
  }

  lemma EnterSums(c: Cfg, s: St, x: Stream, m: Measure)
    requires Fits(c, s) && PlanOk(c, x.plan) && x.steps < |x.plan|
    ensures All(m, Enter(c, s, x).active) == All(m, s.active) + Weight(m, x.(steps := x.steps + 1))
  {
    hide All, Tally, Weight;
    var q := x.plan[x.steps];
    var y := x.(steps := x.steps + 1, initialized := false, arrival := s.clock);
    var k := Spot(s.active[q], y, 0);
    TallySplice(m, s.active[q], k, [y], k);
    assert s.active[q][k..k] == [];
    NoTally();
    TallyOne(m, y);
    SameWeight(m, x.(steps := x.steps + 1), y);
    AllUpdate(m, s.active, q, Insert(s.active[q], y));
  }

  lemma SameWeight(m: Measure, x: Stream, y: Stream)
    requires x.id == y.id && x.plan == y.plan && x.steps == y.steps
    ensures Weight(m, x) == Weight(m, y)
  {
  }

  lemma InsertPrefix(list: seq<Stream>, y: Stream, run: nat)
    requires run <= Spot(list, y, 0)
    ensures run <= |list| && run <= |Insert(list, y)| && Insert(list, y)[..run] == list[..run]
  {
  }

  lemma EnterKeeps(c: Cfg, s: St, x: Stream, open: set<nat>)
    requires Core(c, s) && FullExcept(c, s, open) && PlanOk(c, x.plan) && x.steps < |x.plan|
    ensures var t := Enter(c, s, x);
            && Core(c, t) && FullExcept(c, t, open + {x.plan[x.steps]}) && Stable(s, t)
            && forall m :: All(m, t.active) == All(m, s.active) + Weight(m, x.(steps := x.steps + 1))
  {
    hide Insert, Ranked, QueueOk, Weight, All;
    var q, t := x.plan[x.steps], Enter(c, s, x);
    var y := x.(steps := x.steps + 1, initialized := false, arrival := s.clock);
    forall m: Measure
      ensures All(m, t.active) == All(m, s.active) + Weight(m, x.(steps := x.steps + 1))
    {
      EnterSums(c, s, x, m);
    }
    assert QueueAt(c, s, q);
    InsertOk(c, s.active[q], s.running[q], q, s.clock, y);
    InsertPrefix(s.active[q], y, s.running[q]);
    forall i | 0 <= i < c.queues
      ensures QueueAt(c, t, i) && KeepsPrefix(s, t, i) && (i !in open + {q} ==> Full(c, t, i))
    {
      assert QueueAt(c, s, i);
      LaterClock(c, s.active[i], s.running[i], i, s.clock);
      assert i !in open ==> Full(c, s, i);
    }
  }

  lemma LaterClock(c: Cfg, list: seq<Stream>, run: nat, q: nat, clock: nat)
    requires QueueOk(c, list, run, q, clock)
    ensures QueueOk(c, list, run, q, clock + 1) && run <= |list|
  {
  }

  // ---------- admission ----------

  // The counters of the admitted streams; `extra` is 1 while a stream has left its first phase but not its queue.
  predicate Counted(s: St, extra: int) {
    s.total == All(Streams, s.active) && s.first == All(Firsts, s.active) - extra
  }

  predicate Bounded(c: Cfg, s: St) { s.first <= c.readyListThreshold && s.total <= c.maxRunningStreams }

  // Where the streams of a data set are: waiting, in the queues or finished.
  function Population(m: Measure, s: St): int { Tally(m, s.ready) + All(m, s.active) + Tally(m, s.finished) }

  // What a stream keeps through all its phases.
  predicate Lasting(m: Measure) { m.DataSet? || m.Exactly? }

  // How many streams of this number and plan have ended exactly n phases: in the ready list none, in a queue all
  // before the present one, and all when finished.
  function Reached(s: St, id: nat, plan: seq<nat>, n: nat): int {
    Tally(IfAt(0, n, id, plan), s.ready) + All(InStep(id, plan, n + 1), s.active)
    + Tally(IfAt(|plan|, n, id, plan), s.finished)
  }

  function IfAt(at: nat, n: nat, id: nat, plan: seq<nat>): Measure { if n == at then Exactly(id, plan) else Nothing }

  // The streams xs come new, and nothing else is lost, doubled or moved on.
  ghost predicate Grows(s: St, t: St, xs: seq<Stream>) { GrowsBy(s, t, xs) && Rises(s, t, xs) }

  ghost predicate GrowsBy(s: St, t: St, xs: seq<Stream>) {
    forall m: Measure :: Lasting(m) ==> Population(m, t) == Population(m, s) + Tally(m, xs)
  }

  ghost predicate Rises(s: St, t: St, xs: seq<Stream>) {
    forall id: nat, plan: seq<nat>, n: nat ::
      Reached(t, id, plan, n) == Reached(s, id, plan, n) + Tally(IfAt(0, n, id, plan), xs)
  }

  // The streams xs come new, and x ends one phase.
  ghost predicate Advances(s: St, t: St, x: Stream, xs: seq<Stream>) {
    && GrowsBy(s, t, xs)
    && forall id: nat, plan: seq<nat>, n: nat ::
         Reached(t, id, plan, n) == Reached(s, id, plan, n) + Tally(IfAt(0, n, id, plan), xs) + Shift(x, id, plan, n)
  }

  function Shift(x: Stream, id: nat, plan: seq<nat>, n: nat): int {
    if x.id != id || x.plan != plan then 0
    else (if n == x.steps then 1 else 0) - (if n + 1 == x.steps then 1 else 0)
  }

  function Work(s: St): int { Tally(Phases, s.ready) - |s.ready| + All(Phases, s.active) }

  ghost predicate Inv(c: Cfg, s: St, open: set<nat>, extra: int) {
    Core(c, s) && FullExcept(c, s, open) && Counted(s, extra) && Bounded(c, s)
  }

  lemma InvFits(c: Cfg, s: St, open: set<nat>, extra: int)
    requires Inv(c, s, open, extra)
    ensures Fits(c, s) && ReadyStreams(c, s)
  {
  }

  lemma ScheduleOneKeeps(c: Cfg, s: St, open: set<nat>, extra: int)
    requires Inv(c, s, open, extra) && s.ready != [] && Room(c, s) > 0
    ensures var t := ScheduleOne(c, s);
            && Inv(c, t, open, extra) && Stable(s, t) && Work(t) == Work(s) && Grows(s, t, [])
            && Room(c, t) == Room(c, s) - 1 && t.finished == s.finished && t.ready == s.ready[1..]
  {
    var x := s.ready[0];
    var u := Enter(c, s, x);
    EnterRest(c, s, x);
    hide FullExcept, Stable, Fill, Enter, QueueAt;
    EnterKeeps(c, s, x, open);
    FillKeeps(c, u, x.plan[0], open);
    var v := Fill(c, u, x.plan[0]);
    StableTransitive(s, u, v);
    var t := ScheduleOne(c, s);
    ScheduledReady(c, v, t);
    assert [x] + s.ready[1..] == s.ready;
    forall m: Measure
      ensures Tally(m, s.ready) == Weight(m, x) + Tally(m, t.ready)
    {
      TallyConcat(m, [x], s.ready[1..]);
      TallyOne(m, x);
    }
  }

  lemma ScheduledReady(c: Cfg, v: St, t: St)
    requires Core(c, v) && v.ready != [] && t == v.(ready := v.ready[1..], first := v.first + 1, total := v.total + 1)
    ensures Core(c, t) && (forall open: set<nat> :: FullExcept(c, v, open) ==> FullExcept(c, t, open))
    ensures forall s: St :: Stable(s, v) ==> Stable(s, t)
  {
    forall q | 0 <= q < c.queues
      ensures QueueAt(c, t, q)
    {
      assert QueueAt(c, v, q);
    }
    forall i, j | 0 <= i < j < |t.ready|
      ensures Ahead(t.ready[i], t.ready[j])
    {
      assert Ahead(v.ready[i + 1], v.ready[j + 1]);
    }
    forall open: set<nat> | FullExcept(c, v, open)
      ensures FullExcept(c, t, open)
    {
      forall q | 0 <= q < c.queues && q !in open
        ensures Full(c, t, q)
      {
        assert Full(c, v, q);
      }
    }
    forall s: St | Stable(s, v)
      ensures Stable(s, t)
    {
      forall q | 0 <= q < |s.active|
        ensures KeepsPrefix(s, t, q)
      {
        assert KeepsPrefix(s, v, q);
      }
    }
  }

  lemma {:induction false} ScheduleKeeps(c: Cfg, s: St, n: nat, open: set<nat>, extra: int)
    requires Inv(c, s, open, extra) && n <= Room(c, s) && Stable(s, s)
    ensures var t := Schedule(c, s, n);
            && Inv(c, t, open, extra) && Stable(s, t) && Work(t) == Work(s) && t.finished == s.finished
            && Grows(s, t, []) && (t.ready == [] || Room(c, t) == Room(c, s) - n)
    decreases n
  {
    hide Inv, Stable, Work, ScheduleOne, Grows, ReadyStreams, Fits;
    InvFits(c, s, open, extra);
    if n > 0 && s.ready != [] {
      var t := ScheduleOne(c, s);
      ScheduleOneKeeps(c, s, open, extra);
      StableSelf(c, t, open, extra);
      ScheduleKeeps(c, t, n - 1, open, extra);
      StableTransitive(s, t, Schedule(c, t, n - 1));
      var none: seq<Stream> := [];
      assert none + none == none;
      GrowsTransitive(s, t, Schedule(c, t, n - 1), none, none);
    } else {
      GrowsSelf(s);
    }
  }

  lemma StableSelf(c: Cfg, s: St, open: set<nat>, extra: int)
    requires Inv(c, s, open, extra)
    ensures Stable(s, s)
  {
    forall q | 0 <= q < |s.active|
      ensures KeepsPrefix(s, s, q)
    {
      assert QueueAt(c, s, q);
    }
  }

  // After admission a stream waits in the ready list only when one of the two limits is reached.
  lemma AdmitKeeps(c: Cfg, s: St, open: set<nat>, extra: int)
    requires Inv(c, s, open, extra)
    ensures var t := Admit(c, s);
            && Inv(c, t, open, extra) && Stable(s, t) && Work(t) == Work(s) && t.finished == s.finished
            && Grows(s, t, []) && (t.ready == [] || Room(c, t) == 0)
  {
    hide Schedule, Work, Stable, FullExcept, Core, All;
    InvFits(c, s, open, extra);
    StableSelf(c, s, open, extra);
    GrowsSelf(s);
    if Room(c, s) > 0 { ScheduleKeeps(c, s, Room(c, s), open, extra); }
  }

  lemma AddReadyKeeps(c: Cfg, s: St, x: Stream, open: set<nat>, extra: int)
    requires Inv(c, s, open, extra) && NewStream(c, x)
    ensures var t := AddReady(c, s, x);
            && Inv(c, t, open, extra) && Stable(s, t) && Work(t) == Work(s) + |x.plan| && t.finished == s.finished
            && Grows(s, t, [x]) && (t.ready == [] || Room(c, t) == 0)
  {
    hide Admit, Stable, All, Grows, Work;
    var u := s.(ready := Insert(s.ready, x.(arrival := s.clock)), clock := s.clock + 1);
    QueuedReady(c, s, x);
    QueuedGrows(s, x);
    AdmitKeeps(c, u, open, extra);
    StableLists(c, s, u, open, extra);
    StableTransitive(s, u, AddReady(c, s, x));
    GrowsTransitive(s, u, AddReady(c, s, x), [x], []);
    assert [x] + [] == [x];
  }

  lemma QueuedGrows(s: St, x: Stream)
    requires x.steps == 0
    ensures var u := s.(ready := Insert(s.ready, x.(arrival := s.clock)), clock := s.clock + 1);
            Grows(s, u, [x]) && Work(u) == Work(s) + |x.plan|
  {
    hide Tally, All;
    var y := x.(arrival := s.clock);
    var k := Spot(s.ready, y, 0);
    assert s.ready[k..k] == [];
    NoTally();
    forall m: Measure
      ensures Tally(m, Insert(s.ready, y)) == Tally(m, s.ready) + Weight(m, y) && Tally(m, [x]) == Weight(m, x)
    {
      TallySplice(m, s.ready, k, [y], k);
      TallyOne(m, y);
      TallyOne(m, x);
    }
  }

  lemma StableLists(c: Cfg, s: St, u: St, open: set<nat>, extra: int)
    requires Inv(c, s, open, extra) && u.active == s.active && u.running == s.running
    ensures Stable(s, u)
  {
    hide Inv;
    StableSelf(c, s, open, extra);
    forall q | 0 <= q < |s.active|
      ensures KeepsPrefix(s, u, q)
    {
      assert KeepsPrefix(s, s, q);
    }
  }

  lemma QueuedReady(c: Cfg, s: St, x: Stream)
    requires Core(c, s) && NewStream(c, x)
    ensures Core(c, s.(ready := Insert(s.ready, x.(arrival := s.clock)), clock := s.clock + 1))
  {
    var y := x.(arrival := s.clock);
    var u := s.(ready := Insert(s.ready, y), clock := s.clock + 1);
    assert |u.ready| == |s.ready| + 1;
    hide Insert, QueueOk, Ranked;
    InsertRanked(s.ready, 0, y);
    forall i | 0 <= i < |u.ready|
      ensures NewStream(c, u.ready[i]) && u.ready[i].arrival < u.clock
    {
      InsertElements(s.ready, y, i);
    }
    forall q | 0 <= q < c.queues
      ensures QueueAt(c, u, q)
    {
      assert QueueAt(c, s, q);
      LaterClock(c, s.active[q], s.running[q], q, s.clock);
    }
  }

  function Plans(xs: seq<Stream>): nat {
    if xs == [] then 0 else Plans(xs[..|xs| - 1]) + |xs[|xs| - 1].plan|
  }

  lemma {:induction false} AddAllKeeps(c: Cfg, s: St, xs: seq<Stream>, open: set<nat>, extra: int)
    requires Inv(c, s, open, extra) && forall x <- xs :: NewStream(c, x)
    ensures var t := AddAll(c, s, xs);
            && Inv(c, t, open, extra) && Stable(s, t) && Work(t) == Work(s) + Plans(xs) && t.finished == s.finished
            && Grows(s, t, xs)
    decreases |xs|
  {
    hide Inv, Stable, Work, AddReady, NewStream, Grows, FullExcept, Core;
    InvFits(c, s, open, extra);
    StableSelf(c, s, open, extra);
    if xs == [] {
      GrowsSelf(s);
    } else {
      var n := |xs| - 1;
      var t := AddAll(c, s, xs[..n]);
      AddAllKeeps(c, s, xs[..n], open, extra);
      AddReadyKeeps(c, t, xs[n], open, extra);
      StableTransitive(s, t, AddAll(c, s, xs));
      GrowsTransitive(s, t, AddAll(c, s, xs), xs[..n], [xs[n]]);
      assert xs[..n] + [xs[n]] == xs;
    }
  }

  lemma GrowsSelf(s: St)
    ensures Grows(s, s, [])
  {
  }

  lemma GrowsTransitive(s: St, t: St, u: St, xs: seq<Stream>, ys: seq<Stream>)
    requires Grows(s, t, xs) && Grows(t, u, ys)
    ensures Grows(s, u, xs + ys)
  {
    hide Population, Tally, Reached;
    forall m: Measure
      ensures Tally(m, xs + ys) == Tally(m, xs) + Tally(m, ys)
    {
      TallyConcat(m, xs, ys);
    }
  }

  // ---------- the end of a phase ----------

  // A running stream leaves: the running ones stay a prefix, and only its own queue may have room afterwards.
  lemma LeaveKeeps(c: Cfg, s: St, q: nat, i: nat, open: set<nat>)
    requires Core(c, s) && FullExcept(c, s, open) && q < c.queues && i < s.running[q] && i < |s.active[q]|
    ensures Runs(c, s, q, i)
    ensures var t := Leave(c, s, q, i);
            && Core(c, t) && FullExcept(c, t, open + {q})
            && forall m :: All(m, t.active) == All(m, s.active) - Weight(m, s.active[q][i])
  {
    assert QueueAt(c, s, q);
    var t, list := Leave(c, s, q, i), s.active[q];
    forall m: Measure
      ensures All(m, t.active) == All(m, s.active) - Weight(m, list[i])
    {
      TallySplice(m, list, i, [], i + 1);
      assert list[..i] + [] + list[i + 1..] == t.active[q] && list[i..i + 1] == [list[i]];
      TallyOne(m, list[i]);
      AllUpdate(m, s.active, q, t.active[q]);
    }
    hide Ranked, All, Weight;
    LeaveRanked(c, s, q, i);
    forall k | 0 <= k < c.queues
      ensures QueueAt(c, t, k) && (k !in open + {q} ==> Full(c, t, k))
    {
      assert QueueAt(c, s, k);
    }
  }

  lemma LeaveRanked(c: Cfg, s: St, q: nat, i: nat)
    requires Fits(c, s) && q < c.queues && QueueAt(c, s, q) && i < s.running[q] && Runs(c, s, q, i)
    ensures QueueAt(c, Leave(c, s, q, i), q)
  {
    var list, less := s.active[q], Leave(c, s, q, i).active[q];
    assert forall k :: 0 <= k < |less| ==> less[k] == if k < i then list[k] else list[k + 1];
    forall k | 0 <= k < |less|
      ensures (less[k].initialized <==> k < s.running[q] - 1) && Placed(c, less[k], q, s.clock)
    {
      assert Placed(c, list[if k < i then k else k + 1], q, s.clock);
    }
    forall a, b | s.running[q] - 1 <= a < b < |less|
      ensures Ahead(less[a], less[b])
    {
      assert Ahead(list[a + 1], list[b + 1]);
    }
  }

  lemma RunsIsRunning(c: Cfg, s: St, q: nat, i: nat)
    requires Core(c, s) && Runs(c, s, q, i)
    ensures i < s.running[q] && Placed(c, s.active[q][i], q, s.clock)
  {
    assert QueueAt(c, s, q);
  }

  // Changing the counters or the finished streams leaves the queues as they are.
  lemma CountersOnly(c: Cfg, s: St, t: St, open: set<nat>)
    requires Core(c, s) && FullExcept(c, s, open)
    requires t == s.(first := t.first, total := t.total, finished := t.finished)
    ensures Core(c, t) && FullExcept(c, t, open)
  {
    forall q | 0 <= q < c.queues
      ensures QueueAt(c, t, q) && (q !in open ==> Full(c, t, q))
    {
      assert QueueAt(c, s, q);
      assert q !in open ==> Full(c, s, q);
    }
  }

  // A stream that ends its last phase is finished; the layer's new streams, the next ready ones and the next
  // ones of the queue take its place.
  lemma CompleteKeeps(c: Cfg, s: St, q: nat, i: nat, made: seq<Stream>)
    requires Inv(c, s, {}, 0) && Runs(c, s, q, i) && forall x <- made :: NewStream(c, x)
    requires s.active[q][i].steps == |s.active[q][i].plan|
    ensures var t := Complete(c, s, q, i, made);
            && Inv(c, t, {}, 0) && Work(t) == Work(s) + Plans(made) - 1 && Advances(s, t, s.active[q][i], made)
            && t.finished == s.finished + [s.active[q][i]] && (t.ready == [] || Room(c, t) == 0)
  {
    hide QueueAt, Admit, Fill, AddAll, Leave, All, Tally, FullExcept, Core;
    InvFits(c, s, {}, 0);
    RunsIsRunning(c, s, q, i);
    var x := s.active[q][i];
    var extra := if x.steps == 1 then 1 else 0;
    var u := LeftFirst(s, x).(finished := s.finished + [x]);
    CountersOnly(c, s, u, {});
    AddAllKeeps(c, u, made, {}, extra);
    var told := AddAll(c, u, made);
    assert KeepsPrefix(u, told, q);
    assert told.active[q][i] == told.active[q][..u.running[q]][i] == x;
    LeaveKeeps(c, told, q, i, {});
    var left := Leave(c, told, q, i);
    LeaveRest(c, told, q, i);
    var w := left.(total := left.total - 1);
    assert {} + {q} == {q};
    CountersOnly(c, left, w, {q});
    AdmitKeeps(c, w, {q}, 0);
    FillKeeps(c, Admit(c, w), q, {});
    forall m: Measure
      ensures Tally(m, u.finished) == Tally(m, s.finished) + Weight(m, x)
    {
      TallyConcat(m, s.finished, [x]);
      TallyOne(m, x);
    }
    NoTally();
  }

  lemma NoTally()
    ensures forall m: Measure :: Tally(m, []) == 0
  {
  }

  lemma LeaveRest(c: Cfg, s: St, q: nat, i: nat)
    requires Fits(c, s) && Runs(c, s, q, i)
    ensures Leave(c, s, q, i) == s.(active := Leave(c, s, q, i).active, running := Leave(c, s, q, i).running)
  {
  }

  // A stream that has phases left goes into the queue of the next one.
  lemma MoveKeeps(c: Cfg, s: St, q: nat, i: nat)
    requires Inv(c, s, {}, 0) && Runs(c, s, q, i)
    requires s.active[q][i].steps < |s.active[q][i].plan|
    ensures PlanOk(c, s.active[q][i].plan)
    ensures var t := Move(c, s, q, i);
            && Inv(c, t, {}, 0) && Work(t) == Work(s) - 1 && Advances(s, t, s.active[q][i], [])
            && t.finished == s.finished && (t.ready == [] || Room(c, t) == 0)
  {
    hide QueueAt, Admit, Fill, Leave, All, Tally, FullExcept, Enter;
    RunsIsRunning(c, s, q, i);
    hide Core;
    var x := s.active[q][i];
    var p := x.plan[x.steps];
    var u := LeftFirst(s, x);
    CountersOnly(c, s, u, {});
    LeaveKeeps(c, u, q, i, {});
    var left := Leave(c, u, q, i);
    LeaveRest(c, u, q, i);
    assert {} + {q} == {q} && {q} + {p} == {p} + {q} && {} + {p} == {p};
    EnterKeeps(c, left, x, {q});
    var moved := Enter(c, left, x);
    EnterRest(c, left, x);
    AdmitKeeps(c, moved, {p} + {q}, 0);
    FillKeeps(c, Admit(c, moved), q, {p});
    FillKeeps(c, Fill(c, Admit(c, moved), q), p, {});
  }

  lemma EnterRest(c: Cfg, s: St, x: Stream)
    requires Fits(c, s) && PlanOk(c, x.plan) && x.steps < |x.plan|
    ensures Enter(c, s, x) == s.(active := Enter(c, s, x).active, clock := s.clock + 1)
  {
  }

  // ---------- runs ----------

  predicate Enabled(c: Cfg, s: St, step: Step) {
    && Fits(c, s) && ReadyStreams(c, s)
    && match step
       case Add(x) => NewStream(c, x)
       case Proceed(q, i, made) =>
         && Runs(c, s, q, i) && PlanOk(c, s.active[q][i].plan)
         && s.active[q][i].steps <= |s.active[q][i].plan|
         && forall x <- made :: NewStream(c, x)
  }

  // A proceeding stream makes others only when it completes.
  function Do(c: Cfg, s: St, step: Step): St
    requires Enabled(c, s, step)
  {
    match step
    case Add(x) => AddReady(c, s, x)
    case Proceed(q, i, made) =>
      if s.active[q][i].steps == |s.active[q][i].plan| then Complete(c, s, q, i, made) else Move(c, s, q, i)
  }

  // The state after a run from the start, if every step of it is possible.
  datatype Outcome = Impossible | State(s: St)

  function After(c: Cfg, steps: seq<Step>): Outcome {
    if steps == [] then State(Init(c))
    else
      var before := After(c, steps[..|steps| - 1]);
      if before.State? && Enabled(c, before.s, steps[|steps| - 1]) then State(Do(c, before.s, steps[|steps| - 1]))
      else Impossible
  }

  ghost predicate Steady(c: Cfg, s: St) { Inv(c, s, {}, 0) && (s.ready == [] || Room(c, s) == 0) }

  lemma InitSteady(c: Cfg)
    ensures Steady(c, Init(c)) && Work(Init(c)) == 0
  {
    AllNone(Streams, c.queues);
    AllNone(Firsts, c.queues);
    AllNone(Phases, c.queues);
    assert forall q :: 0 <= q < c.queues ==> QueueAt(c, Init(c), q);
  }

  lemma {:induction false} RunKeeps(c: Cfg, steps: seq<Step>)
    requires After(c, steps).State?
    ensures Steady(c, After(c, steps).s)
    decreases |steps|
  {
    if steps == [] {
      InitSteady(c);
    } else {
      hide Steady, Enabled, Do, NewBy, Work, Grows, Advances;
      RunKeeps(c, steps[..|steps| - 1]);
      StepMoves(c, After(c, steps[..|steps| - 1]).s, steps[|steps| - 1]);
    }
  }

  // ---------- results ----------

  // After every step of every run, in every queue: the running streams are the first ones, as many as the
  // threshold or the list allows, the others are ranked by priority and arrival, and each is in the phase that
  // the queue serves.
  lemma QueueDiscipline(c: Cfg, steps: seq<Step>, q: nat)
    requires After(c, steps).State? && q < c.queues
    ensures var s := After(c, steps).s;
            && Fits(c, s) && s.running[q] == Min(c.queueThreshold, |s.active[q]|)
            && (forall i :: 0 <= i < |s.active[q]| ==> (s.active[q][i].initialized <==> i < s.running[q]))
            && (forall i, j :: s.running[q] <= i < j < |s.active[q]| ==> Ahead(s.active[q][i], s.active[q][j]))
            && (forall i :: 0 <= i < |s.active[q]| ==> Placed(c, s.active[q][i], q, s.clock))
  {
    hide After;
    RunKeeps(c, steps);
    assert QueueAt(c, After(c, steps).s, q) && Full(c, After(c, steps).s, q);
  }

  // The two counters count the streams in the queues and those of them in their first phase, stay within their
  // limits, and leave a stream in the ready list only at a limit.
  lemma Admission(c: Cfg, steps: seq<Step>)
    requires After(c, steps).State?
    ensures var s := After(c, steps).s;
            && s.total == All(Streams, s.active) <= c.maxRunningStreams
            && s.first == All(Firsts, s.active) <= c.readyListThreshold
            && (s.ready == [] || s.total == c.maxRunningStreams || s.first == c.readyListThreshold)
            && Ranked(s.ready, 0)
  {
    hide After;
    RunKeeps(c, steps);
  }

  // The streams that come new with a step: a proceeding stream makes others only when it completes.
  function NewBy(c: Cfg, s: St, step: Step): seq<Stream>
    requires Enabled(c, s, step)
  {
    match step
    case Add(x) => [x]
    case Proceed(q, i, made) => if Completes(c, s, step) then made else []
  }

  predicate Completes(c: Cfg, s: St, step: Step)
    requires Enabled(c, s, step)
  {
    step.Proceed? && s.active[step.queue][step.index].steps == |s.active[step.queue][step.index].plan|
  }

  // What one step does to the streams.
  lemma StepMoves(c: Cfg, s: St, step: Step)
    requires Steady(c, s) && Enabled(c, s, step)
    ensures var t := Do(c, s, step);
            && Steady(c, t)
            && Work(t) == Work(s) + Plans(NewBy(c, s, step)) - (if step.Proceed? then 1 else 0)
            && (step.Add? ==> Grows(s, t, NewBy(c, s, step)) && t.finished == s.finished)
            && (step.Proceed? ==>
                  var x := s.active[step.queue][step.index];
                  && Placed(c, x, step.queue, s.clock) && Advances(s, t, x, NewBy(c, s, step))
                  && t.finished == s.finished + (if Completes(c, s, step) then [x] else []))
  {
    hide Inv, Room, Complete, Move, AddReady, Work, Grows, Advances;
    match step
    case Add(x) =>
      AddReadyKeeps(c, s, x, {}, 0);
      PlansOne(x);
    case Proceed(q, i, made) =>
      InvRuns(c, s, q, i);
      if s.active[q][i].steps == |s.active[q][i].plan| {
        CompleteKeeps(c, s, q, i, made);
      } else {
        MoveKeeps(c, s, q, i);
      }
  }

  lemma PlansOne(x: Stream)
    ensures Plans([x]) == |x.plan| && Plans([]) == 0
  {
    assert [x][..0] == [];
  }

  lemma InvRuns(c: Cfg, s: St, q: nat, i: nat)
    requires Inv(c, s, {}, 0) && Fits(c, s) && Runs(c, s, q, i)
    ensures Placed(c, s.active[q][i], q, s.clock)
  {
    RunsIsRunning(c, s, q, i);
  }

  // The streams that come new with a step after the steps before it.
  function NewAt(c: Cfg, before: seq<Step>, step: Step): seq<Stream> {
    var o := After(c, before);
    if o.State? && Enabled(c, o.s, step) then NewBy(c, o.s, step) else []
  }

  // The phases that the streams added by a run have in all, and the phases ended by it.
  function Added(steps: seq<Step>, c: Cfg): int {
    if steps == [] then 0
    else Added(steps[..|steps| - 1], c) + Plans(NewAt(c, steps[..|steps| - 1], steps[|steps| - 1]))
  }

  function Ended(steps: seq<Step>): nat {
    if steps == [] then 0
    else Ended(steps[..|steps| - 1]) + (if steps[|steps| - 1].Proceed? then 1 else 0)
  }

  // Over all streams: the phases still to do are those added less those ended.
  lemma {:induction false} PhasesOnce(c: Cfg, steps: seq<Step>)
    requires After(c, steps).State?
    ensures Work(After(c, steps).s) == Added(steps, c) - Ended(steps)
    decreases |steps|
  {
    if steps == [] {
      InitSteady(c);
    } else {
      hide Work, Do, Steady, NewBy, Grows, Advances, Enabled;
      var rest, step := steps[..|steps| - 1], steps[|steps| - 1];
      PhasesOnce(c, rest);
      RunKeeps(c, rest);
      StepMoves(c, After(c, rest).s, step);
    }
  }

  // Streams that were added, counted by what they keep.
  function Entered(m: Measure, c: Cfg, steps: seq<Step>): int {
    if steps == [] then 0
    else Entered(m, c, steps[..|steps| - 1]) + Tally(m, NewAt(c, steps[..|steps| - 1], steps[|steps| - 1]))
  }

  // No stream is lost or doubled, and a stream is finished only after all its phases.
  lemma {:induction false} StreamsConserved(c: Cfg, steps: seq<Step>, m: Measure)
    requires After(c, steps).State? && Lasting(m)
    ensures Population(m, After(c, steps).s) == Entered(m, c, steps)
    ensures forall x <- After(c, steps).s.finished :: x.steps == |x.plan|
    decreases |steps|
  {
    if steps == [] {
      AllNone(m, c.queues);
    } else {
      hide Work, Do, Steady, NewBy, Grows, Advances, Enabled, Population;
      var rest, step := steps[..|steps| - 1], steps[|steps| - 1];
      var s := After(c, rest).s;
      StreamsConserved(c, rest, m);
      RunKeeps(c, rest);
      StepMoves(c, s, step);
      StepMembers(c, s, step, m);
    }
  }

  lemma StepMembers(c: Cfg, s: St, step: Step, m: Measure)
    requires Steady(c, s) && Enabled(c, s, step) && Lasting(m)
    ensures Population(m, Do(c, s, step)) == Population(m, s) + Tally(m, NewBy(c, s, step))
  {
    hide Work, Do, Steady, NewBy, Population, Reached, Enabled;
    StepMoves(c, s, step);
  }

  // The number of finished streams of a data set reaches the number that were added exactly when none of its
  // streams waits or is in a queue.
  lemma DataSetDone(c: Cfg, steps: seq<Step>, m: Measure)
    requires After(c, steps).State? && m.DataSet?
    ensures var s := After(c, steps).s;
            && 0 <= Tally(m, s.finished) <= Entered(m, c, steps)
            && (Tally(m, s.finished) == Entered(m, c, steps) <==>
                Tally(m, s.ready) == 0 && forall q :: 0 <= q < c.queues ==> Tally(m, s.active[q]) == 0)
  {
    hide After;
    StreamsConserved(c, steps, m);
    RunKeeps(c, steps);
    var s := After(c, steps).s;
    TallyPositive(m, s.ready);
    TallyPositive(m, s.finished);
    AllPositive(m, s.active);
  }

  lemma {:induction false} TallyPositive(m: Measure, list: seq<Stream>)
    requires Lasting(m) || m.Nothing? || m.InStep?
    ensures Tally(m, list) >= 0
    decreases |list|
  {
    if list != [] { TallyPositive(m, list[..|list| - 1]); }
  }

  lemma {:induction false} AllPositive(m: Measure, lists: seq<seq<Stream>>)
    requires Lasting(m) || m.Nothing? || m.InStep?
    ensures All(m, lists) >= 0
    ensures All(m, lists) == 0 <==> forall q :: 0 <= q < |lists| ==> Tally(m, lists[q]) == 0
    decreases |lists|
  {
    if lists != [] {
      var n := |lists| - 1;
      AllPositive(m, lists[..n]);
      TallyPositive(m, lists[n]);
      assert forall q :: 0 <= q < n ==> lists[..n][q] == lists[q];
    }
  }

  lemma {:induction false} TallyBounds(c: Cfg, list: seq<Stream>, q: nat, clock: nat)
    requires forall i :: 0 <= i < |list| ==> Placed(c, list[i], q, clock)
    ensures Tally(Phases, list) >= Tally(Streams, list) == |list| >= Tally(Firsts, list) >= 0
    decreases |list|
  {
    if list != [] {
      TallyBounds(c, list[..|list| - 1], q, clock);
      assert Placed(c, list[|list| - 1], q, clock);
    }
  }

  // Some queue is not empty when the sum over all of them is not 0.
  lemma {:induction false} SomeQueue(c: Cfg, s: St, n: nat) returns (q: nat)
    requires Core(c, s) && n <= c.queues && All(Streams, s.active[..n]) > 0
    ensures q < n && s.active[q] != []
    decreases n
  {
    assert s.active[..n][..n - 1] == s.active[..n - 1];
    if s.active[n - 1] != [] {
      q := n - 1;
    } else {
      q := SomeQueue(c, s, n - 1);
    }
  }

  lemma {:induction false} AllBounds(c: Cfg, s: St, n: nat)
    requires Core(c, s) && n <= c.queues
    ensures var a := s.active[..n];
            All(Phases, a) >= All(Streams, a) >= All(Firsts, a) >= 0 && (All(Streams, a) == 0 ==> All(Phases, a) == 0)
    decreases n
  {
    if n > 0 {
      assert s.active[..n][..n - 1] == s.active[..n - 1];
      AllBounds(c, s, n - 1);
      assert QueueAt(c, s, n - 1);
      TallyBounds(c, s.active[n - 1], n - 1, s.clock);
    }
  }

  lemma {:induction false} ReadyWork(c: Cfg, ready: seq<Stream>)
    requires forall i :: 0 <= i < |ready| ==> NewStream(c, ready[i])
    ensures Tally(Phases, ready) >= 2 * |ready|
    decreases |ready|
  {
    if ready != [] { ReadyWork(c, ready[..|ready| - 1]); }
  }

  // With limits of at least one, streams never get stuck: while any phase is still to do, some stream runs.
  lemma NeverStuck(c: Cfg, steps: seq<Step>)
    requires c.queueThreshold > 0 && c.readyListThreshold > 0 && c.maxRunningStreams > 0
    requires After(c, steps).State?
    ensures var s := After(c, steps).s;
            && Work(s) >= 0
            && (Work(s) > 0 <==> exists q :: 0 <= q < c.queues && Enabled(c, s, Proceed(q, 0, [])))
            && (Work(s) == 0 <==> s.ready == [] && forall q :: 0 <= q < c.queues ==> s.active[q] == [])
  {
    hide After;
    RunKeeps(c, steps);
    var s := After(c, steps).s;
    assert s.active[..c.queues] == s.active;
    AllBounds(c, s, c.queues);
    ReadyWork(c, s.ready);
    if All(Streams, s.active) > 0 {
      var q := SomeQueue(c, s, c.queues);
      assert QueueAt(c, s, q) && Full(c, s, q);
      assert Placed(c, s.active[q][0], q, s.clock);
      assert Enabled(c, s, Proceed(q, 0, []));
    } else {
      NoQueue(c, s, c.queues);
    }
  }

  lemma {:induction false} NoQueue(c: Cfg, s: St, n: nat)
    requires Core(c, s) && n <= c.queues && All(Streams, s.active[..n]) == 0
    ensures forall q :: 0 <= q < n ==> s.active[q] == []
    decreases n
  {
    if n > 0 {
      assert s.active[..n][..n - 1] == s.active[..n - 1];
      AllBounds(c, s, n - 1);
      assert QueueAt(c, s, n - 1);
      TallyBounds(c, s.active[n - 1], n - 1, s.clock);
      NoQueue(c, s, n - 1);
    }
  }
}
