/**
  Streams of a node.  A stream waits in the ready list until it is admitted, then goes through the queues of its
  phases.  Each queue runs the first streams of its list, up to a threshold.
*/
module StreamModel {

  datatype Cfg = Cfg(queues: nat, queueThreshold: nat, readyListThreshold: nat, maxRunningStreams: nat)

  /**
    A stream: the queues of its phases, how many of the phases it has begun, and whether the current one runs.
    `arrival` is history: when the stream was put into the list it is in.
  */
  datatype Stream = Stream(id: nat, priority: int, plan: seq<nat>, steps: nat, initialized: bool, arrival: nat)

  datatype St = St(ready: seq<Stream>, active: seq<seq<Stream>>, running: seq<nat>, first: int, total: int,
                   clock: nat, finished: seq<Stream>)

  // A new stream, or a running one that ends its phase; when that was its last phase, `made` are the streams
  // that the notified layer makes at once.
  datatype Step = Add(x: Stream) | Proceed(queue: nat, index: nat, made: seq<Stream>)

  function Init(c: Cfg): St { St([], seq(c.queues, _ => []), seq(c.queues, _ => 0), 0, 0, 0, []) }

  predicate PlanOk(c: Cfg, plan: seq<nat>) { plan != [] && forall i :: 0 <= i < |plan| ==> plan[i] < c.queues }

  predicate Fits(c: Cfg, s: St) { |s.active| == |s.running| == c.queues }

  // ---------- lists ----------

  predicate Passed(x: Stream, y: Stream) { x.initialized || x.priority >= y.priority }

  // The first place from i on that a new stream does not pass.
  function Spot(list: seq<Stream>, y: Stream, i: nat): (r: nat)
    requires i <= |list|
    ensures i <= r <= |list| && (r < |list| ==> !Passed(list[r], y))
    ensures forall j :: i <= j < r ==> Passed(list[j], y)
    decreases |list| - i
  {
    if i == |list| || !Passed(list[i], y) then i else Spot(list, y, i + 1)
  }

  function Insert(list: seq<Stream>, y: Stream): seq<Stream> {
    var i := Spot(list, y, 0);
    list[..i] + [y] + list[i..]
  }

  // ---------- the scheduler ----------

  predicate HasRoom(c: Cfg, s: St, q: nat)
    requires Fits(c, s) && q < c.queues
  {
    s.running[q] < c.queueThreshold && s.running[q] < |s.active[q]|
  }

  function InitNext(c: Cfg, s: St, q: nat): St
    requires Fits(c, s) && q < c.queues && HasRoom(c, s, q)
  {
    var r := s.running[q];
    s.(active := s.active[q := s.active[q][r := s.active[q][r].(initialized := true)]],
       running := s.running[q := r + 1])
  }

  // Runs the next streams of a queue while there is room.
  function Fill(c: Cfg, s: St, q: nat): (t: St)
    requires Fits(c, s) && q < c.queues
    ensures Fits(c, t)
    ensures t.ready == s.ready && t.first == s.first && t.total == s.total && t.clock == s.clock
    ensures t.finished == s.finished
    decreases if HasRoom(c, s, q) then c.queueThreshold - s.running[q] else 0
  {
    if HasRoom(c, s, q) then Fill(c, InitNext(c, s, q), q) else s
  }

  // The next phase of a stream: it goes into the queue of that phase.
  function Enter(c: Cfg, s: St, x: Stream): (t: St)
    requires Fits(c, s) && PlanOk(c, x.plan) && x.steps < |x.plan|
    ensures Fits(c, t)
  {
    var q := x.plan[x.steps];
    s.(active := s.active[q := Insert(s.active[q], x.(steps := x.steps + 1, initialized := false,
                                                     arrival := s.clock))],
       clock := s.clock + 1)
  }

  predicate ReadyStreams(c: Cfg, s: St) {
    forall x <- s.ready :: PlanOk(c, x.plan) && x.steps == 0
  }

  function ScheduleOne(c: Cfg, s: St): (t: St)
    requires Fits(c, s) && ReadyStreams(c, s) && s.ready != []
    ensures Fits(c, t) && ReadyStreams(c, t)
  {
    var x := s.ready[0];
    Fill(c, Enter(c, s, x), x.plan[0]).(ready := s.ready[1..], first := s.first + 1, total := s.total + 1)
  }

  function Schedule(c: Cfg, s: St, n: nat): (t: St)
    requires Fits(c, s) && ReadyStreams(c, s)
    ensures Fits(c, t) && ReadyStreams(c, t)
    decreases n
  {
    if n == 0 || s.ready == [] then s else Schedule(c, ScheduleOne(c, s), n - 1)
  }

  function Room(c: Cfg, s: St): int {
    var a, b := c.readyListThreshold - s.first, c.maxRunningStreams - s.total;
    if a > b then b else a
  }

  function Admit(c: Cfg, s: St): (t: St)
    requires Fits(c, s) && ReadyStreams(c, s)
    ensures Fits(c, t) && ReadyStreams(c, t)
  {
    if Room(c, s) > 0 then Schedule(c, s, Room(c, s)) else s
  }

  predicate NewStream(c: Cfg, x: Stream) { PlanOk(c, x.plan) && x.steps == 0 && !x.initialized }

  function AddReady(c: Cfg, s: St, x: Stream): (t: St)
    requires Fits(c, s) && ReadyStreams(c, s) && NewStream(c, x)
    ensures Fits(c, t) && ReadyStreams(c, t)
  {
    Admit(c, s.(ready := Insert(s.ready, x.(arrival := s.clock)), clock := s.clock + 1))
  }

  function AddAll(c: Cfg, s: St, xs: seq<Stream>): (t: St)
    requires Fits(c, s) && ReadyStreams(c, s) && forall x <- xs :: NewStream(c, x)
    ensures Fits(c, t) && ReadyStreams(c, t)
  {
    if xs == [] then s else AddReady(c, AddAll(c, s, xs[..|xs| - 1]), xs[|xs| - 1])
  }

  predicate Runs(c: Cfg, s: St, q: nat, i: nat)
    requires Fits(c, s)
  {
    q < c.queues && i < |s.active[q]| && s.active[q][i].initialized && s.running[q] > 0
  }

  // Takes a running stream out of its queue.
  function Leave(c: Cfg, s: St, q: nat, i: nat): (t: St)
    requires Fits(c, s) && Runs(c, s, q, i)
    ensures Fits(c, t)
  {
    s.(active := s.active[q := s.active[q][..i] + s.active[q][i + 1..]], running := s.running[q := s.running[q] - 1])
  }

  function LeftFirst(s: St, x: Stream): St { if x.steps == 1 then s.(first := s.first - 1) else s }

  // A running stream ends its last phase.
  function Complete(c: Cfg, s: St, q: nat, i: nat, made: seq<Stream>): (t: St)
    requires Fits(c, s) && ReadyStreams(c, s) && Runs(c, s, q, i) && forall x <- made :: NewStream(c, x)
    ensures Fits(c, t) && ReadyStreams(c, t)
  {
    var x := s.active[q][i];
    var told := AddAll(c, LeftFirst(s, x).(finished := s.finished + [x]), made);
    if !Runs(c, told, q, i) then told
    else
      var left := Leave(c, told, q, i);
      Fill(c, Admit(c, left.(total := left.total - 1)), q)
  }

  // A running stream goes on to its next phase.
  function Move(c: Cfg, s: St, q: nat, i: nat): (t: St)
    requires Fits(c, s) && ReadyStreams(c, s) && Runs(c, s, q, i)
    requires var x := s.active[q][i]; PlanOk(c, x.plan) && x.steps < |x.plan|
    ensures Fits(c, t) && ReadyStreams(c, t)
  {
    var x := s.active[q][i];
    var moved := Enter(c, Leave(c, LeftFirst(s, x), q, i), x);
    Fill(c, Fill(c, Admit(c, moved), q), x.plan[x.steps])
  }
}
