/**
  Where every request of the shared bus goes: to the other side, through processing there when that was asked for,
  back to the side of the client when that was asked for, and out; each step once and in this order.
*/
module LogGPRoute {
  import opened LogGPModel
  import opened LogGPSafety

  // ---------- what is to come ----------

  // What has happened to one request.
  function Trail(log: seq<Mark>, id: nat): seq<Mark> {
    if log == [] then []
    else
      var k := log[|log| - 1];
      Trail(log[..|log| - 1], id) + (if k.id == id then [k] else [])
  }

  // A side with a nested memory bus waits for it before a request is queued, processed or completed.
  function Via(b: Bus, id: nat, y: SideId): seq<Mark> { if b.Get(y).hasMem then [Mark(Fetched, id, y)] else [] }

  // All that happens to a request, in order.
  function Journey(b: Bus, id: nat, a: Ask): seq<Mark> {
    var x, y := a.side, a.side.Other();
    var end := if a.sendBack then x else y;
    Via(b, id, x) + [Mark(Queued, id, x), Mark(Crossed, id, x), Mark(Received, id, y)]
    + (if a.processed then Via(b, id, y) + [Mark(Ready, id, y), Mark(Served, id, y)] else [])
    + (if a.sendBack then Via(b, id, y) + [Mark(Queued, id, y), Mark(Crossed, id, y), Mark(Received, id, x)] else [])
    + Via(b, id, end) + [Mark(Retired, id, end)]
  }

  // After processing at side y.
  function AfterServed(b: Bus, y: SideId, r: Request): seq<Mark> {
    var x := y.Other();
    if r.sendBack then
      Via(b, r.id, y) + [Mark(Queued, r.id, y), Mark(Crossed, r.id, y), Mark(Received, r.id, x)]
      + Via(b, r.id, x) + [Mark(Retired, r.id, x)]
    else Via(b, r.id, y) + [Mark(Retired, r.id, y)]
  }

  function AfterReceived(b: Bus, y: SideId, r: Request): seq<Mark> {
    (if r.processed then Via(b, r.id, y) + [Mark(Ready, r.id, y), Mark(Served, r.id, y)] else []) + AfterServed(b, y, r)
  }

  function AfterQueued(b: Bus, y: SideId, r: Request): seq<Mark> {
    [Mark(Crossed, r.id, y), Mark(Received, r.id, y.Other())] + AfterReceived(b, y.Other(), r)
  }

  // What a request in a list of side y has still to come.
  function Ahead(b: Bus, y: SideId, p: Place, r: Request): seq<Mark> {
    match p
    case InPreSend => [Mark(Fetched, r.id, y), Mark(Queued, r.id, y)] + AfterQueued(b, y, r)
    case InSends => AfterQueued(b, y, r)
    case InReceives => [Mark(Received, r.id, y)] + AfterReceived(b, y, r)
    case InPreProcess => [Mark(Fetched, r.id, y), Mark(Ready, r.id, y), Mark(Served, r.id, y)] + AfterServed(b, y, r)
    case InProcessing => [Mark(Served, r.id, y)] + AfterServed(b, y, r)
    case InRetirements => [Mark(Fetched, r.id, y), Mark(Retired, r.id, y)]
  }

  function List(s: Side, p: Place): seq<Request> {
    match p
    case InSends => s.sends
    case InPreSend => s.preSend
    case InReceives => s.receives
    case InProcessing => s.processing
    case InPreProcess => s.preProcess
    case InRetirements => s.retirements
  }

  // What has happened and what is to come make up the journey.
  ghost predicate OnRoute(b: Bus, y: SideId, p: Place, r: Request) {
    r.id < |b.asked| && Trail(b.log, r.id) + Ahead(b, y, p, r) == Journey(b, r.id, b.asked[r.id])
  }

  ghost predicate Arrived(b: Bus, id: nat) {
    && (id < |b.asked| && b.Times(Retired, id) > 0 ==> Trail(b.log, id) == Journey(b, id, b.asked[id]))
    && (id >= |b.asked| ==> Trail(b.log, id) == [])
  }

  ghost predicate RouteOk(b: Bus) {
    && (forall y, p, r :: r in List(b.Get(y), p) ==> OnRoute(b, y, p, r))
    && (forall id :: Arrived(b, id))
  }

  // ---------- one request moves ----------

  lemma {:induction false} TrailMore(log: seq<Mark>, marks: seq<Mark>, id: nat)
    requires forall k <- marks :: k.id == id
    ensures Trail(log + marks, id) == Trail(log, id) + marks
    ensures forall n: nat :: n != id ==> Trail(log + marks, n) == Trail(log, n)
    decreases |marks|
  {
    if marks == [] {
      assert log + marks == log;
    } else {
      var m := |marks| - 1;
      TrailMore(log, marks[..m], id);
      assert (log + marks)[..|log| + m] == log + marks[..m];
      assert marks == marks[..m] + [marks[m]];
    }
  }

  lemma {:induction false} CountMore(log: seq<Mark>, marks: seq<Mark>, kind: Kind, id: nat)
    requires forall k <- marks :: k.id == id
    ensures forall n: nat :: n != id ==> Count(log + marks, kind, n) == Count(log, kind, n)
    decreases |marks|
  {
    if marks == [] {
      assert log + marks == log;
    } else {
      var m := |marks| - 1;
      CountMore(log, marks[..m], kind, id);
      assert (log + marks)[..|log| + m] == log + marks[..m];
    }
  }

  lemma LoadTwo(m: Measure, s: Side, p: Place, q: Place)
    ensures Due(m, p, List(s, p)) <= Load(m, s)
    ensures p != q ==> Due(m, p, List(s, p)) + Due(m, q, List(s, q)) <= Load(m, s)
  {
    hide Due;
  }

  // A request that has one place only.
  lemma OnePlace(b: Bus, y: SideId, p: Place, r: Request)
    requires Total(Places(r.id), b) <= 1 && r in List(b.Get(y), p)
    ensures b.Times(Retired, r.id) == 0
    ensures forall z, q, t :: t in List(b.Get(z), q) && t.id == r.id ==> z == y && q == p && t == r
  {
    hide Due, Load, Count;
    var m := Places(r.id);
    var list := List(b.Get(y), p);
    DueFind(r.id, p, list);
    LoadTwo(m, b.Get(y), p, p);
    forall z, q, t | t in List(b.Get(z), q) && t.id == r.id
      ensures z == y && q == p && t == r
    {
      DueFind(r.id, q, List(b.Get(z), q));
      LoadTwo(m, b.Get(z), q, p);
      if z == y && q == p && t != r { TwoInList(list, p, r, t); }
    }
  }

  lemma TwoInList(list: seq<Request>, p: Place, r: Request, t: Request)
    requires r in list && t in list && r != t && r.id == t.id
    ensures Due(Places(r.id), p, list) >= 2
  {
    hide Due;
    var k :| 0 <= k < |list| && list[k] == r;
    var j :| 0 <= j < |list| && list[j] == t;
    DueWithout(Places(r.id), p, list, k);
    assert t == Without(list, k)[if j < k then j else j - 1];
    DueFind(r.id, p, Without(list, k));
  }

  ghost predicate SameMem(b: Bus, d: Bus) { forall y: SideId :: d.Get(y).hasMem == b.Get(y).hasMem }

  ghost predicate SameFrame(b: Bus, d: Bus) { d.asked == b.asked && SameMem(b, d) }

  ghost predicate Kept(b: Bus, d: Bus, z: SideId, p: Place) { forall t <- List(d.Get(z), p) :: t in List(b.Get(z), p) }

  // From b to d request r leaves list p of side x, with these marks, and appears as t in list q of side y.
  ghost predicate Moves(b: Bus, d: Bus, x: SideId, p: Place, r: Request, marks: seq<Mark>,
                        y: SideId, q: Place, t: Request)
  {
    && SameFrame(b, d) && d.log == b.log + marks && (forall k <- marks :: k.id == r.id)
    && r in List(b.Get(x), p) && t in List(d.Get(y), q) && t.id == r.id
    && (forall z, s, u :: u in List(d.Get(z), s) ==> u in List(b.Get(z), s) || (z == y && s == q && u == t))
    && Ahead(b, x, p, r) == marks + Ahead(b, y, q, t)
  }

  lemma SameVia(b: Bus, d: Bus)
    requires SameMem(b, d)
    ensures forall id, y :: Via(d, id, y) == Via(b, id, y)
  {
  }

  lemma SameAhead(b: Bus, d: Bus, y: SideId, p: Place, r: Request)
    requires SameMem(b, d)
    ensures Ahead(d, y, p, r) == Ahead(b, y, p, r)
  {
    SameVia(b, d);
    hide Via;
    assert AfterServed(d, y, r) == AfterServed(b, y, r) && AfterServed(d, y.Other(), r) == AfterServed(b, y.Other(), r);
    hide AfterServed;
  }

  lemma SameJourneys(b: Bus, d: Bus)
    requires SameMem(b, d)
    ensures forall id: nat, a: Ask :: Journey(d, id, a) == Journey(b, id, a)
  {
    SameVia(b, d);
    hide Via;
  }

  lemma MovedRoute(b: Bus, d: Bus, x: SideId, p: Place, r: Request, marks: seq<Mark>, y: SideId, q: Place, t: Request)
    requires RouteOk(b) && Moves(b, d, x, p, r, marks, y, q, t) && Total(Places(r.id), d) <= 1
    ensures RouteOk(d)
  {
    hide Journey, Ahead, Trail, Count, Total, List;
    OnePlace(d, y, q, t);
    TrailMore(b.log, marks, r.id);
    CountMore(b.log, marks, Retired, r.id);
    assert OnRoute(b, x, p, r);
    SameJourneys(b, d);
    forall z, s, u | u in List(d.Get(z), s)
      ensures OnRoute(d, z, s, u)
    {
      SameAhead(b, d, z, s, u);
      if u.id == r.id {
        assert Trail(b.log, r.id) + (marks + Ahead(b, y, q, t)) == Trail(b.log, r.id) + marks + Ahead(b, y, q, t);
      } else {
        assert OnRoute(b, z, s, u);
      }
    }
    forall id
      ensures Arrived(d, id)
    {
      assert Arrived(b, id);
    }
  }

  // Request r leaves its list, with these marks, for good.
  ghost predicate Leaves(b: Bus, d: Bus, x: SideId, p: Place, r: Request, marks: seq<Mark>) {
    && SameFrame(b, d) && d.log == b.log + marks && (forall k <- marks :: k.id == r.id)
    && r in List(b.Get(x), p) && (forall z, s, u :: u in List(d.Get(z), s) ==> u in List(b.Get(z), s))
    && Ahead(b, x, p, r) == marks && d.Times(Retired, r.id) > 0
  }

  lemma LeftRoute(b: Bus, d: Bus, x: SideId, p: Place, r: Request, marks: seq<Mark>)
    requires RouteOk(b) && Leaves(b, d, x, p, r, marks) && Total(Places(r.id), d) <= 1
    ensures RouteOk(d)
  {
    hide Journey, Ahead, Trail, Count, Total, List;
    TrailMore(b.log, marks, r.id);
    CountMore(b.log, marks, Retired, r.id);
    assert OnRoute(b, x, p, r);
    SameJourneys(b, d);
    forall z, s, u | u in List(d.Get(z), s)
      ensures OnRoute(d, z, s, u)
    {
      SameAhead(b, d, z, s, u);
      if u.id == r.id {
        OnePlace(d, z, s, u);
        assert false;
      }
      assert OnRoute(b, z, s, u);
    }
    forall id
      ensures Arrived(d, id)
    {
      assert Arrived(b, id);
    }
  }

  // Nothing moves.
  lemma StayedRoute(b: Bus, d: Bus)
    requires RouteOk(b) && SameFrame(b, d) && d.log == b.log
    requires forall z, s :: List(d.Get(z), s) == List(b.Get(z), s)
    ensures RouteOk(d)
  {
    hide Journey, Ahead, Trail, Count, List;
    SameJourneys(b, d);
    forall z, s, u | u in List(d.Get(z), s)
      ensures OnRoute(d, z, s, u)
    {
      SameAhead(b, d, z, s, u);
      assert OnRoute(b, z, s, u);
    }
    forall id
      ensures Arrived(d, id)
    {
      assert Arrived(b, id);
    }
  }

  // ---------- what comes next ----------

  lemma AheadProcess(b: Bus, x: SideId, r: Request)
    requires r.processed
    ensures var t := r.(processed := false);
            Ahead(b, x, InReceives, r) ==
            [Mark(Received, r.id, x)] +
            if b.Get(x).hasMem then Ahead(b, x, InPreProcess, t)
            else [Mark(Ready, r.id, x)] + Ahead(b, x, InProcessing, t)
  {
    assert AfterServed(b, x, r.(processed := false)) == AfterServed(b, x, r);
    hide AfterServed;
  }

  // The way back, after `first`.
  lemma AheadBack(b: Bus, x: SideId, r: Request)
    requires !r.processed && r.sendBack
    ensures var t := r.(sendBack := false);
            AfterServed(b, x, r) ==
            if b.Get(x).hasMem then Ahead(b, x, InPreSend, t) else [Mark(Queued, r.id, x)] + Ahead(b, x, InSends, t)
  {
    var t, y := r.(sendBack := false), x.Other();
    var back := Via(b, r.id, y) + [Mark(Retired, r.id, y)];
    assert AfterReceived(b, y, t) == back;
    var leg := [Mark(Crossed, r.id, x), Mark(Received, r.id, y)];
    assert AfterServed(b, x, r) == Via(b, r.id, x) + ([Mark(Queued, r.id, x)] + (leg + back));
    assert AfterQueued(b, x, t) == leg + back;
  }

  lemma AheadOut(b: Bus, x: SideId, r: Request)
    requires !r.sendBack
    ensures AfterServed(b, x, r) ==
            if b.Get(x).hasMem then Ahead(b, x, InRetirements, r) else [Mark(Retired, r.id, x)]
  {
  }

  lemma AheadServed(b: Bus, x: SideId, r: Request)
    ensures Ahead(b, x, InProcessing, r) == [Mark(Served, r.id, x)] + AfterServed(b, x, r)
    ensures !r.processed ==> Ahead(b, x, InReceives, r) == [Mark(Received, r.id, x)] + AfterServed(b, x, r)
    ensures Ahead(b, x, InSends, r) == [Mark(Crossed, r.id, x)] + Ahead(b, x.Other(), InReceives, r)
  {
    hide AfterServed;
  }

  lemma AheadMem(b: Bus, x: SideId, r: Request)
    ensures Ahead(b, x, InPreSend, r) == [Mark(Fetched, r.id, x), Mark(Queued, r.id, x)] + Ahead(b, x, InSends, r)
    ensures Ahead(b, x, InPreProcess, r) == [Mark(Fetched, r.id, x), Mark(Ready, r.id, x)] + Ahead(b, x, InProcessing, r)
  {
    hide AfterServed, AfterQueued;
  }

  // ---------- the operations ----------

  // StartProcessing starts an event only.
  lemma StartStays(b: Bus, x: SideId)
    ensures var d := StartProcessing(b, x);
            SameFrame(b, d) && d.log == b.log && forall z, s :: List(d.Get(z), s) == List(b.Get(z), s)
  {
  }

  // A list loses its request k and another one may get a request more.
  ghost predicate Passed(b: Bus, d: Bus, x: SideId, p: Place, k: nat, marks: seq<Mark>,
                        y: SideId, q: Place, t: Request)
  {
    && k < |List(b.Get(x), p)| && (x != y || p != q)
    && SameFrame(b, d) && d.log == b.log + marks
    && List(d.Get(x), p) == Without(List(b.Get(x), p), k) && List(d.Get(y), q) == List(b.Get(y), q) + [t]
    && forall z, s :: (z != x || s != p) && (z != y || s != q) ==> List(d.Get(z), s) == List(b.Get(z), s)
  }

  lemma PassedMoves(b: Bus, d: Bus, x: SideId, p: Place, k: nat, marks: seq<Mark>, y: SideId, q: Place, t: Request)
    requires Passed(b, d, x, p, k, marks, y, q, t)
    requires var r := List(b.Get(x), p)[k];
             && t.id == r.id && (forall m <- marks :: m.id == r.id) && Ahead(b, x, p, r) == marks + Ahead(b, y, q, t)
    ensures Moves(b, d, x, p, List(b.Get(x), p)[k], marks, y, q, t)
  {
    hide Ahead, List, Without;
    WithoutMembers(List(b.Get(x), p), k);
    assert t in [t];
  }

  ghost predicate Dropped(b: Bus, d: Bus, x: SideId, p: Place, k: nat, marks: seq<Mark>) {
    && k < |List(b.Get(x), p)| && SameFrame(b, d) && d.log == b.log + marks
    && List(d.Get(x), p) == Without(List(b.Get(x), p), k)
    && forall z, s :: z != x || s != p ==> List(d.Get(z), s) == List(b.Get(z), s)
  }

  lemma DroppedLeaves(b: Bus, d: Bus, x: SideId, p: Place, k: nat, marks: seq<Mark>)
    requires Dropped(b, d, x, p, k, marks)
    requires var r := List(b.Get(x), p)[k];
             && (forall m <- marks :: m.id == r.id) && Ahead(b, x, p, r) == marks
             && marks != [] && marks[|marks| - 1].kind == Retired
    ensures Leaves(b, d, x, p, List(b.Get(x), p)[k], marks)
  {
    hide Ahead, List;
    forall z, s, u | u in List(d.Get(z), s)
      ensures u in List(b.Get(z), s)
    {
      if z == x && s == p { WithoutMembers(List(b.Get(x), p), k); }
    }
    assert marks[|marks| - 1] in marks;
    assert d.log[..|d.log| - 1] == b.log + marks[..|marks| - 1];
  }

  lemma FirstOut(q: seq<Request>)
    requires q != []
    ensures Without(q, 0) == q[1..]
  {
  }

  // Out of `receives` or `processing`, and on to a list of the same side or out.
  lemma ToProcessPassed(b: Bus, x: SideId)
    requires b.Get(x).receives != []
    ensures var r := b.Get(x).receives[0]; var t := r.(processed := false);
            var q := if b.Get(x).hasMem then InPreProcess else InProcessing;
            var ready := if b.Get(x).hasMem then [] else [Mark(Ready, r.id, x)];
            Passed(b, PushProcess(PopReceive(b, x), x, t), x, InReceives, 0, [Mark(Received, r.id, x)] + ready, x, q, t)
  {
    FirstOut(b.Get(x).receives);
  }

  ghost predicate Popped(b: Bus, c: Bus, x: SideId, p: Place, kind: Kind) {
    && (p.InReceives? || p.InProcessing?) && List(b.Get(x), p) != []
    && SameFrame(b, c) && c.log == b.log + [Mark(kind, List(b.Get(x), p)[0].id, x)]
    && List(c.Get(x), p) == Without(List(b.Get(x), p), 0)
    && forall z, s :: z != x || s != p ==> List(c.Get(z), s) == List(b.Get(z), s)
  }

  lemma ReceivePopped(b: Bus, x: SideId)
    requires b.Get(x).receives != []
    ensures Popped(b, PopReceive(b, x), x, InReceives, Received)
  {
    FirstOut(b.Get(x).receives);
    hide Without;
  }

  lemma ProcessingPopped(b: Bus, x: SideId)
    requires b.Get(x).processing != []
    ensures Popped(b, PopProcessing(b, x), x, InProcessing, Served)
  {
    FirstOut(b.Get(x).processing);
    hide Without;
  }

  lemma ToSendPassed(b: Bus, c: Bus, x: SideId, p: Place, kind: Kind, t: Request)
    requires Popped(b, c, x, p, kind) && t.id == List(b.Get(x), p)[0].id
    ensures var q := if b.Get(x).hasMem then InPreSend else InSends;
            var queued := if b.Get(x).hasMem then [] else [Mark(Queued, t.id, x)];
            Passed(b, PushSend(c, x, t), x, p, 0, [Mark(kind, t.id, x)] + queued, x, q, t)
  {
  }

  lemma OutPassed(b: Bus, c: Bus, x: SideId, p: Place, kind: Kind, r: Request)
    requires Popped(b, c, x, p, kind) && r == List(b.Get(x), p)[0]
    ensures b.Get(x).hasMem ==> Passed(b, Retire(c, x, r), x, p, 0, [Mark(kind, r.id, x)], x, InRetirements, r)
    ensures !b.Get(x).hasMem ==> Dropped(b, Retire(c, x, r), x, p, 0, [Mark(kind, r.id, x), Mark(Retired, r.id, x)])
  {
  }

  ghost predicate AtMostOnce(b: Bus) { forall id :: Total(Places(id), b) <= 1 }

  lemma StartedRoute(e: Bus, x: SideId)
    requires AtMostOnce(StartProcessing(e, x))
    ensures AtMostOnce(e)
    ensures RouteOk(e) ==> RouteOk(StartProcessing(e, x))
  {
    hide Total, List, StartProcessing, RouteOk;
    StartStays(e, x);
    if RouteOk(e) { StayedRoute(e, StartProcessing(e, x)); }
    forall id
      ensures Total(Places(id), e) <= 1
    {
      StartProcessingTotal(e, x, Places(id));
    }
  }

  // The request at the front of `receives` or `processing`, not to be processed any more, goes back or out.
  lemma LeaveRoute(b: Bus, c: Bus, x: SideId, p: Place, kind: Kind)
    requires (p.InReceives? || p.InProcessing?) && List(b.Get(x), p) != []
    requires RouteOk(b) && Popped(b, c, x, p, kind) && kind == (if p.InReceives? then Received else Served)
    requires var r := List(b.Get(x), p)[0];
             !r.processed && AtMostOnce(if r.sendBack then PushSend(c, x, r.(sendBack := false)) else Retire(c, x, r))
    ensures var r := List(b.Get(x), p)[0];
            RouteOk(if r.sendBack then PushSend(c, x, r.(sendBack := false)) else Retire(c, x, r))
  {
    hide Ahead, AfterServed, RouteOk, Total, PushSend, Retire, Passed, Dropped, Popped, Moves, Leaves, List;
    var r := List(b.Get(x), p)[0];
    var mem := b.Get(x).hasMem;
    AheadServed(b, x, r);
    if r.sendBack {
      var t := r.(sendBack := false);
      var d := PushSend(c, x, t);
      var q := if mem then InPreSend else InSends;
      var marks := [Mark(kind, t.id, x)] + if mem then [] else [Mark(Queued, t.id, x)];
      AheadBack(b, x, r);
      ToSendPassed(b, c, x, p, kind, t);
      assert Ahead(b, x, p, r) == marks + Ahead(b, x, q, t);
      PassedMoves(b, d, x, p, 0, marks, x, q, t);
      MovedRoute(b, d, x, p, r, marks, x, q, t);
    } else {
      var d := Retire(c, x, r);
      AheadOut(b, x, r);
      OutPassed(b, c, x, p, kind, r);
      if mem {
        PassedMoves(b, d, x, p, 0, [Mark(kind, r.id, x)], x, InRetirements, r);
        MovedRoute(b, d, x, p, r, [Mark(kind, r.id, x)], x, InRetirements, r);
      } else {
        var marks := [Mark(kind, r.id, x), Mark(Retired, r.id, x)];
        DroppedLeaves(b, d, x, p, 0, marks);
        LeftRoute(b, d, x, p, r, marks);
      }
    }
  }

  lemma RecRoute(b: Bus, x: SideId)
    requires RouteOk(b) && b.Get(x).receives != [] && AtMostOnce(OnRecFinished(b, x))
    ensures RouteOk(OnRecFinished(b, x))
  {
    hide Ahead, RouteOk, Total, PushProcess, PushSend, Retire, PopReceive, StartProcessing, Passed, Moves, Popped,
      AtMostOnce;
    var r := b.Get(x).receives[0];
    ReceivePopped(b, x);
    if r.processed {
      var t := r.(processed := false);
      var q := if b.Get(x).hasMem then InPreProcess else InProcessing;
      var marks := [Mark(Received, r.id, x)] + if b.Get(x).hasMem then [] else [Mark(Ready, r.id, x)];
      var e := PushProcess(PopReceive(b, x), x, t);
      StartedRoute(e, x);
      ToProcessPassed(b, x);
      AheadProcess(b, x, r);
      assert Ahead(b, x, InReceives, r) == marks + Ahead(b, x, q, t);
      PassedMoves(b, e, x, InReceives, 0, marks, x, q, t);
      assert Total(Places(r.id), e) <= 1 by { OnceAt(e, r.id); }
      MovedRoute(b, e, x, InReceives, r, marks, x, q, t);
    } else {
      LeaveRoute(b, PopReceive(b, x), x, InReceives, Received);
    }
  }

  lemma OnceAt(b: Bus, id: nat)
    requires AtMostOnce(b)
    ensures Total(Places(id), b) <= 1
  {
  }

  lemma ProcessingRoute(b: Bus, x: SideId)
    requires RouteOk(b) && b.Get(x).processing != [] && !b.Get(x).processing[0].processed
    requires AtMostOnce(OnProcessingFinished(b, x))
    ensures RouteOk(OnProcessingFinished(b, x))
  {
    hide Ahead, RouteOk, Total, PushSend, Retire, PopProcessing, StartProcessing, Popped, AtMostOnce;
    var r := b.Get(x).processing[0];
    var c := PopProcessing(b, x);
    ProcessingPopped(b, x);
    var d := if r.sendBack then PushSend(c, x, r.(sendBack := false)) else Retire(c, x, r);
    StartedRoute(d, x);
    LeaveRoute(b, c, x, InProcessing, Served);
  }

  // The request at place k of a list of the nested bus is taken out.
  function TakeAt(b: Bus, x: SideId, stage: MemStage, k: nat): Bus
    requires k < |b.Get(x).Waiting(stage)|
  {
    b.Put(x, b.Get(x).WithWaiting(stage, Without(b.Get(x).Waiting(stage), k)))
  }

  lemma SendReturned(b: Bus, x: SideId, k: nat)
    requires k < |b.Get(x).preSend|
    ensures var r := b.Get(x).preSend[k];
            Passed(b, MemReturned(TakeAt(b, x, ToSend, k), x, ToSend, r), x, InPreSend, k,
                   [Mark(Fetched, r.id, x), Mark(Queued, r.id, x)], x, InSends, r)
  {
    hide Without;
  }

  function ProcessReturned(c: Bus, x: SideId, r: Request): Bus {
    c.Did(Fetched, r.id, x).Put(x, c.Get(x).(processing := c.Get(x).processing + [r])).Did(Ready, r.id, x)
  }

  lemma ReadyReturned(b: Bus, x: SideId, k: nat)
    requires k < |b.Get(x).preProcess|
    ensures var r := b.Get(x).preProcess[k]; var c := TakeAt(b, x, ToProcess, k);
            && MemReturned(c, x, ToProcess, r) == StartProcessing(ProcessReturned(c, x, r), x)
            && Passed(b, ProcessReturned(c, x, r), x, InPreProcess, k,
                      [Mark(Fetched, r.id, x), Mark(Ready, r.id, x)], x, InProcessing, r)
  {
    hide Without, StartProcessing;
  }

  lemma OutReturned(b: Bus, x: SideId, k: nat)
    requires k < |b.Get(x).retirements|
    ensures var r := b.Get(x).retirements[k];
            Dropped(b, MemReturned(TakeAt(b, x, ToRetire, k), x, ToRetire, r), x, InRetirements, k,
                    [Mark(Fetched, r.id, x), Mark(Retired, r.id, x)])
  {
    hide Without;
  }

  lemma SendReturnedRoute(b: Bus, x: SideId, k: nat)
    requires RouteOk(b) && k < |b.Get(x).preSend|
    requires AtMostOnce(MemReturned(TakeAt(b, x, ToSend, k), x, ToSend, b.Get(x).preSend[k]))
    ensures RouteOk(MemReturned(TakeAt(b, x, ToSend, k), x, ToSend, b.Get(x).preSend[k]))
  {
    hide Ahead, RouteOk, Total, MemReturned, TakeAt, Passed, Moves;
    var r := b.Get(x).preSend[k];
    var d := MemReturned(TakeAt(b, x, ToSend, k), x, ToSend, r);
    var marks := [Mark(Fetched, r.id, x), Mark(Queued, r.id, x)];
    SendReturned(b, x, k);
    AheadMem(b, x, r);
    PassedMoves(b, d, x, InPreSend, k, marks, x, InSends, r);
    MovedRoute(b, d, x, InPreSend, r, marks, x, InSends, r);
  }

  lemma ReadyReturnedRoute(b: Bus, x: SideId, k: nat)
    requires RouteOk(b) && k < |b.Get(x).preProcess|
    requires AtMostOnce(MemReturned(TakeAt(b, x, ToProcess, k), x, ToProcess, b.Get(x).preProcess[k]))
    ensures RouteOk(MemReturned(TakeAt(b, x, ToProcess, k), x, ToProcess, b.Get(x).preProcess[k]))
  {
    hide Ahead, RouteOk, Total, MemReturned, TakeAt, ProcessReturned, StartProcessing, Passed, Moves, AtMostOnce;
    var r := b.Get(x).preProcess[k];
    var e := ProcessReturned(TakeAt(b, x, ToProcess, k), x, r);
    var marks := [Mark(Fetched, r.id, x), Mark(Ready, r.id, x)];
    ReadyReturned(b, x, k);
    StartedRoute(e, x);
    OnceAt(e, r.id);
    AheadMem(b, x, r);
    PassedMoves(b, e, x, InPreProcess, k, marks, x, InProcessing, r);
    MovedRoute(b, e, x, InPreProcess, r, marks, x, InProcessing, r);
  }

  lemma OutReturnedRoute(b: Bus, x: SideId, k: nat)
    requires RouteOk(b) && k < |b.Get(x).retirements|
    requires AtMostOnce(MemReturned(TakeAt(b, x, ToRetire, k), x, ToRetire, b.Get(x).retirements[k]))
    ensures RouteOk(MemReturned(TakeAt(b, x, ToRetire, k), x, ToRetire, b.Get(x).retirements[k]))
  {
    hide Ahead, RouteOk, Total, MemReturned, TakeAt, Dropped, Leaves;
    var r := b.Get(x).retirements[k];
    var d := MemReturned(TakeAt(b, x, ToRetire, k), x, ToRetire, r);
    var marks := [Mark(Fetched, r.id, x), Mark(Retired, r.id, x)];
    OutReturned(b, x, k);
    AheadRetired(b, x, r);
    DroppedLeaves(b, d, x, InRetirements, k, marks);
    LeftRoute(b, d, x, InRetirements, r, marks);
  }

  lemma MemRoute(b: Bus, x: SideId, stage: MemStage, id: nat)
    requires RouteOk(b) && exists r :: r in b.Get(x).Waiting(stage) && r.id == id
    requires AtMostOnce(OnMemDone(b, x, stage, id))
    ensures RouteOk(OnMemDone(b, x, stage, id))
  {
    hide RouteOk, MemReturned, AtMostOnce, Without;
    var k := IndexOf(b.Get(x).Waiting(stage), id);
    match stage
    case ToSend => SendReturnedRoute(b, x, k);
    case ToProcess => ReadyReturnedRoute(b, x, k);
    case ToRetire => OutReturnedRoute(b, x, k);
  }

  lemma AheadRetired(b: Bus, x: SideId, r: Request)
    ensures Ahead(b, x, InRetirements, r) == [Mark(Fetched, r.id, x), Mark(Retired, r.id, x)]
  {
  }

  lemma NextPassed(b: Bus, x: SideId)
    requires b.Get(x).sends != []
    ensures var r := b.Get(x).sends[0];
            Passed(b, ProcessNextRead(b, x), x, InSends, 0, [Mark(Crossed, r.id, x)], x.Other(), InReceives, r)
  {
    FirstOut(b.Get(x).sends);
  }

  lemma NextRoute(b: Bus, x: SideId)
    requires RouteOk(b) && b.Get(x).sends != [] && AtMostOnce(ProcessNextRead(b, x))
    ensures RouteOk(ProcessNextRead(b, x))
  {
    hide Ahead, RouteOk, Total, ProcessNextRead, Passed, Moves;
    var r := b.Get(x).sends[0];
    var d, marks := ProcessNextRead(b, x), [Mark(Crossed, r.id, x)];
    NextPassed(b, x);
    AheadServed(b, x, r);
    PassedMoves(b, d, x, InSends, 0, marks, x.Other(), InReceives, r);
    MovedRoute(b, d, x, InSends, r, marks, x.Other(), InReceives, r);
  }

  lemma {:induction false} ProceedRoute(b: Bus, x: SideId)
    requires RouteOk(b) && AtMostOnce(b)
    ensures RouteOk(Proceed(b, x))
    decreases if b.Get(x).subsequentReads > THRESHOLD then 1 else 0
  {
    hide RouteOk, Total, ProcessNextRead;
    if b.Get(x).curState == Free && b.Get(x).sends != [] {
      if Yields(b, x) {
        if b.Get(x.Other()).curState == Free { ProceedRoute(b, x.Other()); }
      } else {
        forall id
          ensures Total(Places(id), ProcessNextRead(b, x)) <= 1
        {
          ProcessNextReadTotal(b, x, Places(id));
        }
        NextRoute(b, x);
      }
    }
  }

  // ---------- steps ----------

  lemma HandleRoute(b: Bus, e: Event)
    requires Inv(b) && RouteOk(b) && e in b.events
    ensures var c := b.(events := b.events - multiset{e});
            CanHandle(c, e) && RouteOk(Handle(c, e)) && AtMostOnce(Handle(c, e))
  {
    hide RouteOk, Total, Calm, YieldOk, LedgerOk, Handled, OnRecFinished, OnProcessingFinished, OnMemDone, List;
    var c := b.(events := b.events - multiset{e});
    InvSides(b, e.side);
    HandleAny(b, e);
    CalmBusy(b, e.side);
    HandleOnce(b, e);
    StayedRoute(b, c) by { SameLists(b, c); }
    match e
    case SendFinished(x) => StayedRoute(c, OnSendFinished(c, x)) by { SendStays(c, x); }
    case RecFinished(x) => RecRoute(c, x);
    case ProcessingFinished(x) =>
      assert c.Get(x).processing[0] in b.Get(x).processing;
      ProcessingRoute(c, x);
    case MemDone(x, stage, id) => MemRoute(c, x, stage, id);
  }

  lemma SameLists(b: Bus, c: Bus)
    requires c == b.(events := c.events)
    ensures SameFrame(b, c) && forall z, s :: List(c.Get(z), s) == List(b.Get(z), s)
  {
  }

  lemma SendStays(c: Bus, x: SideId)
    ensures var d := OnSendFinished(c, x);
            SameFrame(c, d) && d.log == c.log && forall z, s :: List(d.Get(z), s) == List(c.Get(z), s)
  {
  }

  lemma HandleOnce(b: Bus, e: Event)
    requires Inv(b) && e in b.events && CanHandle(b.(events := b.events - multiset{e}), e)
    requires Flagged(b.Get(e.side)) && (b.Get(e.side).processingBusy <==> b.Get(e.side).processing != [])
    ensures AtMostOnce(Handle(b.(events := b.events - multiset{e}), e))
  {
    hide Total, Calm, YieldOk, Handle, Flagged;
    var c := b.(events := b.events - multiset{e});
    forall id
      ensures Total(Places(id), Handle(c, e)) <= 1
    {
      assert LedgerOk(b, id);
      RemoveEvent(b, e, Places(id));
      HandleTotal(c, e, Places(id));
    }
  }

  lemma DeliverRoute(b: Bus, e: Event)
    requires Inv(b) && RouteOk(b) && e in b.events
    ensures CanHandle(b, e) && RouteOk(Deliver(b, e))
  {
    hide Inv, RouteOk, Handle, Proceed, AtMostOnce;
    DeliverKeeps(b, e);
    HandleRoute(b, e);
    ProceedRoute(Handle(b.(events := b.events - multiset{e}), e), e.side);
  }

  // A new request of side x stands at the end of a list, with these marks.
  ghost predicate Begins(b: Bus, d: Bus, a: Ask, marks: seq<Mark>, p: Place) {
    var id := |b.asked|;
    var t := Request(id, a.processed, a.sendBack);
    && d.asked == b.asked + [a] && SameMem(b, d)
    && d.log == b.log + marks && (forall k <- marks :: k.id == id)
    && (forall z, s, u :: u in List(d.Get(z), s) ==> u in List(b.Get(z), s) || (z == a.side && s == p && u == t))
    && Journey(d, id, a) == marks + Ahead(d, a.side, p, t)
  }

  lemma BegunRoute(b: Bus, d: Bus, a: Ask, marks: seq<Mark>, p: Place)
    requires RouteOk(b) && Begins(b, d, a, marks, p) && forall k <- marks :: k.kind != Retired
    requires b.Times(Retired, |b.asked|) == 0
    ensures RouteOk(d)
  {
    hide Begins, OnRoute, Arrived, List;
    forall z, s, u | u in List(d.Get(z), s)
      ensures OnRoute(d, z, s, u)
    {
      BegunList(b, d, a, marks, p, z, s, u);
    }
    forall n
      ensures Arrived(d, n)
    {
      BegunArrived(b, d, a, marks, p, n);
    }
  }

  lemma BegunList(b: Bus, d: Bus, a: Ask, marks: seq<Mark>, p: Place, z: SideId, s: Place, u: Request)
    requires RouteOk(b) && Begins(b, d, a, marks, p) && u in List(d.Get(z), s)
    ensures OnRoute(d, z, s, u)
  {
    hide Journey, Ahead, Trail, List, RouteOk, Arrived;
    TrailMore(b.log, marks, |b.asked|);
    if u in List(b.Get(z), s) {
      SameJourneys(b, d);
      SameAhead(b, d, z, s, u);
      OnRouteAt(b, z, s, u);
    } else {
      EmptyTrail(b);
      assert [] + marks == marks;
    }
  }

  lemma EmptyTrail(b: Bus)
    requires RouteOk(b)
    ensures Trail(b.log, |b.asked|) == []
  {
    hide OnRoute;
    assert Arrived(b, |b.asked|);
  }

  lemma BegunArrived(b: Bus, d: Bus, a: Ask, marks: seq<Mark>, p: Place, n: nat)
    requires RouteOk(b) && Begins(b, d, a, marks, p) && forall k <- marks :: k.kind != Retired
    requires b.Times(Retired, |b.asked|) == 0
    ensures Arrived(d, n)
  {
    hide Journey, Ahead, Trail, Count, List, RouteOk;
    var id := |b.asked|;
    TrailMore(b.log, marks, id);
    CountMore(b.log, marks, Retired, id);
    NoneCounted(b.log, marks, id);
    SameJourneys(b, d);
    ArrivedAt(b, n);
  }

  lemma {:induction false} NoneCounted(log: seq<Mark>, marks: seq<Mark>, id: nat)
    requires forall k <- marks :: k.kind != Retired
    ensures Count(log + marks, Retired, id) == Count(log, Retired, id)
    decreases |marks|
  {
    if marks == [] {
      assert log + marks == log;
    } else {
      var m := |marks| - 1;
      NoneCounted(log, marks[..m], id);
      assert (log + marks)[..|log| + m] == log + marks[..m];
    }
  }

  lemma JourneyBegins(b: Bus, id: nat, a: Ask)
    ensures var r := Request(id, a.processed, a.sendBack);
            Journey(b, id, a) == if b.Get(a.side).hasMem then Ahead(b, a.side, InPreSend, r)
                                 else [Mark(Queued, id, a.side)] + Ahead(b, a.side, InSends, r)
  {
    var r := Request(id, a.processed, a.sendBack);
    var x, y := a.side, a.side.Other();
    var end := if a.sendBack then x else y;
    var go := [Mark(Queued, id, x), Mark(Crossed, id, x), Mark(Received, id, y)];
    var work := if a.processed then Via(b, id, y) + [Mark(Ready, id, y), Mark(Served, id, y)] else [];
    var back := if a.sendBack then
                  Via(b, id, y) + [Mark(Queued, id, y), Mark(Crossed, id, y), Mark(Received, id, x)]
                else [];
    var out := Via(b, id, end) + [Mark(Retired, id, end)];
    hide Via;
    JoinFive(Via(b, id, x), go, work, back, Via(b, id, end), [Mark(Retired, id, end)]);
    assert AfterServed(b, y, r) == back + out;
    hide AfterServed;
    assert AfterReceived(b, y, r) == work + (back + out);
    hide AfterReceived;
    assert go == [Mark(Queued, id, x)] + [Mark(Crossed, id, x), Mark(Received, id, y)];
    assert [Mark(Queued, id, x)] + AfterQueued(b, x, r) == go + (work + (back + out));
    hide AfterQueued;
    JourneyVia(b, id, x);
    assert [Mark(Fetched, id, x)] + ([Mark(Queued, id, x)] + AfterQueued(b, x, r)) ==
           [Mark(Fetched, id, x), Mark(Queued, id, x)] + AfterQueued(b, x, r);
  }

  lemma JourneyVia(b: Bus, id: nat, x: SideId)
    ensures Via(b, id, x) == if b.Get(x).hasMem then [Mark(Fetched, id, x)] else []
  {
  }

  lemma JoinFive(a: seq<Mark>, b: seq<Mark>, c: seq<Mark>, d: seq<Mark>, e: seq<Mark>, f: seq<Mark>)
    ensures a + b + c + d + e + f == a + (b + (c + (d + (e + f))))
  {
  }

  lemma RequestRoute(b: Bus, x: SideId, processed: bool, sendBack: bool)
    requires Inv(b) && RouteOk(b)
    ensures RouteOk(RequestRead(b, x, processed, sendBack))
  {
    hide Inv, RouteOk, Ahead, Journey, Proceed, List, AtMostOnce;
    var id, a := |b.asked|, Ask(x, processed, sendBack);
    var c := b.(asked := b.asked + [a]);
    var t := Request(id, processed, sendBack);
    var mem := b.Get(x).hasMem;
    var d := PushSend(c, x, t);
    var marks := if mem then [] else [Mark(Queued, id, x)];
    JourneyBegins(d, id, a);
    NewPlace(b, x, processed, sendBack);
    NotRetired(b);
    BegunRoute(b, d, a, marks, if mem then InPreSend else InSends);
    if !mem {
      RequestOnce(b, x, processed, sendBack);
      ProceedRoute(d, x);
    }
  }

  lemma NotRetired(b: Bus)
    requires Inv(b)
    ensures b.Times(Retired, |b.asked|) == 0
  {
    hide Calm, YieldOk, Load;
    assert LedgerOk(b, |b.asked|);
  }

  lemma RequestOnce(b: Bus, x: SideId, processed: bool, sendBack: bool)
    requires Inv(b)
    ensures AtMostOnce(PushSend(b.(asked := b.asked + [Ask(x, processed, sendBack)]), x,
                                Request(|b.asked|, processed, sendBack)))
  {
    hide Calm, YieldOk, Total, PushSend;
    RequestLedger(b, x, processed, sendBack);
    var d := PushSend(b.(asked := b.asked + [Ask(x, processed, sendBack)]), x, Request(|b.asked|, processed, sendBack));
    forall id
      ensures Total(Places(id), d) <= 1
    {
      assert LedgerOk(d, id);
    }
  }

  lemma NewPlace(b: Bus, x: SideId, processed: bool, sendBack: bool)
    ensures var t := Request(|b.asked|, processed, sendBack);
            var d := PushSend(b.(asked := b.asked + [Ask(x, processed, sendBack)]), x, t);
            var p := if b.Get(x).hasMem then InPreSend else InSends;
            && d.asked == b.asked + [Ask(x, processed, sendBack)] && SameMem(b, d)
            && d.log == b.log + (if b.Get(x).hasMem then [] else [Mark(Queued, t.id, x)])
            && forall z, s ::
                 List(d.Get(z), s) == if z == x && s == p then List(b.Get(z), s) + [t] else List(b.Get(z), s)
  {
  }

  // ---------- results ----------

  function Asks(acts: seq<Action>): seq<Ask> {
    if acts == [] then []
    else (match acts[0]
          case Submit(x, p, s) => [Ask(x, p, s)]
          case Fire(_) => []) + Asks(acts[1..])
  }

  lemma NewRoute(npuMem: bool, maMem: bool)
    ensures RouteOk(NewBus(npuMem, maMem))
  {
  }

  lemma RequestAsked(b: Bus, x: SideId, processed: bool, sendBack: bool)
    ensures RequestRead(b, x, processed, sendBack).asked == b.asked + [Ask(x, processed, sendBack)]
    ensures SameMem(b, RequestRead(b, x, processed, sendBack))
  {
    hide ProcessNextRead;
    var c := b.(asked := b.asked + [Ask(x, processed, sendBack)]);
    ProceedFrame(PushSend(c, x, Request(|b.asked|, processed, sendBack)), x);
  }

  lemma {:induction false} ProceedFrame(b: Bus, x: SideId)
    ensures SameFrame(b, Proceed(b, x))
    decreases if b.Get(x).subsequentReads > THRESHOLD then 1 else 0
  {
    if b.Get(x).curState == Free && b.Get(x).sends != [] && Yields(b, x) && b.Get(x.Other()).curState == Free {
      ProceedFrame(b, x.Other());
    }
  }

  lemma PutFrame(b: Bus, c: Bus, x: SideId)
    requires c.asked == b.asked && c.Get(x).hasMem == b.Get(x).hasMem && c.Get(x.Other()) == b.Get(x.Other())
    ensures SameFrame(b, c)
  {
  }

  lemma PartsFrame(b: Bus, x: SideId, r: Request)
    ensures SameFrame(b, PushSend(b, x, r)) && SameFrame(b, PushProcess(b, x, r)) && SameFrame(b, Retire(b, x, r))
    ensures SameFrame(b, StartProcessing(b, x))
  {
    hide SameFrame;
    OtherUntouched(b, x, r, ToSend);
    PutFrame(b, PushSend(b, x, r), x);
    PutFrame(b, PushProcess(b, x, r), x);
    PutFrame(b, Retire(b, x, r), x);
    PutFrame(b, StartProcessing(b, x), x);
  }

  lemma MemFrame(b: Bus, x: SideId, stage: MemStage, id: nat)
    requires exists r :: r in b.Get(x).Waiting(stage) && r.id == id
    ensures SameFrame(b, OnMemDone(b, x, stage, id))
  {
    hide Without;
  }

  lemma PopFrame(b: Bus, x: SideId)
    ensures b.Get(x).receives != [] ==> SameFrame(b, PopReceive(b, x))
    ensures b.Get(x).processing != [] ==> SameFrame(b, PopProcessing(b, x))
  {
  }

  lemma HandleFrame(b: Bus, e: Event)
    requires CanHandle(b, e)
    ensures SameFrame(b, Handle(b, e))
  {
    hide PushSend, PushProcess, Retire, StartProcessing, PopReceive, PopProcessing, OnMemDone;
    var x := e.side;
    PopFrame(b, x);
    match e
    case SendFinished(_) =>
    case RecFinished(_) =>
      var r, c := b.Get(x).receives[0], PopReceive(b, x);
      PartsFrame(c, x, r.(processed := false));
      PartsFrame(PushProcess(c, x, r.(processed := false)), x, r);
      PartsFrame(c, x, r.(sendBack := false));
      PartsFrame(c, x, r);
    case ProcessingFinished(_) =>
      var r, c := b.Get(x).processing[0], PopProcessing(b, x);
      PartsFrame(c, x, r.(sendBack := false));
      PartsFrame(c, x, r);
      PartsFrame(if r.sendBack then PushSend(c, x, r.(sendBack := false)) else Retire(c, x, r), x, r);
    case MemDone(_, stage, id) => MemFrame(b, x, stage, id);
  }

  lemma DeliverFrame(b: Bus, e: Event)
    requires e in b.events && CanHandle(b, e)
    ensures SameFrame(b, Deliver(b, e))
  {
    hide Handle, Proceed;
    var c := b.(events := b.events - multiset{e});
    HandleFrame(c, e);
    ProceedFrame(Handle(c, e), e.side);
  }

  lemma {:induction false} RunRoute(b: Bus, acts: seq<Action>, end: Bus)
    requires Inv(b) && RouteOk(b) && Run(b, acts, end)
    ensures Inv(end) && RouteOk(end)
    decreases |acts|
  {
    hide Inv, RouteOk, RequestRead, Deliver, CanHandle;
    if acts != [] {
      match acts[0]
      case Submit(x, p, s) =>
        RequestKeeps(b, x, p, s);
        RequestRoute(b, x, p, s);
        RunRoute(RequestRead(b, x, p, s), acts[1..], end);
      case Fire(e) =>
        DeliverKeeps(b, e);
        DeliverRoute(b, e);
        RunRoute(Deliver(b, e), acts[1..], end);
    }
  }

  lemma {:induction false} RunAsked(b: Bus, acts: seq<Action>, end: Bus)
    requires Run(b, acts, end)
    ensures end.asked == b.asked + Asks(acts) && SameMem(b, end)
    decreases |acts|
  {
    hide RequestRead, Deliver, CanHandle;
    if acts != [] {
      match acts[0]
      case Submit(x, p, s) =>
        RequestAsked(b, x, p, s);
        RunAsked(RequestRead(b, x, p, s), acts[1..], end);
      case Fire(e) =>
        DeliverFrame(b, e);
        RunAsked(Deliver(b, e), acts[1..], end);
    }
  }

  // In every state of every run, what has happened to a request is a beginning of its journey: it crosses, is processed
  // at the other side if that was asked for, crosses back if that was asked for, and is completed, at the side of its
  // client when it was sent back and at the other side otherwise.  It is all of the journey once it is completed, and
  // for every request when no event is outstanding.
  lemma Journeys(npuMem: bool, maMem: bool, acts: seq<Action>, b: Bus, id: nat)
    requires Run(NewBus(npuMem, maMem), acts, b) && id < |Asks(acts)|
    ensures b.npu.hasMem == npuMem && b.ma.hasMem == maMem && b.asked == Asks(acts)
    ensures Trail(b.log, id) <= Journey(b, id, Asks(acts)[id])
    ensures b.Times(Retired, id) > 0 || b.events == multiset{} ==> Trail(b.log, id) == Journey(b, id, Asks(acts)[id])
  {
    hide Run, Inv, Calm, YieldOk, LedgerOk, Journey, Ahead, Trail, Count, List, Load, RouteOk;
    NewBusInv(npuMem, maMem);
    NewRoute(npuMem, maMem);
    RunRoute(NewBus(npuMem, maMem), acts, b);
    RunAsked(NewBus(npuMem, maMem), acts, b);
    assert NewBus(npuMem, maMem).Get(Npu).hasMem == npuMem && NewBus(npuMem, maMem).Get(Ma).hasMem == maMem;
    assert b.asked == [] + Asks(acts) == Asks(acts);
    ArrivedAt(b, id);
    if b.events == multiset{} { IdleDone(b); }
    ExactlyOnce(npuMem, maMem, acts, b, id);
    if b.Times(Retired, id) == 0 {
      var y, p, r := SomePlace(b, id);
      OnRouteAt(b, y, p, r);
    }
  }

  lemma ArrivedAt(b: Bus, id: nat)
    requires RouteOk(b)
    ensures Arrived(b, id)
  {
  }

  lemma OnRouteAt(b: Bus, y: SideId, p: Place, r: Request)
    requires RouteOk(b) && r in List(b.Get(y), p)
    ensures OnRoute(b, y, p, r)
  {
  }

  lemma SomePlace(b: Bus, id: nat) returns (y: SideId, p: Place, r: Request)
    requires Load(Places(id), b.npu) + Load(Places(id), b.ma) > 0
    ensures r in List(b.Get(y), p) && r.id == id
  {
    y := if Load(Places(id), b.npu) > 0 then Npu else Ma;
    p := SomeList(b.Get(y), id);
    hide Load, Due;
    DueFind(id, p, List(b.Get(y), p));
    r :| r in List(b.Get(y), p) && r.id == id;
  }

  lemma SomeList(s: Side, id: nat) returns (p: Place)
    requires Load(Places(id), s) > 0
    ensures Due(Places(id), p, List(s, p)) > 0
  {
    hide Due;
    p := if Due(Places(id), InSends, s.sends) > 0 then InSends
         else if Due(Places(id), InPreSend, s.preSend) > 0 then InPreSend
         else if Due(Places(id), InReceives, s.receives) > 0 then InReceives
         else if Due(Places(id), InProcessing, s.processing) > 0 then InProcessing
         else if Due(Places(id), InPreProcess, s.preProcess) > 0 then InPreProcess
         else InRetirements;
  }
}
