/**
  What every run of the shared bus keeps.

  Three results, each over all runs of client requests and events in any order: the bus never stalls
  although its sides yield to each other, every request is delivered exactly once, and without new
  requests the bus drains in boundedly many events.
*/
module LogGPSafety {
  import opened LogGPModel

  // ---------- what the lists still owe ----------

  datatype Place = InSends | InPreSend | InReceives | InProcessing | InPreProcess | InRetirements

  // What is summed over all waiting requests: places held by one request, transfers and processings it
  // still needs, or the number of events all requests can still cause.
  datatype Measure = Places(id: nat) | Crossings(id: nat) | Servings(id: nat) | Work

  function One(b: bool): nat { if b then 1 else 0 }

  function WorkOf(p: Place, r: Request): nat {
    match p
    case InRetirements => 0
    case InReceives => 1 + 3 * One(r.processed) + 3 * One(r.sendBack)
    case InSends => 3 + 3 * One(r.processed) + 3 * One(r.sendBack)
    case InPreSend => 3 + 3 * One(r.processed) + 3 * One(r.sendBack)
    case InProcessing => 2 + 3 * One(r.sendBack)
    case InPreProcess => 3 + 3 * One(r.sendBack)
  }

  function Weight(m: Measure, p: Place, r: Request): nat {
    match m
    case Places(id) => One(r.id == id)
    case Crossings(id) => if r.id != id then 0 else One(r.sendBack) + One(p.InSends? || p.InPreSend?)
    case Servings(id) => if r.id != id then 0 else One(r.processed) + One(p.InProcessing? || p.InPreProcess?)
    case Work => WorkOf(p, r)
  }

  function Due(m: Measure, p: Place, q: seq<Request>): nat {
    if q == [] then 0 else Due(m, p, q[..|q| - 1]) + Weight(m, p, q[|q| - 1])
  }

  function Load(m: Measure, s: Side): nat {
    Due(m, InSends, s.sends) + Due(m, InPreSend, s.preSend) + Due(m, InReceives, s.receives)
    + Due(m, InProcessing, s.processing) + Due(m, InPreProcess, s.preProcess) + Due(m, InRetirements, s.retirements)
  }

  function History(m: Measure, b: Bus): nat {
    match m
    case Places(id) => b.Times(Retired, id)
    case Crossings(id) => b.Times(Crossed, id)
    case Servings(id) => b.Times(Served, id)
    case Work => |b.events|
  }

  function Total(m: Measure, b: Bus): nat { History(m, b) + Load(m, b.npu) + Load(m, b.ma) }

  // What a mark adds to the history of a measure.
  function MarkWeight(m: Measure, kind: Kind, id: nat): nat {
    match m
    case Places(n) => One(kind == Retired && id == n)
    case Crossings(n) => One(kind == Crossed && id == n)
    case Servings(n) => One(kind == Served && id == n)
    case Work => 0
  }

  lemma DidTotal(m: Measure, b: Bus, kind: Kind, id: nat, x: SideId)
    ensures Total(m, b.Did(kind, id, x)) == Total(m, b) + MarkWeight(m, kind, id)
  {
    hide Load;
    assert (b.log + [Mark(kind, id, x)])[..|b.log|] == b.log;
  }

  function PlaceOf(stage: MemStage): Place {
    match stage
    case ToSend => InPreSend
    case ToProcess => InPreProcess
    case ToRetire => InRetirements
  }

  lemma DuePush(m: Measure, p: Place, q: seq<Request>, r: Request)
    ensures Due(m, p, q + [r]) == Due(m, p, q) + Weight(m, p, r)
  {
    assert (q + [r])[..|q|] == q;
  }

  lemma {:induction false} DueWithout(m: Measure, p: Place, q: seq<Request>, k: nat)
    requires k < |q|
    ensures Due(m, p, q) == Due(m, p, Without(q, k)) + Weight(m, p, q[k])
  {
    hide Weight;
    var n := |q| - 1;
    if k == n {
      assert Without(q, k) == q[..n];
    } else {
      DueWithout(m, p, q[..n], k);
      assert Without(q, k) == Without(q[..n], k) + [q[n]];
      DuePush(m, p, Without(q[..n], k), q[n]);
    }
  }

  lemma DuePop(m: Measure, p: Place, q: seq<Request>)
    requires q != []
    ensures Due(m, p, q) == Due(m, p, q[1..]) + Weight(m, p, q[0])
  {
    hide Due, Weight;
    DueWithout(m, p, q, 0);
    assert Without(q, 0) == q[1..];
  }

  lemma {:induction false} DueFind(id: nat, p: Place, q: seq<Request>)
    ensures Due(Places(id), p, q) > 0 <==> exists r :: r in q && r.id == id
  {
    if q != [] {
      var n := |q| - 1;
      DueFind(id, p, q[..n]);
      assert q == q[..n] + [q[n]];
    }
  }

  // ---------- the invariant of the events ----------

  function StageEvents(b: Bus, x: SideId, stage: MemStage, id: nat): nat { b.events[MemDone(x, stage, id)] }

  ghost predicate MemEventsOk(b: Bus, x: SideId) {
    forall stage, id :: StageEvents(b, x, stage, id) == Due(Places(id), PlaceOf(stage), b.Get(x).Waiting(stage))
  }

  // Every received request has a receive event, processing is busy exactly while a processing event
  // is outstanding, every request at the nested bus has its callback, and a side that is not free has
  // an event that will free it.
  ghost predicate EventsOk(b: Bus, x: SideId) {
    var s := b.Get(x);
    && b.events[RecFinished(x)] == |s.receives|
    && b.events[ProcessingFinished(x)] == One(s.processingBusy)
    && (s.processingBusy <==> s.processing != [])
    && (s.curState == Sending ==> b.events[SendFinished(x)] > 0)
    && (s.curState == Receiving ==> s.receives != [])
    && MemEventsOk(b, x)
  }

  ghost predicate Flagged(s: Side) {
    && (forall r :: r in s.processing ==> !r.processed)
    && (forall r :: r in s.preProcess ==> !r.processed)
    && (forall r :: r in s.retirements ==> !r.processed && !r.sendBack)
  }

  // A free side with waiting requests has yielded: its partner is at work and has requests of its own.
  ghost predicate YieldOk(b: Bus, x: SideId) {
    var s, t := b.Get(x), b.Get(x.Other());
    s.curState == Free && s.sends != [] ==>
      t.curState != Free && t.sends != [] && s.subsequentReads > THRESHOLD && t.subsequentReads <= THRESHOLD
  }

  // Places, transfers and processings a request has had or still has add up to what was asked for.
  ghost predicate LedgerOk(b: Bus, id: nat) {
    && Total(Places(id), b) == One(id < |b.asked|)
    && Total(Crossings(id), b) == (if id < |b.asked| then 1 + One(b.asked[id].sendBack) else 0)
    && Total(Servings(id), b) == (if id < |b.asked| then One(b.asked[id].processed) else 0)
  }

  ghost predicate Calm(b: Bus, x: SideId) { EventsOk(b, x) && Flagged(b.Get(x)) }

  ghost predicate Inv(b: Bus) {
    && Calm(b, Npu) && Calm(b, Ma)
    && YieldOk(b, Npu) && YieldOk(b, Ma)
    && forall id :: LedgerOk(b, id)
  }

  lemma NewBusInv(npuMem: bool, maMem: bool)
    ensures Inv(NewBus(npuMem, maMem))
  {
    var b := NewBus(npuMem, maMem);
    assert MemEventsOk(b, Npu);
    assert MemEventsOk(b, Ma);
  }

  // ---------- totals: what one operation moves ----------

  lemma AskMemTotal(b: Bus, x: SideId, stage: MemStage, r: Request, m: Measure)
    ensures Total(m, AskMem(b, x, stage, r)) == Total(m, b) + Weight(m, PlaceOf(stage), r) + One(m.Work?)
  {
    hide Due, Weight, Load;
    var s := b.Get(x);
    DuePush(m, PlaceOf(stage), s.Waiting(stage), r);
    LoadWaiting(m, s, stage, s.Waiting(stage) + [r]);
  }

  lemma AskMemKeeps(b: Bus, x: SideId, stage: MemStage, r: Request)
    ensures var s, t := b.Get(x), AskMem(b, x, stage, r).Get(x);
            t.processing == s.processing && t.processingBusy == s.processingBusy
  {
  }

  // Only one list of a side differs.
  lemma LoadWaiting(m: Measure, s: Side, stage: MemStage, q: seq<Request>)
    ensures Load(m, s.WithWaiting(stage, q)) ==
            Load(m, s) - Due(m, PlaceOf(stage), s.Waiting(stage)) + Due(m, PlaceOf(stage), q)
  {
    hide Due;
  }

  lemma PushSendTotal(b: Bus, x: SideId, r: Request, m: Measure)
    ensures Total(m, PushSend(b, x, r)) ==
            Total(m, b) + Weight(m, InSends, r) + One(m.Work? && b.Get(x).hasMem)
  {
    hide Due, Total;
    if b.Get(x).hasMem {
      AskMemTotal(b, x, ToSend, r, m);
    } else {
      DuePush(m, InSends, b.Get(x).sends, r);
      var c := b.Put(x, b.Get(x).(sends := b.Get(x).sends + [r]));
      PlainTotal(b, c, x, m);
      DidTotal(m, c, Queued, r.id, x);
    }
  }

  // Only one side differs: the totals differ as its loads do.
  lemma PlainTotal(b: Bus, c: Bus, x: SideId, m: Measure)
    requires c.Get(x.Other()) == b.Get(x.Other())
    ensures Total(m, c) == Total(m, b) - History(m, b) + History(m, c) - Load(m, b.Get(x)) + Load(m, c.Get(x))
  {
    hide Due, Load;
  }

  lemma PushProcessTotal(b: Bus, x: SideId, r: Request, m: Measure)
    ensures Total(m, PushProcess(b, x, r)) ==
            Total(m, b) + (if b.Get(x).hasMem then Weight(m, InPreProcess, r) + One(m.Work?) else Weight(m, InProcessing, r))
  {
    hide Due, Total, Weight;
    if b.Get(x).hasMem {
      AskMemTotal(b, x, ToProcess, r, m);
    } else {
      DuePush(m, InProcessing, b.Get(x).processing, r);
      var c := b.Put(x, b.Get(x).(processing := b.Get(x).processing + [r]));
      PlainTotal(b, c, x, m);
      DidTotal(m, c, Ready, r.id, x);
    }
  }

  lemma StartProcessingTotal(b: Bus, x: SideId, m: Measure)
    ensures Total(m, StartProcessing(b, x)) ==
            Total(m, b) + One(m.Work? && !b.Get(x).processingBusy && b.Get(x).processing != [])
  {
    hide Due, Total;
    PlainTotal(b, StartProcessing(b, x), x, m);
  }

  lemma RetireTotal(b: Bus, x: SideId, r: Request, m: Measure)
    requires !r.processed && !r.sendBack
    ensures Total(m, Retire(b, x, r)) == Total(m, b) + (if m.Work? then One(b.Get(x).hasMem) else One(m.Places? && m.id == r.id))
  {
    hide Due, Total;
    if b.Get(x).hasMem {
      AskMemTotal(b, x, ToRetire, r, m);
    } else {
      DidTotal(m, b, Retired, r.id, x);
    }
  }

  lemma PopReceiveTotal(b: Bus, x: SideId, m: Measure)
    requires b.Get(x).receives != []
    ensures Total(m, PopReceive(b, x)) == Total(m, b) - Weight(m, InReceives, b.Get(x).receives[0])
  {
    hide Due, Total, Weight;
    DuePop(m, InReceives, b.Get(x).receives);
    var s := b.Get(x);
    var c := b.Put(x, PopReceive(b, x).Get(x));
    PlainTotal(b, c, x, m);
    DidTotal(m, c, Received, s.receives[0].id, x);
  }

  lemma PopProcessingTotal(b: Bus, x: SideId, m: Measure)
    requires b.Get(x).processing != []
    ensures var r := b.Get(x).processing[0];
            Total(m, PopProcessing(b, x)) == Total(m, b) - Weight(m, InProcessing, r) + One(m.Servings? && m.id == r.id)
  {
    hide Due, Total, Weight;
    DuePop(m, InProcessing, b.Get(x).processing);
    var c := b.Put(x, PopProcessing(b, x).Get(x));
    PlainTotal(b, c, x, m);
    DidTotal(m, c, Served, b.Get(x).processing[0].id, x);
  }

  // A received request that is to be processed: the processing list grows when the side has no memory.
  lemma ToProcessKeeps(b: Bus, x: SideId, r: Request)
    requires b.Get(x).receives != []
    ensures var s, c := b.Get(x), PopReceive(b, x); var t := PushProcess(c, x, r).Get(x);
            && c.Get(x).hasMem == s.hasMem && t.processingBusy == s.processingBusy
            && t.processing == if s.hasMem then s.processing else s.processing + [r]
  {
    hide AskMem;
    AskMemKeeps(PopReceive(b, x), x, ToProcess, r);
  }

  lemma OnRecFinishedTotal(b: Bus, x: SideId, m: Measure)
    requires b.Get(x).receives != [] && (b.Get(x).processingBusy <==> b.Get(x).processing != [])
    ensures !m.Work? ==> Total(m, OnRecFinished(b, x)) == Total(m, b)
    ensures m.Work? ==> Total(m, OnRecFinished(b, x)) <= Total(m, b)
  {
    hide Due, Total, PushSend, PushProcess, PopReceive, Retire, StartProcessing, AskMem;
    var r := b.Get(x).receives[0];
    var c := PopReceive(b, x);
    PopReceiveTotal(b, x, m);
    if r.processed {
      ToProcessKeeps(b, x, r.(processed := false));
      PushProcessTotal(c, x, r.(processed := false), m);
      StartProcessingTotal(PushProcess(c, x, r.(processed := false)), x, m);
    } else if r.sendBack {
      PushSendTotal(c, x, r.(sendBack := false), m);
    } else {
      RetireTotal(c, x, r, m);
    }
  }

  lemma OnProcessingFinishedTotal(b: Bus, x: SideId, m: Measure)
    requires b.Get(x).processing != [] && !b.Get(x).processing[0].processed
    ensures !m.Work? ==> Total(m, OnProcessingFinished(b, x)) == Total(m, b)
    ensures m.Work? ==> Total(m, OnProcessingFinished(b, x)) <= Total(m, b)
  {
    hide Due, Total, PushSend, Retire, PopProcessing, StartProcessing;
    var r := b.Get(x).processing[0];
    var c := PopProcessing(b, x);
    PopProcessingTotal(b, x, m);
    if r.sendBack {
      PushSendTotal(c, x, r.(sendBack := false), m);
      StartProcessingTotal(PushSend(c, x, r.(sendBack := false)), x, m);
    } else {
      RetireTotal(c, x, r, m);
      StartProcessingTotal(Retire(c, x, r), x, m);
    }
  }

  lemma TakeWaitingTotal(b: Bus, x: SideId, stage: MemStage, id: nat, m: Measure)
    requires exists r :: r in b.Get(x).Waiting(stage) && r.id == id
    ensures var q := b.Get(x).Waiting(stage);
            Total(m, TakeWaiting(b, x, stage, id)) == Total(m, b) - Weight(m, PlaceOf(stage), q[IndexOf(q, id)])
  {
    hide Due, Total, Without, Weight, Load;
    var q := b.Get(x).Waiting(stage);
    var k := IndexOf(q, id);
    DueWithout(m, PlaceOf(stage), q, k);
    LoadWaiting(m, b.Get(x), stage, Without(q, k));
    PlainTotal(b, TakeWaiting(b, x, stage, id), x, m);
  }

  lemma MemReturnedTotal(b: Bus, x: SideId, stage: MemStage, r: Request, m: Measure)
    ensures var d := Total(m, MemReturned(b, x, stage, r)) - Total(m, b);
            match stage
            case ToSend => d == Weight(m, InSends, r)
            case ToProcess => Weight(m, InProcessing, r) <= d <= Weight(m, InProcessing, r) + One(m.Work?)
            case ToRetire => d == One(m.Places? && m.id == r.id)
  {
    hide Due, Total, StartProcessing, Weight;
    var s := b.Get(x);
    var a := b.Did(Fetched, r.id, x);
    DidTotal(m, b, Fetched, r.id, x);
    match stage
    case ToSend =>
      DuePush(m, InSends, s.sends, r);
      var c := a.Put(x, s.(sends := s.sends + [r]));
      PlainTotal(a, c, x, m);
      DidTotal(m, c, Queued, r.id, x);
    case ToProcess =>
      DuePush(m, InProcessing, s.processing, r);
      var c := a.Put(x, s.(processing := s.processing + [r]));
      PlainTotal(a, c, x, m);
      DidTotal(m, c, Ready, r.id, x);
      StartProcessingTotal(c.Did(Ready, r.id, x), x, m);
    case ToRetire =>
      DidTotal(m, a, Retired, r.id, x);
  }

  lemma OnMemDoneTotal(b: Bus, x: SideId, stage: MemStage, id: nat, m: Measure)
    requires exists r :: r in b.Get(x).Waiting(stage) && r.id == id
    requires Flagged(b.Get(x))
    ensures !m.Work? ==> Total(m, OnMemDone(b, x, stage, id)) == Total(m, b)
    ensures m.Work? ==> Total(m, OnMemDone(b, x, stage, id)) <= Total(m, b)
  {
    hide Total, Weight, Flagged, TakeWaiting, MemReturned;
    var q := b.Get(x).Waiting(stage);
    var k := IndexOf(q, id);
    TakeWaitingTotal(b, x, stage, id, m);
    MemReturnedTotal(TakeWaiting(b, x, stage, id), x, stage, q[k], m);
    LeaveMemWeight(m, b.Get(x), stage, k);
  }

  lemma LeaveMemWeight(m: Measure, s: Side, stage: MemStage, k: nat)
    requires Flagged(s) && k < |s.Waiting(stage)|
    ensures var r := s.Waiting(stage)[k];
            match stage
            case ToSend => Weight(m, InPreSend, r) == Weight(m, InSends, r)
            case ToProcess => Weight(m, InPreProcess, r) == Weight(m, InProcessing, r) + One(m.Work?)
            case ToRetire => Weight(m, InRetirements, r) == One(m.Places? && m.id == r.id)
  {
    var r := s.Waiting(stage)[k];
    assert r in s.Waiting(stage);
  }

  lemma HandleTotal(b: Bus, e: Event, m: Measure)
    requires CanHandle(b, e) && Flagged(b.Get(e.side))
    requires b.Get(e.side).processingBusy <==> b.Get(e.side).processing != []
    ensures !m.Work? ==> Total(m, Handle(b, e)) == Total(m, b)
    ensures m.Work? ==> Total(m, Handle(b, e)) <= Total(m, b)
  {
    hide Due, Total, OnRecFinished, OnProcessingFinished, OnMemDone;
    match e
    case SendFinished(x) => PlainTotal(b, OnSendFinished(b, x), x, m);
    case RecFinished(x) => OnRecFinishedTotal(b, x, m);
    case ProcessingFinished(x) =>
      assert b.Get(x).processing[0] in b.Get(x).processing;
      OnProcessingFinishedTotal(b, x, m);
    case MemDone(x, stage, id) => OnMemDoneTotal(b, x, stage, id, m);
  }

  lemma SwitchToReceiverTotal(b: Bus, x: SideId, r: Request, m: Measure)
    ensures Total(m, SwitchToReceiver(b, x, r)) == Total(m, b) + Weight(m, InReceives, r) + One(m.Work?)
  {
    hide Due, Total, Weight;
    DuePush(m, InReceives, b.Get(x).receives, r);
    PlainTotal(b, SwitchToReceiver(b, x, r), x, m);
  }

  lemma ProcessNextReadTotal(b: Bus, x: SideId, m: Measure)
    requires b.Get(x).sends != []
    ensures Total(m, ProcessNextRead(b, x)) == Total(m, b)
  {
    hide Count, Due, Total, Weight;
    var r := b.Get(x).sends[0];
    var c := SwitchToReceiver(b, x.Other(), r);
    SwitchToReceiverTotal(b, x.Other(), r, m);
    DuePop(m, InSends, c.Get(x).sends);
    var d := c.Put(x, ProcessNextRead(b, x).Get(x)).Register(SendFinished(x));
    PlainTotal(c, d, x, m);
    DidTotal(m, d, Crossed, r.id, x);
    CrossWeight(m, r);
  }

  lemma CrossWeight(m: Measure, r: Request)
    ensures Weight(m, InSends, r) ==
            Weight(m, InReceives, r) + One(m.Crossings? && m.id == r.id) + 2 * One(m.Work?)
  {
  }

  lemma {:induction false} ProceedTotal(b: Bus, x: SideId, m: Measure)
    ensures Total(m, Proceed(b, x)) == Total(m, b)
    decreases if b.Get(x).subsequentReads > THRESHOLD then 1 else 0
  {
    hide Total, ProcessNextRead;
    if b.Get(x).curState == Free && b.Get(x).sends != [] {
      if Yields(b, x) {
        if b.Get(x.Other()).curState == Free { ProceedTotal(b, x.Other(), m); }
      } else {
        ProcessNextReadTotal(b, x, m);
      }
    }
  }

  // ---------- events: what one operation keeps ----------

  // EventsOk while a processing may still have to be started.
  ghost predicate Tidy(b: Bus, x: SideId) {
    var s := b.Get(x);
    && b.events[RecFinished(x)] == |s.receives|
    && b.events[ProcessingFinished(x)] == One(s.processingBusy)
    && (s.processingBusy ==> s.processing != [])
    && (s.curState == Sending ==> b.events[SendFinished(x)] > 0)
    && (s.curState == Receiving ==> s.receives != [])
    && MemEventsOk(b, x)
    && Flagged(s)
  }

  // The processing state and the line state of a side are as before.
  ghost predicate SameWork(s: Side, t: Side) {
    && t.processing == s.processing && t.processingBusy == s.processingBusy
    && SameLine(s, t)
  }

  ghost predicate SameLine(s: Side, t: Side) {
    && t.curState == s.curState && t.subsequentReads == s.subsequentReads
    && (s.sends != [] ==> t.sends != [])
  }

  lemma AskMemTidy(b: Bus, x: SideId, stage: MemStage, r: Request, y: SideId)
    requires Tidy(b, y)
    requires !stage.ToSend? ==> !r.processed
    requires stage.ToRetire? ==> !r.sendBack
    ensures Tidy(AskMem(b, x, stage, r), y)
    ensures SameWork(b.Get(y), AskMem(b, x, stage, r).Get(y))
  {
    hide Due;
    var c := AskMem(b, x, stage, r);
    forall st, id
      ensures StageEvents(c, y, st, id) == Due(Places(id), PlaceOf(st), c.Get(y).Waiting(st))
    {
      assert StageEvents(b, y, st, id) == Due(Places(id), PlaceOf(st), b.Get(y).Waiting(st));
      DuePush(Places(id), PlaceOf(stage), b.Get(x).Waiting(stage), r);
    }
  }

  // The lists at the nested bus and the events of side y are untouched.
  lemma MemUntouched(b: Bus, c: Bus, y: SideId)
    requires MemEventsOk(b, y)
    requires forall stage: MemStage :: c.Get(y).Waiting(stage) == b.Get(y).Waiting(stage)
    requires forall stage, id :: StageEvents(c, y, stage, id) == StageEvents(b, y, stage, id)
    ensures MemEventsOk(c, y)
  {
    hide Due, StageEvents;
    forall st, id
      ensures StageEvents(c, y, st, id) == Due(Places(id), PlaceOf(st), c.Get(y).Waiting(st))
    {
      assert StageEvents(b, y, st, id) == Due(Places(id), PlaceOf(st), b.Get(y).Waiting(st));
    }
  }

  lemma PushSendTidy(b: Bus, x: SideId, r: Request, y: SideId)
    requires Tidy(b, y)
    ensures Tidy(PushSend(b, x, r), y)
    ensures SameWork(b.Get(y), PushSend(b, x, r).Get(y))
  {
    hide Due, AskMem, MemEventsOk;
    if b.Get(x).hasMem {
      AskMemTidy(b, x, ToSend, r, y);
    } else {
      MemUntouched(b, PushSend(b, x, r), y);
    }
  }

  lemma RetireTidy(b: Bus, x: SideId, r: Request, y: SideId)
    requires Tidy(b, y) && !r.processed && !r.sendBack
    ensures Tidy(Retire(b, x, r), y)
    ensures SameWork(b.Get(y), Retire(b, x, r).Get(y))
  {
    hide Due, AskMem, MemEventsOk;
    if b.Get(x).hasMem {
      AskMemTidy(b, x, ToRetire, r, y);
    } else {
      MemUntouched(b, Retire(b, x, r), y);
    }
  }

  lemma PushProcessTidy(b: Bus, x: SideId, r: Request, y: SideId)
    requires Tidy(b, y) && !r.processed
    ensures Tidy(PushProcess(b, x, r), y)
    ensures SameLine(b.Get(y), PushProcess(b, x, r).Get(y))
    ensures x != y ==> SameWork(b.Get(y), PushProcess(b, x, r).Get(y))
  {
    hide Due, AskMem, MemEventsOk;
    if b.Get(x).hasMem {
      AskMemTidy(b, x, ToProcess, r, y);
    } else {
      MemUntouched(b, PushProcess(b, x, r), y);
    }
  }

  lemma StartProcessingTidy(b: Bus, x: SideId, y: SideId)
    requires Tidy(b, y)
    ensures Tidy(StartProcessing(b, x), y)
    ensures SameLine(b.Get(y), StartProcessing(b, x).Get(y))
    ensures x == y ==> Calm(StartProcessing(b, x), y)
    ensures x != y ==> SameWork(b.Get(y), StartProcessing(b, x).Get(y))
  {
    hide Due, MemEventsOk, Flagged;
    MemUntouched(b, StartProcessing(b, x), y);
    StartFlagged(b, x, y);
  }

  lemma StartFlagged(b: Bus, x: SideId, y: SideId)
    ensures Flagged(StartProcessing(b, x).Get(y)) <==> Flagged(b.Get(y))
  {
  }

  lemma CalmIsTidy(b: Bus, x: SideId)
    ensures Calm(b, x) <==> Tidy(b, x) && (b.Get(x).processing != [] ==> b.Get(x).processingBusy)
  {
    hide MemEventsOk, Flagged;
  }

  // After an event of side x: side x's line is as before or has become free, side y is as before.
  ghost predicate Handled(b: Bus, c: Bus, x: SideId) {
    var s, t := b.Get(x), c.Get(x);
    && Calm(c, x) && Calm(c, x.Other())
    && c.asked == b.asked
    && SameLine(b.Get(x.Other()), c.Get(x.Other()))
    && c.Get(x.Other()).sends == b.Get(x.Other()).sends
    && (s.sends != [] ==> t.sends != [])
    && (t.curState != Free ==> t.curState == s.curState && t.subsequentReads == s.subsequentReads)
  }

  // Only side x may act.
  lemma OtherUntouched(b: Bus, x: SideId, r: Request, stage: MemStage)
    ensures AskMem(b, x, stage, r).Get(x.Other()) == b.Get(x.Other()) && AskMem(b, x, stage, r).asked == b.asked
    ensures PushSend(b, x, r).Get(x.Other()) == b.Get(x.Other()) && PushSend(b, x, r).asked == b.asked
    ensures PushProcess(b, x, r).Get(x.Other()) == b.Get(x.Other()) && PushProcess(b, x, r).asked == b.asked
    ensures Retire(b, x, r).Get(x.Other()) == b.Get(x.Other()) && Retire(b, x, r).asked == b.asked
    ensures StartProcessing(b, x).Get(x.Other()) == b.Get(x.Other()) && StartProcessing(b, x).asked == b.asked
  {
  }

  lemma HandleSend(b: Bus, x: SideId)
    requires Calm(b, x) && Calm(b, x.Other()) && SendFinished(x) in b.events
    ensures Handled(b, Handle(b.(events := b.events - multiset{SendFinished(x)}), SendFinished(x)), x)
  {
    hide Due, MemEventsOk;
    var c := OnSendFinished(b.(events := b.events - multiset{SendFinished(x)}), x);
    MemUntouched(b, c, x);
    MemUntouched(b, c, x.Other());
  }

  lemma PopReceiveTidy(b: Bus, x: SideId)
    requires Calm(b, x) && Calm(b, x.Other()) && RecFinished(x) in b.events
    ensures b.Get(x).receives != []
    ensures Handled(b, PopReceive(b.(events := b.events - multiset{RecFinished(x)}), x), x)
  {
    hide Due, MemEventsOk;
    assert b.events[RecFinished(x)] > 0;
    var c := PopReceive(b.(events := b.events - multiset{RecFinished(x)}), x);
    MemUntouched(b, c, x);
    MemUntouched(b, c, x.Other());
  }

  lemma HandleRec(b: Bus, x: SideId)
    requires Calm(b, x) && Calm(b, x.Other()) && RecFinished(x) in b.events
    ensures b.Get(x).receives != []
    ensures Handled(b, Handle(b.(events := b.events - multiset{RecFinished(x)}), RecFinished(x)), x)
  {
    hide Due, EventsOk, Flagged, Tidy, Calm, PushSend, PushProcess, Retire, StartProcessing;
    PopReceiveTidy(b, x);
    var r := b.Get(x).receives[0];
    var y := x.Other();
    var b' := b.(events := b.events - multiset{RecFinished(x)});
    var c := PopReceive(b', x);
    CalmIsTidy(c, x);
    CalmIsTidy(c, y);
    if r.processed {
      var r' := r.(processed := false);
      var d := PushProcess(c, x, r');
      PushProcessTidy(c, x, r', x);
      PushProcessTidy(c, x, r', y);
      OtherUntouched(c, x, r', ToSend);
      StartProcessingTidy(d, x, x);
      StartProcessingTidy(d, x, y);
      OtherUntouched(d, x, r', ToSend);
      CalmIsTidy(StartProcessing(d, x), y);
    } else if r.sendBack {
      var r' := r.(sendBack := false);
      PushSendTidy(c, x, r', x);
      PushSendTidy(c, x, r', y);
      OtherUntouched(c, x, r', ToSend);
      CalmIsTidy(PushSend(c, x, r'), x);
      CalmIsTidy(PushSend(c, x, r'), y);
    } else {
      RetireTidy(c, x, r, x);
      RetireTidy(c, x, r, y);
      OtherUntouched(c, x, r, ToSend);
      CalmIsTidy(Retire(c, x, r), x);
      CalmIsTidy(Retire(c, x, r), y);
    }
  }

  lemma PopProcessingTidy(b: Bus, x: SideId)
    requires Calm(b, x) && Calm(b, x.Other()) && ProcessingFinished(x) in b.events
    ensures b.Get(x).processing != [] && !b.Get(x).processing[0].processed
    ensures var c := PopProcessing(b.(events := b.events - multiset{ProcessingFinished(x)}), x);
            Tidy(c, x) && Calm(c, x.Other()) && SameLine(b.Get(x), c.Get(x)) && c.Get(x.Other()) == b.Get(x.Other())
  {
    hide Due, MemEventsOk;
    assert b.events[ProcessingFinished(x)] > 0;
    assert b.Get(x).processing[0] in b.Get(x).processing;
    var c := PopProcessing(b.(events := b.events - multiset{ProcessingFinished(x)}), x);
    MemUntouched(b, c, x);
    MemUntouched(b, c, x.Other());
  }

  lemma HandleProcessing(b: Bus, x: SideId)
    requires Calm(b, x) && Calm(b, x.Other()) && ProcessingFinished(x) in b.events
    ensures b.Get(x).processing != []
    ensures Handled(b, Handle(b.(events := b.events - multiset{ProcessingFinished(x)}), ProcessingFinished(x)), x)
  {
    hide Due, EventsOk, Flagged, Tidy, Calm, PushSend, Retire, StartProcessing;
    PopProcessingTidy(b, x);
    var r := b.Get(x).processing[0];
    var y := x.Other();
    var c := PopProcessing(b.(events := b.events - multiset{ProcessingFinished(x)}), x);
    CalmIsTidy(c, y);
    var d := if r.sendBack then PushSend(c, x, r.(sendBack := false)) else Retire(c, x, r);
    if r.sendBack {
      PushSendTidy(c, x, r.(sendBack := false), x);
      PushSendTidy(c, x, r.(sendBack := false), y);
      OtherUntouched(c, x, r.(sendBack := false), ToSend);
    } else {
      RetireTidy(c, x, r, x);
      RetireTidy(c, x, r, y);
      OtherUntouched(c, x, r, ToSend);
    }
    StartProcessingTidy(d, x, x);
    StartProcessingTidy(d, x, y);
    OtherUntouched(d, x, r, ToSend);
    CalmIsTidy(StartProcessing(d, x), y);
  }

  // ---------- events of the nested memory bus ----------

  lemma WithoutMembers(q: seq<Request>, k: nat)
    requires k < |q|
    ensures forall r :: r in Without(q, k) ==> r in q
  {
  }

  lemma WaitingUpdate(s: Side, stage: MemStage, q: seq<Request>, st: MemStage)
    ensures s.WithWaiting(stage, q).Waiting(st) == if st == stage then q else s.Waiting(st)
  {
  }

  // The callback of request `id` has arrived, and the request is out of its list.
  function TakeMem(b: Bus, x: SideId, stage: MemStage, id: nat): Bus
    requires exists r :: r in b.Get(x).Waiting(stage) && r.id == id
  {
    TakeWaiting(b.(events := b.events - multiset{MemDone(x, stage, id)}), x, stage, id)
  }

  lemma TakeMemTidy(b: Bus, x: SideId, stage: MemStage, id: nat, y: SideId)
    requires Calm(b, y) && MemDone(x, stage, id) in b.events
    requires exists r :: r in b.Get(x).Waiting(stage) && r.id == id
    ensures Calm(TakeMem(b, x, stage, id), y)
  {
    hide Due, MemEventsOk, TakeMem, Flagged;
    TakeMemEvents(b, x, stage, id, y);
    TakeMemFlagged(b, x, stage, id, y);
    TakeMemRest(b, x, stage, id, y);
  }

  lemma TakeMemFlagged(b: Bus, x: SideId, stage: MemStage, id: nat, y: SideId)
    requires Flagged(b.Get(y)) && exists r :: r in b.Get(x).Waiting(stage) && r.id == id
    ensures Flagged(TakeMem(b, x, stage, id).Get(y))
  {
    hide Without;
    var q := b.Get(x).Waiting(stage);
    WithoutMembers(q, IndexOf(q, id));
  }

  // The line and the processing of every side are as before.
  lemma TakeMemRest(b: Bus, x: SideId, stage: MemStage, id: nat, y: SideId)
    requires exists r :: r in b.Get(x).Waiting(stage) && r.id == id
    ensures var c := TakeMem(b, x, stage, id); var s, t := b.Get(y), c.Get(y);
            && t.receives == s.receives && t.processing == s.processing && t.processingBusy == s.processingBusy
            && t.curState == s.curState && c.events == b.events - multiset{MemDone(x, stage, id)}
  {
    hide Without;
  }

  lemma TakeMemEvents(b: Bus, x: SideId, stage: MemStage, id: nat, y: SideId)
    requires MemEventsOk(b, y) && MemDone(x, stage, id) in b.events
    requires exists r :: r in b.Get(x).Waiting(stage) && r.id == id
    ensures MemEventsOk(TakeMem(b, x, stage, id), y)
  {
    hide Due, Without;
    var q := b.Get(x).Waiting(stage);
    var k := IndexOf(q, id);
    var c := TakeMem(b, x, stage, id);
    forall st, n
      ensures StageEvents(c, y, st, n) == Due(Places(n), PlaceOf(st), c.Get(y).Waiting(st))
    {
      assert StageEvents(b, y, st, n) == Due(Places(n), PlaceOf(st), b.Get(y).Waiting(st));
      WaitingUpdate(b.Get(x), stage, Without(q, k), st);
      if y == x && st == stage {
        DueWithout(Places(n), PlaceOf(stage), q, k);
      } else {
        assert c.Get(y).Waiting(st) == b.Get(y).Waiting(st);
      }
    }
  }

  lemma MemReturnedHandled(c: Bus, x: SideId, stage: MemStage, r: Request)
    requires Calm(c, x) && Calm(c, x.Other())
    requires stage.ToProcess? ==> !r.processed
    ensures Handled(c, MemReturned(c, x, stage, r), x)
  {
    hide Due, Tidy, EventsOk, Flagged, Calm, StartProcessing;
    var y := x.Other();
    var s := c.Get(x);
    CalmIsTidy(c, x);
    CalmIsTidy(c, y);
    var a := c.Did(Fetched, r.id, x);
    var d := match stage
             case ToSend => a.Put(x, s.(sends := s.sends + [r])).Did(Queued, r.id, x)
             case ToProcess => a.Put(x, s.(processing := s.processing + [r])).Did(Ready, r.id, x)
             case ToRetire => a.Did(Retired, r.id, x);
    ListGrown(c, d, x, x);
    ListGrown(c, d, x, y);
    CalmIsTidy(d, x);
    CalmIsTidy(d, y);
    if stage.ToProcess? {
      StartProcessingTidy(d, x, x);
      StartProcessingTidy(d, x, y);
      OtherUntouched(d, x, r, ToSend);
      CalmIsTidy(StartProcessing(d, x), y);
    }
  }

  lemma HandleMem(b: Bus, x: SideId, stage: MemStage, id: nat)
    requires Calm(b, x) && Calm(b, x.Other()) && MemDone(x, stage, id) in b.events
    ensures exists r :: r in b.Get(x).Waiting(stage) && r.id == id
    ensures var e := MemDone(x, stage, id);
            Handled(b, Handle(b.(events := b.events - multiset{e}), e), x)
  {
    hide Due, Without, EventsOk, Flagged, Calm, MemReturned;
    CallbackFinds(b, x, stage, id);
    var q := b.Get(x).Waiting(stage);
    var k := IndexOf(q, id);
    var c := TakeMem(b, x, stage, id);
    TakeMemTidy(b, x, stage, id, x);
    TakeMemTidy(b, x, stage, id, x.Other());
    NotProcessed(b, x, stage, k);
    MemReturnedHandled(c, x, stage, q[k]);
  }

  lemma CallbackFinds(b: Bus, x: SideId, stage: MemStage, id: nat)
    requires Calm(b, x) && MemDone(x, stage, id) in b.events
    ensures exists r :: r in b.Get(x).Waiting(stage) && r.id == id
  {
    hide Due;
    assert StageEvents(b, x, stage, id) > 0;
    DueFind(id, PlaceOf(stage), b.Get(x).Waiting(stage));
  }

  lemma NotProcessed(b: Bus, x: SideId, stage: MemStage, k: nat)
    requires Calm(b, x) && k < |b.Get(x).Waiting(stage)|
    ensures stage.ToProcess? ==> !b.Get(x).Waiting(stage)[k].processed
  {
    hide EventsOk;
    assert b.Get(x).Waiting(stage)[k] in b.Get(x).Waiting(stage);
  }

  // A request more in the sends, or an unprocessed one more in the processing list, keeps a side tidy.
  lemma ListGrown(c: Bus, d: Bus, x: SideId, y: SideId)
    requires Tidy(c, y) && d.events == c.events && d.Get(x.Other()) == c.Get(x.Other())
    requires var s := c.Get(x);
             || d.Get(x) == s
             || (exists r: Request :: d.Get(x) == s.(sends := s.sends + [r]))
             || (exists r: Request :: !r.processed && d.Get(x) == s.(processing := s.processing + [r]))
    ensures Tidy(d, y)
  {
    hide Due, MemEventsOk;
    MemUntouched(c, d, y);
  }

  // Any outstanding event can be handled: the asserts of the source hold.
  lemma HandleAny(b: Bus, e: Event)
    requires Calm(b, e.side) && Calm(b, e.side.Other()) && e in b.events
    ensures CanHandle(b.(events := b.events - multiset{e}), e)
    ensures Handled(b, Handle(b.(events := b.events - multiset{e}), e), e.side)
  {
    hide Handled, Calm, OnSendFinished, OnRecFinished, OnProcessingFinished, OnMemDone;
    match e
    case SendFinished(x) => HandleSend(b, x);
    case RecFinished(x) => HandleRec(b, x);
    case ProcessingFinished(x) => HandleProcessing(b, x);
    case MemDone(x, stage, id) => HandleMem(b, x, stage, id);
  }

  // ---------- yielding ----------

  // What the end of a call on side x starts from.
  ghost predicate BeforeProceed(b: Bus, x: SideId) {
    var s, t := b.Get(x), b.Get(x.Other());
    && Calm(b, x) && Calm(b, x.Other())
    && (t.curState == Free && t.sends != [] ==>
          s.sends != [] && t.subsequentReads > THRESHOLD && (s.curState != Free ==> s.subsequentReads <= THRESHOLD))
  }

  lemma SwitchToReceiverCalm(b: Bus, x: SideId, r: Request, y: SideId)
    requires Calm(b, y)
    ensures Calm(SwitchToReceiver(b, x, r), y)
  {
    hide Due, MemEventsOk;
    MemUntouched(b, SwitchToReceiver(b, x, r), y);
  }

  lemma StartSendingCalm(b: Bus, x: SideId, y: SideId)
    requires Calm(b, y) && b.Get(x).sends != []
    ensures Calm(StartSending(b, x), y)
  {
    hide Due, MemEventsOk;
    MemUntouched(b, StartSending(b, x), y);
  }

  lemma ProcessNextReadCalm(b: Bus, x: SideId, y: SideId)
    requires Calm(b, y) && b.Get(x).sends != []
    ensures Calm(ProcessNextRead(b, x), y)
  {
    hide Calm, StartSending;
    SwitchToReceiverCalm(b, x.Other(), b.Get(x).sends[0], y);
    StartSendingCalm(SwitchToReceiver(b, x.Other(), b.Get(x).sends[0]), x, y);
  }

  // The call ends with the yield invariant.  The partner a side yields to is never free, so the nested
  // call on the partner is never made.
  lemma ProceedSettles(b: Bus, x: SideId)
    requires BeforeProceed(b, x)
    ensures !(b.Get(x).curState == Free && b.Get(x).sends != [] && Yields(b, x) && b.Get(x.Other()).curState == Free)
    ensures var c := Proceed(b, x);
            && Calm(c, x) && Calm(c, x.Other())
            && YieldOk(c, x) && YieldOk(c, x.Other())
            && c.asked == b.asked
  {
    hide Due, EventsOk, Flagged, Calm;
    if b.Get(x).curState == Free && b.Get(x).sends != [] && !Yields(b, x) {
      ProcessNextReadCalm(b, x, x);
      ProcessNextReadCalm(b, x, x.Other());
    }
  }

  // ---------- one step of a run ----------

  lemma RemoveEvent(b: Bus, e: Event, m: Measure)
    requires e in b.events
    ensures Total(m, b.(events := b.events - multiset{e})) == Total(m, b) - One(m.Work?)
  {
    hide Load;
  }

  // Delivering any outstanding event keeps the invariant and uses up work.
  lemma DeliverKeeps(b: Bus, e: Event)
    requires Inv(b) && e in b.events
    ensures CanHandle(b, e) && Inv(Deliver(b, e))
    ensures Total(Work, Deliver(b, e)) < Total(Work, b)
    ensures Deliver(b, e).asked == b.asked
  {
    hide Total, LedgerOk, EventsOk, Flagged, Handle, Proceed;
    var x := e.side;
    InvSides(b, x);
    var b' := b.(events := b.events - multiset{e});
    HandleAny(b, e);
    var h := Handle(b', e);
    ProceedSettles(h, x);
    var c := Proceed(h, x);
    forall m: Measure
      ensures !m.Work? ==> Total(m, c) == Total(m, b)
      ensures m.Work? ==> Total(m, c) < Total(m, b)
    {
      RemoveEvent(b, e, m);
      CalmBusy(b, x);
      HandleTotal(b', e, m);
      ProceedTotal(h, x, m);
    }
    SameLedger(b, c);
  }

  lemma InvSides(b: Bus, x: SideId)
    requires Inv(b)
    ensures Calm(b, x) && Calm(b, x.Other()) && YieldOk(b, x) && YieldOk(b, x.Other())
  {
    hide Calm, YieldOk, LedgerOk;
  }

  lemma CalmBusy(b: Bus, x: SideId)
    requires Calm(b, x)
    ensures Flagged(b.Get(x)) && (b.Get(x).processingBusy <==> b.Get(x).processing != [])
  {
    hide MemEventsOk, Flagged;
  }

  lemma SameLedger(b: Bus, c: Bus)
    requires forall id :: LedgerOk(b, id)
    requires c.asked == b.asked && forall m: Measure :: !m.Work? ==> Total(m, c) == Total(m, b)
    ensures forall id :: LedgerOk(c, id)
  {
    hide Total;
    forall id
      ensures LedgerOk(c, id)
    {
      assert LedgerOk(b, id);
      assert !Places(id).Work? && !Crossings(id).Work? && !Servings(id).Work?;
    }
  }

  // A client request keeps the invariant.
  lemma RequestKeeps(b: Bus, x: SideId, processed: bool, sendBack: bool)
    requires Inv(b)
    ensures Inv(RequestRead(b, x, processed, sendBack))
  {
    hide Total, LedgerOk, EventsOk, Flagged, Proceed, PushSend, AskMem;
    var y := x.Other();
    assert Calm(b, x) && Calm(b, y) && YieldOk(b, x) && YieldOk(b, y);
    var c := b.(asked := b.asked + [Ask(x, processed, sendBack)]);
    var r := Request(|b.asked|, processed, sendBack);
    var d := PushSend(c, x, r);
    RequestCalm(b, x, r, c, x);
    RequestCalm(b, x, r, c, y);
    RequestLine(c, x, r);
    RequestLedger(b, x, processed, sendBack);
    if b.Get(x).hasMem {
      assert d == AskMem(c, x, ToSend, r) by { OtherUntouched(c, x, r, ToSend); PushIsAsk(c, x, r); }
    } else {
      ProceedSettles(d, x);
      forall m: Measure
        ensures Total(m, Proceed(d, x)) == Total(m, d)
      {
        ProceedTotal(d, x, m);
      }
      SameLedger(d, Proceed(d, x));
    }
  }

  lemma PushIsAsk(c: Bus, x: SideId, r: Request)
    requires c.Get(x).hasMem
    ensures PushSend(c, x, r) == AskMem(c, x, ToSend, r)
  {
  }

  lemma RequestCalm(b: Bus, x: SideId, r: Request, c: Bus, y: SideId)
    requires Calm(b, y) && c == b.(asked := c.asked)
    ensures Calm(PushSend(c, x, r), y)
  {
    hide Due, MemEventsOk, PushSend;
    MemUntouched(b, c, y);
    CalmIsTidy(c, y);
    PushSendTidy(c, x, r, y);
    CalmIsTidy(PushSend(c, x, r), y);
  }

  lemma RequestLine(c: Bus, x: SideId, r: Request)
    ensures var d := PushSend(c, x, r);
            && d.asked == c.asked && d.Get(x.Other()) == c.Get(x.Other())
            && d.Get(x).curState == c.Get(x).curState && d.Get(x).subsequentReads == c.Get(x).subsequentReads
            && d.Get(x).sends == if c.Get(x).hasMem then c.Get(x).sends else c.Get(x).sends + [r]
  {
  }

  lemma RequestLedger(b: Bus, x: SideId, processed: bool, sendBack: bool)
    requires forall id :: LedgerOk(b, id)
    ensures var c := b.(asked := b.asked + [Ask(x, processed, sendBack)]);
            forall id :: LedgerOk(PushSend(c, x, Request(|b.asked|, processed, sendBack)), id)
  {
    hide Due, Total, PushSend;
    var c := b.(asked := b.asked + [Ask(x, processed, sendBack)]);
    var r := Request(|b.asked|, processed, sendBack);
    RequestLine(c, x, r);
    forall id
      ensures LedgerOk(PushSend(c, x, r), id)
    {
      assert LedgerOk(b, id);
      AskedIrrelevant(b, c, id);
      PushSendTotal(c, x, r, Places(id));
      PushSendTotal(c, x, r, Crossings(id));
      PushSendTotal(c, x, r, Servings(id));
    }
  }

  lemma AskedIrrelevant(b: Bus, c: Bus, id: nat)
    requires c == b.(asked := c.asked)
    ensures Total(Places(id), c) == Total(Places(id), b)
    ensures Total(Crossings(id), c) == Total(Crossings(id), b)
    ensures Total(Servings(id), c) == Total(Servings(id), b)
  {
    hide Load;
  }

  // ---------- runs ----------

  datatype Action = Submit(side: SideId, processed: bool, sendBack: bool) | Fire(event: Event)

  ghost predicate Run(b: Bus, acts: seq<Action>, end: Bus)
    decreases |acts|
  {
    if acts == [] then b == end
    else
      match acts[0]
      case Submit(x, p, s) => Run(RequestRead(b, x, p, s), acts[1..], end)
      case Fire(e) => e in b.events && CanHandle(b, e) && Run(Deliver(b, e), acts[1..], end)
  }

  lemma {:induction false} RunKeeps(b: Bus, acts: seq<Action>, end: Bus)
    requires Inv(b) && Run(b, acts, end)
    ensures Inv(end)
    decreases |acts|
  {
    hide Inv, RequestRead, Deliver, CanHandle;
    if acts != [] {
      match acts[0]
      case Submit(x, p, s) =>
        RequestKeeps(b, x, p, s);
        RunKeeps(RequestRead(b, x, p, s), acts[1..], end);
      case Fire(e) =>
        DeliverKeeps(b, e);
        RunKeeps(Deliver(b, e), acts[1..], end);
    }
  }

  // Every state any run reaches from an idle bus.
  lemma Reachable(npuMem: bool, maMem: bool, acts: seq<Action>, b: Bus)
    requires Run(NewBus(npuMem, maMem), acts, b)
    ensures Inv(b)
  {
    NewBusInv(npuMem, maMem);
    RunKeeps(NewBus(npuMem, maMem), acts, b);
  }

  // ---------- the three results ----------

  ghost predicate Empty(s: Side) {
    && s.curState == Free && !s.processingBusy
    && s.sends == [] && s.receives == [] && s.processing == []
    && s.preSend == [] && s.preProcess == [] && s.retirements == []
  }

  lemma NoEventsEmpty(b: Bus, x: SideId)
    requires Calm(b, x) && b.events == multiset{}
    ensures var s := b.Get(x);
            s.curState == Free && !s.processingBusy && s.receives == [] && s.processing == []
            && s.preSend == [] && s.preProcess == [] && s.retirements == []
  {
    hide Due;
    forall stage: MemStage
      ensures b.Get(x).Waiting(stage) == []
    {
      var q := b.Get(x).Waiting(stage);
      if q != [] {
        var n := StageEvents(b, x, stage, q[0].id);
        DueFind(q[0].id, PlaceOf(stage), q);
      }
    }
    assert b.Get(x).Waiting(ToSend) == [] && b.Get(x).Waiting(ToProcess) == [] && b.Get(x).Waiting(ToRetire) == [];
  }

  // No stall: in every reachable state a free side with waiting requests has a partner at work, and when
  // no event is outstanding both sides are idle with empty lists and every request has been completed once.
  lemma NeverStalls(npuMem: bool, maMem: bool, acts: seq<Action>, b: Bus)
    requires Run(NewBus(npuMem, maMem), acts, b)
    ensures YieldOk(b, Npu) && YieldOk(b, Ma)
    ensures forall e :: e in b.events ==> CanHandle(b, e)
    ensures b.events == multiset{} ==>
              Empty(b.npu) && Empty(b.ma) && forall id: nat :: b.Times(Retired, id) == One(id < |b.asked|)
  {
    hide Calm, Run, YieldOk, Total, LedgerOk, CanHandle;
    Reachable(npuMem, maMem, acts, b);
    IdleDone(b);
  }

  // Every outstanding event can be delivered, and without one all is done.
  lemma IdleDone(b: Bus)
    requires Inv(b)
    ensures forall e :: e in b.events ==> CanHandle(b, e)
    ensures b.events == multiset{} ==>
              Empty(b.npu) && Empty(b.ma) && forall id: nat :: b.Times(Retired, id) == One(id < |b.asked|)
  {
    hide Calm, YieldOk, Total, LedgerOk, CanHandle;
    forall e | e in b.events
      ensures CanHandle(b, e)
    {
      DeliverKeeps(b, e);
    }
    if b.events == multiset{} {
      IdleEmpty(b);
      forall id: nat
        ensures b.Times(Retired, id) == One(id < |b.asked|)
      {
        assert LedgerOk(b, id);
        EmptyLedger(b, id);
      }
    }
  }

  // Events and lists go together in every reachable state: each received request has its receive event, there is a
  // processing event, and only one, exactly while a request is being processed, and a side that is not free has an
  // event outstanding that is its own.
  lemma EventsMatch(npuMem: bool, maMem: bool, acts: seq<Action>, b: Bus, x: SideId)
    requires Run(NewBus(npuMem, maMem), acts, b)
    ensures var s := b.Get(x);
            && b.events[RecFinished(x)] == |s.receives|
            && b.events[ProcessingFinished(x)] == One(s.processing != [])
            && (s.curState != Free ==> b.events[SendFinished(x)] + b.events[RecFinished(x)] > 0)
            && forall stage, id :: b.events[MemDone(x, stage, id)] ==
                                   Due(Places(id), PlaceOf(stage), s.Waiting(stage))
  {
    hide Run, YieldOk, Total, LedgerOk, Due;
    Reachable(npuMem, maMem, acts, b);
    assert EventsOk(b, x);
    forall stage, id
      ensures b.events[MemDone(x, stage, id)] == Due(Places(id), PlaceOf(stage), b.Get(x).Waiting(stage))
    {
      assert StageEvents(b, x, stage, id) == b.events[MemDone(x, stage, id)];
    }
  }

  lemma IdleEmpty(b: Bus)
    requires Calm(b, Npu) && Calm(b, Ma) && YieldOk(b, Npu) && YieldOk(b, Ma) && b.events == multiset{}
    ensures Empty(b.npu) && Empty(b.ma)
  {
    hide Calm;
    NoEventsEmpty(b, Npu);
    NoEventsEmpty(b, Ma);
  }

  lemma EmptyLedger(b: Bus, id: nat)
    requires LedgerOk(b, id) && Empty(b.npu) && Empty(b.ma)
    ensures b.Times(Retired, id) == One(id < |b.asked|)
  {
  }

  lemma {:induction false} PlacesBound(id: nat, p: Place, q: seq<Request>)
    ensures Due(Crossings(id), p, q) <= 2 * Due(Places(id), p, q)
    ensures Due(Servings(id), p, q) <= 2 * Due(Places(id), p, q)
  {
    if q != [] { PlacesBound(id, p, q[..|q| - 1]); }
  }

  lemma LoadBound(id: nat, s: Side)
    ensures Load(Crossings(id), s) <= 2 * Load(Places(id), s)
    ensures Load(Servings(id), s) <= 2 * Load(Places(id), s)
  {
    hide Due;
    PlacesBound(id, InSends, s.sends);
    PlacesBound(id, InPreSend, s.preSend);
    PlacesBound(id, InReceives, s.receives);
    PlacesBound(id, InProcessing, s.processing);
    PlacesBound(id, InPreProcess, s.preProcess);
    PlacesBound(id, InRetirements, s.retirements);
  }

  // Exactly once: in every reachable state an accepted request is either retired or in exactly one list,
  // it has crossed the bus at most twice, and when it is retired it has crossed once, plus once when it was
  // to be sent back, and has been processed once if that was asked for.
  lemma ExactlyOnce(npuMem: bool, maMem: bool, acts: seq<Action>, b: Bus, id: nat)
    requires Run(NewBus(npuMem, maMem), acts, b) && id < |b.asked|
    ensures b.Times(Retired, id) + Load(Places(id), b.npu) + Load(Places(id), b.ma) == 1
    ensures b.Times(Crossed, id) <= 1 + One(b.asked[id].sendBack) && b.Times(Served, id) <= One(b.asked[id].processed)
    ensures b.Times(Retired, id) == 1 ==>
              b.Times(Crossed, id) == 1 + One(b.asked[id].sendBack) && b.Times(Served, id) == One(b.asked[id].processed)
  {
    hide Calm, Run, YieldOk, Load;
    Reachable(npuMem, maMem, acts, b);
    assert LedgerOk(b, id);
    LoadBound(id, b.npu);
    LoadBound(id, b.ma);
  }

  // Draining: without new requests a run is no longer than the work left at its start; it can continue with any
  // outstanding event, and when there is none it has completed every request.
  lemma {:induction false} Drains(b: Bus, acts: seq<Action>, end: Bus)
    requires Inv(b) && Run(b, acts, end) && forall a :: a in acts ==> a.Fire?
    ensures |acts| + Total(Work, end) <= Total(Work, b) && Inv(end) && end.asked == b.asked
    ensures forall e :: e in end.events ==> CanHandle(end, e)
    ensures end.events == multiset{} ==>
              Empty(end.npu) && Empty(end.ma) && forall id: nat :: end.Times(Retired, id) == One(id < |end.asked|)
    decreases |acts|
  {
    hide Inv, Deliver, CanHandle, Total, RequestRead, Empty;
    if acts == [] {
      IdleDone(b);
    } else {
      assert acts[0] in acts;
      DeliverKeeps(b, acts[0].event);
      Drains(Deliver(b, acts[0].event), acts[1..], end);
    }
  }
}
