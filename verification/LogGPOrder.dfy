/**
  Order on the shared bus: every list of a side is served in the order of arrival, and a side that keeps sending lets a
  waiting partner have its turn.
*/
module LogGPOrder {
  import opened LogGPModel
  import opened LogGPSafety

  function Ids(q: seq<Request>): seq<nat> { seq(|q|, i requires 0 <= i < |q| => q[i].id) }

  // The requests that came to a point of side x, in order.
  function Listed(log: seq<Mark>, kind: Kind, x: SideId): seq<nat> {
    if log == [] then []
    else
      var k := log[|log| - 1];
      Listed(log[..|log| - 1], kind, x) + (if k.kind == kind && k.side == x then [k.id] else [])
  }

  // How many transfers side x has started since the last one of its partner.
  function Row(log: seq<Mark>, x: SideId): nat {
    if log == [] then 0
    else
      var k := log[|log| - 1];
      if k.kind != Crossed then Row(log[..|log| - 1], x)
      else if k.side == x then Row(log[..|log| - 1], x) + 1
      else 0
  }

  lemma Push(log: seq<Mark>, k: Mark, x: SideId)
    ensures forall kind :: Listed(log + [k], kind, x) ==
                           Listed(log, kind, x) + (if k.kind == kind && k.side == x then [k.id] else [])
    ensures Row(log + [k], x) == if k.kind != Crossed then Row(log, x) else if k.side == x then Row(log, x) + 1 else 0
  {
    assert (log + [k])[..|log|] == log;
  }

  // What leaves a list is what came first: sends and transfers, transfers and receptions, processing.
  ghost predicate InOrder(b: Bus, x: SideId) {
    && Listed(b.log, Queued, x) == Listed(b.log, Crossed, x) + Ids(b.Get(x).sends)
    && Listed(b.log, Crossed, x) == Listed(b.log, Received, x.Other()) + Ids(b.Get(x.Other()).receives)
    && Listed(b.log, Ready, x) == Listed(b.log, Served, x) + Ids(b.Get(x).processing)
  }

  // A side gets free once for every transfer it ends, and once more when it has received all there was.
  ghost predicate RowOk(b: Bus, x: SideId) {
    var s := b.Get(x);
    Row(b.log, x) <= s.subsequentReads + One(s.curState == Sending) + One(s.receives == [])
  }

  ghost predicate Ordered(b: Bus) { forall x: SideId :: InOrder(b, x) && RowOk(b, x) }

  // ---------- what one operation keeps ----------

  lemma IdsPush(q: seq<Request>, r: Request)
    ensures Ids(q + [r]) == Ids(q) + [r.id]
  {
  }

  lemma IdsPop(q: seq<Request>)
    requires q != []
    ensures Ids(q) == [q[0].id] + Ids(q[1..])
  {
  }

  // The lists of arrival order and the line of a side.
  ghost predicate SameSide(s: Side, t: Side) {
    && t.sends == s.sends && t.receives == s.receives && t.processing == s.processing
    && t.curState == s.curState && t.subsequentReads == s.subsequentReads
  }

  lemma StaysOrdered(b: Bus, c: Bus)
    requires Ordered(b) && c.log == b.log && forall x: SideId :: SameSide(b.Get(x), c.Get(x))
    ensures Ordered(c)
  {
    hide Listed, Row, Ids;
    forall x: SideId
      ensures InOrder(c, x) && RowOk(c, x)
    {
      assert InOrder(b, x) && RowOk(b, x) && SameSide(b.Get(x), c.Get(x)) && SameSide(b.Get(x.Other()), c.Get(x.Other()));
    }
  }

  // A mark that no list depends on.
  lemma NotedOrdered(b: Bus, kind: Kind, id: nat, y: SideId)
    requires Ordered(b) && kind in {Fetched, Retired}
    ensures Ordered(b.Did(kind, id, y))
  {
    hide Listed, Row, Ids;
    var c := b.Did(kind, id, y);
    forall x: SideId
      ensures InOrder(c, x) && RowOk(c, x)
    {
      assert InOrder(b, x) && RowOk(b, x);
      Push(b.log, Mark(kind, id, y), x);
      Push(b.log, Mark(kind, id, y), x.Other());
    }
  }

  // Request r goes to the end of `sends` or of `processing`.
  lemma QueuedOrdered(b: Bus, y: SideId, r: Request)
    requires Ordered(b)
    ensures Ordered(b.Put(y, b.Get(y).(sends := b.Get(y).sends + [r])).Did(Queued, r.id, y))
  {
    hide Listed, Row, Ids;
    var c := b.Put(y, b.Get(y).(sends := b.Get(y).sends + [r])).Did(Queued, r.id, y);
    forall x: SideId
      ensures InOrder(c, x) && RowOk(c, x)
    {
      assert InOrder(b, x) && RowOk(b, x);
      Push(b.log, Mark(Queued, r.id, y), x);
      Push(b.log, Mark(Queued, r.id, y), x.Other());
      IdsPush(b.Get(y).sends, r);
    }
  }

  lemma ReadyOrdered(b: Bus, y: SideId, r: Request)
    requires Ordered(b)
    ensures Ordered(b.Put(y, b.Get(y).(processing := b.Get(y).processing + [r])).Did(Ready, r.id, y))
  {
    hide Listed, Row, Ids;
    var c := b.Put(y, b.Get(y).(processing := b.Get(y).processing + [r])).Did(Ready, r.id, y);
    forall x: SideId
      ensures InOrder(c, x) && RowOk(c, x)
    {
      assert InOrder(b, x) && RowOk(b, x);
      Push(b.log, Mark(Ready, r.id, y), x);
      Push(b.log, Mark(Ready, r.id, y), x.Other());
      IdsPush(b.Get(y).processing, r);
    }
  }

  lemma ReceivedOrdered(b: Bus, y: SideId)
    requires Ordered(b) && b.Get(y).receives != []
    ensures Ordered(PopReceive(b, y))
  {
    hide Listed, Row, Ids;
    var c := PopReceive(b, y);
    var k := Mark(Received, b.Get(y).receives[0].id, y);
    IdsPop(b.Get(y).receives);
    forall x: SideId
      ensures InOrder(c, x) && RowOk(c, x)
    {
      assert InOrder(b, x) && RowOk(b, x);
      Push(b.log, k, x);
      Push(b.log, k, x.Other());
    }
  }

  lemma ServedOrdered(b: Bus, y: SideId)
    requires Ordered(b) && b.Get(y).processing != []
    ensures Ordered(PopProcessing(b, y))
  {
    hide Listed, Row, Ids;
    var c := PopProcessing(b, y);
    var k := Mark(Served, b.Get(y).processing[0].id, y);
    IdsPop(b.Get(y).processing);
    forall x: SideId
      ensures InOrder(c, x) && RowOk(c, x)
    {
      assert InOrder(b, x) && RowOk(b, x);
      Push(b.log, k, x);
      Push(b.log, k, x.Other());
    }
  }

  // A transfer from y: its row is one longer, and that of its partner is over.
  lemma CrossedOrdered(b: Bus, y: SideId)
    requires Ordered(b) && b.Get(y).sends != [] && b.Get(y).curState == Free
    ensures Ordered(ProcessNextRead(b, y))
    ensures Row(ProcessNextRead(b, y).log, y) == Row(b.log, y) + 1 && Row(ProcessNextRead(b, y).log, y.Other()) == 0
  {
    hide Listed, Row, ProcessNextRead, InOrder, RowOk;
    CrossedSender(b, y);
    CrossedReceiver(b, y);
    assert y.Other().Other() == y;
    forall x: SideId
      ensures InOrder(ProcessNextRead(b, y), x) && RowOk(ProcessNextRead(b, y), x)
    {
      assert x == y || x == y.Other();
    }
  }

  lemma CrossedSender(b: Bus, y: SideId)
    requires Ordered(b) && b.Get(y).sends != [] && b.Get(y).curState == Free
    ensures var c := ProcessNextRead(b, y);
            InOrder(c, y) && RowOk(c, y) && Row(c.log, y) == Row(b.log, y) + 1
  {
    hide Listed, Row, Ids;
    var r := b.Get(y).sends[0];
    IdsPop(b.Get(y).sends);
    IdsPush(b.Get(y.Other()).receives, r);
    Push(b.log, Mark(Crossed, r.id, y), y);
    Push(b.log, Mark(Crossed, r.id, y), y.Other());
    assert InOrder(b, y) && RowOk(b, y);
  }

  lemma CrossedReceiver(b: Bus, y: SideId)
    requires Ordered(b) && b.Get(y).sends != [] && b.Get(y).curState == Free
    ensures var c := ProcessNextRead(b, y);
            InOrder(c, y.Other()) && RowOk(c, y.Other()) && Row(c.log, y.Other()) == 0
  {
    hide Listed, Row, Ids;
    var r := b.Get(y).sends[0];
    Push(b.log, Mark(Crossed, r.id, y), y);
    Push(b.log, Mark(Crossed, r.id, y), y.Other());
    assert InOrder(b, y.Other()) && RowOk(b, y.Other());
  }

  lemma FreedOrdered(b: Bus, y: SideId)
    requires Ordered(b)
    ensures Ordered(OnSendFinished(b, y))
  {
    hide Listed, Row, Ids;
    var c := OnSendFinished(b, y);
    forall x: SideId
      ensures InOrder(c, x) && RowOk(c, x)
    {
      assert InOrder(b, x) && RowOk(b, x);
    }
  }

  lemma AskMemStays(b: Bus, x: SideId, stage: MemStage, r: Request)
    ensures AskMem(b, x, stage, r).log == b.log
    ensures forall y: SideId :: SameSide(b.Get(y), AskMem(b, x, stage, r).Get(y))
  {
  }

  lemma PushSendOrdered(b: Bus, x: SideId, r: Request)
    requires Ordered(b)
    ensures Ordered(PushSend(b, x, r))
  {
    hide Ordered, AskMem;
    if b.Get(x).hasMem {
      AskMemStays(b, x, ToSend, r);
      StaysOrdered(b, AskMem(b, x, ToSend, r));
    } else {
      QueuedOrdered(b, x, r);
    }
  }

  lemma PushProcessOrdered(b: Bus, x: SideId, r: Request)
    requires Ordered(b)
    ensures Ordered(PushProcess(b, x, r))
  {
    hide Ordered, AskMem;
    if b.Get(x).hasMem {
      AskMemStays(b, x, ToProcess, r);
      StaysOrdered(b, AskMem(b, x, ToProcess, r));
    } else {
      ReadyOrdered(b, x, r);
    }
  }

  lemma RetireOrdered(b: Bus, x: SideId, r: Request)
    requires Ordered(b)
    ensures Ordered(Retire(b, x, r))
  {
    hide Ordered, AskMem;
    if b.Get(x).hasMem {
      AskMemStays(b, x, ToRetire, r);
      StaysOrdered(b, AskMem(b, x, ToRetire, r));
    } else {
      NotedOrdered(b, Retired, r.id, x);
    }
  }

  lemma StartOrdered(b: Bus, x: SideId)
    requires Ordered(b)
    ensures Ordered(StartProcessing(b, x))
  {
    hide Ordered;
    StaysOrdered(b, StartProcessing(b, x));
  }

  lemma ReturnedOrdered(b: Bus, x: SideId, stage: MemStage, r: Request)
    requires Ordered(b)
    ensures Ordered(MemReturned(b, x, stage, r))
  {
    hide Ordered, StartProcessing;
    var c := b.Did(Fetched, r.id, x);
    NotedOrdered(b, Fetched, r.id, x);
    match stage
    case ToSend => QueuedOrdered(c, x, r);
    case ToProcess =>
      ReadyOrdered(c, x, r);
      StartOrdered(c.Put(x, c.Get(x).(processing := c.Get(x).processing + [r])).Did(Ready, r.id, x), x);
    case ToRetire => NotedOrdered(c, Retired, r.id, x);
  }

  lemma TakeStays(b: Bus, x: SideId, stage: MemStage, id: nat)
    requires exists r :: r in b.Get(x).Waiting(stage) && r.id == id
    ensures TakeWaiting(b, x, stage, id).log == b.log
    ensures forall y: SideId :: SameSide(b.Get(y), TakeWaiting(b, x, stage, id).Get(y))
  {
    hide Without;
  }

  lemma HandleOrdered(b: Bus, e: Event)
    requires Ordered(b) && CanHandle(b, e)
    ensures Ordered(Handle(b, e))
  {
    hide Ordered, PushSend, PushProcess, Retire, StartProcessing, PopReceive, PopProcessing, OnSendFinished, MemReturned,
      TakeWaiting;
    var x := e.side;
    match e
    case SendFinished(_) => FreedOrdered(b, x);
    case RecFinished(_) =>
      var r, c := b.Get(x).receives[0], PopReceive(b, x);
      ReceivedOrdered(b, x);
      PushProcessOrdered(c, x, r.(processed := false));
      StartOrdered(PushProcess(c, x, r.(processed := false)), x);
      PushSendOrdered(c, x, r.(sendBack := false));
      RetireOrdered(c, x, r);
    case ProcessingFinished(_) =>
      var r, c := b.Get(x).processing[0], PopProcessing(b, x);
      ServedOrdered(b, x);
      PushSendOrdered(c, x, r.(sendBack := false));
      RetireOrdered(c, x, r);
      StartOrdered(if r.sendBack then PushSend(c, x, r.(sendBack := false)) else Retire(c, x, r), x);
    case MemDone(_, stage, id) =>
      TakeStays(b, x, stage, id);
      StaysOrdered(b, TakeWaiting(b, x, stage, id));
      var q := b.Get(x).Waiting(stage);
      ReturnedOrdered(TakeWaiting(b, x, stage, id), x, stage, q[IndexOf(q, id)]);
  }

  // A transfer that starts at the end of a call: the row of the side is short, or its partner does not wait for a turn.
  ghost predicate FairTurn(b: Bus, c: Bus, x: SideId) {
    Row(c.log, x) > Row(b.log, x) ==>
      || Row(c.log, x) <= THRESHOLD + 2
      || b.Get(x.Other()).sends == []
      || b.Get(x.Other()).subsequentReads > THRESHOLD
  }

  lemma {:induction false} ProceedOrdered(b: Bus, z: SideId, x: SideId)
    requires Ordered(b)
    ensures Ordered(Proceed(b, z)) && FairTurn(b, Proceed(b, z), x)
    ensures x != z || b.Get(z).subsequentReads <= THRESHOLD ==>
              Row(Proceed(b, z).log, x) <= Row(b.log, x) || Row(Proceed(b, z).log, x) <= THRESHOLD + 2
    decreases if b.Get(z).subsequentReads > THRESHOLD then 1 else 0
  {
    hide Ordered, ProcessNextRead, Row;
    if b.Get(z).curState == Free && b.Get(z).sends != [] {
      if Yields(b, z) {
        if b.Get(z.Other()).curState == Free {
          ProceedOrdered(b, z.Other(), x);
        }
      } else {
        CrossedOrdered(b, z);
        RowAt(b, z);
        assert x == z || x == z.Other();
      }
    }
  }

  lemma RowAt(b: Bus, x: SideId)
    requires Ordered(b)
    ensures RowOk(b, x)
  {
  }

  // ---------- runs ----------

  // One action of a client or of the event core.
  ghost predicate CanAct(b: Bus, a: Action) { a.Fire? ==> a.event in b.events && CanHandle(b, a.event) }

  function Act(b: Bus, a: Action): Bus
    requires CanAct(b, a)
  {
    match a
    case Submit(x, p, s) => RequestRead(b, x, p, s)
    case Fire(e) => Deliver(b, e)
  }

  // Before its end a call touches its own side only and starts no transfer.
  ghost predicate Quiet(b: Bus, h: Bus, z: SideId) {
    && SameSide(b.Get(z.Other()), h.Get(z.Other()))
    && forall x :: Row(h.log, x) == Row(b.log, x)
  }

  lemma HandleQuiet(b: Bus, e: Event)
    requires CanHandle(b, e)
    ensures Quiet(b, Handle(b, e), e.side)
  {
    hide Row, PushSend, PushProcess, Retire, StartProcessing, PopReceive, PopProcessing, OnSendFinished, MemReturned,
      TakeWaiting;
    var x := e.side;
    PopQuiet(b, x);
    match e
    case SendFinished(_) =>
    case RecFinished(_) =>
      var r, c := b.Get(x).receives[0], PopReceive(b, x);
      PushQuiet(c, x, r.(processed := false));
      PushQuiet(PushProcess(c, x, r.(processed := false)), x, r);
      PushQuiet(c, x, r.(sendBack := false));
      PushQuiet(c, x, r);
    case ProcessingFinished(_) =>
      var r, c := b.Get(x).processing[0], PopProcessing(b, x);
      PushQuiet(c, x, r.(sendBack := false));
      PushQuiet(c, x, r);
      PushQuiet(if r.sendBack then PushSend(c, x, r.(sendBack := false)) else Retire(c, x, r), x, r);
    case MemDone(_, stage, id) =>
      var q := b.Get(x).Waiting(stage);
      TakeStays(b, x, stage, id);
      ReturnQuiet(TakeWaiting(b, x, stage, id), x, stage, q[IndexOf(q, id)]);
  }

  lemma DidQuiet(log: seq<Mark>, k: Mark)
    requires k.kind != Crossed
    ensures forall x :: Row(log + [k], x) == Row(log, x)
  {
    hide Row;
    forall x
      ensures Row(log + [k], x) == Row(log, x)
    {
      Push(log, k, x);
    }
  }

  lemma PopQuiet(b: Bus, x: SideId)
    ensures b.Get(x).receives != [] ==> Quiet(b, PopReceive(b, x), x)
    ensures b.Get(x).processing != [] ==> Quiet(b, PopProcessing(b, x), x)
    ensures Quiet(b, OnSendFinished(b, x), x)
  {
    hide Row;
    if b.Get(x).receives != [] { DidQuiet(b.log, Mark(Received, b.Get(x).receives[0].id, x)); }
    if b.Get(x).processing != [] { DidQuiet(b.log, Mark(Served, b.Get(x).processing[0].id, x)); }
  }

  lemma PushQuiet(b: Bus, x: SideId, r: Request)
    ensures Quiet(b, PushSend(b, x, r), x) && Quiet(b, PushProcess(b, x, r), x) && Quiet(b, Retire(b, x, r), x)
    ensures Quiet(b, StartProcessing(b, x), x)
  {
    hide Row, AskMem;
    OtherUntouched(b, x, r, ToSend);
    AskMemStays(b, x, ToSend, r);
    AskMemStays(b, x, ToProcess, r);
    AskMemStays(b, x, ToRetire, r);
    DidQuiet(b.log, Mark(Queued, r.id, x));
    DidQuiet(b.log, Mark(Ready, r.id, x));
    DidQuiet(b.log, Mark(Retired, r.id, x));
  }

  lemma ReturnQuiet(b: Bus, x: SideId, stage: MemStage, r: Request)
    ensures Quiet(b, MemReturned(b, x, stage, r), x)
  {
    hide Row, StartProcessing;
    var log := b.log + [Mark(Fetched, r.id, x)];
    DidQuiet(b.log, Mark(Fetched, r.id, x));
    DidQuiet(log, Mark(Queued, r.id, x));
    DidQuiet(log, Mark(Ready, r.id, x));
    DidQuiet(log, Mark(Retired, r.id, x));
    var c := b.Did(Fetched, r.id, x);
    PushQuiet(c.Put(x, c.Get(x).(processing := c.Get(x).processing + [r])).Did(Ready, r.id, x), x, r);
  }

  lemma QuietTurn(b: Bus, h: Bus, z: SideId, x: SideId)
    requires Ordered(h) && Quiet(b, h, z)
    ensures Ordered(Proceed(h, z)) && FairTurn(b, Proceed(h, z), x)
  {
    hide Ordered, Row, Proceed;
    ProceedOrdered(h, z, x);
    assert x == z || x == z.Other();
  }

  // What one action keeps, and the rule for the transfer it may start.
  lemma ActOrdered(b: Bus, a: Action, x: SideId)
    requires Ordered(b) && CanAct(b, a)
    ensures Ordered(Act(b, a)) && FairTurn(b, Act(b, a), x)
  {
    hide Ordered, Row, Proceed, Handle, PushSend, AskMem, CanHandle;
    match a
    case Fire(e) =>
      var c := b.(events := b.events - multiset{e});
      StaysOrdered(b, c);
      CanStill(b, e);
      HandleOrdered(c, e);
      HandleQuiet(c, e);
      QuietTurn(b, Handle(c, e), e.side, x);
    case Submit(z, p, s) =>
      var r := Request(|b.asked|, p, s);
      var c := b.(asked := b.asked + [Ask(z, p, s)]);
      StaysOrdered(b, c);
      AskMemStays(c, z, ToSend, r);
      if b.Get(z).hasMem {
        StaysOrdered(c, AskMem(c, z, ToSend, r));
      } else {
        PushSendOrdered(c, z, r);
        PushQuiet(c, z, r);
        QuietTurn(b, PushSend(c, z, r), z, x);
      }
  }

  lemma CanStill(b: Bus, e: Event)
    requires CanHandle(b, e)
    ensures CanHandle(b.(events := b.events - multiset{e}), e)
  {
  }

  lemma {:induction false} RunOrdered(b: Bus, acts: seq<Action>, end: Bus)
    requires Ordered(b) && Run(b, acts, end)
    ensures Ordered(end)
    decreases |acts|
  {
    hide Ordered, RequestRead, Deliver, CanHandle, FairTurn;
    if acts != [] {
      ActOrdered(b, acts[0], Npu);
      RunOrdered(Act(b, acts[0]), acts[1..], end);
    }
  }

  lemma NewOrdered(npuMem: bool, maMem: bool)
    ensures Ordered(NewBus(npuMem, maMem))
  {
  }

  // ---------- results ----------

  // First in, first out, in every state of every run: the transfers of a side are of the requests queued there, in the
  // order they were queued; the partner receives them in that order; and a side processes in the order of readiness.
  lemma FirstInFirstOut(npuMem: bool, maMem: bool, acts: seq<Action>, b: Bus, x: SideId)
    requires Run(NewBus(npuMem, maMem), acts, b)
    ensures InOrder(b, x)
  {
    hide Run, Listed, Ids, RowOk;
    NewOrdered(npuMem, maMem);
    RunOrdered(NewBus(npuMem, maMem), acts, b);
  }

  // Taking turns: whatever comes next in any run, a side starts its eleventh transfer in a row, or a later one, only
  // when its partner has nothing to send or is itself past the threshold.
  lemma Turns(npuMem: bool, maMem: bool, acts: seq<Action>, b: Bus, a: Action, x: SideId)
    requires Run(NewBus(npuMem, maMem), acts, b) && CanAct(b, a)
    ensures Row(Act(b, a).log, x) > Row(b.log, x) && Row(Act(b, a).log, x) > 10 ==>
              b.Get(x.Other()).sends == [] || b.Get(x.Other()).subsequentReads > 8
  {
    hide Run, Ordered, Row, CanAct, Act;
    NewOrdered(npuMem, maMem);
    RunOrdered(NewBus(npuMem, maMem), acts, b);
    ActOrdered(b, a, x);
  }

  // ---------- the counter of a busy run ----------

  function Reads(b: Bus, x: SideId): nat { b.Get(x).subsequentReads }

  lemma PartsReads(b: Bus, z: SideId, r: Request, x: SideId)
    ensures Reads(PushSend(b, z, r), x) == Reads(PushProcess(b, z, r), x) == Reads(Retire(b, z, r), x) == Reads(b, x)
    ensures Reads(StartProcessing(b, z), x) == Reads(b, x)
  {
  }

  lemma HandleReads(b: Bus, e: Event, x: SideId)
    requires CanHandle(b, e)
    ensures Reads(Handle(b, e), x) == Reads(b, x) + One(e == SendFinished(x))
  {
    hide PushSend, PushProcess, Retire, StartProcessing, MemReturned, TakeWaiting;
    var z := e.side;
    match e
    case SendFinished(_) =>
    case RecFinished(_) =>
      var r, c := b.Get(z).receives[0], PopReceive(b, z);
      PartsReads(c, z, r.(processed := false), x);
      PartsReads(PushProcess(c, z, r.(processed := false)), z, r, x);
      PartsReads(c, z, r.(sendBack := false), x);
      PartsReads(c, z, r, x);
    case ProcessingFinished(_) =>
      var r, c := b.Get(z).processing[0], PopProcessing(b, z);
      PartsReads(c, z, r.(sendBack := false), x);
      PartsReads(c, z, r, x);
      PartsReads(if r.sendBack then PushSend(c, z, r.(sendBack := false)) else Retire(c, z, r), z, r, x);
    case MemDone(_, stage, id) =>
      var q := b.Get(z).Waiting(stage);
      TakeStays(b, z, stage, id);
      ReturnReads(TakeWaiting(b, z, stage, id), z, stage, q[IndexOf(q, id)], x);
  }

  lemma ReturnReads(b: Bus, z: SideId, stage: MemStage, r: Request, x: SideId)
    ensures Reads(MemReturned(b, z, stage, r), x) == Reads(b, x)
  {
  }

  lemma {:induction false} ProceedReads(b: Bus, z: SideId, x: SideId)
    ensures var c := Proceed(b, z);
            Reads(c, x) == if Row(c.log, x.Other()) > Row(b.log, x.Other()) then 0 else Reads(b, x)
    decreases if Reads(b, z) > THRESHOLD then 1 else 0
  {
    hide Row;
    if b.Get(z).curState == Free && b.Get(z).sends != [] {
      if Yields(b, z) {
        if b.Get(z.Other()).curState == Free { ProceedReads(b, z.Other(), x); }
      } else {
        var k := Mark(Crossed, b.Get(z).sends[0].id, z);
        assert ProcessNextRead(b, z).log == b.log + [k];
        Push(b.log, k, x.Other());
      }
    }
  }

  // The counter of a side goes up by one when a transfer of its own ends, back to zero when its partner starts one, and
  // stays otherwise: it is how many transfers have ended since it last began to receive.
  lemma BusyRun(b: Bus, a: Action, x: SideId)
    requires CanAct(b, a)
    ensures var c, y := Act(b, a), x.Other();
            c.Get(x).subsequentReads == if Row(c.log, y) > Row(b.log, y) then 0
                                        else b.Get(x).subsequentReads + One(a == Fire(SendFinished(x)))
  {
    hide Row, Proceed, Handle, PushSend, AskMem, CanHandle;
    match a
    case Fire(e) =>
      var c := b.(events := b.events - multiset{e});
      CanStill(b, e);
      HandleReads(c, e, x);
      HandleQuiet(c, e);
      ProceedReads(Handle(c, e), e.side, x);
    case Submit(z, p, s) =>
      var r := Request(|b.asked|, p, s);
      var c := b.(asked := b.asked + [Ask(z, p, s)]);
      AskMemStays(c, z, ToSend, r);
      assert SameSide(c.Get(x), AskMem(c, z, ToSend, r).Get(x));
      PartsReads(c, z, r, x);
      PushQuiet(c, z, r);
      ProceedReads(PushSend(c, z, r), z, x);
  }

  // ---------- the state of the line ----------

  // The line of side x before the end of a call.
  function LineAfter(b: Bus, h: Bus, e: Event, x: SideId): LinkState {
    if e == SendFinished(x) || (e == RecFinished(x) && h.Get(x).receives == []) then Free else b.Get(x).curState
  }

  ghost predicate SameLines(b: Bus, c: Bus, x: SideId) {
    c.Get(x).curState == b.Get(x).curState && c.Get(x).receives == b.Get(x).receives
  }

  lemma PartsLine(b: Bus, z: SideId, r: Request, x: SideId)
    ensures SameLines(b, PushSend(b, z, r), x) && SameLines(b, PushProcess(b, z, r), x) && SameLines(b, Retire(b, z, r), x)
    ensures SameLines(b, StartProcessing(b, z), x)
  {
  }

  lemma ReturnLine(b: Bus, z: SideId, stage: MemStage, r: Request, x: SideId)
    ensures SameLines(b, MemReturned(b, z, stage, r), x)
  {
  }

  lemma HandleLine(b: Bus, e: Event, x: SideId)
    requires CanHandle(b, e)
    ensures Handle(b, e).Get(x).curState == LineAfter(b, Handle(b, e), e, x)
    ensures !e.RecFinished? ==> Handle(b, e).Get(x).receives == b.Get(x).receives
  {
    hide PushSend, PushProcess, Retire, StartProcessing, MemReturned, TakeWaiting;
    var z := e.side;
    match e
    case SendFinished(_) =>
    case RecFinished(_) =>
      var r, c := b.Get(z).receives[0], PopReceive(b, z);
      PartsLine(c, z, r.(processed := false), x);
      PartsLine(PushProcess(c, z, r.(processed := false)), z, r, x);
      PartsLine(c, z, r.(sendBack := false), x);
      PartsLine(c, z, r, x);
    case ProcessingFinished(_) =>
      var r, c := b.Get(z).processing[0], PopProcessing(b, z);
      PartsLine(c, z, r.(sendBack := false), x);
      PartsLine(c, z, r, x);
      PartsLine(if r.sendBack then PushSend(c, z, r.(sendBack := false)) else Retire(c, z, r), z, r, x);
    case MemDone(_, stage, id) =>
      var q := b.Get(z).Waiting(stage);
      TakeStays(b, z, stage, id);
      assert SameSide(b.Get(x), TakeWaiting(b, z, stage, id).Get(x));
      ReturnLine(TakeWaiting(b, z, stage, id), z, stage, q[IndexOf(q, id)], x);
  }

  lemma {:induction false} ProceedLine(b: Bus, z: SideId, x: SideId)
    ensures var c, y := Proceed(b, z), x.Other();
            && c.Get(x).curState == (if Row(c.log, x) > Row(b.log, x) then Sending
                                     else if Row(c.log, y) > Row(b.log, y) then Receiving
                                     else b.Get(x).curState)
            && (Row(c.log, y) <= Row(b.log, y) ==> c.Get(x).receives == b.Get(x).receives)
    decreases if Reads(b, z) > THRESHOLD then 1 else 0
  {
    hide Row;
    if b.Get(z).curState == Free && b.Get(z).sends != [] {
      if Yields(b, z) {
        if b.Get(z.Other()).curState == Free { ProceedLine(b, z.Other(), x); }
      } else {
        var k := Mark(Crossed, b.Get(z).sends[0].id, z);
        assert ProcessNextRead(b, z).log == b.log + [k];
        Push(b.log, k, x);
        Push(b.log, k, x.Other());
      }
    }
  }

  // The line of a side is sending when it has started a transfer, receiving when its partner has, free when a transfer
  // of its own or the last of its receptions has ended, and unchanged otherwise.
  lemma LineState(b: Bus, a: Action, x: SideId)
    requires CanAct(b, a)
    ensures var c, y := Act(b, a), x.Other();
            c.Get(x).curState == if Row(c.log, x) > Row(b.log, x) then Sending
                                 else if Row(c.log, y) > Row(b.log, y) then Receiving
                                 else if a == Fire(SendFinished(x)) then Free
                                 else if a == Fire(RecFinished(x)) && c.Get(x).receives == [] then Free
                                 else b.Get(x).curState
  {
    hide Row, Proceed, Handle, PushSend, AskMem, CanHandle;
    match a
    case Fire(e) =>
      var c := b.(events := b.events - multiset{e});
      CanStill(b, e);
      HandleLine(c, e, x);
      HandleQuiet(c, e);
      ProceedLine(Handle(c, e), e.side, x);
    case Submit(z, p, s) =>
      var r := Request(|b.asked|, p, s);
      var c := b.(asked := b.asked + [Ask(z, p, s)]);
      AskMemStays(c, z, ToSend, r);
      assert SameSide(c.Get(x), AskMem(c, z, ToSend, r).Get(x));
      PartsLine(c, z, r, x);
      PushQuiet(c, z, r);
      ProceedLine(PushSend(c, z, r), z, x);
  }
}
