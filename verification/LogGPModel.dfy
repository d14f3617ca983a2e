/**
  The shared bus between an NPU and its memory agent: two LogGP sides that hand requests to each other.

  This module gives the bus on values: the state of both sides, the events that are outstanding in the
  event core, and what one request or one event does.  Time is left out: any outstanding event may be
  the next one, so what holds here holds for all delays.  The nested memory bus of a side is a service
  that calls back once for every request given to it.
*/
module LogGPModel {

  const THRESHOLD := 8

  datatype SideId = Npu | Ma
  {
    function Other(): SideId { if Npu? then Ma else Npu }
  }

  datatype LinkState = Free | Sending | Receiving

  datatype Request = Request(id: nat, processed: bool, sendBack: bool)

  // What a client of a side asked for when it handed in request number k.
  datatype Ask = Ask(side: SideId, processed: bool, sendBack: bool)

  // History: what happened to which request at which side.  A request is fetched when the nested memory bus returns it,
  // queued and ready when it enters `sends` and `processing`, crossed and received when its transfer starts and ends.
  datatype Kind = Fetched | Queued | Crossed | Received | Ready | Served | Retired

  datatype Mark = Mark(kind: Kind, id: nat, side: SideId)

  // The list of a side that a request waits in for the nested memory bus.
  datatype MemStage = ToSend | ToProcess | ToRetire

  datatype Event =
    | SendFinished(side: SideId)
    | RecFinished(side: SideId)
    | ProcessingFinished(side: SideId)
    | MemDone(side: SideId, stage: MemStage, id: nat)

  datatype Side = Side(
    hasMem: bool,
    curState: LinkState,
    prevState: LinkState,
    processingBusy: bool,
    subsequentReads: nat,
    sends: seq<Request>,
    receives: seq<Request>,
    processing: seq<Request>,
    preSend: seq<Request>,
    preProcess: seq<Request>,
    retirements: seq<Request>)
  {
    function Waiting(stage: MemStage): seq<Request> {
      match stage
      case ToSend => preSend
      case ToProcess => preProcess
      case ToRetire => retirements
    }

    function WithWaiting(stage: MemStage, q: seq<Request>): Side {
      match stage
      case ToSend => this.(preSend := q)
      case ToProcess => this.(preProcess := q)
      case ToRetire => this.(retirements := q)
    }
  }

  // How often a request has come to a point.
  function Count(log: seq<Mark>, kind: Kind, id: nat): nat {
    if log == [] then 0
    else
      var k := log[|log| - 1];
      Count(log[..|log| - 1], kind, id) + (if k.kind == kind && k.id == id then 1 else 0)
  }

  // `log` is history.
  datatype Bus = Bus(npu: Side, ma: Side, asked: seq<Ask>, events: multiset<Event>, log: seq<Mark>)
  {
    function Get(x: SideId): Side { if x.Npu? then npu else ma }

    function Put(x: SideId, s: Side): Bus { if x.Npu? then this.(npu := s) else this.(ma := s) }

    function Register(e: Event): Bus { this.(events := events + multiset{e}) }

    function Did(kind: Kind, id: nat, x: SideId): Bus { this.(log := log + [Mark(kind, id, x)]) }

    function Times(kind: Kind, id: nat): nat { Count(log, kind, id) }
  }

  function NewSide(hasMem: bool): Side {
    Side(hasMem, Free, Free, false, 0, [], [], [], [], [], [])
  }

  function NewBus(npuMem: bool, maMem: bool): Bus {
    Bus(NewSide(npuMem), NewSide(maMem), [], multiset{}, [])
  }

  // ---------- what the methods of one side do ----------

  function SwitchToReceiver(b: Bus, x: SideId, r: Request): Bus {
    var s := b.Get(x);
    b.Put(x, s.(receives := s.receives + [r], prevState := s.curState, curState := Receiving, subsequentReads := 0))
     .Register(RecFinished(x))
  }

  // The sender's half of a transfer: its first request is under way.
  function StartSending(b: Bus, x: SideId): Bus
    requires b.Get(x).sends != []
  {
    var s := b.Get(x);
    b.Put(x, s.(sends := s.sends[1..], curState := Sending))
     .Register(SendFinished(x)).Did(Crossed, s.sends[0].id, x)
  }

  function ProcessNextRead(b: Bus, x: SideId): Bus
    requires b.Get(x).sends != []
  {
    StartSending(SwitchToReceiver(b, x.Other(), b.Get(x).sends[0]), x)
  }

  // A side that has read often lets a partner with waiting requests go first.
  predicate Yields(b: Bus, x: SideId) {
    && b.Get(x).subsequentReads > THRESHOLD
    && b.Get(x.Other()).sends != []
    && b.Get(x.Other()).subsequentReads <= THRESHOLD
  }

  // The end of every call: a free side starts its next transfer or yields.
  function Proceed(b: Bus, x: SideId): Bus
    decreases if b.Get(x).subsequentReads > THRESHOLD then 1 else 0
  {
    if b.Get(x).curState == Free && b.Get(x).sends != [] then
      if Yields(b, x) then
        if b.Get(x.Other()).curState == Free then Proceed(b, x.Other()) else b
      else ProcessNextRead(b, x)
    else b
  }

  // Queue a request on the nested memory bus, in the list of `stage`.
  function AskMem(b: Bus, x: SideId, stage: MemStage, r: Request): Bus {
    var s := b.Get(x);
    b.Put(x, s.WithWaiting(stage, s.Waiting(stage) + [r])).Register(MemDone(x, stage, r.id))
  }

  function PushSend(b: Bus, x: SideId, r: Request): Bus {
    var s := b.Get(x);
    if s.hasMem then AskMem(b, x, ToSend, r) else b.Put(x, s.(sends := s.sends + [r])).Did(Queued, r.id, x)
  }

  function StartProcessing(b: Bus, x: SideId): Bus {
    var s := b.Get(x);
    if !s.processingBusy && s.processing != [] then
      b.Put(x, s.(processingBusy := true)).Register(ProcessingFinished(x))
    else b
  }

  function PushProcess(b: Bus, x: SideId, r: Request): Bus {
    var s := b.Get(x);
    if s.hasMem then AskMem(b, x, ToProcess, r) else b.Put(x, s.(processing := s.processing + [r])).Did(Ready, r.id, x)
  }

  function Retire(b: Bus, x: SideId, r: Request): Bus {
    if b.Get(x).hasMem then AskMem(b, x, ToRetire, r) else b.Did(Retired, r.id, x)
  }

  // The client hands in a request.
  function RequestRead(b: Bus, x: SideId, processed: bool, sendBack: bool): Bus {
    var r := Request(|b.asked|, processed, sendBack);
    var c := b.(asked := b.asked + [Ask(x, processed, sendBack)]);
    if b.Get(x).hasMem then AskMem(c, x, ToSend, r) else Proceed(PushSend(c, x, r), x)
  }

  function OnSendFinished(b: Bus, x: SideId): Bus {
    var s := b.Get(x);
    b.Put(x, s.(prevState := s.curState, curState := Free, subsequentReads := s.subsequentReads + 1))
  }

  function PopReceive(b: Bus, x: SideId): Bus
    requires b.Get(x).receives != []
  {
    var s := b.Get(x);
    b.Put(x, s.(prevState := s.curState,
                curState := if |s.receives| < 2 then Free else s.curState,
                receives := s.receives[1..]))
     .Did(Received, s.receives[0].id, x)
  }

  function OnRecFinished(b: Bus, x: SideId): Bus
    requires b.Get(x).receives != []
  {
    var r := b.Get(x).receives[0];
    var c := PopReceive(b, x);
    if r.processed then StartProcessing(PushProcess(c, x, r.(processed := false)), x)
    else if r.sendBack then PushSend(c, x, r.(sendBack := false))
    else Retire(c, x, r)
  }

  function PopProcessing(b: Bus, x: SideId): Bus
    requires b.Get(x).processing != []
  {
    var s := b.Get(x);
    b.Put(x, s.(processingBusy := false, processing := s.processing[1..]))
     .Did(Served, s.processing[0].id, x)
  }

  function OnProcessingFinished(b: Bus, x: SideId): Bus
    requires b.Get(x).processing != []
  {
    var r := b.Get(x).processing[0];
    var c := PopProcessing(b, x);
    StartProcessing(if r.sendBack then PushSend(c, x, r.(sendBack := false)) else Retire(c, x, r), x)
  }

  // The position of request `id` in a list.
  function IndexOf(q: seq<Request>, id: nat): (k: nat)
    requires exists r :: r in q && r.id == id
    ensures k < |q| && q[k].id == id
  {
    if q[0].id == id then 0 else 1 + IndexOf(q[1..], id)
  }

  function Without(q: seq<Request>, k: nat): seq<Request>
    requires k < |q|
  {
    q[..k] + q[k + 1..]
  }

  // The callback finds its request in the list and takes it out ...
  function TakeWaiting(b: Bus, x: SideId, stage: MemStage, id: nat): Bus
    requires exists r :: r in b.Get(x).Waiting(stage) && r.id == id
  {
    var q := b.Get(x).Waiting(stage);
    b.Put(x, b.Get(x).WithWaiting(stage, Without(q, IndexOf(q, id))))
  }

  // ... and the request goes on.
  function MemReturned(b: Bus, x: SideId, stage: MemStage, r: Request): Bus {
    var c := b.Did(Fetched, r.id, x);
    var s := b.Get(x);
    match stage
    case ToSend => c.Put(x, s.(sends := s.sends + [r])).Did(Queued, r.id, x)
    case ToProcess => StartProcessing(c.Put(x, s.(processing := s.processing + [r])).Did(Ready, r.id, x), x)
    case ToRetire => c.Did(Retired, r.id, x)
  }

  function OnMemDone(b: Bus, x: SideId, stage: MemStage, id: nat): Bus
    requires exists r :: r in b.Get(x).Waiting(stage) && r.id == id
  {
    var q := b.Get(x).Waiting(stage);
    MemReturned(TakeWaiting(b, x, stage, id), x, stage, q[IndexOf(q, id)])
  }

  // The asserts of the source: the lists an event refers to are not empty.
  ghost predicate CanHandle(b: Bus, e: Event) {
    match e
    case SendFinished(_) => true
    case RecFinished(x) => b.Get(x).receives != []
    case ProcessingFinished(x) => b.Get(x).processing != []
    case MemDone(x, stage, id) => exists r :: r in b.Get(x).Waiting(stage) && r.id == id
  }

  function Handle(b: Bus, e: Event): Bus
    requires CanHandle(b, e)
  {
    match e
    case SendFinished(x) => OnSendFinished(b, x)
    case RecFinished(x) => OnRecFinished(b, x)
    case ProcessingFinished(x) => OnProcessingFinished(b, x)
    case MemDone(x, stage, id) => OnMemDone(b, x, stage, id)
  }

  // The event core delivers an outstanding event.
  function Deliver(b: Bus, e: Event): Bus
    requires e in b.events && CanHandle(b, e)
  {
    Proceed(Handle(b.(events := b.events - multiset{e}), e), e.side)
  }
}
