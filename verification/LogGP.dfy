/**
  The objects of the shared bus: two linked LogGP sides over one event core.

  Every method updates its side, its partner and the outstanding events in place; its contract equates the
  state of the whole bus afterwards with what LogGPModel says about the state before, so the results of
  LogGPSafety are results about these objects.
*/
module LogGP {
  import opened LogGPModel
  import Safety = LogGPSafety

  // The event core as far as the bus uses it, the counter behind the request ids, and the history.
  class Generator {
    var events: multiset<Event>
    var nextId: nat
    ghost var asked: seq<Ask>
    ghost var log: seq<Mark>

    constructor ()
      ensures events == multiset{} && nextId == 0 && asked == [] && log == []
    {
      events, nextId, asked, log := multiset{}, 0, [], [];
    }

    ghost method Note(kind: Kind, id: nat, x: SideId)
      modifies this`log
      ensures log == old(log) + [Mark(kind, id, x)]
    {
      log := log + [Mark(kind, id, x)];
    }

    method Register(e: Event)
      modifies this`events
      ensures events == old(events) + multiset{e}
    {
      events := events + multiset{e};
    }
  }

  class LogGP {
    const side: SideId
    const hasMem: bool
    const generator: Generator
    var partner: LogGP?
    var curState: LinkState
    var prevState: LinkState
    var processingBusy: bool
    var subsequentReads: nat
    var sends: seq<Request>
    var receives: seq<Request>
    var processing: seq<Request>
    var preSend: seq<Request>
    var preProcess: seq<Request>
    var retirements: seq<Request>

    ghost function View(): Side
      reads this
    {
      Side(hasMem, curState, prevState, processingBusy, subsequentReads,
           sends, receives, processing, preSend, preProcess, retirements)
    }

    ghost predicate Linked()
      reads this, partner, generator
    {
      && partner != null && partner.partner == this && partner.side == side.Other()
      && partner.generator == generator && generator.nextId == |generator.asked|
    }

    // The state of the whole bus.
    ghost function Whole(): Bus
      requires Linked()
      reads this, partner, generator
    {
      Bus(if side.Npu? then View() else partner.View(), if side.Npu? then partner.View() else View(),
          generator.asked, generator.events, generator.log)
    }

    constructor (side: SideId, hasMem: bool, generator: Generator)
      ensures this.side == side && this.hasMem == hasMem && this.generator == generator
      ensures partner == null && View() == NewSide(hasMem)
    {
      this.side, this.hasMem, this.generator, partner := side, hasMem, generator, null;
      curState, prevState, processingBusy, subsequentReads := Free, Free, false, 0;
      sends, receives, processing, preSend, preProcess, retirements := [], [], [], [], [], [];
    }

    method SwitchToReceiver(r: Request)
      requires Linked()
      modifies this, generator`events
      ensures Linked() && partner == old(partner)
      ensures Whole() == LogGPModel.SwitchToReceiver(old(Whole()), side, r)
    {
      ghost var want := LogGPModel.SwitchToReceiver(old(Whole()), side, r);
      receives := receives + [r];
      prevState := curState;
      curState := Receiving;
      subsequentReads := 0;
      generator.Register(RecFinished(side));
      assert View() == want.Get(side);
      assert partner.View() == want.Get(side.Other());
    }

    method StartSending()
      requires Linked() && sends != []
      modifies this, generator
      ensures Linked() && partner == old(partner)
      ensures Whole() == LogGPModel.StartSending(old(Whole()), side)
    {
      ghost var want := LogGPModel.StartSending(old(Whole()), side);
      generator.Note(Crossed, sends[0].id, side);
      sends, curState := sends[1..], Sending;
      generator.Register(SendFinished(side));
      assert View() == want.Get(side);
      assert partner.View() == want.Get(side.Other());
    }

    method ProcessNextRead()
      requires Linked() && sends != []
      modifies this, partner, generator
      ensures Linked() && partner == old(partner)
      ensures Whole() == LogGPModel.ProcessNextRead(old(Whole()), side)
    {
      hide LogGPModel.SwitchToReceiver, LogGPModel.StartSending;
      partner.SwitchToReceiver(sends[0]);
      StartSending();
    }

    // Hands a request to the nested memory bus, which will call back with `MemDone`.
    method AskMem(stage: MemStage, r: Request)
      requires Linked()
      modifies this, generator`events
      ensures Linked() && partner == old(partner)
      ensures Whole() == LogGPModel.AskMem(old(Whole()), side, stage, r)
    {
      match stage {
        case ToSend => preSend := preSend + [r];
        case ToProcess => preProcess := preProcess + [r];
        case ToRetire => retirements := retirements + [r];
      }
      generator.Register(MemDone(side, stage, r.id));
    }

    method PushSend(r: Request)
      requires Linked()
      modifies this, generator`events, generator`log
      ensures Linked() && partner == old(partner)
      ensures Whole() == LogGPModel.PushSend(old(Whole()), side, r)
    {
      if hasMem {
        AskMem(ToSend, r);
      } else {
        sends := sends + [r];
        generator.Note(Queued, r.id, side);
      }
    }

    method PushProcess(r: Request)
      requires Linked()
      modifies this, generator`events, generator`log
      ensures Linked() && partner == old(partner)
      ensures Whole() == LogGPModel.PushProcess(old(Whole()), side, r)
    {
      if hasMem {
        AskMem(ToProcess, r);
      } else {
        processing := processing + [r];
        generator.Note(Ready, r.id, side);
      }
    }

    method Retire(r: Request)
      requires Linked()
      modifies this, generator
      ensures Linked() && partner == old(partner)
      ensures Whole() == LogGPModel.Retire(old(Whole()), side, r)
    {
      if hasMem {
        AskMem(ToRetire, r);
      } else {
        generator.Note(Retired, r.id, side);
      }
    }

    method StartProcessing()
      requires Linked()
      modifies this, generator`events
      ensures Linked() && partner == old(partner)
      ensures Whole() == LogGPModel.StartProcessing(old(Whole()), side)
    {
      if !processingBusy && |processing| > 0 {
        generator.Register(ProcessingFinished(side));
        processingBusy := true;
      }
    }

    // The end of `call` and of `request_read`.
    method Proceed()
      requires Linked()
      modifies this, partner, generator
      ensures Linked() && partner == old(partner)
      ensures Whole() == LogGPModel.Proceed(old(Whole()), side)
      decreases if subsequentReads > THRESHOLD then 1 else 0
    {
      if curState == Free {
        if |sends| > 0 {
          if subsequentReads > THRESHOLD && |partner.sends| > 0 && partner.subsequentReads <= THRESHOLD {
            if partner.curState == Free {
              partner.Proceed();
            }
            return;
          }
          ProcessNextRead();
        }
      }
    }

    method RequestRead(processed: bool, sendBack: bool)
      requires Linked()
      modifies this, partner, generator
      ensures Linked() && partner == old(partner)
      ensures Whole() == LogGPModel.RequestRead(old(Whole()), side, processed, sendBack)
    {
      var r := Request(generator.nextId, processed, sendBack);
      generator.nextId := generator.nextId + 1;
      generator.asked := generator.asked + [Ask(side, processed, sendBack)];
      if hasMem {
        AskMem(ToSend, r);
      } else {
        sends := sends + [r];
        generator.Note(Queued, r.id, side);
        Proceed();
      }
    }

    method OnSendFinished()
      requires Linked()
      modifies this
      ensures Linked() && partner == old(partner)
      ensures Whole() == LogGPModel.OnSendFinished(old(Whole()), side)
    {
      prevState := curState;
      curState := Free;
      subsequentReads := subsequentReads + 1;
    }

    method OnRecFinished()
      requires Linked() && receives != []
      modifies this, generator
      ensures Linked() && partner == old(partner)
      ensures Whole() == LogGPModel.OnRecFinished(old(Whole()), side)
    {
      hide LogGPModel.PushSend, LogGPModel.PushProcess, LogGPModel.Retire, LogGPModel.StartProcessing;
      var r := receives[0];
      prevState := curState;
      if |receives| < 2 {
        curState := Free;
      }
      receives := receives[1..];
      generator.Note(Received, r.id, side);
      ghost var want := PopReceive(old(Whole()), side);
      assert View() == want.Get(side);
      assert Whole() == want;
      if r.processed {
        PushProcess(r.(processed := false));
        StartProcessing();
      } else if r.sendBack {
        PushSend(r.(sendBack := false));
      } else {
        Retire(r);
      }
    }

    method OnProcessingFinished()
      requires Linked() && processing != []
      modifies this, generator
      ensures Linked() && partner == old(partner)
      ensures Whole() == LogGPModel.OnProcessingFinished(old(Whole()), side)
    {
      hide LogGPModel.PushSend, LogGPModel.Retire, LogGPModel.StartProcessing;
      var r := processing[0];
      processingBusy := false;
      processing := processing[1..];
      generator.Note(Served, r.id, side);
      ghost var want := PopProcessing(old(Whole()), side);
      assert View() == want.Get(side);
      assert Whole() == want;
      if r.sendBack {
        PushSend(r.(sendBack := false));
      } else {
        Retire(r);
      }
      StartProcessing();
    }

    method OnMemDone(stage: MemStage, id: nat)
      requires Linked() && exists r :: r in View().Waiting(stage) && r.id == id
      modifies this, generator
      ensures Linked() && partner == old(partner)
      ensures Whole() == LogGPModel.OnMemDone(old(Whole()), side, stage, id)
    {
      hide Without, LogGPModel.MemReturned;
      match stage {
        case ToSend =>
          var k := IndexOf(preSend, id);
          var r := preSend[k];
          preSend := Without(preSend, k);
          MemReturned(stage, r);
        case ToProcess =>
          var k := IndexOf(preProcess, id);
          var r := preProcess[k];
          preProcess := Without(preProcess, k);
          MemReturned(stage, r);
        case ToRetire =>
          var k := IndexOf(retirements, id);
          var r := retirements[k];
          retirements := Without(retirements, k);
          MemReturned(stage, r);
      }
    }

    // A request comes back from the nested memory bus and goes on.
    method MemReturned(stage: MemStage, r: Request)
      requires Linked()
      modifies this, generator
      ensures Linked() && partner == old(partner)
      ensures Whole() == LogGPModel.MemReturned(old(Whole()), side, stage, r)
    {
      hide LogGPModel.StartProcessing;
      generator.Note(Fetched, r.id, side);
      match stage {
        case ToSend =>
          sends := sends + [r];
          generator.Note(Queued, r.id, side);
        case ToProcess =>
          processing := processing + [r];
          generator.Note(Ready, r.id, side);
          StartProcessing();
        case ToRetire => generator.Note(Retired, r.id, side);
      }
    }

    // The event core delivers one of the outstanding events of this side.
    method Call(e: Event)
      requires Linked() && e.side == side && e in generator.events && CanHandle(Whole(), e)
      modifies this, partner, generator
      ensures Linked() && partner == old(partner)
      ensures Whole() == Deliver(old(Whole()), e)
    {
      generator.events := generator.events - multiset{e};
      match e {
        case SendFinished(_) => OnSendFinished();
        case RecFinished(_) => OnRecFinished();
        case ProcessingFinished(_) => OnProcessingFinished();
        case MemDone(_, stage, id) => OnMemDone(stage, id);
      }
      Proceed();
    }
  }

  // The pair of sides, and the two entry points of its clients.
  class MemBus {
    const npuSide: LogGP
    const maSide: LogGP
    const generator: Generator

    ghost predicate Valid()
      reads npuSide, maSide, generator
    {
      && npuSide.side == Npu && npuSide.generator == generator
      && npuSide.partner == maSide && npuSide.Linked()
      && Safety.Inv(npuSide.Whole())
    }

    ghost function State(): Bus
      requires Valid()
      reads npuSide, maSide, generator
    {
      npuSide.Whole()
    }

    constructor (attach: bool)
      ensures Valid() && fresh(npuSide) && fresh(maSide) && fresh(generator)
      ensures State() == NewBus(attach, false)
    {
      var g := new Generator();
      var a := new LogGP(Npu, attach, g);
      var b := new LogGP(Ma, false, g);
      a.partner := b;
      b.partner := a;
      npuSide, maSide, generator := a, b, g;
      new;
      Safety.NewBusInv(attach, false);
    }

    method SendFromNpuToMa(processed: bool, sendBack: bool)
      requires Valid()
      modifies npuSide, maSide, generator
      ensures Valid() && State() == RequestRead(old(State()), Npu, processed, sendBack)
    {
      Safety.RequestKeeps(State(), Npu, processed, sendBack);
      npuSide.RequestRead(processed, sendBack);
    }

    method SendFromMaToNpu(processed: bool, sendBack: bool)
      requires Valid()
      modifies npuSide, maSide, generator
      ensures Valid() && State() == RequestRead(old(State()), Ma, processed, sendBack)
    {
      Safety.RequestKeeps(State(), Ma, processed, sendBack);
      maSide.RequestRead(processed, sendBack);
    }

    // One outstanding event after the other, in any order, until none is left: then every accepted
    // request has been completed exactly once.
    method RunToIdle()
      requires Valid()
      modifies npuSide, maSide, generator
      ensures Valid() && generator.events == multiset{}
      ensures forall id: nat :: State().Times(Retired, id) == Safety.One(id < |State().asked|)
      ensures Safety.Empty(State().npu) && Safety.Empty(State().ma)
      ensures State().asked == old(State()).asked
    {
      while generator.events != multiset{}
        invariant Valid() && State().asked == old(State()).asked
        decreases Safety.Total(Safety.Work, State())
      {
        var e :| e in generator.events;
        Safety.DeliverKeeps(State(), e);
        if e.side.Npu? {
          npuSide.Call(e);
        } else {
          maSide.Call(e);
        }
      }
      Safety.IdleEmpty(State());
      forall id: nat
        ensures State().Times(Retired, id) == Safety.One(id < |State().asked|)
      {
        assert Safety.LedgerOk(State(), id);
        Safety.EmptyLedger(State(), id);
      }
    }
  }
}
