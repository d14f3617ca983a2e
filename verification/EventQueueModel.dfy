/**
  The event core of a node: callables are queued under the tick they are due at, the network simulator wakes the
  node up at scheduled ticks, and a wake-up calls everything queued under the current tick, including what the
  callables themselves register for that tick while it is being processed.
*/
module EventQueueModel {

  // A callable, with what it registers when it is called.
  datatype Event = Event(id: nat, registers: seq<Registration>)

  datatype Registration = Registration(event: Event, cycles: nat, zeroLatency: bool)

  datatype Timed = Timed(event: Event, tick: nat)

  // A registration with the tick it was made at.  The event is due the given cycles later, or at once.
  datatype Filed = Filed(event: Event, at: nat, cycles: nat, zeroLatency: bool)
  {
    function Due(): nat { if zeroLatency then at else at + cycles }
  }

  /**
    One node.  `scheduled` holds the wake-ups asked of the network simulator.  While `active`, the list of tick
    `now` is being called and its first `done` events have been.  `filed` and `called` are history:
    every registration, and every event with the tick it was called at.
  */
  datatype St = St(now: nat, queue: map<nat, seq<Event>>, active: bool, done: nat, pending: int,
                   scheduled: multiset<nat>, filed: seq<Filed>, called: seq<Timed>)
  {
    // The registered events with the ticks they are due at.
    function Registered(): seq<Timed> {
      seq(|filed|, i requires 0 <= i < |filed| => Timed(filed[i].event, filed[i].Due()))
    }
  }

  datatype Step = External(r: Registration) | CallNext | Finish | Fire | Advance(tick: nat)

  function Init(now: nat): St { St(now, map[], false, 0, 0, multiset{}, [], []) }

  function Listed(s: St, t: nat): seq<Event> { if t in s.queue then s.queue[t] else [] }

  function Filing(s: St, r: Registration): Filed { Filed(r.event, s.now, r.cycles, r.zeroLatency) }

  // A list under a new tick is made with a wake-up; a zero-latency one is called at once instead.
  function Register(s: St, r: Registration): St {
    var t := if r.zeroLatency then s.now else s.now + r.cycles;
    var queued := s.(queue := s.queue[t := Listed(s, t) + [r.event]], pending := s.pending + 1,
                     filed := s.filed + [Filing(s, r)]);
    if t in s.queue then queued
    else if r.zeroLatency then Begin(queued)
    else queued.(scheduled := queued.scheduled + multiset{t})
  }

  function Begin(s: St): St { s.(active := true, done := 0) }

  function RegisterAll(s: St, rs: seq<Registration>): St {
    if rs == [] then s else Register(RegisterAll(s, rs[..|rs| - 1]), rs[|rs| - 1])
  }

  predicate MayCall(s: St) { s.active && s.now in s.queue && s.done < |s.queue[s.now]| }

  function Called(s: St): St
    requires MayCall(s)
  {
    s.(done := s.done + 1, pending := s.pending - 1, called := s.called + [Timed(s.queue[s.now][s.done], s.now)])
  }

  function CallOne(s: St): St
    requires MayCall(s)
  {
    RegisterAll(Called(s), s.queue[s.now][s.done].registers)
  }

  function Finished(s: St): St { s.(queue := s.queue - {s.now}, active := false, done := 0) }

  // A wake-up without a list for the current tick does nothing.
  function Fired(s: St): St {
    var t := s.(scheduled := s.scheduled - multiset{s.now});
    if s.now in s.queue then Begin(t) else t
  }

  predicate Enabled(s: St, step: Step) {
    match step
    case External(_) => true
    case CallNext => MayCall(s)
    case Finish => s.active && s.now in s.queue && s.done == |s.queue[s.now]|
    case Fire => !s.active && s.now in s.scheduled
    case Advance(t) => !s.active && t > s.now && forall x <- s.scheduled :: x >= t
  }

  function Do(s: St, step: Step): St
    requires Enabled(s, step)
  {
    match step
    case External(r) => Register(s, r)
    case CallNext => CallOne(s)
    case Finish => Finished(s)
    case Fire => Fired(s)
    case Advance(t) => s.(now := t)
  }

  predicate Runs(s: St, steps: seq<Step>)
    decreases |steps|, 0
  {
    steps == [] || (Runs(s, steps[..|steps| - 1]) && Enabled(After(s, steps[..|steps| - 1]), steps[|steps| - 1]))
  }

  function After(s: St, steps: seq<Step>): St
    requires Runs(s, steps)
    decreases |steps|, 1
  {
    if steps == [] then s else Do(After(s, steps[..|steps| - 1]), steps[|steps| - 1])
  }

  // ---------- the invariant ----------

  // The events of tick t, in order.
  function At(h: seq<Timed>, t: nat): seq<Event> {
    if h == [] then []
    else At(h[..|h| - 1], t) + (if h[|h| - 1].tick == t then [h[|h| - 1].event] else [])
  }

  function Waiting(s: St, t: nat): seq<Event> {
    if t in s.queue && s.active && t == s.now && s.done <= |s.queue[t]| then s.queue[t][s.done..]
    else Listed(s, t)
  }

  // What was called at tick t, followed by what waits under it, is what was registered for it.
  predicate Ledger(s: St, t: nat) {
    At(s.called, t) + Waiting(s, t) == At(s.Registered(), t)
  }

  // A tick has exactly one wake-up while its list waits, and none while the list is being called.
  predicate WokenOnce(s: St, t: nat) {
    s.scheduled[t] == if t in s.queue && !(s.active && t == s.now) then 1 else 0
  }

  ghost predicate Inv(s: St) {
    && (s.active ==> s.now in s.queue && s.done <= |s.queue[s.now]|)
    && (forall t <- s.queue :: t >= s.now && s.queue[t] != [])
    && s.pending == |s.Registered()| - |s.called|
    && (forall t: nat :: Ledger(s, t))
    && (forall t: nat :: WokenOnce(s, t))
  }

  lemma AtAppend(h: seq<Timed>, x: Timed, t: nat)
    ensures At(h + [x], t) == At(h, t) + (if x.tick == t then [x.event] else [])
  {
    assert (h + [x])[..|h|] == h;
  }

  lemma RegisterLedger(s: St, r: Registration, k: nat)
    requires Inv(s)
    ensures Ledger(Register(s, r), k) && WokenOnce(Register(s, r), k)
  {
    hide At;
    assert Ledger(s, k) && WokenOnce(s, k);
    var x := Timed(r.event, Filing(s, r).Due());
    AtAppend(s.Registered(), x, k);
    assert Register(s, r).Registered() == s.Registered() + [x];
    RegisterWaiting(s, r, k);
  }

  lemma RegisterWaiting(s: St, r: Registration, k: nat)
    requires s.active ==> s.now in s.queue && s.done <= |s.queue[s.now]|
    ensures Waiting(Register(s, r), k) == Waiting(s, k) + (if k == Filing(s, r).Due() then [r.event] else [])
  {
  }

  lemma RegisterKeeps(s: St, r: Registration)
    requires Inv(s)
    ensures Inv(Register(s, r))
    ensures Register(s, r).now == s.now && (s.active ==> Register(s, r).active && Register(s, r).done == s.done)
  {
    hide Ledger, WokenOnce;
    forall k: nat
      ensures Ledger(Register(s, r), k) && WokenOnce(Register(s, r), k)
    {
      RegisterLedger(s, r, k);
    }
  }

  lemma {:induction false} RegisterAllKeeps(s: St, rs: seq<Registration>)
    requires Inv(s)
    ensures Inv(RegisterAll(s, rs)) && RegisterAll(s, rs).now == s.now
    ensures s.active ==> RegisterAll(s, rs).active && RegisterAll(s, rs).done == s.done
  {
    if rs != [] {
      hide Inv, Register;
      RegisterAllKeeps(s, rs[..|rs| - 1]);
      RegisterKeeps(RegisterAll(s, rs[..|rs| - 1]), rs[|rs| - 1]);
    }
  }

  lemma CalledLedger(s: St, k: nat)
    requires Inv(s) && MayCall(s)
    ensures Ledger(Called(s), k) && WokenOnce(Called(s), k)
  {
    hide At;
    var e := s.queue[s.now][s.done];
    assert Ledger(s, k) && WokenOnce(s, k);
    AtAppend(s.called, Timed(e, s.now), k);
    if k == s.now {
      assert Waiting(s, k) == [e] + Waiting(Called(s), k);
    }
  }

  lemma CalledKeeps(s: St)
    requires Inv(s) && MayCall(s)
    ensures Inv(Called(s))
  {
    hide Ledger, WokenOnce;
    forall k: nat
      ensures Ledger(Called(s), k) && WokenOnce(Called(s), k)
    {
      CalledLedger(s, k);
    }
  }

  // A change that leaves the histories, what waits and when it is woken keeps the ledgers.
  lemma SameLedger(s: St, u: St, k: nat)
    requires Inv(s) && u.called == s.called && u.filed == s.filed && Waiting(u, k) == Waiting(s, k)
    requires WokenOnce(s, k) ==> WokenOnce(u, k)
    ensures Ledger(u, k) && WokenOnce(u, k)
  {
    assert Ledger(s, k) && WokenOnce(s, k);
  }

  lemma FinishedKeeps(s: St)
    requires Inv(s) && Enabled(s, Finish)
    ensures Inv(Finished(s))
  {
    forall k: nat
      ensures Ledger(Finished(s), k) && WokenOnce(Finished(s), k)
    {
      assert Waiting(Finished(s), k) == Waiting(s, k);
      SameLedger(s, Finished(s), k);
    }
  }

  // Every wake-up finds the list of its tick.
  lemma FindsList(s: St)
    requires Inv(s) && Enabled(s, Fire)
    ensures s.now in s.queue
  {
    assert WokenOnce(s, s.now);
  }

  lemma FiredKeeps(s: St)
    requires Inv(s) && Enabled(s, Fire)
    ensures Inv(Fired(s))
  {
    FindsList(s);
    forall k: nat
      ensures Ledger(Fired(s), k) && WokenOnce(Fired(s), k)
    {
      assert Waiting(Fired(s), k) == Waiting(s, k);
      SameLedger(s, Fired(s), k);
    }
  }

  lemma AdvanceKeeps(s: St, t: nat)
    requires Inv(s) && Enabled(s, Advance(t))
    ensures Inv(s.(now := t))
  {
    forall k: nat
      ensures Ledger(s.(now := t), k) && WokenOnce(s.(now := t), k) && (k in s.queue ==> k >= t)
    {
      assert WokenOnce(s, k);
      assert Waiting(s.(now := t), k) == Waiting(s, k);
      SameLedger(s, s.(now := t), k);
    }
  }

  lemma DoKeeps(s: St, step: Step)
    requires Inv(s) && Enabled(s, step)
    ensures Inv(Do(s, step))
  {
    hide Inv, Register, RegisterAll, Finished, Fired;
    match step
    case External(r) => RegisterKeeps(s, r);
    case CallNext => CalledKeeps(s); RegisterAllKeeps(Called(s), s.queue[s.now][s.done].registers);
    case Finish => FinishedKeeps(s);
    case Fire => FiredKeeps(s);
    case Advance(t) => AdvanceKeeps(s, t);
  }

  lemma {:induction false} RunKeeps(now: nat, steps: seq<Step>)
    requires Runs(Init(now), steps)
    ensures Inv(After(Init(now), steps))
  {
    if steps != [] {
      hide Inv, Do, Enabled;
      RunKeeps(now, steps[..|steps| - 1]);
      DoKeeps(After(Init(now), steps[..|steps| - 1]), steps[|steps| - 1]);
    }
  }

  // ---------- results ----------

  // In every run: the calls made at a tick are the first ones of those registered for it, in that order, so an
  // event is never called early, late, twice or out of order; and `pending` counts what is still to be called.
  lemma OnTimeInOrder(now: nat, steps: seq<Step>, t: nat)
    requires Runs(Init(now), steps)
    ensures var s := After(Init(now), steps);
            && At(s.called, t) <= At(s.Registered(), t)
            && s.pending == |s.Registered()| - |s.called|
            && (t < s.now ==> At(s.called, t) == At(s.Registered(), t))
  {
    hide After, Runs;
    RunKeeps(now, steps);
    assert Ledger(After(Init(now), steps), t);
  }

  // On time, with the times spelled out: an event registered at some tick with a number of cycles has been called that
  // many ticks later, and one without latency at that tick, once the tick is over; and nothing is called otherwise.
  lemma CalledWhenDue(start: nat, steps: seq<Step>)
    requires Runs(Init(start), steps)
    ensures var s := After(Init(start), steps);
            && (forall f <- s.filed :: (if f.zeroLatency then f.at else f.at + f.cycles) < s.now ==>
                  Timed(f.event, if f.zeroLatency then f.at else f.at + f.cycles) in s.called)
            && (forall x <- s.called ::
                  (exists f :: f in s.filed && f.event == x.event
                               && x.tick == (if f.zeroLatency then f.at else f.at + f.cycles)))
  {
    hide Runs, After, At;
    var s := After(Init(start), steps);
    forall f | f in s.filed && f.Due() < s.now
      ensures Timed(f.event, f.Due()) in s.called
    {
      var i :| 0 <= i < |s.filed| && s.filed[i] == f;
      OnTimeInOrder(start, steps, f.Due());
      InAt(s.Registered(), Timed(f.event, f.Due()));
      assert s.Registered()[i] == Timed(f.event, f.Due());
      InAt(s.called, Timed(f.event, f.Due()));
    }
    forall x | x in s.called
      ensures exists f :: f in s.filed && f.event == x.event && x.tick == f.Due()
    {
      OnTimeInOrder(start, steps, x.tick);
      InAt(s.called, x);
      InAt(s.Registered(), x);
      var i :| 0 <= i < |s.Registered()| && s.Registered()[i] == x;
      assert s.filed[i] in s.filed;
    }
  }

  lemma {:induction false} InAt(h: seq<Timed>, x: Timed)
    ensures x in h <==> x.event in At(h, x.tick)
    decreases |h|
  {
    if h != [] {
      var n := |h| - 1;
      InAt(h[..n], x);
      assert h == h[..n] + [h[n]];
    }
  }

  // As many copies of an event are registered or called in a history as under its tick.
  lemma {:induction false} CountAt(h: seq<Timed>, x: Timed)
    ensures multiset(h)[x] == multiset(At(h, x.tick))[x.event]
  {
    if h != [] {
      var n := |h| - 1;
      CountAt(h[..n], x);
      assert h == h[..n] + [h[n]];
    }
  }

  lemma CalledWithinRegistered(s: St)
    requires Inv(s)
    ensures multiset(s.called) <= multiset(s.Registered())
  {
    forall x: Timed
      ensures multiset(s.called)[x] <= multiset(s.Registered())[x]
    {
      assert Ledger(s, x.tick);
      CountAt(s.called, x);
      CountAt(s.Registered(), x);
      assert multiset(At(s.called, x.tick) + Waiting(s, x.tick)) ==
             multiset(At(s.called, x.tick)) + multiset(Waiting(s, x.tick));
    }
  }

  // Between wake-ups the queue is empty exactly when every registered event has been called exactly once.
  lemma EmptyMeansDone(now: nat, steps: seq<Step>)
    requires Runs(Init(now), steps) && !After(Init(now), steps).active
    ensures var s := After(Init(now), steps);
            && (s.queue == map[] <==> s.pending == 0)
            && (s.queue == map[] <==> multiset(s.called) == multiset(s.Registered()))
            && (s.queue == map[] <==> s.scheduled == multiset{})
  {
    hide After, Runs;
    RunKeeps(now, steps);
    EmptyIff(After(Init(now), steps));
  }

  lemma EmptyIff(s: St)
    requires Inv(s) && !s.active
    ensures s.queue == map[] <==> s.pending == 0
    ensures s.queue == map[] <==> multiset(s.called) == multiset(s.Registered())
    ensures s.queue == map[] <==> s.scheduled == multiset{}
  {
    CalledWithinRegistered(s);
    SameSize(multiset(s.called), multiset(s.Registered()));
    if s.queue != map[] {
      var t :| t in s.queue;
      MoreRegistered(s, t);
      assert WokenOnce(s, t);
    } else {
      NoneWaits(s);
    }
  }

  lemma NoneWaits(s: St)
    requires Inv(s) && s.queue == map[]
    ensures multiset(s.called) == multiset(s.Registered()) && s.scheduled == multiset{}
  {
    forall x: Timed
      ensures multiset(s.called)[x] == multiset(s.Registered())[x]
    {
      assert Ledger(s, x.tick) && Waiting(s, x.tick) == [];
      CountAt(s.called, x);
      CountAt(s.Registered(), x);
    }
    forall t: nat
      ensures s.scheduled[t] == 0
    {
      assert WokenOnce(s, t);
    }
  }

  lemma MoreRegistered(s: St, t: nat)
    requires Inv(s) && !s.active && t in s.queue
    ensures multiset(s.called) != multiset(s.Registered())
  {
    var e := s.queue[t][0];
    assert Ledger(s, t);
    CountAt(s.called, Timed(e, t));
    CountAt(s.Registered(), Timed(e, t));
    assert multiset(At(s.called, t) + Waiting(s, t)) == multiset(At(s.called, t)) + multiset(Waiting(s, t));
    assert e in multiset(Waiting(s, t));
  }

  lemma SameSize<T>(x: multiset<T>, y: multiset<T>)
    requires x <= y
    ensures |x| <= |y| && (|x| == |y| <==> x == y)
  {
    assert y == x + (y - x);
    if |y - x| == 0 { assert y - x == multiset{}; }
  }

  // A pending event is never stranded: the node is calling, or a wake-up is due now or later.
  lemma NeverStranded(now: nat, steps: seq<Step>)
    requires Runs(Init(now), steps) && After(Init(now), steps).pending > 0
    ensures var s := After(Init(now), steps);
            || Enabled(s, CallNext) || Enabled(s, Finish) || Enabled(s, Fire)
            || (exists t: nat :: t in s.scheduled && Enabled(s, Advance(t)))
  {
    hide After, Runs;
    RunKeeps(now, steps);
    var s := After(Init(now), steps);
    if !s.active && s.now !in s.scheduled {
      EmptyIff(s);
      var x :| x in s.scheduled;
      var t := Least(s.scheduled);
      assert WokenOnce(s, t);
      assert Enabled(s, Advance(t));
    }
  }

  lemma {:induction false} Least(m: multiset<nat>) returns (t: nat)
    requires m != multiset{}
    ensures t in m && forall x <- m :: x >= t
    decreases |m|
  {
    t :| t in m;
    var rest := m - multiset{t};
    if rest != multiset{} {
      var u := Least(rest);
      assert forall x <- m :: x == t || x in rest;
      t := if u < t then u else t;
    } else {
      assert forall x <- m :: x == t || x in rest;
    }
  }

  // ---------- calling a whole list ----------

  // How many events there are in a tree of registrations.
  function Size(e: Event): nat
    decreases e
  {
    1 + SizeOf(e.registers)
  }

  function SizeOf(rs: seq<Registration>): nat
    decreases rs
  {
    if rs == [] then 0 else SizeOf(rs[..|rs| - 1]) + SizeOfOne(rs[|rs| - 1])
  }

  function SizeOfOne(r: Registration): nat
    decreases r
  {
    Size(r.event)
  }

  function Total(es: seq<Event>): nat {
    if es == [] then 0 else Total(es[..|es| - 1]) + Size(es[|es| - 1])
  }

  lemma TotalAppend(es: seq<Event>, e: Event)
    ensures Total(es + [e]) == Total(es) + Size(e)
  {
    assert (es + [e])[..|es|] == es;
  }

  lemma {:induction false} TotalFirst(es: seq<Event>)
    requires es != []
    ensures Total(es) == Size(es[0]) + Total(es[1..])
  {
    if |es| == 1 {
      assert es[..0] == [] && es[1..] == [];
    } else {
      var n := |es| - 1;
      TotalFirst(es[..n]);
      assert es[..n][1..] == es[1..][..n - 1];
    }
  }

  // What a called event registers for the current tick is less than the event itself.
  lemma {:induction false} RegistersLess(s: St, rs: seq<Registration>)
    requires Inv(s) && s.active
    ensures Inv(RegisterAll(s, rs)) && RegisterAll(s, rs).active && RegisterAll(s, rs).now == s.now
    ensures Total(Waiting(RegisterAll(s, rs), s.now)) <= Total(Waiting(s, s.now)) + SizeOf(rs)
  {
    RegisterAllKeeps(s, rs);
    if rs != [] {
      var n := |rs| - 1;
      RegisterAllKeeps(s, rs[..n]);
      RegistersLess(s, rs[..n]);
      var u := RegisterAll(s, rs[..n]);
      RegisterWaiting(u, rs[n], u.now);
      TotalAppend(Waiting(u, u.now), rs[n].event);
    }
  }

  lemma CallLess(s: St)
    requires Inv(s) && MayCall(s)
    ensures Inv(CallOne(s)) && CallOne(s).active && CallOne(s).now == s.now
    ensures Total(Waiting(CallOne(s), s.now)) < Total(Waiting(s, s.now))
  {
    hide Ledger, WokenOnce, RegisterAll;
    CalledKeeps(s);
    var e := s.queue[s.now][s.done];
    RegistersLess(Called(s), e.registers);
    TotalFirst(Waiting(s, s.now));
    assert Waiting(s, s.now)[1..] == Waiting(Called(s), s.now);
  }

  // The whole loop of a wake-up; it ends although the list grows while it is being called.
  ghost function CallAll(s: St): (t: St)
    requires Inv(s) && s.active
    ensures Inv(t) && !t.active && t.now == s.now && s.now !in t.queue
    decreases Total(Waiting(s, s.now))
  {
    if s.done < |s.queue[s.now]| then
      CallLess(s);
      CallAll(CallOne(s))
    else
      FinishedKeeps(s);
      Finished(s)
  }

  // A wake-up calls all that is registered for its tick, whatever the callables add to it meanwhile.
  lemma WakeUpDrains(s: St)
    requires Inv(s) && Enabled(s, Fire)
    ensures Inv(Fired(s)) && Fired(s).active
    ensures var t := CallAll(Fired(s)); At(t.called, s.now) == At(t.Registered(), s.now)
  {
    FiredKeeps(s);
    FindsList(s);
    AllCalled(CallAll(Fired(s)));
  }

  lemma AllCalled(t: St)
    requires Inv(t) && t.now !in t.queue
    ensures At(t.called, t.now) == At(t.Registered(), t.now)
  {
    assert Ledger(t, t.now);
  }
}
