/**
  The event core as the node's fields and methods.  The wake-ups live in the network simulator; `scheduled` is
  what the node asked it for.
*/
module EventQueue {
  import opened EventQueueModel

  class Sys {
    var now: nat
    var eventQueue: map<nat, seq<Event>>
    var pendingEvents: int
    var scheduled: multiset<nat>
    ghost var active: bool
    ghost var done: nat
    ghost var filed: seq<Filed>
    ghost var called: seq<Timed>

    ghost function View(): St
      reads this
    {
      St(now, eventQueue, active, done, pendingEvents, scheduled, filed, called)
    }

    constructor (tick: nat)
      ensures View() == Init(tick) && Inv(View())
    {
      now, eventQueue, pendingEvents, scheduled := tick, map[], 0, multiset{};
      active, done, filed, called := false, 0, [], [];
    }

    // Queues the event; says whether its tick is new.
    method Enqueue(event: Event, tick: nat, ghost filing: Filed) returns (isNew: bool)
      modifies this`eventQueue, this`filed
      ensures isNew == (tick !in old(eventQueue))
      ensures eventQueue == old(eventQueue)[tick := old(Listed(View(), tick)) + [event]]
      ensures filed == old(filed) + [filing]
    {
      isNew := tick !in eventQueue;
      if isNew {
        eventQueue := eventQueue[tick := []];
      }
      eventQueue := eventQueue[tick := eventQueue[tick] + [event]];
      filed := filed + [filing];
    }

    method TryRegisterEvent(event: Event, cycles: nat)
      requires Inv(View())
      modifies this
      ensures View() == Register(old(View()), Registration(event, cycles, false)) && Inv(View())
      ensures var due := old(now) + cycles;
              && eventQueue == old(eventQueue)[due := old(Listed(View(), due)) + [event]]
              && scheduled == old(scheduled) + (if due in old(eventQueue) then multiset{} else multiset{due})
              && filed == old(filed) + [Filed(event, old(now), cycles, false)]
              && now == old(now) && pendingEvents == old(pendingEvents) + 1
    {
      hide Inv;
      RegisterKeeps(View(), Registration(event, cycles, false));
      var shouldSchedule := Enqueue(event, now + cycles, Filed(event, now, cycles, false));
      if shouldSchedule {
        scheduled := scheduled + multiset{now + cycles};
      }
      pendingEvents := pendingEvents + 1;
      assert View() == Register(old(View()), Registration(event, cycles, false));
    }

    method ZeroLatencyRegisterEvent(event: Event, cycles: nat)
      requires Inv(View())
      modifies this
      ensures var s := Register(old(View()), Registration(event, cycles, true));
              Inv(s) && View() == if s.active && !old(active) then CallAll(s) else s
      ensures old(now in eventQueue) ==>
                && eventQueue == old(eventQueue)[old(now) := old(Listed(View(), now)) + [event]]
                && filed == old(filed) + [Filed(event, old(now), cycles, true)]
                && scheduled == old(scheduled) && now == old(now) && pendingEvents == old(pendingEvents) + 1
      decreases if active then 0 else 2, 0
    {
      hide CallAll;
      ghost var s := Register(View(), Registration(event, cycles, true));
      RegisterKeeps(View(), Registration(event, cycles, true));
      var shouldSchedule := Enqueue(event, now, Filed(event, now, cycles, true));
      pendingEvents := pendingEvents + 1;
      if shouldSchedule {
        assert Begin(View()) == s;
        CallEvents();
      }
    }

    // The callable of an event.
    method Call(event: Event)
      requires Inv(View()) && active
      modifies this
      ensures View() == RegisterAll(old(View()), event.registers) && Inv(View())
      decreases 0, 1
    {
      ghost var start := View();
      for i := 0 to |event.registers|
        invariant View() == RegisterAll(start, event.registers[..i]) && Inv(View()) && active
      {
        hide Inv, RegisterAll, Register, CallAll;
        var r := event.registers[i];
        OneRegistration(start, event.registers, i);
        RegisterKeeps(View(), r);
        if r.zeroLatency {
          ZeroLatencyRegisterEvent(r.event, r.cycles);
        } else {
          SameRegistration(View(), r);
          TryRegisterEvent(r.event, r.cycles);
        }
      }
      assert event.registers[..|event.registers|] == event.registers;
    }

    // Calls everything under the current tick, also what the callables add to it meanwhile.
    method CallEvents()
      requires !active && (now in eventQueue ==> Inv(Begin(View())))
      modifies this
      ensures old(now in eventQueue) ==> Inv(Begin(old(View()))) && View() == CallAll(Begin(old(View())))
      ensures old(now !in eventQueue) ==> View() == old(View())
      decreases 1, 0
    {
      hide CallAll, Inv, RegisterAll, Total, Waiting, Register, Finished;
      if now !in eventQueue {
        return;
      }
      ghost var start := Begin(View());
      active, done := true, 0;
      var i := 0;
      InRange(View());
      while i < |eventQueue[now]|
        invariant active && done == i && Inv(View()) && now == start.now
        invariant now in eventQueue && i <= |eventQueue[now]|
        invariant CallAll(View()) == CallAll(start)
        decreases Total(Waiting(View(), now))
      {
        ghost var before := View();
        OneMore(before);
        var event := eventQueue[now][i];
        pendingEvents, i := pendingEvents - 1, i + 1;
        called, done := called + [Timed(event, now)], done + 1;
        assert View() == Called(before);
        Call(event);
        InRange(View());
      }
      NoMore(View());
      eventQueue := eventQueue - {now};
      active, done := false, 0;
    }

    // The network simulator delivers a wake-up of the current tick.
    method HandleCallEvents()
      requires Inv(View()) && !active && now in scheduled
      modifies this
      ensures Inv(Fired(old(View()))) && Fired(old(View())).active && View() == CallAll(Fired(old(View())))
      ensures Inv(View()) && At(called, now) == At(View().Registered(), now) && now == old(now)
    {
      hide CallAll;
      WakeUpDrains(View());
      FindsList(View());
      scheduled := scheduled - multiset{now};
      CallEvents();
    }
  }

  lemma OneRegistration(s: St, rs: seq<Registration>, i: nat)
    requires i < |rs|
    ensures RegisterAll(s, rs[..i + 1]) == Register(RegisterAll(s, rs[..i]), rs[i])
  {
    assert rs[..i + 1][..i] == rs[..i];
  }

  lemma InRange(s: St)
    requires Inv(s) && s.active
    ensures s.now in s.queue && s.done <= |s.queue[s.now]|
  {
  }

  lemma OneMore(s: St)
    requires Inv(s) && MayCall(s)
    ensures Inv(Called(s)) && Inv(CallOne(s))
    ensures CallOne(s).now == s.now && CallOne(s).active && CallOne(s).done == s.done + 1
    ensures CallAll(s) == CallAll(CallOne(s))
    ensures Total(Waiting(CallOne(s), s.now)) < Total(Waiting(s, s.now))
  {
    hide Ledger, WokenOnce, RegisterAll, Total;
    CalledKeeps(s);
    CallLess(s);
    RegisterAllKeeps(Called(s), s.queue[s.now][s.done].registers);
  }

  lemma NoMore(s: St)
    requires Inv(s) && s.active && s.done == |s.queue[s.now]|
    ensures CallAll(s) == Finished(s) == s.(queue := s.queue - {s.now}, active := false, done := 0)
  {
    hide Ledger, WokenOnce;
  }

  lemma SameRegistration(s: St, r: Registration)
    requires !r.zeroLatency
    ensures Registration(r.event, r.cycles, false) == r
  {
  }
}
