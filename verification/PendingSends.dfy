/**
  Sends of a node, kept apart by destination and tag: one send of a pair is in the network at a time, the others
  wait in `pendingSends` until the network reports the previous one as sent.
*/
module PendingSends {

  datatype Key = Key(dst: nat, tag: nat)

  datatype Send = Send(key: Key, id: nat)

  /**
    The two maps of the node, and as history the serialized sends handed to it, those that entered the network,
    and those the network has reported as sent.
  */
  datatype St = St(isTherePendingSends: map<Key, bool>, pendingSends: map<Key, seq<Send>>,
                   submitted: seq<Send>, entered: seq<Send>, sent: multiset<Key>)

  const Init := St(map[], map[], [], [], multiset{})

  datatype Step = Submit(send: Send) | PacketSent(key: Key)

  function Flag(s: St, k: Key): bool { k in s.isTherePendingSends && s.isTherePendingSends[k] }

  function Pending(s: St, k: Key): seq<Send> { if k in s.pendingSends then s.pendingSends[k] else [] }

  function Submitted(s: St, send: Send): St {
    var k := send.key;
    var t := s.(submitted := s.submitted + [send]);
    if Flag(s, k) then t.(pendingSends := s.pendingSends[k := Pending(s, k) + [send]])
    else t.(isTherePendingSends := s.isTherePendingSends[k := true], entered := s.entered + [send])
  }

  // The next one of the pair enters the network, or the flag comes down.
  function Reported(s: St, k: Key): St {
    var t := s.(sent := s.sent + multiset{k});
    if Pending(s, k) == [] then t.(isTherePendingSends := s.isTherePendingSends[k := false])
    else
      var rest := s.pendingSends[k][1..];
      t.(pendingSends := if rest == [] then s.pendingSends - {k} else s.pendingSends[k := rest],
         entered := s.entered + [s.pendingSends[k][0]])
  }

  // The sends of one pair, in order.
  function For(h: seq<Send>, k: Key): seq<Send> {
    if h == [] then []
    else For(h[..|h| - 1], k) + (if h[|h| - 1].key == k then [h[|h| - 1]] else [])
  }

  function InFlight(s: St, k: Key): int { |For(s.entered, k)| - s.sent[k] }

  // The network reports a send as sent once, after it entered.
  predicate Enabled(s: St, step: Step) {
    step.PacketSent? ==> InFlight(s, step.key) > 0
  }

  function Do(s: St, step: Step): St {
    match step
    case Submit(send) => Submitted(s, send)
    case PacketSent(k) => Reported(s, k)
  }

  function After(steps: seq<Step>): St
    decreases |steps|
  {
    if steps == [] then Init else Do(After(steps[..|steps| - 1]), steps[|steps| - 1])
  }

  predicate Runs(steps: seq<Step>) {
    forall i :: 0 <= i < |steps| ==> Enabled(After(steps[..i]), steps[i])
  }

  // ---------- the invariant ----------

  predicate Serialized(s: St, k: Key) {
    && For(s.submitted, k) == For(s.entered, k) + Pending(s, k)
    && InFlight(s, k) == (if Flag(s, k) then 1 else 0)
    && (k in s.pendingSends ==> s.pendingSends[k] != [] && Flag(s, k))
  }

  ghost predicate Inv(s: St) {
    forall k: Key :: Serialized(s, k)
  }

  lemma ForAppend(h: seq<Send>, x: Send, k: Key)
    ensures For(h + [x], k) == For(h, k) + (if x.key == k then [x] else [])
  {
    assert (h + [x])[..|h|] == h;
  }

  lemma {:induction false} ForKey(h: seq<Send>, k: Key)
    ensures forall i :: 0 <= i < |For(h, k)| ==> For(h, k)[i].key == k
  {
    if h != [] { ForKey(h[..|h| - 1], k); }
  }

  lemma SubmittedKeeps(s: St, send: Send, k: Key)
    requires Serialized(s, k)
    ensures Serialized(Submitted(s, send), k)
  {
    hide For;
    ForAppend(s.submitted, send, k);
    ForAppend(s.entered, send, k);
    if send.key == k {
      var a := For(s.entered, k);
      assert a + Pending(s, k) + [send] == a + (Pending(s, k) + [send]);
    }
  }

  lemma ReportedKeeps(s: St, done: Key, k: Key)
    requires Serialized(s, k) && Serialized(s, done) && InFlight(s, done) > 0
    ensures Serialized(Reported(s, done), k)
  {
    if Pending(s, done) != [] {
      var next := s.pendingSends[done][0];
      ForKey(s.submitted, done);
      assert next == For(s.submitted, done)[|For(s.entered, done)|];
      ForAppend(s.entered, next, k);
    }
  }

  lemma {:induction false} RunKeeps(steps: seq<Step>)
    requires Runs(steps)
    ensures Inv(After(steps))
    decreases |steps|
  {
    if steps != [] {
      var n := |steps| - 1;
      var s := After(steps[..n]);
      assert forall i :: 0 <= i < n ==> steps[..n][..i] == steps[..i];
      RunKeeps(steps[..n]);
      forall k: Key
        ensures Serialized(After(steps), k)
      {
        assert Serialized(s, k);
        match steps[n]
        case Submit(send) => SubmittedKeeps(s, send, k);
        case PacketSent(done) => assert Serialized(s, done); ReportedKeeps(s, done, k);
      }
    }
  }

  // ---------- results ----------

  // In every run, for every pair: the sends enter the network in the order they were submitted, at most one is in
  // it, the flag is up exactly while one is, and nothing waits without one.
  lemma SentInOrder(steps: seq<Step>, k: Key)
    requires Runs(steps)
    ensures var s := After(steps);
            && For(s.submitted, k) == For(s.entered, k) + Pending(s, k)
            && 0 <= InFlight(s, k) <= 1
            && (Flag(s, k) <==> InFlight(s, k) == 1)
            && (Pending(s, k) != [] ==> Flag(s, k))
  {
    RunKeeps(steps);
    assert Serialized(After(steps), k);
  }

  // The finish test looks at the map only: it is empty exactly when every submitted send has entered the network.
  lemma FinishTest(steps: seq<Step>)
    requires Runs(steps)
    ensures var s := After(steps);
            s.pendingSends == map[] <==> forall k: Key :: For(s.submitted, k) == For(s.entered, k)
  {
    RunKeeps(steps);
    var s := After(steps);
    forall k: Key
      ensures k in s.pendingSends <==> For(s.submitted, k) != For(s.entered, k)
    {
      assert Serialized(s, k);
    }
    if s.pendingSends != map[] {
      var k :| k in s.pendingSends;
      assert For(s.submitted, k) != For(s.entered, k);
    }
  }

  // When the network has reported all that entered it, everything submitted has been sent.
  lemma AllSent(steps: seq<Step>)
    requires Runs(steps) && forall k: Key :: InFlight(After(steps), k) == 0
    ensures var s := After(steps);
            && s.pendingSends == map[]
            && forall k: Key :: For(s.submitted, k) == For(s.entered, k) && |For(s.submitted, k)| == s.sent[k]
  {
    RunKeeps(steps);
    var s := After(steps);
    forall k: Key
      ensures k !in s.pendingSends && For(s.submitted, k) == For(s.entered, k) && |For(s.submitted, k)| == s.sent[k]
    {
      assert Serialized(s, k);
      assert InFlight(s, k) == 0;
    }
  }

  // ---------- the node ----------

  class Sys {
    var isTherePendingSends: map<Key, bool>
    var pendingSends: map<Key, seq<Send>>
    // What the network interface was given: serialized sends, sends with a handler of their own; and the sends put
    // off to a later tick.
    var entered: seq<Send>
    var direct: seq<Send>
    var delayed: seq<(nat, Send)>
    ghost var submitted: seq<Send>
    ghost var sent: multiset<Key>

    ghost function View(): St
      reads this
    {
      St(isTherePendingSends, pendingSends, submitted, entered, sent)
    }

    constructor ()
      ensures View() == Init && direct == [] && delayed == []
    {
      isTherePendingSends, pendingSends, entered, direct, delayed := map[], map[], [], [], [];
      submitted, sent := [], multiset{};
    }

    // Only a send without delay and without a handler is serialized.
    method SimSend(delay: nat, hasHandler: bool, send: Send)
      modifies this
      ensures View() == if delay == 0 && !hasHandler then Submitted(old(View()), send) else old(View())
      ensures direct == if delay == 0 && hasHandler then old(direct) + [send] else old(direct)
      ensures delayed == if delay != 0 then old(delayed) + [(delay, send)] else old(delayed)
    {
      if delay == 0 && !hasHandler {
        submitted := submitted + [send];
        var k := send.key;
        if k !in isTherePendingSends || !isTherePendingSends[k] {
          isTherePendingSends := isTherePendingSends[k := true];
        } else {
          if k !in pendingSends {
            pendingSends := pendingSends[k := []];
          }
          pendingSends := pendingSends[k := pendingSends[k] + [send]];
          return;
        }
        entered := entered + [send];
      } else if delay == 0 {
        direct := direct + [send];
      } else {
        delayed := delayed + [(delay, send)];
      }
    }

    method HandlePacketSent(k: Key)
      modifies this
      ensures View() == Reported(old(View()), k) && direct == old(direct) && delayed == old(delayed)
    {
      sent := sent + multiset{k};
      if k !in pendingSends || |pendingSends[k]| == 0 {
        isTherePendingSends := isTherePendingSends[k := false];
      } else {
        var simSendCaller := pendingSends[k][0];
        pendingSends := pendingSends[k := pendingSends[k][1..]];
        if |pendingSends[k]| == 0 {
          pendingSends := pendingSends - {k};
        }
        entered := entered + [simSendCaller];
      }
    }
  }
}
