/**
  The stream scheduler as the node's fields and methods, each proved to do what StreamModel says.  Starting a
  phase of a stream is marking it initialized; its collective algorithm is not part of this model.
*/
module StreamScheduler {
  import opened Radix
  import opened StreamModel
  import opened StreamSafety

  // The place after the initialized streams and those of no lower priority.
  method InsertStream(list: seq<Stream>, y: Stream) returns (longer: seq<Stream>)
    ensures longer == Insert(list, y)
  {
    var it := 0;
    while it < |list|
      invariant 0 <= it <= |list| && Spot(list, y, it) == Spot(list, y, 0)
    {
      if list[it].initialized {
        it := it + 1;
      } else if list[it].priority >= y.priority {
        it := it + 1;
      } else {
        break;
      }
    }
    longer := list[..it] + [y] + list[it..];
  }

  class Sys {
    const cfg: Cfg
    var readyList: seq<Stream>
    var activeStreams: seq<seq<Stream>>
    var runningStreams: seq<nat>
    var firstPhaseStreams: int
    var totalRunningStreams: int
    var finished: seq<Stream>
    // History: the number of list insertions so far.
    var clock: nat

    ghost function View(): St
      reads this
    {
      St(readyList, activeStreams, runningStreams, firstPhaseStreams, totalRunningStreams, clock, finished)
    }

    ghost predicate Valid()
      reads this
    {
      Fits(cfg, View()) && ReadyStreams(cfg, View())
    }

    constructor (cfg: Cfg)
      ensures this.cfg == cfg && View() == Init(cfg) && Valid()
    {
      this.cfg := cfg;
      readyList, activeStreams, runningStreams := [], seq(cfg.queues, _ => []), seq(cfg.queues, _ => 0);
      firstPhaseStreams, totalRunningStreams, finished, clock := 0, 0, [], 0;
    }

    // The loop that both notifications end with.
    method StartStreams(vnet: nat)
      requires Valid() && vnet < cfg.queues
      modifies this`activeStreams, this`runningStreams
      ensures Valid() && View() == Fill(cfg, old(View()), vnet)
    {
      ghost var start := View();
      while runningStreams[vnet] < |activeStreams[vnet]| && runningStreams[vnet] < cfg.queueThreshold
        invariant Valid() && Fill(cfg, View(), vnet) == Fill(cfg, start, vnet)
        invariant View() == start.(active := activeStreams, running := runningStreams)
        decreases cfg.queueThreshold - runningStreams[vnet]
      {
        ghost var before := View();
        var pointer := runningStreams[vnet];
        var stream := activeStreams[vnet][pointer].(initialized := true);
        activeStreams := activeStreams[vnet := activeStreams[vnet][pointer := stream]];
        runningStreams := runningStreams[vnet := runningStreams[vnet] + 1];
        assert View() == InitNext(cfg, before, vnet);
      }
    }

    method ScheduleReady()
      requires Valid()
      modifies this
      ensures Valid() && View() == Admit(cfg, old(View()))
      decreases 2
    {
      if firstPhaseStreams < cfg.readyListThreshold && totalRunningStreams < cfg.maxRunningStreams {
        var max := cfg.readyListThreshold - firstPhaseStreams;
        if max > cfg.maxRunningStreams - totalRunningStreams {
          max := cfg.maxRunningStreams - totalRunningStreams;
        }
        Schedule(max);
      }
    }

    method Schedule(num: nat)
      requires Valid()
      modifies this
      ensures Valid() && View() == StreamModel.Schedule(cfg, old(View()), num)
      decreases 1
    {
      var counter := if num < |readyList| then num else |readyList|;
      ghost var left := num;
      while counter > 0
        invariant Valid() && 0 <= counter <= left && counter == Min(left, |readyList|)
        invariant StreamModel.Schedule(cfg, View(), left) == StreamModel.Schedule(cfg, old(View()), num)
        decreases counter
      {
        hide ScheduleOne, StreamModel.Schedule, ReadyStreams, Fits;
        ScheduleStep(cfg, View(), left);
        ScheduleFront();
        counter, left := counter - 1, left - 1;
      }
      ScheduleEnd(cfg, View(), left);
    }

    method ScheduleFront()
      requires Valid() && readyList != []
      modifies this
      ensures Valid() && View() == ScheduleOne(cfg, old(View())) && readyList == old(readyList)[1..]
      decreases 1, 0
    {
      hide Fill, Enter, PlanOk;
      ScheduleStep(cfg, View(), 1);
      ProceedToNextVnetBaseline(readyList[0], -1, 0, []);
      readyList := readyList[1..];
      firstPhaseStreams := firstPhaseStreams + 1;
      totalRunningStreams := totalRunningStreams + 1;
    }

    method InsertIntoReadyList(x: Stream)
      requires Valid() && NewStream(cfg, x)
      modifies this
      ensures Valid() && View() == AddReady(cfg, old(View()), x)
      decreases 3
    {
      hide Admit;
      readyList := InsertStream(readyList, x.(arrival := clock));
      clock := clock + 1;
      assert ReadyStreams(cfg, View());
      ScheduleReady();
    }

    method NotifyStreamRemoved(vnet: nat)
      requires Valid() && vnet < cfg.queues && runningStreams[vnet] > 0
      modifies this
      ensures var s := old(View()).(running := old(runningStreams)[vnet := old(runningStreams)[vnet] - 1]);
              Valid() && Fits(cfg, s) && ReadyStreams(cfg, s) && View() == Fill(cfg, Admit(cfg, s), vnet)
      decreases 3
    {
      hide Admit, Fill;
      runningStreams := runningStreams[vnet := runningStreams[vnet] - 1];
      ScheduleReady();
      StartStreams(vnet);
    }

    /**
      The stream x goes on to its next phase: a new one, which is in no queue (previousVnet is -1), or the running
      one at `index` of the list of previousVnet.  When its last phase is over, the notified layer makes the streams
      `made`.
    */
    method ProceedToNextVnetBaseline(x: Stream, previousVnet: int, index: nat, made: seq<Stream>)
      requires Valid() && PlanOk(cfg, x.plan)
      requires previousVnet < 0 ==> x.steps == 0
      requires previousVnet >= 0 ==>
        && Runs(cfg, View(), previousVnet, index) && x == activeStreams[previousVnet][index]
        && 1 <= x.steps <= |x.plan| && Inv(cfg, View(), {}, 0) && forall y <- made :: NewStream(cfg, y)
      modifies this
      ensures Valid()
      ensures previousVnet < 0 ==> View() == Fill(cfg, Enter(cfg, old(View()), x), x.plan[0])
      ensures previousVnet >= 0 && x.steps == |x.plan| ==>
                View() == Complete(cfg, old(View()), previousVnet, index, made)
      ensures previousVnet >= 0 && x.steps < |x.plan| ==> View() == Move(cfg, old(View()), previousVnet, index)
      decreases if previousVnet >= 0 then 5 else 0
    {
      hide Admit, Fill, Insert, Inv, AddAll;
      ghost var start := View();
      if x.steps == 1 {
        firstPhaseStreams := firstPhaseStreams - 1;
      }
      if x.steps == |x.plan| {
        finished := finished + [x];
        StaysRunning(cfg, start, View(), previousVnet, index, made);
        NotifyLayer(made);
      }
      ghost var told := View();
      if previousVnet >= 0 {
        var target := activeStreams[previousVnet];
        activeStreams := activeStreams[previousVnet := target[..index] + target[index + 1..]];
      }
      if x.steps == |x.plan| {
        totalRunningStreams := totalRunningStreams - 1;
        NotifyStreamRemoved(previousVnet);
        return;
      }
      var y := x.(steps := x.steps + 1, initialized := false, arrival := clock);
      clock := clock + 1;
      var currentQueueId := x.plan[x.steps];
      var longer := InsertStream(activeStreams[currentQueueId], y);
      activeStreams := activeStreams[currentQueueId := longer];
      if previousVnet >= 0 {
        assert View().(running := runningStreams[previousVnet := runningStreams[previousVnet] - 1]) ==
               Enter(cfg, Leave(cfg, told, previousVnet, index), x);
        NotifyStreamRemoved(previousVnet);
      } else {
        assert View() == Enter(cfg, start, x);
      }
      StartStreams(currentQueueId);
    }

    // The layer that waits for the data set is told, and makes new streams.
    method NotifyLayer(made: seq<Stream>)
      requires Valid() && forall y <- made :: NewStream(cfg, y)
      modifies this
      ensures Valid() && View() == AddAll(cfg, old(View()), made)
      decreases 4
    {
      ghost var start := View();
      for i := 0 to |made|
        invariant Valid() && View() == AddAll(cfg, start, made[..i])
      {
        hide AddReady, NewStream;
        assert made[..i + 1][..i] == made[..i];
        InsertIntoReadyList(made[i]);
      }
      assert made[..|made|] == made;
    }
  }

  lemma ScheduleStep(c: Cfg, s: St, n: nat)
    requires Fits(c, s) && ReadyStreams(c, s) && s.ready != [] && n > 0
    ensures StreamModel.Schedule(c, s, n) == StreamModel.Schedule(c, ScheduleOne(c, s), n - 1)
    ensures PlanOk(c, s.ready[0].plan) && s.ready[0].steps == 0
    ensures var t := Fill(c, Enter(c, s, s.ready[0]), s.ready[0].plan[0]);
            t.ready == s.ready && t.first == s.first && t.total == s.total
  {
    hide Fill;
  }

  lemma ScheduleEnd(c: Cfg, s: St, n: nat)
    requires Fits(c, s) && ReadyStreams(c, s) && (s.ready == [] || n == 0)
    ensures StreamModel.Schedule(c, s, n) == s
  {
  }

  // The streams made by the layer leave a running stream where it is.
  lemma StaysRunning(c: Cfg, s: St, u: St, q: nat, i: nat, made: seq<Stream>)
    requires Inv(c, s, {}, 0) && Runs(c, s, q, i) && forall y <- made :: NewStream(c, y)
    requires u == LeftFirst(s, s.active[q][i]).(finished := s.finished + [s.active[q][i]])
    ensures Fits(c, u) && ReadyStreams(c, u)
    ensures var t := AddAll(c, u, made); Runs(c, t, q, i) && t.active[q][i] == s.active[q][i]
  {
    hide QueueAt, AddAll, All;
    RunsIsRunning(c, s, q, i);
    CountersOnly(c, s, u, {});
    var t := AddAll(c, u, made);
    AddAllKeeps(c, u, made, {}, if s.active[q][i].steps == 1 then 1 else 0);
    assert KeepsPrefix(u, t, q);
    assert t.active[q][i] == t.active[q][..u.running[q]][i];
  }
}
