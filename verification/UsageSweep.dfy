/**
  Usage intervals and their sweep: the report over periods of a fixed length, made by one pass over the recorded
  intervals, is the level at every tick summed up period by period.
*/
module UsageSweep {
  import opened Radix

  datatype Usage = Usage(level: nat, start: nat, end: nat)

  // A period, by the tick it ends at, and its percentage of the greatest possible activity.
  datatype Entry = Entry(periodEnd: nat, percent: real)

  function Repeat(level: nat, n: nat): (r: seq<nat>)
    ensures |r| == n && forall i :: 0 <= i < n ==> r[i] == level
  {
    seq(n, _ => level)
  }

  // The intervals follow each other from 0 to `last`.
  ghost predicate Contiguous(usage: seq<Usage>, last: nat)
    decreases |usage|
  {
    if usage == [] then last == 0
    else
      var u := usage[|usage| - 1];
      u.end == last && u.start <= u.end && Contiguous(usage[..|usage| - 1], u.start)
  }

  // The level at every tick.
  function Expand(usage: seq<Usage>): seq<nat>
    decreases |usage|
  {
    if usage == [] then []
    else
      var u := usage[|usage| - 1];
      Expand(usage[..|usage| - 1]) + (if u.start <= u.end then Repeat(u.level, u.end - u.start) else [])
  }

  lemma {:induction false} ExpandLength(usage: seq<Usage>, last: nat)
    requires Contiguous(usage, last)
    ensures |Expand(usage)| == last
    decreases |usage|
  {
    if usage != [] { ExpandLength(usage[..|usage| - 1], usage[|usage| - 1].start); }
  }

  lemma AppendInterval(usage: seq<Usage>, last: nat, level: nat, tick: nat)
    requires Contiguous(usage, last) && last <= tick
    ensures Contiguous(usage + [Usage(level, last, tick)], tick)
    ensures Expand(usage + [Usage(level, last, tick)]) == Expand(usage) + Repeat(level, tick - last)
  {
    var more := usage + [Usage(level, last, tick)];
    assert more[..|usage|] == usage;
  }

  // Interval p has its place in the whole, and its level at all its ticks.
  lemma {:induction false} IntervalAt(usage: seq<Usage>, last: nat, p: nat)
    requires Contiguous(usage, last) && p < |usage|
    ensures usage[p].start <= usage[p].end <= last == |Expand(usage)|
    ensures forall t :: usage[p].start <= t < usage[p].end ==> Expand(usage)[t] == usage[p].level
    ensures p + 1 < |usage| ==> usage[p + 1].start == usage[p].end
    ensures (p == 0 ==> usage[p].start == 0) && (p == |usage| - 1 ==> usage[p].end == last)
    decreases |usage|
  {
    ExpandLength(usage, last);
    var n := |usage| - 1;
    ExpandLength(usage[..n], usage[n].start);
    if p < n {
      IntervalAt(usage[..n], usage[n].start, p);
      if p + 1 < n { assert usage[..n][p + 1] == usage[p + 1]; }
    }
  }

  lemma {:induction false} ExpandWithin(usage: seq<Usage>, levels: nat)
    requires forall i :: 0 <= i < |usage| ==> usage[i].level < levels
    ensures forall t :: 0 <= t < |Expand(usage)| ==> Expand(usage)[t] < levels
    decreases |usage|
  {
    if usage != [] { ExpandWithin(usage[..|usage| - 1], levels); }
  }

  // ---------- sums over ticks ----------

  function Sum(h: seq<nat>, a: nat, b: nat): nat
    requires a <= b <= |h|
    decreases b
  {
    if a == b then 0 else Sum(h, a, b - 1) + h[b - 1]
  }

  lemma EmptySum(h: seq<nat>, a: nat)
    requires a <= |h|
    ensures Sum(h, a, a) == 0
  {
  }

  lemma {:induction false} SumSplit(h: seq<nat>, a: nat, m: nat, b: nat)
    requires a <= m <= b <= |h|
    ensures Sum(h, a, b) == Sum(h, a, m) + Sum(h, m, b)
    decreases b
  {
    if m < b { SumSplit(h, a, m, b - 1); }
  }

  lemma {:induction false} SumConstant(h: seq<nat>, a: nat, b: nat, level: nat)
    requires a <= b <= |h| && forall t :: a <= t < b ==> h[t] == level
    ensures Sum(h, a, b) == Mul(b - a, level)
    decreases b
  {
    hide Mul;
    MulPositive(level, 1);
    if a < b {
      SumConstant(h, a, b - 1, level);
      MulNext(level, b - a - 1);
    }
  }

  lemma {:induction false} SumBound(h: seq<nat>, a: nat, b: nat, top: nat)
    requires a <= b <= |h| && forall t :: a <= t < b ==> h[t] <= top
    ensures Sum(h, a, b) <= Mul(b - a, top)
    decreases b
  {
    hide Mul;
    if a < b {
      SumBound(h, a, b - 1, top);
      MulNext(top, b - a - 1);
    }
  }

  // The pointwise report: the first k periods.
  function Report(h: seq<nat>, cycles: nat, total: nat, k: nat): seq<Entry>
    requires total > 0 && Mul(k, cycles) <= |h|
    decreases k
  {
    if k == 0 then []
    else
      MulNext(cycles, k - 1);
      Report(h, cycles, total, k - 1) +
      [Entry(Mul(k, cycles), Percent(Sum(h, Mul(k - 1, cycles), Mul(k, cycles)), total))]
  }

  function Percent(activity: nat, total: nat): real
    requires total > 0
  {
    activity as real / total as real * 100.0
  }

  lemma PercentBound(activity: nat, total: nat)
    requires total > 0
    ensures 0.0 <= Percent(activity, total) && (activity <= total ==> Percent(activity, total) <= 100.0)
  {
    var a, t := activity as real, total as real;
    assert a / t >= 0.0;
    if a <= t { assert a / t <= 1.0; }
  }

  // With levels below `levels` no entry exceeds 100 percent.
  lemma {:induction false} ReportBound(h: seq<nat>, levels: nat, cycles: nat, k: nat, j: nat)
    requires levels > 1 && cycles > 0 && Mul(k, cycles) <= |h| && forall t :: 0 <= t < |h| ==> h[t] < levels
    requires j < k
    ensures Mul(levels - 1, cycles) > 0
    ensures var r := Report(h, cycles, Mul(levels - 1, cycles), k);
            |r| == k && r[j].periodEnd == Mul(j + 1, cycles) && 0.0 <= r[j].percent <= 100.0
    decreases k
  {
    MulPositive(levels - 1, cycles);
    hide Mul, Percent, Sum;
    MulNext(cycles, k - 1);
    ReportLength(h, cycles, Mul(levels - 1, cycles), k);
    if j < k - 1 {
      ReportBound(h, levels, cycles, k - 1, j);
    } else {
      var a, b := Mul(k - 1, cycles), Mul(k, cycles);
      SumBound(h, a, b, levels - 1);
      MulCommutes(cycles, levels - 1);
      PercentBound(Sum(h, a, b), Mul(levels - 1, cycles));
    }
    ReportLength(h, cycles, Mul(levels - 1, cycles), k - 1);
  }

  lemma ReportWithin(usage: seq<Usage>, levels: nat, cycles: nat, k: nat)
    requires levels > 1 && cycles > 0 && Mul(k, cycles) <= |Expand(usage)|
    requires forall i :: 0 <= i < |usage| ==> usage[i].level < levels
    ensures Mul(levels - 1, cycles) > 0
    ensures var r := Report(Expand(usage), cycles, Mul(levels - 1, cycles), k);
            forall j :: 0 <= j < |r| ==> 0.0 <= r[j].percent <= 100.0
  {
    hide Report, Expand;
    MulPositive(levels - 1, cycles);
    hide Mul;
    var h := Expand(usage);
    ExpandWithin(usage, levels);
    ReportLength(h, cycles, Mul(levels - 1, cycles), k);
    var r := Report(h, cycles, Mul(levels - 1, cycles), k);
    forall j | 0 <= j < |r|
      ensures 0.0 <= r[j].percent <= 100.0
    {
      ReportBound(h, levels, cycles, k, j);
    }
  }

  lemma {:induction false} ReportLength(h: seq<nat>, cycles: nat, total: nat, k: nat)
    requires total > 0 && Mul(k, cycles) <= |h|
    ensures |Report(h, cycles, total, k)| == k
    decreases k
  {
    hide Mul, Percent, Sum;
    if k > 0 {
      MulNext(cycles, k - 1);
      ReportLength(h, cycles, total, k - 1);
    }
  }

  lemma LevelsAppend(usage: seq<Usage>, u: Usage, levels: nat)
    ensures (forall i :: 0 <= i < |usage + [u]| ==> (usage + [u])[i].level < levels) <==>
            (forall i :: 0 <= i < |usage| ==> usage[i].level < levels) && u.level < levels
  {
    assert (usage + [u])[|usage|] == u;
    forall i | 0 <= i < |usage|
      ensures (usage + [u])[i] == usage[i]
    {
    }
  }

  // ---------- the tracker ----------

  class UsageTracker {
    const levels: nat
    var currentLevel: nat
    var lastTick: nat
    var usage: seq<Usage>

    ghost predicate Valid()
      reads this
    {
      Contiguous(usage, lastTick)
    }

    // No level so far has passed the top.
    ghost predicate Bounded()
      reads this
    {
      currentLevel < levels && forall i :: 0 <= i < |usage| ==> usage[i].level < levels
    }

    // The level at every tick up to now.
    ghost function History(now: nat): (h: seq<nat>)
      requires Valid() && lastTick <= now
      reads this
      ensures |h| == now
    {
      ExpandLength(usage, lastTick);
      Expand(usage) + Repeat(currentLevel, now - lastTick)
    }

    constructor (levels: nat)
      ensures this.levels == levels && Valid() && (Bounded() <==> levels > 0)
      ensures currentLevel == 0 && lastTick == 0 && usage == []
    {
      this.levels := levels;
      currentLevel, lastTick, usage := 0, 0, [];
    }

    // The level from this tick on; what was recorded before stays.
    method ChangeLevel(level: nat, tick: nat)
      requires Valid() && lastTick <= tick
      modifies this
      ensures Valid() && lastTick == tick && currentLevel == level && History(tick) == old(History(tick))
      ensures usage == old(usage) + [Usage(old(currentLevel), old(lastTick), tick)]
      ensures Bounded() <==> old(Bounded()) && level < levels
    {
      AppendInterval(usage, lastTick, currentLevel, tick);
      LevelsAppend(usage, Usage(currentLevel, lastTick, tick), levels);
      usage := usage + [Usage(currentLevel, lastTick, tick)];
      currentLevel := level;
      lastTick := tick;
    }

    method IncreaseUsage(tick: nat)
      requires Valid() && lastTick <= tick
      modifies this
      ensures Valid() && lastTick <= tick && History(tick) == old(History(tick)) && (Bounded() <==> old(Bounded()))
      ensures currentLevel == if old(currentLevel) < levels - 1 then old(currentLevel) + 1 else old(currentLevel)
      ensures lastTick == if old(currentLevel) < levels - 1 then tick else old(lastTick)
    {
      if currentLevel < levels - 1 {
        ChangeLevel(currentLevel + 1, tick);
      }
    }

    method DecreaseUsage(tick: nat)
      requires Valid() && lastTick <= tick
      modifies this
      ensures Valid() && lastTick <= tick && History(tick) == old(History(tick)) && (Bounded() <==> old(Bounded()))
      ensures currentLevel == if old(currentLevel) > 0 then old(currentLevel) - 1 else 0
      ensures lastTick == if old(currentLevel) > 0 then tick else old(lastTick)
    {
      if currentLevel > 0 {
        ChangeLevel(currentLevel - 1, tick);
      }
    }

    // Any level is taken, also one past the top.
    method SetUsage(level: nat, tick: nat)
      requires Valid() && lastTick <= tick
      modifies this
      ensures Valid() && lastTick <= tick && History(tick) == old(History(tick)) && currentLevel == level
      ensures lastTick == if old(currentLevel) != level then tick else old(lastTick)
      ensures Bounded() <==> old(Bounded()) && level < levels
    {
      if currentLevel != level {
        ChangeLevel(level, tick);
      }
    }

    // The report of everything up to now.  It takes the level down and up again to record the present interval,
    // which leaves an idle tracker of more than one level at level 1, and one past the top a level lower.
    method ReportPercentage(tick: nat, cycles: nat) returns (result: seq<Entry>)
      requires Valid() && lastTick <= tick && levels > 1 && cycles > 0
      modifies this
      ensures Valid() && lastTick == tick && History(tick) == old(History(tick)) && (Bounded() <==> old(Bounded()))
      ensures currentLevel ==
              if old(currentLevel) == 0 then 1
              else if old(currentLevel) < levels then old(currentLevel)
              else old(currentLevel) - 1
      ensures Mul(levels - 1, cycles) > 0 && Mul(Div(tick, cycles), cycles) <= tick
      ensures result == Report(old(History(tick)), cycles, Mul(levels - 1, cycles), Div(tick, cycles))
      ensures old(Bounded()) ==> forall j :: 0 <= j < |result| ==> 0.0 <= result[j].percent <= 100.0
    {
      hide Report, Div, Mul, Percent;
      DecreaseUsage(tick);
      IncreaseUsage(tick);
      assert History(tick) == Expand(usage);
      result := Sweep(cycles);
      if Bounded() { ReportWithin(usage, levels, cycles, Div(tick, cycles)); }
    }

    method Sweep(cycles: nat) returns (result: seq<Entry>)
      requires Valid() && levels > 1 && cycles > 0
      ensures Mul(levels - 1, cycles) > 0 && Mul(Div(lastTick, cycles), cycles) <= lastTick == |Expand(usage)|
      ensures result == Report(Expand(usage), cycles, Mul(levels - 1, cycles), Div(lastTick, cycles))
    {
      hide Mul, Div, Expand, Contiguous, Percent, Sum;
      MulPositive(levels - 1, cycles);
      var totalActivityPossible := Mul(levels - 1, cycles);
      ghost var h := Expand(usage);
      ExpandLength(usage, lastTick);
      var pointer, currentActivity := 0, 0;
      var periodStart: nat, periodEnd: nat := 0, cycles;
      result := [];
      ghost var k: nat := 0;
      StartOfSweep(usage, lastTick, h, cycles);
      while pointer < |usage|
        invariant 0 <= pointer <= |usage| && periodStart == Mul(k, cycles) <= lastTick && periodEnd == periodStart + cycles
        invariant result == Report(h, cycles, totalActivityPossible, k)
        invariant pointer < |usage| ==> periodStart <= usage[pointer].end && usage[pointer].start <= periodEnd
        invariant Done(usage, lastTick, pointer, periodStart) <= periodEnd
        invariant Done(usage, lastTick, pointer, periodStart) <= lastTick
        invariant currentActivity == Sum(h, periodStart, Done(usage, lastTick, pointer, periodStart))
        invariant pointer == |usage| ==> lastTick < periodEnd
        decreases |usage| - pointer, lastTick - periodStart
      {
        var current := usage[pointer];
        StepOfSweep(usage, lastTick, pointer, periodStart, periodEnd);
        var begin := if periodStart > current.start then periodStart else current.start;
        var end := if periodEnd < current.end then periodEnd else current.end;
        assert begin <= end;
        currentActivity := currentActivity + Mul(end - begin, current.level);
        if current.end >= periodEnd {
          MulNext(cycles, k);
          result := result + [Entry(periodEnd, Percent(currentActivity, totalActivityPossible))];
          k := k + 1;
          periodStart, periodEnd, currentActivity := periodEnd, periodEnd + cycles, 0;
          EmptySum(h, periodStart);
        } else {
          pointer := pointer + 1;
        }
      }
      PeriodsAre(lastTick, cycles, k);
    }
  }

  // Up to where the activity of the period is counted.
  function Done(usage: seq<Usage>, last: nat, p: nat, periodStart: nat): nat {
    var start := if p < |usage| then usage[p].start else last;
    if periodStart > start then periodStart else start
  }

  // What interval p adds to the activity of the period, and where it leads.
  lemma StepOfSweep(usage: seq<Usage>, last: nat, p: nat, periodStart: nat, periodEnd: nat)
    requires Contiguous(usage, last) && p < |usage| && periodStart <= periodEnd
    requires periodStart <= usage[p].end && usage[p].start <= periodEnd
    ensures var h := Expand(usage); var u := usage[p];
            var begin := if periodStart > u.start then periodStart else u.start;
            var end := if periodEnd < u.end then periodEnd else u.end;
            && periodStart <= begin <= end <= last == |h| && u.start <= u.end
            && Sum(h, periodStart, end) == Sum(h, periodStart, begin) + Mul(end - begin, u.level)
    ensures if p + 1 < |usage| then usage[p + 1].start == usage[p].end <= usage[p + 1].end else usage[p].end == last
  {
    hide Mul, Expand, Sum, Contiguous;
    IntervalAt(usage, last, p);
    if p + 1 < |usage| { IntervalAt(usage, last, p + 1); }
    var h, u := Expand(usage), usage[p];
    var begin := if periodStart > u.start then periodStart else u.start;
    var end := if periodEnd < u.end then periodEnd else u.end;
    SumConstant(h, begin, end, u.level);
    SumSplit(h, periodStart, begin, end);
  }

  lemma StartOfSweep(usage: seq<Usage>, last: nat, h: seq<nat>, cycles: nat)
    requires Contiguous(usage, last) && h == Expand(usage)
    ensures Mul(0, cycles) == 0 && Sum(h, 0, 0) == 0
    ensures if usage == [] then last == 0 else usage[0].start == 0
  {
    if usage != [] { IntervalAt(usage, last, 0); }
  }

  lemma PeriodsAre(last: nat, cycles: nat, k: nat)
    requires cycles > 0 && Mul(k, cycles) <= last < Mul(k, cycles) + cycles
    ensures k == Div(last, cycles)
  {
    QuotientIs(last, cycles, k);
  }
}
