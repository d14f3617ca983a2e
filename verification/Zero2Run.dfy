/**
  Runs of the ZeRO-1/2 generators: backward passes fill the bucket from the last parameter to the first, a
  parameter that does not fit flushes it, and so does every step.
*/
module Zero2Run {
  import opened Radix
  import opened Zero2Model
  import opened Zero2Safety

  // `merges` is stage 2 with contiguous gradients; otherwise a flush is one all-reduce.
  datatype Cfg = Cfg(b: Buffer, maxBucket: nat, shardLimit: nat, merges: bool)
  {
    predicate Valid() { b.Valid() && shardLimit > 0 }
  }

  /**
    The generator.  `reduced` and `carried` are history: the merged ranges handed to a reduce so far, and how many
    backward passes started on top of a bucket that was not empty.
  */
  datatype St = St(bucket: seq<nat>, num: nat, items: seq<Item>, warned: bool, reduced: seq<Range>, carried: nat)

  const Init := St([], 0, [], false, [], 0)

  datatype Phase = Backward | Step

  function Reduces(c: seq<Range>): seq<Item> {
    if c == [] then []
    else Reduces(c[..|c| - 1]) + [Reduce(c[|c| - 1].rank, (c[|c| - 1].hi - c[|c| - 1].lo) * ELEM_SIZE)]
  }

  function Flush(c: Cfg, s: St): St
    requires Within(c.b, s.bucket)
  {
    if c.merges then
      var flat := Flatten(c.b, s.bucket);
      St([], 0, s.items + Reduces(Merge(flat)), s.warned || Warns(flat), s.reduced + Merge(flat), s.carried)
    else St([], 0, s.items + [AllReduce(s.num * ELEM_SIZE)], s.warned, s.reduced, s.carried)
  }

  function Add(c: Cfg, s: St, k: nat): (t: St)
    requires Within(c.b, s.bucket) && k < c.b.N()
    ensures Within(c.b, t.bucket)
  {
    var t := if c.b.numels[k] + s.num > c.maxBucket then Flush(c, s) else s;
    t.(bucket := t.bucket + [k], num := t.num + c.b.numels[k],
       carried := if t.bucket != [] && k + 1 == c.b.N() then t.carried + 1 else t.carried)
  }

  // The rest of a backward pass: parameters k-1 down to 0.
  function PassFrom(c: Cfg, s: St, k: nat): (t: St)
    requires Within(c.b, s.bucket) && k <= c.b.N()
    ensures Within(c.b, t.bucket)
    decreases k
  {
    if k == 0 then s else PassFrom(c, Add(c, s, k - 1), k - 1)
  }

  // ---------- the all-gather shards of a step ----------

  function NumShards(n: nat, limit: nat): (m: nat)
    requires limit > 0
    ensures m >= 1
  {
    if Div(n, limit) >= 1 then Div(n, limit) else 1
  }

  function ShardSize(n: nat, limit: nat): nat
    requires limit > 0
  {
    Div(n, NumShards(n, limit))
  }

  function ShardElements(n: nat, limit: nat, i: nat): int
    requires limit > 0
  {
    if i == NumShards(n, limit) - 1 then n - Mul(i, ShardSize(n, limit)) else ShardSize(n, limit)
  }

  function Padded(elements: int, ranks: nat): int
    requires ranks > 0
  {
    elements + (if elements % ranks != 0 then ranks - elements % ranks else 0)
  }

  // The first m shards.
  function AllGathers(c: Cfg, m: nat): seq<Item>
    requires c.Valid()
  {
    if m == 0 then []
    else AllGathers(c, m - 1) +
         [AllGather(Padded(ShardElements(c.b.Size(), c.shardLimit, m - 1), c.b.ranks) * ELEM_SIZE)]
  }

  function StepOnce(c: Cfg, s: St): St
    requires c.Valid() && Within(c.b, s.bucket)
  {
    var t := Flush(c, s);
    t.(items := t.items + [HasOverflow] + AllGathers(c, NumShards(c.b.Size(), c.shardLimit)))
  }

  function Do(c: Cfg, s: St, phase: Phase): (t: St)
    requires c.Valid() && Within(c.b, s.bucket)
    ensures Within(c.b, t.bucket)
  {
    match phase
    case Backward => PassFrom(c, s, c.b.N())
    case Step => StepOnce(c, s)
  }

  function RunAll(c: Cfg, phases: seq<Phase>): (s: St)
    requires c.Valid()
    ensures Within(c.b, s.bucket)
  {
    if phases == [] then Init else Do(c, RunAll(c, phases[..|phases| - 1]), phases[|phases| - 1])
  }

  function Passes(phases: seq<Phase>): nat {
    if phases == [] then 0
    else Passes(phases[..|phases| - 1]) + (if phases[|phases| - 1] == Backward then 1 else 0)
  }

  // ---------- what the items move ----------

  function ReducedBytes(items: seq<Item>): int {
    if items == [] then 0 else ReducedBytes(items[..|items| - 1]) + ReduceBytes(items[|items| - 1])
  }

  function ReduceBytes(x: Item): int {
    match x
    case AllReduce(n) => n
    case Reduce(_, n) => n
    case HasOverflow => 0
    case AllGather(_) => 0
  }

  lemma BytesAppend(items: seq<Item>, x: Item)
    ensures ReducedBytes(items + [x]) == ReducedBytes(items) + ReduceBytes(x)
  {
    assert (items + [x])[..|items|] == items;
  }

  lemma {:induction false} BytesConcat(items: seq<Item>, more: seq<Item>)
    ensures ReducedBytes(items + more) == ReducedBytes(items) + ReducedBytes(more)
  {
    if more == [] {
      assert items + more == items;
    } else {
      var n := |more| - 1;
      BytesConcat(items, more[..n]);
      BytesAppend(items + more[..n], more[n]);
      assert items + more == items + more[..n] + [more[n]];
    }
  }

  lemma {:induction false} ReducesBytes(c: seq<Range>)
    ensures ReducedBytes(Reduces(c)) == ELEM_SIZE * Length(c)
  {
    if c != [] {
      var n := |c| - 1;
      ReducesBytes(c[..n]);
      BytesAppend(Reduces(c[..n]), Reduce(c[n].rank, (c[n].hi - c[n].lo) * ELEM_SIZE));
    }
  }

  lemma {:induction false} GathersBytes(c: Cfg, m: nat)
    requires c.Valid()
    ensures ReducedBytes(AllGathers(c, m)) == 0
  {
    hide ShardElements, Padded;
    if m > 0 {
      GathersBytes(c, m - 1);
      BytesAppend(AllGathers(c, m - 1),
                  AllGather(Padded(ShardElements(c.b.Size(), c.shardLimit, m - 1), c.b.ranks) * ELEM_SIZE));
    }
  }

  // ---------- the invariant of every run ----------

  // Elements that the passes so far produced: `passes` whole ones and the parameters from k on of another.
  function Produced(c: Cfg, passes: nat, k: nat): int
    requires k <= c.b.N()
  {
    Mul(passes, c.b.Size()) + c.b.Size() - c.b.Start(k)
  }

  // What the passes that started on top of a bucket lose, and the part of it that is still in the bucket.
  function Missing(c: Cfg, s: St): nat
    requires c.b.Valid()
  {
    if c.merges && OneSlice(c.b) then Mul(s.carried, c.b.Size()) else 0
  }

  function OpenLost(c: Cfg, s: St): nat
    requires c.b.Valid()
  {
    if c.merges then Lost(c.b, s.bucket) else 0
  }

  ghost predicate BucketOk(c: Cfg, s: St, k: nat) {
    && c.Valid() && k <= c.b.N() && Descending(c.b, s.bucket) && s.num == Numel(c.b, s.bucket)
    && (s.bucket != [] ==> s.bucket[|s.bucket| - 1] == if k == c.b.N() then 0 else k)
  }

  ghost predicate Balanced(c: Cfg, s: St, passes: nat, k: nat)
    requires c.Valid() && k <= c.b.N()
  {
    && ReducedBytes(s.items) ==
       ELEM_SIZE * (Produced(c, passes, k) - Missing(c, s) - s.num + OpenLost(c, s))
    && (s.warned <==> Missing(c, s) > OpenLost(c, s))
    && Missing(c, s) >= OpenLost(c, s)
  }

  lemma {:induction false} NumelAppend(b: Buffer, bucket: seq<nat>, k: nat)
    requires Within(b, bucket) && k < b.N()
    ensures Within(b, bucket + [k]) && Numel(b, bucket + [k]) == Numel(b, bucket) + b.numels[k]
    decreases |bucket|
  {
    if bucket != [] {
      NumelAppend(b, bucket[1..], k);
      assert (bucket + [k])[1..] == bucket[1..] + [k];
    }
  }

  lemma {:induction false} LostAppend(b: Buffer, bucket: seq<nat>, k: nat)
    requires b.Valid()
    ensures Lost(b, bucket + [k]) == Lost(b, bucket) +
              (if bucket != [] && bucket[|bucket| - 1] == 0 && OneSlice(b) then b.Size() else 0)
    decreases |bucket|
  {
    hide OneSlice;
    if |bucket| >= 2 {
      LostAppend(b, bucket[1..], k);
    }
    assert bucket != [] ==> (bucket + [k])[1..] == bucket[1..] + [k];
  }

  lemma FlushKeeps(c: Cfg, s: St, passes: nat, k: nat)
    requires BucketOk(c, s, k) && Balanced(c, s, passes, k)
    ensures BucketOk(c, Flush(c, s), k) && Balanced(c, Flush(c, s), passes, k)
  {
    hide Mul, OneSlice, Flatten, Merge, Warns, Length, Produced;
    var flat := Flatten(c.b, s.bucket);
    if c.merges {
      BucketTotal(c.b, s.bucket);
      WarnsIffLost(c.b, s.bucket);
      ReducesBytes(Merge(flat));
      BytesConcat(s.items, Reduces(Merge(flat)));
    } else {
      BytesAppend(s.items, AllReduce(s.num * ELEM_SIZE));
    }
  }

  lemma AddKeeps(c: Cfg, s: St, passes: nat, k: nat)
    requires 0 < k <= c.b.N() && BucketOk(c, s, k) && Balanced(c, s, passes, k)
    ensures BucketOk(c, Add(c, s, k - 1), k - 1) && Balanced(c, Add(c, s, k - 1), passes, k - 1)
  {
    hide Mul, OneSlice, Lost, Numel, Flush, ReducedBytes;
    FlushKeeps(c, s, passes, k);
    var t := if c.b.numels[k - 1] + s.num > c.maxBucket then Flush(c, s) else s;
    NumelAppend(c.b, t.bucket, k - 1);
    LostAppend(c.b, t.bucket, k - 1);
    MulNext(c.b.Size(), t.carried);
    var longer := t.bucket + [k - 1];
    forall i | 0 <= i < |longer| - 1
      ensures GoesDown(c.b, longer, i)
    {
      assert i < |t.bucket| - 1 ==> GoesDown(c.b, t.bucket, i);
    }
  }

  lemma {:induction false} PassKeeps(c: Cfg, s: St, passes: nat, k: nat)
    requires BucketOk(c, s, k) && Balanced(c, s, passes, k)
    ensures BucketOk(c, PassFrom(c, s, k), 0) && Balanced(c, PassFrom(c, s, k), passes, 0)
    decreases k
  {
    assert k <= c.b.N();
    hide BucketOk, Balanced, Add;
    if k > 0 {
      AddKeeps(c, s, passes, k);
      PassKeeps(c, Add(c, s, k - 1), passes, k - 1);
    }
  }

  lemma DoKeeps(c: Cfg, s: St, passes: nat, phase: Phase)
    requires BucketOk(c, s, c.b.N()) && Balanced(c, s, passes, c.b.N())
    ensures var t := Do(c, s, phase);
            BucketOk(c, t, c.b.N()) && Balanced(c, t, if phase == Backward then passes + 1 else passes, c.b.N())
  {
    hide Mul, OneSlice, Lost, Numel, Flush, PassFrom, AllGathers, ReducedBytes;
    if phase == Backward {
      PassKeeps(c, s, passes, c.b.N());
      MulNext(c.b.Size(), passes);
    } else {
      FlushKeeps(c, s, passes, c.b.N());
      var t, more := Flush(c, s), AllGathers(c, NumShards(c.b.Size(), c.shardLimit));
      BytesAppend(t.items, HasOverflow);
      GathersBytes(c, NumShards(c.b.Size(), c.shardLimit));
      BytesConcat(t.items + [HasOverflow], more);
    }
  }

  lemma {:induction false} RunKeeps(c: Cfg, phases: seq<Phase>)
    requires c.Valid()
    ensures var s := RunAll(c, phases);
            BucketOk(c, s, c.b.N()) && Balanced(c, s, Passes(phases), c.b.N())
  {
    hide OneSlice, Do;
    if phases == [] {
      MulPositive(c.b.Size(), 1);
    } else {
      hide BucketOk, Balanced;
      var rest := phases[..|phases| - 1];
      RunKeeps(c, rest);
      DoKeeps(c, RunAll(c, rest), Passes(rest), phases[|phases| - 1]);
    }
  }

  // ---------- results ----------

  // After every step the reduces add up to all that the backward passes produced, except that with merging
  // in one slice every pass that started on top of a bucket loses the whole buffer; the warning says so.
  lemma ReduceTraffic(c: Cfg, phases: seq<Phase>)
    requires c.Valid()
    ensures var s := RunAll(c, phases + [Step]);
            && s.bucket == [] && s.num == 0
            && ReducedBytes(s.items) == ELEM_SIZE * (Mul(Passes(phases), c.b.Size()) - Missing(c, s))
            && (s.warned <==> Missing(c, s) > 0)
  {
    hide Mul, OneSlice, Flatten, Merge, Warns, AllGathers;
    var all := phases + [Step];
    assert all[..|all| - 1] == phases;
    RunKeeps(c, all);
  }

  lemma MissingWhen(c: Cfg, s: St)
    requires c.Valid()
    ensures Missing(c, s) == 0 <==>
            !c.merges || (c.b.ranks > 1 && c.b.Size() > 1) || c.b.Size() == 0 || s.carried == 0
  {
    hide OneSlice, Mul;
    OneSliceIff(c.b);
    MulPositive(s.carried, c.b.Size());
    MulZero(s.carried);
    MulPositive(c.b.Size(), 1);
  }

  // A pass that starts now is put on top of the bucket: the bucket is not empty and the last parameter still fits.
  predicate CarriesOver(c: Cfg, s: St)
    requires Within(c.b, s.bucket)
  {
    s.bucket != [] && assert s.bucket[0] < c.b.N(); c.b.numels[c.b.N() - 1] + s.num <= c.maxBucket
  }

  lemma CarriesWhen(c: Cfg, s: St)
    requires BucketOk(c, s, c.b.N())
    ensures Do(c, s, Backward).carried == s.carried + (if CarriesOver(c, s) then 1 else 0)
  {
    var n := c.b.N();
    if n > 0 {
      var t := Add(c, s, n - 1);
      if n > 1 { CarriedOnce(c, t, n - 1); }
    }
  }

  predicate CarriesAt(c: Cfg, phases: seq<Phase>, i: nat)
    requires c.Valid() && i < |phases|
  {
    phases[i] == Backward && CarriesOver(c, RunAll(c, phases[..i]))
  }

  // No pass of the run was put on top of the bucket exactly when the history counter is 0.
  lemma {:induction false} CarriedZero(c: Cfg, phases: seq<Phase>)
    requires c.Valid()
    ensures RunAll(c, phases).carried == 0 <==> forall i :: 0 <= i < |phases| ==> !CarriesAt(c, phases, i)
  {
    hide CarriesOver, Do, BucketOk, Balanced;
    if phases != [] {
      var n := |phases| - 1;
      var rest := phases[..n];
      CarriedZero(c, rest);
      RunKeeps(c, rest);
      CarriesWhen(c, RunAll(c, rest));
      StepCarries(c, RunAll(c, rest));
      forall i | 0 <= i < n
        ensures CarriesAt(c, phases, i) <==> CarriesAt(c, rest, i)
      {
        assert rest[..i] == phases[..i];
      }
      assert CarriesAt(c, phases, n) <==> phases[n] == Backward && CarriesOver(c, RunAll(c, rest));
    }
  }

  // The reduces of a run that ends with a step have every element of every pass exactly when one of these holds: plain
  // all-reduces, several ranks and elements, no elements, or no pass that was put on top of the bucket.
  lemma NothingMissing(c: Cfg, phases: seq<Phase>)
    requires c.Valid()
    ensures var s := RunAll(c, phases + [Step]);
            && (ReducedBytes(s.items) == ELEM_SIZE * Mul(Passes(phases), c.b.Size()) <==>
                || !c.merges || (c.b.ranks > 1 && c.b.Size() > 1) || c.b.Size() == 0
                || forall i :: 0 <= i < |phases| ==> !CarriesAt(c, phases, i))
            && (s.warned <==> ReducedBytes(s.items) < ELEM_SIZE * Mul(Passes(phases), c.b.Size()))
  {
    hide Mul, OneSlice, Do, CarriesAt, ReducedBytes, Missing;
    var all := phases + [Step];
    assert all[..|all| - 1] == phases;
    ReduceTraffic(c, phases);
    MissingWhen(c, RunAll(c, all));
    StepCarries(c, RunAll(c, phases));
    CarriedZero(c, phases);
  }

  lemma {:induction false} CarriedOnce(c: Cfg, s: St, k: nat)
    requires Within(c.b, s.bucket) && k < c.b.N()
    ensures PassFrom(c, s, k).carried == s.carried
    decreases k
  {
    if k > 0 {
      CarriedOnce(c, Add(c, s, k - 1), k - 1);
    }
  }

  // A backward pass from an empty bucket and a step reduce every element once, without a warning.
  lemma OnePass(c: Cfg, s: St, passes: nat)
    requires BucketOk(c, s, c.b.N()) && Balanced(c, s, passes, c.b.N()) && s.bucket == []
    ensures var t := Do(c, Do(c, s, Backward), Step);
            && ReducedBytes(t.items) == ReducedBytes(s.items) + ELEM_SIZE * c.b.Size()
            && t.warned == s.warned && t.bucket == []
  {
    hide Mul, OneSlice, PassFrom, Flatten, Merge, Warns, AllGathers, ReducedBytes;
    CarriesWhen(c, s);
    var u := Do(c, s, Backward);
    DoKeeps(c, s, passes, Backward);
    DoKeeps(c, u, passes + 1, Step);
    MulNext(c.b.Size(), passes);
  }

  // One rank, two parameters of one element, two backward passes before a step: the merged reduce moves one
  // pass only, and the warning is printed.
  lemma WrapLoses()
    ensures var c := Cfg(Buffer([1, 1], 1), 10, 10, true);
            var s := RunAll(c, [Backward, Backward] + [Step]);
            ReducedBytes(s.items) == ELEM_SIZE * c.b.Size() && s.warned && Passes([Backward, Backward]) == 2
  {
    hide Flush, Mul, AllGathers, PassFrom, OneSlice;
    var c := Cfg(Buffer([1, 1], 1), 10, 10, true);
    var one, two := [Backward], [Backward, Backward];
    assert two[..1] == one && one[..0] == [] && (two + [Step])[..2] == two;
    SmallPass(c);
    CarriesWhen(c, Init);
    RunKeeps(c, one);
    CarriesWhen(c, RunAll(c, one));
    StepCarries(c, RunAll(c, two));
    ReduceTraffic(c, two);
    OneSliceIff(c.b);
    MulPositive(c.b.Size(), 1);
    MulNext(c.b.Size(), 1);
  }

  lemma SmallPass(c: Cfg)
    requires c == Cfg(Buffer([1, 1], 1), 10, 10, true)
    ensures PassFrom(c, Init, 2).bucket == [1, 0] && PassFrom(c, Init, 2).num == 2 && c.b.Size() == 2
  {
    hide Flush;
    var s := Add(c, Init, 1);
    assert s.bucket == [1] && s.num == 1;
    var t := Add(c, s, 0);
    assert t.bucket == [1, 0] && t.num == 2;
    assert PassFrom(c, s, 1) == PassFrom(c, t, 0) == t;
  }

  lemma StepCarries(c: Cfg, s: St)
    requires c.Valid() && Within(c.b, s.bucket)
    ensures Do(c, s, Step).carried == s.carried
  {
    hide Flatten, Merge, Warns, AllGathers;
  }
}
