/**
  When the groups of the order with the expert dimension are a partition of the world.
*/
module ExpertPartition {
  import opened Options
  import opened Radix
  import opened RankGroups
  import opened ParallelGroups

  ghost predicate At(groups: seq<seq<nat>>, g: nat, i: nat, rank: nat) {
    g < |groups| && i < |groups[g]| && groups[g][i] == rank
  }

  ghost predicate Occurs(groups: seq<seq<nat>>, rank: nat) { exists g: nat, i: nat :: At(groups, g, i, rank) }

  // Every rank of the world is at one place of one group, and nothing else is.
  ghost predicate PartitionsWorld(worldSize: nat, groups: seq<seq<nat>>) {
    && (forall rank: nat :: Occurs(groups, rank) <==> rank < worldSize)
    && (forall g: nat, i: nat, h: nat, j: nat, rank: nat :: At(groups, g, i, rank) && At(groups, h, j, rank) ==>
          g == h && i == j)
  }

  lemma MulStrict(a: nat, b: nat, d: nat)
    requires a < b && d > 0
    ensures Mul(a, d) < Mul(b, d) && Mul(d, a) < Mul(d, b)
  {
    MulLess(a, b, d);
    MulCommutes(a, d);
    MulCommutes(b, d);
  }

  // The ranks that the order with the expert dimension numbers, and those of the world.
  lemma WorldSizes(s: Sizes)
    requires s.Valid()
    ensures Product(OrderedSizesWithEp(s, ORDER)) == Mul(Mul(Mul(s.tp, s.cp), Mul(s.ep, Div(s.dp, s.ep))), s.pp)
    ensures s.WorldSize() == Mul(Mul(Mul(s.tp, s.cp), s.dp), s.pp)
  {
    hide Mul, Div, Product, OrderedSizesWithEp;
    ApplyerShapes(s);
    var pre, mid, last := [s.tp, s.cp], [s.ep, Div(s.dp, s.ep)], [s.pp];
    ProductConcat(pre + mid, last);
    ProductConcat(pre, mid);
    ProductConcat([s.ep], [Div(s.dp, s.ep)]);
    ProductConcat([s.tp], [s.cp]);
    assert [s.ep] + [Div(s.dp, s.ep)] == mid && [s.tp] + [s.cp] == pre;
    Single(s.tp); Single(s.cp); Single(s.ep); Single(s.pp); Single(Div(s.dp, s.ep));
    Reorder4(s.tp, s.dp, s.pp, s.cp);
  }

  lemma Reorder4(t: nat, d: nat, p: nat, c: nat)
    ensures Mul(Mul(Mul(t, d), p), c) == Mul(Mul(Mul(t, c), d), p)
  {
    hide Mul;
    MulAssociates(Mul(t, d), p, c);
    MulCommutes(p, c);
    MulAssociates(Mul(t, d), c, p);
    MulAssociates(t, d, c);
    MulCommutes(d, c);
    MulAssociates(t, c, d);
  }

  // The expert order numbers all ranks of the world when ep divides dp, and fewer otherwise.
  lemma NumbersWorld(s: Sizes)
    requires s.Valid()
    ensures var wide := OrderedSizesWithEp(s, ORDER);
            && |wide| == 5 && (Positive(wide) <==> s.ep <= s.dp) && s.WorldSize() > 0
            && (Mul(s.ep, Div(s.dp, s.ep)) == s.dp ==> s.ep <= s.dp && Product(wide) == s.WorldSize())
            && (Mul(s.ep, Div(s.dp, s.ep)) != s.dp ==> Product(wide) < s.WorldSize())
  {
    hide Mul, Div, Product, OrderedSizesWithEp;
    WorldSizes(s);
    ApplyerShapes(s);
    QuotientWhen(s.dp, s.ep);
    var n := Mul(s.tp, s.cp);
    MulPositive(s.tp, s.cp);
    MulPositive(n, s.dp);
    MulPositive(Mul(n, s.dp), s.pp);
    var wide := OrderedSizesWithEp(s, ORDER);
    assert wide == [s.tp, s.cp, s.ep, Div(s.dp, s.ep), s.pp];
    assert wide[0] == s.tp && wide[1] == s.cp && wide[2] == s.ep && wide[3] == Div(s.dp, s.ep) && wide[4] == s.pp;
    if Mul(s.ep, Div(s.dp, s.ep)) < s.dp {
      MulStrict(Mul(s.ep, Div(s.dp, s.ep)), s.dp, n);
      MulStrict(Mul(n, Mul(s.ep, Div(s.dp, s.ep))), Mul(n, s.dp), s.pp);
    }
  }

  lemma QuotientWhen(x: nat, d: nat)
    requires x > 0 && d > 0
    ensures Mul(d, Div(x, d)) <= x && (Div(x, d) > 0 <==> d <= x)
    ensures Mul(d, Div(x, d)) == x ==> d <= x
  {
    SplitDigit(x, d);
    if Div(x, d) == 0 { assert x < d; }
    if x < d { QuotientIs(x, d, 0); }
  }

  // Places below the size of the shape: with the world of that size they are a partition of it.
  lemma WholeWorld(shape: seq<nat>, mask: seq<bool>, ranks: Option<seq<seq<nat>>>)
    requires Positive(shape) && |mask| == |shape| && Generated(Product(shape), shape, mask, ranks)
    ensures ranks.Some? && PartitionsWorld(Product(shape), ranks.value)
  {
    hide Mul, Div, Place, GroupOf, PlaceOf, Select, Product;
    WorldFits(shape, mask);
    var groups := ranks.value;
    forall g: nat, i: nat, rank: nat | At(groups, g, i, rank)
      ensures rank < Product(shape) && g == GroupOf(shape, mask, rank) && i == PlaceOf(shape, mask, rank)
    {
      assert IsGroup(groups[g], shape, mask, g, Product(Select(shape, mask, true)));
      PlaceThenGroup(shape, mask, g, i);
    }
    forall rank: nat | rank < Product(shape)
      ensures Occurs(groups, rank)
    {
      GroupThenPlace(shape, mask, rank);
      var g, i := GroupOf(shape, mask, rank), PlaceOf(shape, mask, rank);
      assert IsGroup(groups[g], shape, mask, g, Product(Select(shape, mask, true)));
      assert At(groups, g, i, rank);
    }
  }

  // A world larger than the shape: whatever is generated leaves out the ranks from the size of the shape on.
  lemma LargerWorld(worldSize: nat, shape: seq<nat>, mask: seq<bool>, groups: seq<seq<nat>>)
    requires Positive(shape) && |mask| == |shape| && Generated(worldSize, shape, mask, Some(groups))
    requires Product(shape) < worldSize
    ensures !Occurs(groups, Product(shape)) && !PartitionsWorld(worldSize, groups)
  {
    hide Mul, Div, Place, GroupOf, PlaceOf, Select, Product;
    if Occurs(groups, Product(shape)) {
      var g: nat, i: nat :| At(groups, g, i, Product(shape));
      assert IsGroup(groups[g], shape, mask, g, Product(Select(shape, mask, true)));
      PlaceThenGroup(shape, mask, g, i);
      assert false;
    }
  }

  // For every mask over the applyer's order with the expert dimension: the generator returns a partition of the world
  // exactly when ep divides dp.  With ep above dp one size is 0, and the source divides by zero or returns no group.
  lemma ExpertPartitionIff(s: Sizes, mask: seq<bool>, ranks: Option<seq<seq<nat>>>)
    requires s.Valid() && |OrderedSizesWithEp(s, ORDER)| == |mask|
    requires Positive(OrderedSizesWithEp(s, ORDER)) ==>
               Generated(s.WorldSize(), OrderedSizesWithEp(s, ORDER), mask, ranks)
    requires !Positive(OrderedSizesWithEp(s, ORDER)) ==> ranks == None || ranks == Some([])
    ensures ranks.Some? && PartitionsWorld(s.WorldSize(), ranks.value) <==> Mul(s.ep, Div(s.dp, s.ep)) == s.dp
  {
    hide Mul, Div, Product, OrderedSizesWithEp, PartitionsWorld, Generated;
    NumbersWorld(s);
    var wide := OrderedSizesWithEp(s, ORDER);
    if Mul(s.ep, Div(s.dp, s.ep)) == s.dp {
      WholeWorld(wide, mask, ranks);
    } else if ranks.Some? {
      if Positive(wide) {
        LargerWorld(s.WorldSize(), wide, mask, ranks.value);
      } else {
        NoGroups(s.WorldSize());
      }
    }
  }

  lemma NoGroups(worldSize: nat)
    requires worldSize > 0
    ensures !PartitionsWorld(worldSize, [])
  {
    assert !Occurs([], 0);
  }

  // With dp = 3 and ep = 2 the only expert group is of the ranks 0 and 1: rank 2 of the world is in none.
  lemma RankLeftOut(groups: seq<seq<nat>>)
    requires Generated(3, [1, 1, 2, 1, 1], Only(5, 2), Some(groups))
    ensures OrderedSizesWithEp(Sizes(1, 1, 2, 3, 1), ORDER) == [1, 1, 2, 1, 1] && Sizes(1, 1, 2, 3, 1).WorldSize() == 3
    ensures !Occurs(groups, 2)
  {
    hide Generated, Occurs, Product, OrderedSizesWithEp;
    var s := Sizes(1, 1, 2, 3, 1);
    ApplyerShapes(s);
    var shape: seq<nat> := [1, 1, 2, 1, 1];
    assert OrderedSizesWithEp(s, ORDER) == shape;
    WorldSizes(s);
    LargerWorld(3, shape, Only(5, 2), groups);
  }
}
