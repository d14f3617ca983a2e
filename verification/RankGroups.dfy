/**
  Orthogonal rank groups: the groups of ranks that share some of their mixed-radix digits.

  A rank is a number with one digit for every parallel dimension.  The generator numbers the groups by the
  digits the mask leaves out and the members of a group by the digits it selects.  `Place` is the
  rank at a given place of a given group, digit by digit; the generator's stride arithmetic computes
  it, and it is a bijection.
*/
module RankGroups {
  import opened Options
  import opened Radix

  predicate Positive(shape: seq<nat>) { forall k :: 0 <= k < |shape| ==> shape[k] > 0 }

  function Product(shape: seq<nat>): nat {
    if shape == [] then 1 else Mul(shape[0], Product(shape[1..]))
  }

  lemma {:induction false} ProductPositive(shape: seq<nat>)
    requires Positive(shape)
    ensures Product(shape) > 0
  {
    if shape != [] {
      ProductPositive(shape[1..]);
      MulPositive(shape[0], Product(shape[1..]));
    }
  }

  lemma Single(x: nat)
    ensures Product([x]) == x
  {
    assert [x][1..] == [];
    MulPositive(x, 1);
  }

  lemma {:induction false} ProductConcat(a: seq<nat>, b: seq<nat>)
    ensures Product(a + b) == Mul(Product(a), Product(b))
  {
    hide Mul;
    if a == [] {
      assert a + b == b;
      MulPositive(Product(b), 1);
    } else {
      assert (a + b)[1..] == a[1..] + b;
      ProductConcat(a[1..], b);
      MulAssociates(a[0], Product(a[1..]), Product(b));
    }
  }

  // ---------- the helpers of the source ----------

  function PrefixProducts(a: seq<nat>, init: nat): seq<nat> {
    [init] + if a == [] then [] else PrefixProducts(a[1..], Mul(init, a[0]))
  }

  function InnerProduct(a: seq<nat>, b: seq<nat>): nat {
    if a == [] || b == [] then 0 else Mul(a[0], b[0]) + InnerProduct(a[1..], b[1..])
  }

  // The elements of xs whose mask bit is `want`.
  function Select<T>(xs: seq<T>, mask: seq<bool>, want: bool): seq<T> {
    if xs == [] || mask == [] then []
    else (if mask[0] == want then [xs[0]] else []) + Select(xs[1..], mask[1..], want)
  }

  function StrideDigits(index: nat, shape: seq<nat>, stride: seq<nat>): seq<nat>
    requires Positive(shape) && Positive(stride)
  {
    if shape == [] || stride == [] then []
    else [Mod(Div(index, stride[0]), shape[0])] + StrideDigits(index, shape[1..], stride[1..])
  }

  // The digits of `index`, or None where the source's assertion fails.
  function Decompose(index: nat, shape: seq<nat>): Option<seq<nat>>
    requires Positive(shape)
  {
    var stride := PrefixProducts(shape, 1);
    PrefixPositive(shape, 1);
    var idx := StrideDigits(index, shape, stride);
    if InnerProduct(idx, stride[..|stride| - 1]) == index then Some(idx) else None
  }

  lemma {:induction false} PrefixPositive(shape: seq<nat>, init: nat)
    requires Positive(shape) && init > 0
    ensures Positive(PrefixProducts(shape, init)) && |PrefixProducts(shape, init)| == |shape| + 1
  {
    if shape != [] {
      MulPositive(init, shape[0]);
      PrefixPositive(shape[1..], Mul(init, shape[0]));
    }
  }

  // ---------- digits ----------

  function Digits(x: nat, shape: seq<nat>): seq<nat>
    requires Positive(shape)
    decreases |shape|
  {
    if shape == [] then [] else [Mod(x, shape[0])] + Digits(Div(x, shape[0]), shape[1..])
  }

  lemma {:induction false} StrideDigitsAre(x: nat, shape: seq<nat>, d: nat)
    requires Positive(shape) && d > 0
    ensures Positive(PrefixProducts(shape, d))
    ensures StrideDigits(x, shape, PrefixProducts(shape, d)) == Digits(Div(x, d), shape)
  {
    PrefixPositive(shape, d);
    if shape != [] {
      DivByProduct(x, d, shape[0]);
      StrideDigitsAre(x, shape[1..], Mul(d, shape[0]));
      assert PrefixProducts(shape, d)[1..] == PrefixProducts(shape[1..], Mul(d, shape[0]));
    }
  }

  lemma {:induction false} DigitsSum(x: nat, shape: seq<nat>, d: nat)
    requires Positive(shape) && Product(shape) > 0
    ensures var stride := PrefixProducts(shape, d);
            InnerProduct(Digits(x, shape), stride[..|stride| - 1]) == Mul(Mod(x, Product(shape)), d)
    decreases |shape|
  {
    hide Mul, Div, Mod;
    var stride := PrefixProducts(shape, d);
    if shape == [] {
      NoDigits(x, d);
    } else {
      var s, p := shape[0], Product(shape[1..]);
      ProductPositive(shape[1..]);
      DigitsSum(Div(x, s), shape[1..], Mul(d, s));
      DivByProduct(x, s, p);
      assert stride[..|stride| - 1] == [d] + stride[1..][..|stride[1..]| - 1];
      Regroup(Mod(x, s), s, Mod(Div(x, s), p), d);
    }
  }

  lemma NoDigits(x: nat, d: nat)
    ensures Mul(Mod(x, 1), d) == 0
  {
  }

  // The assertion in `decompose` holds exactly for the indices below the product of the shape.
  lemma DecomposeChecks(index: nat, shape: seq<nat>)
    requires Positive(shape)
    ensures Decompose(index, shape) == if index < Product(shape) then Some(Digits(index, shape)) else None
  {
    ProductPositive(shape);
    StrideDigitsAre(index, shape, 1);
    DigitsSum(index, shape, 1);
    MulPositive(Mod(index, Product(shape)), 1);
    Small(index, Product(shape));
  }

  // ---------- places ----------

  function Flip(mask: seq<bool>): seq<bool> { seq(|mask|, k requires 0 <= k < |mask| => !mask[k]) }

  // The rank at place i of group g.
  function Place(shape: seq<nat>, mask: seq<bool>, g: nat, i: nat): nat
    requires Positive(shape) && |mask| == |shape|
  {
    if shape == [] then 0
    else
      var s := shape[0];
      if mask[0] then Mod(i, s) + Mul(s, Place(shape[1..], mask[1..], g, Div(i, s)))
      else Mod(g, s) + Mul(s, Place(shape[1..], mask[1..], Div(g, s), i))
  }

  // The group a rank belongs to; its place in that group is its group for the flipped mask.
  function GroupOf(shape: seq<nat>, mask: seq<bool>, rank: nat): nat
    requires Positive(shape) && |mask| == |shape|
  {
    if shape == [] then 0
    else
      var s := shape[0];
      if mask[0] then GroupOf(shape[1..], mask[1..], Div(rank, s))
      else Mod(rank, s) + Mul(s, GroupOf(shape[1..], mask[1..], Div(rank, s)))
  }

  function PlaceOf(shape: seq<nat>, mask: seq<bool>, rank: nat): nat
    requires Positive(shape) && |mask| == |shape|
  {
    GroupOf(shape, Flip(mask), rank)
  }

  // What the generator's double loop computes.
  function Formula(shape: seq<nat>, mask: seq<bool>, d: nat, g: nat, i: nat): nat
    requires Positive(shape) && |mask| == |shape| && Positive(Select(shape, mask, true)) && Positive(Select(shape, mask, false))
  {
    InnerProduct(Digits(i, Select(shape, mask, true)), Select(PrefixProducts(shape, d), mask, true))
    + InnerProduct(Digits(g, Select(shape, mask, false)), Select(PrefixProducts(shape, d), mask, false))
  }

  lemma {:induction false} SelectPositive(shape: seq<nat>, mask: seq<bool>, want: bool)
    requires Positive(shape)
    ensures Positive(Select(shape, mask, want))
  {
    if shape != [] && mask != [] { SelectPositive(shape[1..], mask[1..], want); }
  }

  // The first element of a masked list, and the rest of it.
  lemma SelectStep<T>(xs: seq<T>, mask: seq<bool>, want: bool)
    requires xs != [] && mask != []
    ensures Select(xs, mask, want) ==
            if mask[0] == want then [xs[0]] + Select(xs[1..], mask[1..], want) else Select(xs[1..], mask[1..], want)
  {
  }

  lemma StridesStep(shape: seq<nat>, d: nat)
    requires shape != []
    ensures var strides := PrefixProducts(shape, d);
            strides != [] && strides[0] == d && strides[1..] == PrefixProducts(shape[1..], Mul(d, shape[0]))
  {
  }

  lemma InnerStep(x: nat, s: nat, shape: seq<nat>, d: nat, strides: seq<nat>)
    requires s > 0 && Positive(shape)
    ensures Positive([s] + shape)
    ensures InnerProduct(Digits(x, [s] + shape), [d] + strides) ==
            Mul(Mod(x, s), d) + InnerProduct(Digits(Div(x, s), shape), strides)
  {
    hide Mul, Div, Mod;
    assert ([s] + shape)[1..] == shape && ([d] + strides)[1..] == strides;
    var ds := Digits(x, [s] + shape);
    assert ds == [Mod(x, s)] + Digits(Div(x, s), shape);
    assert ds[1..] == Digits(Div(x, s), shape);
  }

  // One dimension of the generator's formula.
  lemma FormulaStep(shape: seq<nat>, mask: seq<bool>, d: nat, g: nat, i: nat)
    requires Positive(shape) && |mask| == |shape| > 0
    requires Positive(Select(shape, mask, true)) && Positive(Select(shape, mask, false))
    requires Positive(Select(shape[1..], mask[1..], true)) && Positive(Select(shape[1..], mask[1..], false))
    ensures var s := shape[0]; var tail := shape[1..]; var bits := mask[1..];
            Formula(shape, mask, d, g, i) ==
            if mask[0] then Mul(Mod(i, s), d) + Formula(tail, bits, Mul(d, s), g, Div(i, s))
            else Mul(Mod(g, s), d) + Formula(tail, bits, Mul(d, s), Div(g, s), i)
  {
    hide Mul, Div, Mod, Select, PrefixProducts, InnerProduct, Digits;
    var s, tail, bits := shape[0], shape[1..], mask[1..];
    var strides := PrefixProducts(shape, d);
    StridesStep(shape, d);
    SelectStep(shape, mask, true);
    SelectStep(shape, mask, false);
    SelectStep(strides, mask, true);
    SelectStep(strides, mask, false);
    if mask[0] {
      InnerStep(i, s, Select(tail, bits, true), d, Select(strides[1..], bits, true));
    } else {
      InnerStep(g, s, Select(tail, bits, false), d, Select(strides[1..], bits, false));
    }
  }

  lemma {:induction false} FormulaIsPlace(shape: seq<nat>, mask: seq<bool>, d: nat, g: nat, i: nat)
    requires Positive(shape) && |mask| == |shape|
    ensures Positive(Select(shape, mask, true)) && Positive(Select(shape, mask, false))
    ensures Formula(shape, mask, d, g, i) == Mul(Place(shape, mask, g, i), d)
  {
    SelectPositive(shape, mask, true);
    SelectPositive(shape, mask, false);
    if shape == [] {
      hide Mul;
      MulPositive(d, 1);
    } else {
      hide Mul, Div, Mod, Select, Formula;
      var s, tail, bits := shape[0], shape[1..], mask[1..];
      SelectPositive(tail, bits, true);
      SelectPositive(tail, bits, false);
      FormulaStep(shape, mask, d, g, i);
      if mask[0] {
        FormulaIsPlace(tail, bits, Mul(d, s), g, Div(i, s));
        Regroup(Mod(i, s), s, Place(tail, bits, g, Div(i, s)), d);
      } else {
        FormulaIsPlace(tail, bits, Mul(d, s), Div(g, s), i);
        Regroup(Mod(g, s), s, Place(tail, bits, Div(g, s), i), d);
      }
    }
  }

  // ---------- the generator ----------

  lemma {:induction false} PrefixProductsAppend(a: seq<nat>, v: nat, init: nat)
    ensures var r := PrefixProducts(a, init);
            PrefixProducts(a + [v], init) == r + [Mul(r[|r| - 1], v)]
  {
    hide Mul;
    if a != [] {
      PrefixProductsAppend(a[1..], v, Mul(init, a[0]));
      assert (a + [v])[1..] == a[1..] + [v];
    } else {
      assert [v][1..] == [];
    }
  }

  method PrefixProduct(a: seq<nat>) returns (r: seq<nat>)
    ensures r == PrefixProducts(a, 1)
  {
    hide Mul, PrefixProducts;
    var init := 1;
    r := [init];
    FirstPrefix();
    for k := 0 to |a|
      invariant r == PrefixProducts(a[..k], 1) && r != [] && r[|r| - 1] == init
    {
      PrefixProductsAppend(a[..k], a[k], 1);
      assert a[..k] + [a[k]] == a[..k + 1];
      init := Mul(init, a[k]);
      r := r + [init];
    }
    assert a[..|a|] == a;
  }

  lemma FirstPrefix()
    ensures PrefixProducts([], 1) == [1]
  {
  }

  // What the generator returns: as many groups as fit the world, each with its places in order, but nothing when
  // there are not so many groups.
  ghost predicate Generated(worldSize: nat, sizes: seq<nat>, mask: seq<bool>, ranks: Option<seq<seq<nat>>>)
    requires Positive(sizes) && |mask| == |sizes|
  {
    var groupSize := Product(Select(sizes, mask, true));
    && groupSize > 0
    && (ranks.Some? <==> Div(worldSize, groupSize) <= Product(Select(sizes, mask, false)))
    && (ranks.Some? ==>
          && |ranks.value| == Div(worldSize, groupSize)
          && forall g :: 0 <= g < |ranks.value| ==> IsGroup(ranks.value[g], sizes, mask, g, groupSize))
  }

  // `generate_masked_orthogonal_rank_groups`: None when an assertion of the source fails.
  method GenerateMaskedOrthogonalRankGroups(worldSize: nat, sizes: seq<nat>, mask: seq<bool>)
    returns (ranks: Option<seq<seq<nat>>>)
    requires Positive(sizes) && |mask| == |sizes|
    ensures Generated(worldSize, sizes, mask, ranks)
  {
    hide Mul, Mod, Div, Place, Decompose, PrefixProducts, Select, Digits;
    var maskedShape := Select(sizes, mask, true);
    var unmaskedShape := Select(sizes, mask, false);
    SelectPositive(sizes, mask, true);
    SelectPositive(sizes, mask, false);
    var strides := PrefixProduct(sizes);
    var products := PrefixProduct(maskedShape);
    LastIsProduct(maskedShape, 1);
    MulPositive(Product(maskedShape), 1);
    ProductPositive(maskedShape);
    PrefixPositive(maskedShape, 1);
    var groupSize := products[|products| - 1];
    var numOfGroup := Div(worldSize, groupSize);
    var result: seq<seq<nat>> := [];
    for g := 0 to numOfGroup
      invariant |result| == g <= numOfGroup
      invariant g > 0 ==> g <= Product(unmaskedShape)
      invariant forall h :: 0 <= h < g ==> IsGroup(result[h], sizes, mask, h, groupSize)
    {
      DecomposeChecks(g, unmaskedShape);
      var groupIdx := Decompose(g, unmaskedShape);
      if groupIdx.None? {
        return None;
      }
      var rank := GroupRanks(sizes, mask, g, strides, groupIdx.value);
      result := result + [rank];
    }
    return Some(result);
  }

  // The ranks of one group.
  method GroupRanks(sizes: seq<nat>, mask: seq<bool>, g: nat, strides: seq<nat>, groupIdx: seq<nat>)
    returns (rank: seq<nat>)
    requires Positive(sizes) && |mask| == |sizes| && strides == PrefixProducts(sizes, 1)
    requires Positive(Select(sizes, mask, false)) && groupIdx == Digits(g, Select(sizes, mask, false))
    ensures IsGroup(rank, sizes, mask, g, Product(Select(sizes, mask, true)))
  {
    hide Mul, Mod, Div, Place, Decompose, PrefixProducts, Select, Digits;
    var maskedShape := Select(sizes, mask, true);
    var maskedStride := Select(strides, mask, true);
    var unmaskedStride := Select(strides, mask, false);
    SelectPositive(sizes, mask, true);
    var groupSize := Product(maskedShape);
    rank := [];
    for i := 0 to groupSize
      invariant |rank| == i
      invariant forall j :: 0 <= j < i ==> rank[j] == Place(sizes, mask, g, j)
    {
      DecomposeChecks(i, maskedShape);
      var rankIdx := Decompose(i, maskedShape);
      FormulaIsPlace(sizes, mask, 1, g, i);
      MulPositive(Place(sizes, mask, g, i), 1);
      rank := rank + [InnerProduct(rankIdx.value, maskedStride) + InnerProduct(groupIdx, unmaskedStride)];
    }
  }

  ghost predicate IsGroup(group: seq<nat>, sizes: seq<nat>, mask: seq<bool>, g: nat, groupSize: nat)
    requires Positive(sizes) && |mask| == |sizes|
  {
    |group| == groupSize && forall i :: 0 <= i < groupSize ==> group[i] == Place(sizes, mask, g, i)
  }

  lemma {:induction false} LastIsProduct(a: seq<nat>, init: nat)
    ensures var r := PrefixProducts(a, init);
            r[|r| - 1] == Mul(init, Product(a))
  {
    hide Mul;
    if a == [] {
      MulPositive(init, 1);
    } else {
      LastIsProduct(a[1..], Mul(init, a[0]));
      MulAssociates(init, a[0], Product(a[1..]));
    }
  }

  // ---------- the places are a bijection ----------

  lemma {:induction false} SelectFlip<T>(xs: seq<T>, mask: seq<bool>, want: bool)
    ensures Select(xs, Flip(mask), want) == Select(xs, mask, !want)
  {
    if xs != [] && mask != [] {
      assert Flip(mask)[1..] == Flip(mask[1..]);
      SelectFlip(xs[1..], mask[1..], want);
    }
  }

  lemma ProductStep(shape: seq<nat>, mask: seq<bool>, want: bool)
    requires shape != [] && |mask| == |shape|
    ensures Product(Select(shape, mask, want)) ==
            if mask[0] == want then Mul(shape[0], Product(Select(shape[1..], mask[1..], want)))
            else Product(Select(shape[1..], mask[1..], want))
  {
    hide Mul;
    var rest := Select(shape[1..], mask[1..], want);
    if mask[0] == want {
      assert ([shape[0]] + rest)[1..] == rest;
    } else {
      assert Select(shape, mask, want) == rest;
    }
  }

  // Place i of group g is a rank of the world, in that group and at that place.
  lemma {:induction false} PlaceThenGroup(shape: seq<nat>, mask: seq<bool>, g: nat, i: nat)
    requires Positive(shape) && |mask| == |shape|
    requires g < Product(Select(shape, mask, false)) && i < Product(Select(shape, mask, true))
    ensures var rank := Place(shape, mask, g, i);
            rank < Product(shape) && GroupOf(shape, mask, rank) == g && PlaceOf(shape, mask, rank) == i
  {
    hide Mul, Div, Mod, Select;
    if shape == [] {
      NothingSelected(mask);
    } else {
      var s, tail, bits := shape[0], shape[1..], mask[1..];
      assert Flip(mask)[1..] == Flip(bits);
      ProductStep(shape, mask, true);
      ProductStep(shape, mask, false);
      var (x, h, j) := if mask[0] then (i, g, Div(i, s)) else (g, Div(g, s), i);
      DivBelow(x, s, Product(Select(tail, bits, mask[0])));
      PlaceThenGroup(tail, bits, h, j);
      var y := Place(tail, bits, h, j);
      SplitDigit(x, s);
      JoinBelow(Mod(x, s), s, y, Product(tail));
      JoinDigit(Mod(x, s), s, y);
    }
  }

  lemma NothingSelected(mask: seq<bool>)
    ensures Product(Select([], mask, true)) == 1 && Product(Select([], mask, false)) == 1
  {
  }

  // Every rank of the world is at its place of its group.
  lemma {:induction false} GroupThenPlace(shape: seq<nat>, mask: seq<bool>, rank: nat)
    requires Positive(shape) && |mask| == |shape| && rank < Product(shape)
    ensures GroupOf(shape, mask, rank) < Product(Select(shape, mask, false))
    ensures PlaceOf(shape, mask, rank) < Product(Select(shape, mask, true))
    ensures Place(shape, mask, GroupOf(shape, mask, rank), PlaceOf(shape, mask, rank)) == rank
    decreases |shape|
  {
    hide Mul, Div, Mod, Select;
    if shape == [] {
      NothingSelected(mask);
    } else {
      var s, tail, bits := shape[0], shape[1..], mask[1..];
      assert Flip(mask)[1..] == Flip(bits);
      ProductStep(shape, mask, true);
      ProductStep(shape, mask, false);
      DivBelow(rank, s, Product(tail));
      var y := Div(rank, s);
      GroupThenPlace(tail, bits, y);
      SplitDigit(rank, s);
      var rest := if mask[0] then PlaceOf(tail, bits, y) else GroupOf(tail, bits, y);
      JoinBelow(Mod(rank, s), s, rest, Product(Select(tail, bits, mask[0])));
      JoinDigit(Mod(rank, s), s, rest);
    }
  }

  lemma {:induction false} WorldSplits(shape: seq<nat>, mask: seq<bool>)
    requires |mask| == |shape|
    ensures Product(shape) == Mul(Product(Select(shape, mask, true)), Product(Select(shape, mask, false)))
  {
    hide Mul, Select;
    if shape == [] {
      NothingSelected(mask);
      MulPositive(1, 1);
    } else {
      ProductStep(shape, mask, true);
      ProductStep(shape, mask, false);
      WorldSplits(shape[1..], mask[1..]);
      Swap(shape[0], Product(Select(shape[1..], mask[1..], true)), Product(Select(shape[1..], mask[1..], false)));
    }
  }

  lemma Swap(s: nat, m: nat, u: nat)
    ensures Mul(s, Mul(m, u)) == Mul(Mul(s, m), u) == Mul(m, Mul(s, u))
  {
  }

  // For a world of the size of the shape, the groups the generator returns hold every rank exactly once:
  // rank r is at place PlaceOf(r) of group GroupOf(r), and nowhere else.
  lemma Partition(shape: seq<nat>, mask: seq<bool>, groups: seq<seq<nat>>, g: nat, i: nat, rank: nat)
    requires Positive(shape) && |mask| == |shape| && rank < Product(shape)
    requires |groups| == Product(Select(shape, mask, false))
    requires forall h :: 0 <= h < |groups| ==> IsGroup(groups[h], shape, mask, h, Product(Select(shape, mask, true)))
    requires g < |groups| && i < |groups[g]|
    ensures groups[g][i] < Product(shape)
    ensures groups[g][i] == rank <==> g == GroupOf(shape, mask, rank) && i == PlaceOf(shape, mask, rank)
    ensures GroupOf(shape, mask, rank) < |groups| && PlaceOf(shape, mask, rank) < |groups[GroupOf(shape, mask, rank)]|
  {
    hide Place, GroupOf, PlaceOf, Select, Product;
    GroupThenPlace(shape, mask, rank);
    PlaceThenGroup(shape, mask, g, i);
    assert IsGroup(groups[g], shape, mask, g, Product(Select(shape, mask, true)));
    assert IsGroup(groups[GroupOf(shape, mask, rank)], shape, mask, GroupOf(shape, mask, rank), Product(Select(shape, mask, true)));
  }

  // With a world of the size of the shape no assertion fails.
  lemma WorldFits(shape: seq<nat>, mask: seq<bool>)
    requires Positive(shape) && |mask| == |shape|
    ensures Product(Select(shape, mask, true)) > 0
    ensures Div(Product(shape), Product(Select(shape, mask, true))) == Product(Select(shape, mask, false))
  {
    hide Product, Select;
    var m, u := Product(Select(shape, mask, true)), Product(Select(shape, mask, false));
    SelectPositive(shape, mask, true);
    ProductPositive(Select(shape, mask, true));
    WorldSplits(shape, mask);
    JoinDigit(0, m, u);
  }

  // A group of a mask and a group of the complementary mask meet in exactly one rank.
  lemma MeetOnce(shape: seq<nat>, mask: seq<bool>, g: nat, h: nat, rank: nat)
    requires Positive(shape) && |mask| == |shape| && rank < Product(shape)
    requires g < Product(Select(shape, mask, false)) && h < Product(Select(shape, Flip(mask), false))
    ensures Place(shape, mask, g, h) < Product(shape)
    ensures GroupOf(shape, mask, rank) == g && GroupOf(shape, Flip(mask), rank) == h <==>
            rank == Place(shape, mask, g, h)
  {
    hide Place, GroupOf, Select, Product;
    SelectFlip(shape, mask, false);
    PlaceThenGroup(shape, mask, g, h);
    GroupThenPlace(shape, mask, rank);
  }

  // ---------- groups and digits ----------

  lemma {:induction false} DigitsLength(x: nat, shape: seq<nat>)
    requires Positive(shape)
    ensures |Digits(x, shape)| == |shape|
    decreases |shape|
  {
    if shape != [] { DigitsLength(Div(x, shape[0]), shape[1..]); }
  }

  // The ranks agree on the digits the mask does not select.
  ghost predicate AgreeOutside(shape: seq<nat>, mask: seq<bool>, a: nat, b: nat)
    requires Positive(shape) && |mask| == |shape|
  {
    && |Digits(a, shape)| == |Digits(b, shape)| == |shape|
    && forall k :: 0 <= k < |shape| && !mask[k] ==> Digits(a, shape)[k] == Digits(b, shape)[k]
  }

  // Two ranks share a group exactly when their unselected digits agree.
  lemma {:induction false} SameGroupIff(shape: seq<nat>, mask: seq<bool>, a: nat, b: nat)
    requires Positive(shape) && |mask| == |shape|
    ensures GroupOf(shape, mask, a) == GroupOf(shape, mask, b) <==> AgreeOutside(shape, mask, a, b)
    decreases |shape|
  {
    hide Mul, Div, Mod;
    DigitsLength(a, shape);
    DigitsLength(b, shape);
    if shape != [] {
      var s, tail, bits := shape[0], shape[1..], mask[1..];
      SameGroupIff(tail, bits, Div(a, s), Div(b, s));
      SplitDigit(a, s);
      SplitDigit(b, s);
      JoinDigit(Mod(a, s), s, GroupOf(tail, bits, Div(a, s)));
      JoinDigit(Mod(b, s), s, GroupOf(tail, bits, Div(b, s)));
      ShiftAgree(shape, mask, a, b);
    }
  }

  lemma ShiftAgree(shape: seq<nat>, mask: seq<bool>, a: nat, b: nat)
    requires Positive(shape) && |mask| == |shape| && shape != []
    ensures var s := shape[0];
            AgreeOutside(shape, mask, a, b) <==>
            (mask[0] || Mod(a, s) == Mod(b, s)) && AgreeOutside(shape[1..], mask[1..], Div(a, s), Div(b, s))
  {
    hide Mul, Div, Mod;
    var s, tail, bits := shape[0], shape[1..], mask[1..];
    DigitsLength(a, shape);
    DigitsLength(b, shape);
    var x, y := Digits(a, shape), Digits(b, shape);
    assert x[1..] == Digits(Div(a, s), tail) && y[1..] == Digits(Div(b, s), tail);
    if AgreeOutside(tail, bits, Div(a, s), Div(b, s)) && (mask[0] || x[0] == y[0]) {
      forall k | 0 <= k < |shape| && !mask[k]
        ensures x[k] == y[k]
      {
        if k > 0 { assert x[1..][k - 1] == y[1..][k - 1] && !bits[k - 1]; }
      }
    }
    if AgreeOutside(shape, mask, a, b) {
      forall k | 0 <= k < |tail| && !bits[k]
        ensures x[1..][k] == y[1..][k]
      {
        assert !mask[k + 1];
      }
    }
  }
}
