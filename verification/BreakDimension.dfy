/**
  Splitting a physical dimension so that the first dimensions hold a model-parallel group.
*/
module BreakDimension {
  import opened Radix
  import opened RankGroups

  // The boundary: none, after dimension k, or inside dimension k, which is split into `inner` and `outer`.
  datatype Boundary = NoBoundary | After(k: nat) | Inside(k: nat, inner: nat, outer: nat)

  // The dimensions of the topology that is built.
  function LogicalDims(dims: seq<nat>, b: Boundary): seq<nat>
    requires b.Inside? ==> b.k < |dims|
  {
    if b.Inside? then dims[..b.k] + [b.inner, b.outer] + dims[b.k + 1..] else dims
  }

  // The dimensions up to the boundary, which the workload marks as model-parallel.
  function ModelDims(dims: seq<nat>, b: Boundary): seq<nat>
    requires b.NoBoundary? || b.k < |dims|
  {
    if b.NoBoundary? then [] else LogicalDims(dims, b)[..b.k + 1]
  }

  predicate BoundaryOf(dims: seq<nat>, group: nat, b: Boundary)
    requires Positive(dims)
  {
    match b
    case NoBoundary => group == 1 || Product(dims) < group
    case After(k) => k < |dims| && Product(dims[..k]) < group == Product(dims[..k + 1])
    case Inside(k, inner, outer) =>
      && k < |dims| && Product(dims[..k]) < group < Product(dims[..k + 1])
      && PrefixProductPositive(dims, k)
      && inner == Div(group, Product(dims[..k])) && inner > 0 && outer == Div(dims[k], inner)
  }

  predicate PrefixProductPositive(dims: seq<nat>, k: nat)
    requires k <= |dims|
  {
    Product(dims[..k]) > 0
  }

  method FindBoundary(dims: seq<nat>, group: nat) returns (b: Boundary)
    requires Positive(dims) && group > 0
    ensures BoundaryOf(dims, group, b)
  {
    assert Product(dims[..0]) == 1;
    hide Mul, Div, Product;
    if group == 1 {
      return NoBoundary;
    }
    var allNpus := 1;
    for k := 0 to |dims|
      invariant allNpus == Product(dims[..k]) && allNpus < group
    {
      NextProduct(dims, k);
      var next := Mul(allNpus, dims[k]);
      if next < group {
        allNpus := next;
      } else if next > group {
        InnerFits(allNpus, dims[k], group);
        var inner := Div(group, allNpus);
        return Inside(k, inner, Div(dims[k], inner));
      } else {
        return After(k);
      }
    }
    assert dims[..|dims|] == dims;
    b := NoBoundary;
  }

  lemma NextProduct(dims: seq<nat>, k: nat)
    requires Positive(dims) && k < |dims|
    ensures Product(dims[..k + 1]) == Mul(Product(dims[..k]), dims[k]) && Product(dims[..k]) > 0
  {
    assert dims[..k + 1] == dims[..k] + [dims[k]];
    ProductConcat(dims[..k], [dims[k]]);
    MulPositive(dims[k], 1);
    ProductPositive(dims[..k]);
  }

  // The group needs at least one and at most all of the nodes of the dimension it ends in.
  lemma InnerFits(all: nat, d: nat, group: nat)
    requires 0 < all < group < Mul(all, d)
    ensures 1 <= Div(group, all) < d
  {
    hide Mul;
    SplitDigit(group, all);
    MulPositive(all, 1);
    MulZero(all);
    DivBelow(group, all, d);
  }

  lemma {:induction false} PrefixMonotone(dims: seq<nat>, i: nat, j: nat)
    requires Positive(dims) && i <= j <= |dims|
    ensures 0 < Product(dims[..i]) <= Product(dims[..j])
    decreases j
  {
    hide Mul, Product;
    if i < j {
      PrefixMonotone(dims, i, j - 1);
      NextProduct(dims, j - 1);
      MulMonotone(1, dims[j - 1], Product(dims[..j - 1]));
      MulPositive(Product(dims[..j - 1]), 1);
    } else {
      ProductPositive(dims[..i]);
    }
  }

  // The boundary is at the dimension where the nodes of the dimensions so far reach the group.
  lemma BoundaryAt(dims: seq<nat>, group: nat, b: Boundary, k: nat)
    requires Positive(dims) && BoundaryOf(dims, group, b)
    requires k < |dims| && Product(dims[..k]) < group <= Product(dims[..k + 1])
    ensures !b.NoBoundary? && b.k == k && (b.After? <==> Product(dims[..k + 1]) == group)
  {
    hide Mul, Div, Product;
    assert dims[..|dims|] == dims;
    PrefixMonotone(dims, 0, k);
    PrefixMonotone(dims, k + 1, |dims|);
    assert dims[..0] == [] && Product([]) == 1 by { NoFactor(); }
    if !b.NoBoundary? {
      if b.k < k { PrefixMonotone(dims, b.k + 1, k); }
      if k < b.k { PrefixMonotone(dims, k + 1, b.k); }
    }
  }

  lemma NoFactor()
    ensures Product([]) == 1
  {
  }

  // The group ends in dimension k, after p nodes of the dimensions before it.  What the dimensions up to the boundary
  // hold is the group exactly when p divides the group; and the number of nodes is kept exactly when the part of the
  // group that is in dimension k divides the dimension.
  lemma GroupHolds(dims: seq<nat>, group: nat, b: Boundary, k: nat)
    requires Positive(dims) && BoundaryOf(dims, group, b)
    requires k < |dims| && Product(dims[..k]) < group <= Product(dims[..k + 1])
    ensures !b.NoBoundary? && b.k == k
    ensures var p := Product(dims[..k]);
            && p > 0 && Div(group, p) > 0
            && (Product(ModelDims(dims, b)) == group <==> Mod(group, p) == 0)
            && (Product(LogicalDims(dims, b)) == Product(dims) <==> Mod(dims[k], Div(group, p)) == 0)
  {
    hide Mul, Div, Mod, Product;
    BoundaryAt(dims, group, b, k);
    if b.Inside? {
      InsideHolds(dims, group, b);
    } else {
      NextProduct(dims, k);
      JoinDigit(0, Product(dims[..k]), dims[k]);
      JoinDigit(0, dims[k], 1);
      MulPositive(dims[k], 1);
    }
  }

  lemma InsideHolds(dims: seq<nat>, group: nat, b: Boundary)
    requires Positive(dims) && BoundaryOf(dims, group, b) && b.Inside?
    ensures Product(ModelDims(dims, b)) == group <==> Mod(group, Product(dims[..b.k])) == 0
    ensures Product(LogicalDims(dims, b)) == Product(dims) <==> Mod(dims[b.k], b.inner) == 0
  {
    hide Mul, Div, Mod, Product;
    var k, before, after := b.k, dims[..b.k], dims[b.k + 1..];
    NextProduct(dims, k);
    var p := Product(before);
    assert ModelDims(dims, b) == before + [b.inner];
    ProductConcat(before, [b.inner]);
    Single(b.inner);
    SplitDigit(group, p);
    assert LogicalDims(dims, b) == before + ([b.inner, b.outer] + after);
    assert dims == before + ([dims[k]] + after);
    ProductConcat(before, [b.inner, b.outer] + after);
    ProductConcat(before, [dims[k]] + after);
    ProductConcat([b.inner, b.outer], after);
    ProductConcat([dims[k]], after);
    Single(dims[k]);
    TwoFactors(b.inner, b.outer);
    SplitDigit(dims[k], b.inner);
    ProductPositive(after);
    SameFactor(p, Mul(Mul(b.inner, b.outer), Product(after)), Mul(dims[k], Product(after)));
    SameFactor(Product(after), Mul(b.inner, b.outer), dims[k]);
    MulCommutes(Product(after), Mul(b.inner, b.outer));
    MulCommutes(Product(after), dims[k]);
  }

  lemma TwoFactors(x: nat, y: nat)
    ensures Product([x, y]) == Mul(x, y)
  {
    assert [x, y][1..] == [y];
    Single(y);
  }

  lemma SameFactor(p: nat, x: nat, y: nat)
    requires p > 0
    ensures Mul(p, x) == Mul(p, y) <==> x == y
  {
    if x < y { MulLess(x, y, p); }
    if y < x { MulLess(y, x, p); }
  }

  // Both can fail: a group of 6 over dimensions of 4 and 4 is given 4 nodes, and one of 5 over a single dimension
  // of 8 leaves 5 of the 8 nodes.
  lemma SplitsLose()
    ensures BoundaryOf([4, 4], 6, Inside(1, 1, 4)) && Product(ModelDims([4, 4], Inside(1, 1, 4))) == 4
    ensures BoundaryOf([8], 5, Inside(0, 5, 1)) && Product(LogicalDims([8], Inside(0, 5, 1))) == 5
  {
    var a := [4, 4];
    assert a[..1] == [4] && a[..2] == a && a[..0] == [] && a[2..] == [];
    Single(4);
    TwoFactors(4, 4);
    assert LogicalDims(a, Inside(1, 1, 4)) == [4, 1, 4] && ModelDims(a, Inside(1, 1, 4)) == [4, 1];
    TwoFactors(4, 1);
    var b: seq<nat> := [8];
    assert b[..0] == [] && b[..1] == b && b[1..] == [];
    Single(8);
    assert LogicalDims(b, Inside(0, 5, 1)) == [5, 1];
    TwoFactors(5, 1);
  }
}
