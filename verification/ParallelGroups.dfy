/**
  The groups of the parallel dimensions: what RankGenerator asks the group generator for, how expert and data
  parallel groups refine each other, and where a rank stands in its pipeline group.
*/
module ParallelGroups {
  import opened Radix
  import opened RankGroups
  import opened Pipeline

  datatype Token = Tp | Cp | Ep | Dp | Pp

  datatype Sizes = Sizes(tp: nat, cp: nat, ep: nat, dp: nat, pp: nat)
  {
    predicate Valid() { tp > 0 && cp > 0 && ep > 0 && dp > 0 && pp > 0 }

    function Of(t: Token): nat {
      match t
      case Tp => tp
      case Cp => cp
      case Ep => ep
      case Dp => dp
      case Pp => pp
    }

    function WorldSize(): nat { Mul(Mul(Mul(tp, dp), pp), cp) }
  }

  // The sizes in rank order, once with the data parallel size split by the expert parallel size ...
  function OrderedSizesWithEp(s: Sizes, order: seq<Token>): seq<nat>
    requires s.Valid()
  {
    if order == [] then []
    else [if order[0] == Dp then Div(s.dp, s.ep) else s.Of(order[0])] + OrderedSizesWithEp(s, order[1..])
  }

  // ... and once without the expert dimension.
  function OrderedSizesWithoutEp(s: Sizes, order: seq<Token>): seq<nat> {
    if order == [] then []
    else (if order[0] == Ep then [] else [s.Of(order[0])]) + OrderedSizesWithoutEp(s, order[1..])
  }

  method OrderedSizes(s: Sizes, order: seq<Token>) returns (withEp: seq<nat>, withoutEp: seq<nat>)
    requires s.Valid()
    ensures withEp == OrderedSizesWithEp(s, order) && withoutEp == OrderedSizesWithoutEp(s, order)
  {
    hide OrderedSizesWithEp, OrderedSizesWithoutEp;
    NoSizes(s);
    withEp, withoutEp := [], [];
    assert order[0..] == order;
    for k := 0 to |order|
      invariant withEp + OrderedSizesWithEp(s, order[k..]) == OrderedSizesWithEp(s, order)
      invariant withoutEp + OrderedSizesWithoutEp(s, order[k..]) == OrderedSizesWithoutEp(s, order)
    {
      OrderedStep(s, order, k);
      if order[k] == Dp {
        withEp := withEp + [Div(s.dp, s.ep)];
        withoutEp := withoutEp + [s.dp];
      } else if order[k] == Ep {
        withEp := withEp + [s.ep];
      } else {
        withEp := withEp + [s.Of(order[k])];
        withoutEp := withoutEp + [s.Of(order[k])];
      }
    }
    assert order[|order|..] == [];
  }

  lemma OrderedStep(s: Sizes, order: seq<Token>, k: nat)
    requires s.Valid() && k < |order|
    ensures OrderedSizesWithEp(s, order[k..]) ==
            [if order[k] == Dp then Div(s.dp, s.ep) else s.Of(order[k])] + OrderedSizesWithEp(s, order[k + 1..])
    ensures OrderedSizesWithoutEp(s, order[k..]) ==
            (if order[k] == Ep then [] else [s.Of(order[k])]) + OrderedSizesWithoutEp(s, order[k + 1..])
  {
    assert order[k..][1..] == order[k + 1..];
  }

  // The order of the applyer.
  const ORDER := [Tp, Cp, Ep, Dp, Pp]

  // The mask that selects dimension k of n.
  function Only(n: nat, k: nat): seq<bool> { seq(n, j => j == k) }

  // ---------- splitting one dimension into two ----------

  // Two adjacent sizes x, y in place of x * y split that digit into its remainder and quotient by x.
  lemma {:induction false} SplitDimension(pre: seq<nat>, x: nat, y: nat, post: seq<nat>, r: nat)
    requires Positive(pre + [x, y] + post)
    ensures Mul(x, y) > 0 && Positive(pre + [Mul(x, y)] + post)
    ensures var w, o := Digits(r, pre + [x, y] + post), Digits(r, pre + [Mul(x, y)] + post);
            var m := |pre|;
            && |w| == |pre| + 2 + |post| && |o| == |pre| + 1 + |post|
            && o[m] == w[m] + Mul(x, w[m + 1]) && w[m] < x
            && o[..m] == w[..m] && o[m + 1..] == w[m + 2..]
    decreases |pre|
  {
    hide Mul, Div, Mod;
    MergedPositive(pre, x, y, post);
    var wide, narrow := pre + [x, y] + post, pre + [Mul(x, y)] + post;
    DigitsLength(r, wide);
    DigitsLength(r, narrow);
    if pre == [] {
      assert wide[1..] == [y] + post && wide[1..][1..] == post && narrow[1..] == post;
      DivByProduct(r, x, y);
      SplitDigit(r, x);
    } else {
      assert wide[1..] == pre[1..] + [x, y] + post && narrow[1..] == pre[1..] + [Mul(x, y)] + post;
      SplitDimension(pre[1..], x, y, post, Div(r, pre[0]));
    }
  }

  lemma MergedPositive(pre: seq<nat>, x: nat, y: nat, post: seq<nat>)
    requires Positive(pre + [x, y] + post)
    ensures Mul(x, y) > 0 && Positive(pre + [Mul(x, y)] + post)
  {
    hide Mul;
    var wide, narrow := pre + [x, y] + post, pre + [Mul(x, y)] + post;
    assert wide[|pre|] == x && wide[|pre| + 1] == y;
    MulPositive(x, y);
    forall k | 0 <= k < |narrow|
      ensures narrow[k] > 0
    {
      assert k > |pre| ==> narrow[k] == wide[k + 1];
      assert k < |pre| ==> narrow[k] == wide[k];
    }
  }

  // The number with given digits.
  function FromDigits(ds: seq<nat>, shape: seq<nat>): nat {
    if ds == [] || shape == [] then 0 else ds[0] + Mul(shape[0], FromDigits(ds[1..], shape[1..]))
  }

  lemma {:induction false} DigitsBack(ds: seq<nat>, shape: seq<nat>)
    requires Positive(shape) && |ds| == |shape| && forall k :: 0 <= k < |ds| ==> ds[k] < shape[k]
    ensures FromDigits(ds, shape) < Product(shape) && Digits(FromDigits(ds, shape), shape) == ds
  {
    hide Mul, Div, Mod;
    if shape != [] {
      DigitsBack(ds[1..], shape[1..]);
      var y := FromDigits(ds[1..], shape[1..]);
      JoinBelow(ds[0], shape[0], y, Product(shape[1..]));
      JoinDigit(ds[0], shape[0], y);
    }
  }

  lemma {:induction false} DigitsBound(r: nat, shape: seq<nat>)
    requires Positive(shape)
    ensures |Digits(r, shape)| == |shape| && forall k :: 0 <= k < |shape| ==> Digits(r, shape)[k] < shape[k]
    decreases |shape|
  {
    hide Mul, Div, Mod;
    if shape != [] {
      SplitDigit(r, shape[0]);
      DigitsBound(Div(r, shape[0]), shape[1..]);
    }
  }

  lemma {:induction false} DigitsDetermine(a: nat, b: nat, shape: seq<nat>)
    requires Positive(shape) && a < Product(shape) && b < Product(shape) && Digits(a, shape) == Digits(b, shape)
    ensures a == b
    decreases |shape|
  {
    hide Mul, Div, Mod;
    if shape != [] {
      var s, p := shape[0], Product(shape[1..]);
      DivBelow(a, s, p);
      DivBelow(b, s, p);
      SplitDigit(a, s);
      SplitDigit(b, s);
      var x, y := Digits(a, shape), Digits(b, shape);
      assert x[1..] == Digits(Div(a, s), shape[1..]) && y[1..] == Digits(Div(b, s), shape[1..]);
      assert x[0] == y[0];
      DigitsDetermine(Div(a, s), Div(b, s), shape[1..]);
    }
  }

  // ---------- expert and data parallel groups ----------

  // The ranks share the group of dimension k.
  ghost predicate Share(shape: seq<nat>, k: nat, a: nat, b: nat)
    requires Positive(shape)
  {
    GroupOf(shape, Only(|shape|, k), a) == GroupOf(shape, Only(|shape|, k), b)
  }

  lemma ShareIff(shape: seq<nat>, k: nat, a: nat, b: nat)
    requires Positive(shape)
    ensures |Digits(a, shape)| == |Digits(b, shape)| == |shape|
    ensures Share(shape, k, a, b) <==>
            forall j :: 0 <= j < |shape| && j != k ==> Digits(a, shape)[j] == Digits(b, shape)[j]
  {
    hide GroupOf, Digits;
    DigitsLength(a, shape);
    DigitsLength(b, shape);
    SameGroupIff(shape, Only(|shape|, k), a, b);
  }

  // With one dimension of size x * y split into x and y (expert and expert-independent data parallelism, in
  // either order), ranks that share one of the finer groups share the full group: the full group is
  // a disjoint union of finer groups of either kind.
  lemma FinerGroups(pre: seq<nat>, x: nat, y: nat, post: seq<nat>, a: nat, b: nat)
    requires Positive(pre + [x, y] + post)
    ensures Positive(pre + [Mul(x, y)] + post)
    ensures var wide, narrow, m := pre + [x, y] + post, pre + [Mul(x, y)] + post, |pre|;
            Share(wide, m, a, b) || Share(wide, m + 1, a, b) ==> Share(narrow, m, a, b)
  {
    hide Mul, Digits, Share;
    MergedPositive(pre, x, y, post);
    var wide, narrow, m := pre + [x, y] + post, pre + [Mul(x, y)] + post, |pre|;
    ShareIff(wide, m, a, b);
    ShareIff(wide, m + 1, a, b);
    ShareIff(narrow, m, a, b);
    NarrowAgree(pre, x, y, post, a, b);
  }

  // Agreeing on all digits but the split ones, in either numbering.
  lemma NarrowAgree(pre: seq<nat>, x: nat, y: nat, post: seq<nat>, a: nat, b: nat)
    requires Positive(pre + [x, y] + post)
    ensures Positive(pre + [Mul(x, y)] + post)
    ensures var wide, narrow, m := pre + [x, y] + post, pre + [Mul(x, y)] + post, |pre|;
            var wa, wb, oa, ob := Digits(a, wide), Digits(b, wide), Digits(a, narrow), Digits(b, narrow);
            && |wa| == |wb| == |wide| && |oa| == |ob| == |narrow|
            && ((forall j :: 0 <= j < |narrow| && j != m ==> oa[j] == ob[j]) <==>
                (forall j :: 0 <= j < |wide| && j != m && j != m + 1 ==> wa[j] == wb[j]))
  {
    hide Mul, Digits;
    SplitDimension(pre, x, y, post, a);
    SplitDimension(pre, x, y, post, b);
    var wide, narrow, m := pre + [x, y] + post, pre + [Mul(x, y)] + post, |pre|;
    var wa, wb, oa, ob := Digits(a, wide), Digits(b, wide), Digits(a, narrow), Digits(b, narrow);
    if forall j :: 0 <= j < |narrow| && j != m ==> oa[j] == ob[j] {
      forall j | 0 <= j < |wide| && j != m && j != m + 1
        ensures wa[j] == wb[j]
      {
        if j < m {
          assert wa[j] == oa[..m][j] && wb[j] == ob[..m][j];
        } else {
          assert wa[j] == oa[m + 1..][j - m - 2] && wb[j] == ob[m + 1..][j - m - 2];
        }
      }
    }
    if forall j :: 0 <= j < |wide| && j != m && j != m + 1 ==> wa[j] == wb[j] {
      forall j | 0 <= j < |narrow| && j != m
        ensures oa[j] == ob[j]
      {
        if j < m {
          assert oa[j] == wa[..m][j] && ob[j] == wb[..m][j];
        } else {
          assert oa[j] == wa[m + 2..][j - m - 1] && ob[j] == wb[m + 2..][j - m - 1];
        }
      }
    }
  }

  // Inside one full group, a finer group of the one kind and one of the other kind cross in exactly one rank:
  // `c` shares a's group of the first kind and b's of the second, and no other rank does.
  lemma FinerGroupsCross(pre: seq<nat>, x: nat, y: nat, post: seq<nat>, a: nat, b: nat) returns (c: nat)
    requires Positive(pre + [x, y] + post) && Positive(pre + [Mul(x, y)] + post)
    requires Share(pre + [Mul(x, y)] + post, |pre|, a, b)
    ensures var wide, m := pre + [x, y] + post, |pre|;
            && c < Product(wide)
            && (forall r: nat :: r < Product(wide) ==> (Share(wide, m, a, r) && Share(wide, m + 1, b, r) <==> r == c))
  {
    hide Mul, Digits, Share, FromDigits, Product;
    var wide, narrow, m := pre + [x, y] + post, pre + [Mul(x, y)] + post, |pre|;
    ShareIff(narrow, m, a, b);
    NarrowAgree(pre, x, y, post, a, b);
    DigitsBound(a, wide);
    DigitsBound(b, wide);
    var wa, wb := Digits(a, wide), Digits(b, wide);
    var ds := wa[m := wb[m]];
    DigitsBack(ds, wide);
    c := FromDigits(ds, wide);
    forall r: nat | r < Product(wide)
      ensures Share(wide, m, a, r) && Share(wide, m + 1, b, r) <==> r == c
    {
      ShareIff(wide, m, a, r);
      ShareIff(wide, m + 1, b, r);
      var wr := Digits(r, wide);
      if Share(wide, m, a, r) && Share(wide, m + 1, b, r) {
        assert wr == ds;
        DigitsDetermine(r, c, wide);
      }
    }
  }

  // ---------- the applyer's groups ----------

  lemma NextSize(s: Sizes, t: Token, rest: seq<Token>)
    requires s.Valid()
    ensures OrderedSizesWithEp(s, [t] + rest) == [if t == Dp then Div(s.dp, s.ep) else s.Of(t)] + OrderedSizesWithEp(s, rest)
    ensures OrderedSizesWithoutEp(s, [t] + rest) == (if t == Ep then [] else [s.Of(t)]) + OrderedSizesWithoutEp(s, rest)
  {
    assert ([t] + rest)[1..] == rest;
  }

  // The applyer's order with the two lists of sizes it stands for.
  lemma ApplyerShapes(s: Sizes)
    requires s.Valid()
    ensures OrderedSizesWithEp(s, ORDER) == [s.tp, s.cp] + [s.ep, Div(s.dp, s.ep)] + [s.pp]
    ensures OrderedSizesWithoutEp(s, ORDER) == [s.tp, s.cp] + [s.dp] + [s.pp]
  {
    hide Div, OrderedSizesWithEp, OrderedSizesWithoutEp;
    NextSize(s, Tp, [Cp, Ep, Dp, Pp]);
    NextSize(s, Cp, [Ep, Dp, Pp]);
    NextSize(s, Ep, [Dp, Pp]);
    NextSize(s, Dp, [Pp]);
    NextSize(s, Pp, []);
    NoSizes(s);
    assert ORDER == [Tp] + [Cp, Ep, Dp, Pp];
    assert [Cp, Ep, Dp, Pp] == [Cp] + [Ep, Dp, Pp];
    assert [Ep, Dp, Pp] == [Ep] + [Dp, Pp];
    assert [Dp, Pp] == [Dp] + [Pp];
    assert [Pp] == [Pp] + [];
  }

  lemma NoSizes(s: Sizes)
    requires s.Valid()
    ensures OrderedSizesWithEp(s, []) == [] && OrderedSizesWithoutEp(s, []) == []
  {
  }

  // When ep divides dp: every dp group is a disjoint union of ep groups and of ep-independent dp groups, and two
  // of these of different kind in the same dp group have exactly one rank in common.
  lemma ExpertGroupsRefine(s: Sizes, a: nat, b: nat)
    requires s.Valid() && Mul(s.ep, Div(s.dp, s.ep)) == s.dp
    ensures var wide, narrow := OrderedSizesWithEp(s, ORDER), OrderedSizesWithoutEp(s, ORDER);
            && Positive(wide) && Positive(narrow) && Product(wide) == Product(narrow)
            && (Share(wide, 2, a, b) || Share(wide, 3, a, b) ==> Share(narrow, 2, a, b))
            && (Share(narrow, 2, a, b) ==> exists c: nat :: c < Product(wide) && Crossing(wide, a, b, c))
  {
    hide Mul, Div, Share;
    ApplyerShapes(s);
    var wide, narrow := OrderedSizesWithEp(s, ORDER), OrderedSizesWithoutEp(s, ORDER);
    QuotientPositive(s);
    FinerGroups([s.tp, s.cp], s.ep, Div(s.dp, s.ep), [s.pp], a, b);
    SameWorld(s);
    if Share(narrow, 2, a, b) {
      var c := FinerGroupsCross([s.tp, s.cp], s.ep, Div(s.dp, s.ep), [s.pp], a, b);
      assert Crossing(wide, a, b, c);
    }
  }

  // c is the only rank in a's ep group and in b's ep-independent dp group.
  ghost predicate Crossing(wide: seq<nat>, a: nat, b: nat, c: nat)
    requires Positive(wide)
  {
    forall r: nat :: r < Product(wide) ==> (Share(wide, 2, a, r) && Share(wide, 3, b, r) <==> r == c)
  }

  lemma QuotientPositive(s: Sizes)
    requires s.Valid() && Mul(s.ep, Div(s.dp, s.ep)) == s.dp
    ensures Div(s.dp, s.ep) > 0
    ensures Positive([s.tp, s.cp] + [s.ep, Div(s.dp, s.ep)] + [s.pp])
  {
  }

  lemma SameWorld(s: Sizes)
    requires s.Valid() && Mul(s.ep, Div(s.dp, s.ep)) == s.dp
    ensures Product([s.tp, s.cp] + [s.ep, Div(s.dp, s.ep)] + [s.pp]) == Product([s.tp, s.cp] + [s.dp] + [s.pp])
    ensures Product([s.tp, s.cp] + [s.dp] + [s.pp]) == Mul(Product([s.tp, s.cp] + [s.dp]), s.pp)
  {
    hide Mul, Div;
    var pre, mid, one, last := [s.tp, s.cp], [s.ep, Div(s.dp, s.ep)], [s.dp], [s.pp];
    ProductConcat(pre + mid, last);
    ProductConcat(pre, mid);
    ProductConcat(pre + one, last);
    ProductConcat(pre, one);
    ProductConcat([s.ep], [Div(s.dp, s.ep)]);
    assert [s.ep] + [Div(s.dp, s.ep)] == mid;
    Single(s.ep); Single(s.dp); Single(s.pp); Single(Div(s.dp, s.ep));
  }

  // ---------- the pipeline group ----------

  // In an order that ends with a dimension of size p, a rank's place in its group of that dimension is its
  // last digit.
  lemma {:induction false} LastDimension(pre: seq<nat>, p: nat, rank: nat)
    requires Positive(pre + [p])
    ensures Product(pre) > 0 && p > 0
    ensures PlaceOf(pre + [p], Only(|pre| + 1, |pre|), rank) == Mod(Div(rank, Product(pre)), p)
    decreases |pre|
  {
    hide Mul, Div, Mod;
    var shape, mask := pre + [p], Only(|pre| + 1, |pre|);
    assert Positive(pre) by { forall k | 0 <= k < |pre| ensures pre[k] > 0 { assert shape[k] == pre[k]; } }
    ProductPositive(pre);
    assert shape[|pre|] == p;
    if pre == [] {
      assert shape[1..] == [] && Flip(mask)[0] == false;
      assert GroupOf(shape[1..], Flip(mask)[1..], Div(rank, p)) == 0;
      assert Product(pre) == 1;
      NoDivision(rank, p);
    } else {
      assert shape[1..] == pre[1..] + [p];
      assert Flip(mask)[0] == true && Flip(mask)[1..] == Flip(Only(|pre|, |pre| - 1));
      ProductPositive(pre[1..]);
      LastDimension(pre[1..], p, Div(rank, pre[0]));
      DivByProduct(rank, pre[0], Product(pre[1..]));
    }
  }

  lemma NoDivision(x: nat, p: nat)
    requires p > 0
    ensures Div(x, 1) == x && Mod(x, p) + Mul(p, 0) == Mod(x, p)
  {
  }

  // The stage number the schedule generator computes from a rank is the rank's place in its pp group, for the
  // applyer's order and a world of the size of its groups (context parallel size 1 makes them the same).
  lemma PipelinePosition(s: Sizes, worldSize: nat, rank: nat)
    requires s.Valid() && worldSize == Product(OrderedSizesWithoutEp(s, ORDER)) && rank < worldSize
    ensures s.pp <= worldSize && Positive(OrderedSizesWithoutEp(s, ORDER))
    ensures GetPpRank(rank, worldSize, s.pp) == PlaceOf(OrderedSizesWithoutEp(s, ORDER), Only(4, 3), rank) < s.pp
  {
    hide Mul, PlaceOf, Mod;
    ApplyerShapes(s);
    var pre := [s.tp, s.cp] + [s.dp];
    var shape := pre + [s.pp];
    assert shape == [s.tp, s.cp, s.dp, s.pp];
    LastDimension(pre, s.pp, rank);
    ProductConcat(pre, [s.pp]);
    Single(s.pp);
    PlainDivision(rank, worldSize, Product(pre), s.pp);
  }

  lemma PlainDivision(rank: nat, worldSize: nat, q: nat, p: nat)
    requires q > 0 && p > 0 && worldSize == Mul(q, p) && rank < worldSize
    ensures p <= worldSize && worldSize / p == q && rank / q == Mod(Div(rank, q), p) < p
  {
    DivBelow(rank, q, p);
    MulLess(0, q, p);
    QuotientIs(worldSize, p, q);
    Small(Div(rank, q), p);
  }

  // The rank the applyer takes for its next (its previous) neighbour is of the stage one higher (one lower).
  lemma Neighbours(s: Sizes, worldSize: nat, g: nat, i: nat)
    requires s.Valid() && worldSize == Product(OrderedSizesWithoutEp(s, ORDER))
    requires Positive(OrderedSizesWithoutEp(s, ORDER)) && |OrderedSizesWithoutEp(s, ORDER)| == 4
    requires g < Product(Select(OrderedSizesWithoutEp(s, ORDER), Only(4, 3), false)) && i < s.pp
    ensures s.pp <= worldSize
    ensures var shape, mask := OrderedSizesWithoutEp(s, ORDER), Only(4, 3);
            && GetPpRank(Place(shape, mask, g, i), worldSize, s.pp) == i
            && (i < s.pp - 1 ==> GetPpRank(Place(shape, mask, g, (i + 1) % s.pp), worldSize, s.pp) == i + 1)
            && (i > 0 ==> GetPpRank(Place(shape, mask, g, (i - 1) % s.pp), worldSize, s.pp) == i - 1)
  {
    hide Mul, PlaceOf, Place, GetPpRank, Select, Product, OrderedSizesWithoutEp;
    StageSelected(s);
    AtPlace(s, worldSize, g, i);
    Wrap(i, s.pp);
    if i < s.pp - 1 { AtPlace(s, worldSize, g, i + 1); }
    if i > 0 { AtPlace(s, worldSize, g, i - 1); }
  }

  lemma Wrap(i: nat, p: nat)
    requires i < p
    ensures i < p - 1 ==> (i + 1) % p == i + 1
    ensures i > 0 ==> (i - 1) % p == i - 1
  {
    if i < p - 1 { Small(i + 1, p); }
    if i > 0 { Small(i - 1, p); }
  }

  lemma StageSelected(s: Sizes)
    requires s.Valid()
    ensures |OrderedSizesWithoutEp(s, ORDER)| == 4 && Positive(OrderedSizesWithoutEp(s, ORDER))
    ensures Product(Select(OrderedSizesWithoutEp(s, ORDER), Only(4, 3), true)) == s.pp
  {
    hide Mul, Product, Select;
    ApplyerShapes(s);
    var shape := [s.tp, s.cp] + [s.dp] + [s.pp];
    assert shape == [s.tp, s.cp, s.dp, s.pp];
    var m := Only(4, 3);
    assert m == [false, false, false, true];
    Skip([s.cp, s.dp, s.pp], s.tp, [false, false, true]);
    Skip([s.dp, s.pp], s.cp, [false, true]);
    Skip([s.pp], s.dp, [true]);
    assert shape == [s.tp] + [s.cp, s.dp, s.pp] && m == [false] + [false, false, true];
    assert [s.cp, s.dp, s.pp] == [s.cp] + [s.dp, s.pp] && [false, false, true] == [false] + [false, true];
    assert [s.dp, s.pp] == [s.dp] + [s.pp] && [false, true] == [false] + [true];
    LastSelected(s.pp);
    Single(s.pp);
  }

  lemma Skip(xs: seq<nat>, x: nat, mask: seq<bool>)
    ensures Select([x] + xs, [false] + mask, true) == Select(xs, mask, true)
  {
    assert ([x] + xs)[1..] == xs && ([false] + mask)[1..] == mask;
  }

  lemma LastSelected(x: nat)
    ensures Select([x], [true], true) == [x]
  {
  }

  lemma AtPlace(s: Sizes, worldSize: nat, g: nat, i: nat)
    requires s.Valid() && worldSize == Product(OrderedSizesWithoutEp(s, ORDER))
    requires Positive(OrderedSizesWithoutEp(s, ORDER)) && |OrderedSizesWithoutEp(s, ORDER)| == 4
    requires g < Product(Select(OrderedSizesWithoutEp(s, ORDER), Only(4, 3), false)) && i < s.pp
    ensures s.pp <= worldSize
    ensures GetPpRank(Place(OrderedSizesWithoutEp(s, ORDER), Only(4, 3), g, i), worldSize, s.pp) == i
  {
    hide Mul, PlaceOf, Place, GetPpRank, Select, Product;
    var shape, mask := OrderedSizesWithoutEp(s, ORDER), Only(4, 3);
    StageSelected(s);
    PlaceThenGroup(shape, mask, g, i);
    PipelinePosition(s, worldSize, Place(shape, mask, g, i));
  }
}
