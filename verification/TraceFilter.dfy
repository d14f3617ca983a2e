/**
  The filter with the loops and the recursion of its parser, proved to build what TraceFilterModel says.  The two
  regular expressions of a comparison are the scanning functions of the model.
*/
module TraceFilter {
  import opened Options
  import opened TraceFilterModel
  import opened TraceFilterGrammar
  import opened TraceFilterMeaning

  method SkipSpace(start: nat, s: string) returns (i: nat)
    requires start <= |s|
    ensures start <= i <= |s| && s[i..] == Skip(s[start..])
  {
    i := start;
    while i < |s| && Is(Spaces, s[i])
      invariant start <= i <= |s| && Skip(s[i..]) == Skip(s[start..])
    {
      SkipOne(s[i..]);
      assert s[i..][1..] == s[i + 1..];
      i := i + 1;
    }
    SkipNothing(s[i..]);
  }

  lemma SkipOne(s: string)
    requires s != "" && Is(Spaces, s[0])
    ensures Skip(s) == Skip(s[1..])
  {
  }

  // The place of the bracket that closes the one before `start`, or the end of the text.
  method FindClose(s: string, start: nat) returns (i: nat)
    requires start <= |s|
    ensures i == start + CloseIn(s[start..], 1)
  {
    var c := 1;
    i := start;
    while i < |s| && (s[i] != ')' || c > 1)
      invariant start <= i <= |s| && c >= 1 && i + CloseIn(s[i..], c) == start + CloseIn(s[start..], 1)
    {
      assert s[i..][1..] == s[i + 1..];
      if s[i] == '(' {
        c := c + 1;
      } else if s[i] == ')' {
        c := c - 1;
      }
      i := i + 1;
    }
  }

  method StripOuterBracket(s: string) returns (t: string)
    ensures t == Strip(s)
    decreases |s|
  {
    hide CloseIn, Skip;
    StripStep(s);
    var i := SkipSpace(0, s);
    assert s[0..] == s;
    ghost var a := Skip(s);
    if i < |s| && s[i] == '(' {
      var end := FindClose(s, i + 1);
      assert s[i + 1..] == a[1..];
      if end >= |s| {
        return s;
      }
      ghost var n := CloseIn(a[1..], 1);
      assert s[end + 1..] == a[n + 2..] && s[i + 1..end] == a[1..][..n];
      var after := SkipSpace(end + 1, s);
      if after >= |s| {
        assert Skip(a[n + 2..]) == "";
        InsideShorter(s);
        t := StripOuterBracket(s[i + 1..end]);
        return;
      }
      assert Skip(a[n + 2..]) != "";
    }
    return s;
  }

  class TraceFilter {
    var root: Option<Node>

    constructor ()
      ensures root == None
    {
      root := None;
    }

    // The record passes when it matches the expression of the filter, or the filter has no tree.
    function Test(r: Record): (ok: bool)
      reads this
      ensures root.None? ==> ok
      ensures root.Some? ==> (ok <==> Accepts(root.value, r))
      ensures forall x :: WellFormed(x) && root == Parse(Show(x)) ==> (ok <==> (AllKnown(x) ==> Matches(x, r)))
    {
      hide Accepts, Parse, Show, WellFormed, AllKnown, Matches;
      assert forall x :: WellFormed(x) && root == Parse(Show(x)) ==>
          (Passes(root, r) <==> (AllKnown(x) ==> Matches(x, r))) by {
        forall x | WellFormed(x) && root == Parse(Show(x))
          ensures Passes(root, r) <==> (AllKnown(x) ==> Matches(x, r))
        {
          FilterMeans(x, r);
        }
      }
      Passes(root, r)
    }

    method ParseFilter(expr: string)
      modifies this
      ensures root == Parse(expr)
    {
      root := ParseText(expr);
    }
  }

  method ParseText(expr: string) returns (res: Option<Node>)
    ensures res == Parse(expr)
    decreases Weight(expr), |expr|, 1
  {
    hide Strip, ScanBase, Connective, Weight, GetField, Expand, Combine, Bracketed;
    ParseStrips(expr);
    StripSmaller(expr);
    var s := StripOuterBracket(expr);
    var b := ScanBase(s);
    if b.Base? {
      BaseSmaller(s);
      if b.rest == "" {
        res := ParseComparisonText(expr, b);
        return;
      }
      var right := Connective(b.rest, false);
      if right.None? {
        return None;
      }
      ConnectiveSmaller(b.rest, false);
      var left := ParseComparisonText(expr, b);
      if left.None? {
        CombineNone(left, b.rest[0], Parse(right.value));
        return None;
      }
      var r := ParseText(right.value);
      res := Combine(left, b.rest[0], r);
      return;
    }
    var found, inside, after := FrontBracket(s);
    if !found {
      return None;
    }
    BracketedSmaller(s);
    var left := ParseText(inside);
    var right := Connective(after, true);
    if left.None? || right.None? {
      if right.Some? {
        ConnectiveSmaller(after, true);
        CombineNone(left, after[0], Parse(right.value));
      }
      return None;
    }
    ConnectiveSmaller(after, true);
    var r := ParseText(right.value);
    res := Combine(left, after[0], r);
  }

  // The bracketed expression at the front of the text, and what follows it.
  method FrontBracket(s: string) returns (found: bool, inside: string, after: string)
    ensures Bracketed(s) == if found then Some((inside, after)) else None
  {
    hide CloseIn, Skip;
    found, inside, after := false, "", "";
    var i := SkipSpace(0, s);
    assert s[0..] == s;
    ghost var a := Skip(s);
    if i >= |s| || s[i] != '(' {
      return;
    }
    var end := FindClose(s, i + 1);
    assert s[i + 1..] == a[1..];
    if end >= |s| {
      return;
    }
    ghost var n := CloseIn(a[1..], 1);
    assert s[end + 1..] == a[n + 2..] && s[i + 1..end] == a[1..][..n];
    var k := SkipSpace(end + 1, s);
    found, inside, after := true, s[i + 1..end], s[k..];
  }

  lemma CombineNone(left: Option<Node>, op: char, right: Option<Node>)
    requires left.None?
    ensures Combine(left, op, right) == None
  {
  }

  // A known field, or else a shorthand.
  method ParseComparisonText(expr: string, b: Base) returns (res: Option<Node>)
    requires b.Base? && Weight(b.field) <= Weight(expr)
    ensures res == Atom(b.field, b.op, b.value)
    decreases Weight(expr), |expr|, 0
  {
    hide Weight, GetField, Expand, Parse;
    var f := GetField(b.field, b.op, b.value);
    if f.Some? {
      return Some(Leaf(f.value));
    }
    var text := Expand(b.field, b.op, b.value);
    if text.None? {
      return None;
    }
    ExpandLighter(b.field, b.op, b.value);
    res := ParseText(text.value);
  }
}
