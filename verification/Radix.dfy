/** Arithmetic shared by the parts: minima, and products and quotients with the facts about them. */
module Radix {

  // q is the quotient of x by d when the remainder fits.
  lemma QuotientIs(x: int, d: int, q: int)
    requires d > 0 && q * d <= x < q * d + d
    ensures x / d == q && x % d == x - q * d
  {
    var e := x / d - q;
    assert x == d * (x / d) + x % d;
    if e > 0 { Larger(d, e); } else if e < 0 { Larger(d, -e); }
    assert d * (x / d) == d * q + d * e by { Spread(d, q, e); }
    assert q * d == d * q;
  }

  lemma Larger(d: int, e: int)
    requires d > 0 && e > 0
    ensures d * e >= d
  {
  }

  lemma Spread(d: int, a: int, b: int)
    ensures d * (a + b) == d * a + d * b
  {
  }

  lemma MulLess(a: int, b: int, s: int)
    requires 0 <= a < b && s > 0
    ensures a * s + s <= b * s
  {
    var e := b - a - 1;
    assert b * s == a * s + s + e * s;
    assert e * s >= 0;
  }

  // Splitting a division by a product, and the remainder that goes with it.
  lemma DivMod(x: nat, s: nat, p: nat)
    requires s > 0 && p > 0
    ensures s * p > 0
    ensures x / (s * p) == x / s / p
    ensures x % (s * p) == x % s + s * ((x / s) % p)
  {
    var y := x / s;
    var q, r := y / p, y % p;
    assert x == s * y + x % s;
    assert y == p * q + r;
    assert s * (p * q + r) == s * (p * q) + s * r by { Spread(s, p * q, r); }
    assert s * (p * q) == q * (s * p) by { Reorder(s, p, q); }
    assert s * r + s <= s * p by { MulLess(r, p, s); }
    QuotientIs(x, s * p, q);
  }

  lemma Reorder(s: int, p: int, q: int)
    ensures s * (p * q) == q * (s * p)
    ensures s > 0 && p > 0 ==> s * p > 0
  {
  }

  lemma Small(x: nat, p: nat)
    requires p > 0
    ensures x % p == x <==> x < p
  {
  }

  function Min(x: int, y: int): int { if x < y then x else y }

  // Products and quotients by name: the proofs about digits use them through the lemmas below only.

  function Mul(x: nat, y: nat): nat { x * y }

  function Div(x: nat, d: nat): nat
    requires d > 0
  {
    x / d
  }

  function Mod(x: nat, d: nat): nat
    requires d > 0
  {
    x % d
  }

  lemma MulPositive(x: nat, y: nat)
    ensures x > 0 && y > 0 ==> Mul(x, y) > 0
    ensures Mul(x, 1) == x && Mul(1, x) == x && Mul(0, x) == 0
  {
    Reorder(x, y, 1);
  }

  lemma MulAssociates(x: nat, y: nat, z: nat)
    ensures Mul(Mul(x, y), z) == Mul(x, Mul(y, z))
  {
  }

  lemma DivByProduct(x: nat, s: nat, p: nat)
    requires s > 0 && p > 0
    ensures Mul(s, p) > 0
    ensures Div(x, Mul(s, p)) == Div(Div(x, s), p)
    ensures Mod(x, Mul(s, p)) == Mod(x, s) + Mul(s, Mod(Div(x, s), p))
  {
    DivMod(x, s, p);
  }

  // A number from its lowest digit and the rest, and back.
  lemma SplitDigit(x: nat, s: nat)
    requires s > 0
    ensures x == Mod(x, s) + Mul(s, Div(x, s)) && Mod(x, s) < s && (s == 1 ==> Div(x, s) == x)
  {
  }

  lemma JoinDigit(a: nat, s: nat, y: nat)
    requires a < s
    ensures Mod(a + Mul(s, y), s) == a && Div(a + Mul(s, y), s) == y
  {
    QuotientIs(a + s * y, s, y);
  }

  lemma JoinBelow(a: nat, s: nat, y: nat, p: nat)
    requires a < s && y < p
    ensures a + Mul(s, y) < Mul(s, p)
  {
    MulLess(y, p, s);
  }

  lemma DivBelow(x: nat, s: nat, p: nat)
    requires s > 0 && x < Mul(s, p)
    ensures Div(x, s) < p
  {
    SplitDigit(x, s);
    var y := Div(x, s);
    if y > p { MulLess(p, y, s); }
  }

  lemma Regroup(a: nat, s: nat, r: nat, d: nat)
    ensures Mul(a, d) + Mul(r, Mul(d, s)) == Mul(a + Mul(s, r), d)
  {
    assert r * (d * s) == s * r * d;
  }

  lemma MulNext(d: nat, q: nat)
    ensures Mul(d, q + 1) == Mul(d, q) + d && Mul(q + 1, d) == Mul(q, d) + d
  {
  }

  lemma MulZero(x: nat)
    ensures Mul(x, 0) == 0 && Mul(0, x) == 0
  {
  }

  lemma MulCommutes(x: nat, y: nat)
    ensures Mul(x, y) == Mul(y, x)
  {
  }

  lemma MulMonotone(a: nat, b: nat, d: nat)
    requires a <= b
    ensures Mul(a, d) <= Mul(b, d) && Mul(d, a) <= Mul(d, b)
  {
    MulCommutes(a, d);
    MulCommutes(b, d);
    if a < b && d > 0 { MulLess(a, b, d); }
  }
}
