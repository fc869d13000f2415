/** Aligned power-of-two intervals, the positions a buddy tree can have.
    Blk(k, j) is the interval [j * 2^k, (j + 1) * 2^k); its halves and its parent are again such blocks. */
module Blocks {

  function Pow2(k: nat): (r: nat)
    ensures r >= 1
  {
    if k == 0 then 1 else 2 * Pow2(k - 1)
  }

  lemma {:induction false} Pow2Monotone(a: nat, b: nat)
    requires a < b
    ensures 2 * Pow2(a) <= Pow2(b)
    decreases b
  {
    if a + 1 < b {
      Pow2Monotone(a, b - 1);
    }
  }

  lemma Pow2Order(a: nat, b: nat)
    ensures Pow2(a) < Pow2(b) <==> a < b
    ensures Pow2(a) == Pow2(b) <==> a == b
  {
    if a < b { Pow2Monotone(a, b); }
    if b < a { Pow2Monotone(b, a); }
  }

  lemma {:induction false} Pow2Sum(a: nat, b: nat)
    ensures Pow2(a + b) == Pow2(a) * Pow2(b)
  {
    if a > 0 { Pow2Sum(a - 1, b); }
  }

  // The exponent of the least power of two that is at least x.
  function CeilLog(x: int): (k: nat)
    ensures x <= Pow2(k)
    ensures k > 0 ==> Pow2(k - 1) < x
    decreases x
  {
    if x <= 1 then 0 else HalfUp(x); CeilLog((x + 1) / 2) + 1
  }

  lemma HalfUp(x: int)
    requires x > 1
    ensures 1 <= (x + 1) / 2 < x
    ensures forall p: int :: (x + 1) / 2 <= p <==> x <= 2 * p
  {
  }

  // CeilLog is the least such exponent.
  lemma CeilLogLeast(x: int, k: nat)
    requires x <= Pow2(k)
    ensures CeilLog(x) <= k
  {
    if k < CeilLog(x) {
      if k < CeilLog(x) - 1 {
        Pow2Monotone(k, CeilLog(x) - 1);
      }
    }
  }

  datatype Blk = Blk(k: nat, j: nat) {
    function Size(): (r: nat)
      ensures r >= 1
    {
      Pow2(k)
    }

    function Start(): nat { j * Pow2(k) }

    // One past the last address.
    function End(): nat { Start() + Size() }

    function Left(): Blk
      requires k > 0
    {
      Blk(k - 1, 2 * j)
    }

    function Right(): Blk
      requires k > 0
    {
      Blk(k - 1, 2 * j + 1)
    }

    function Parent(): Blk { Blk(k + 1, j / 2) }
  }

  // c lies in the subtree of p (p itself included).
  predicate Inside(c: Blk, p: Blk)
    decreases p.k - c.k
  {
    c == p || (c.k < p.k && Inside(c.Parent(), p))
  }

  predicate Within(c: Blk, p: Blk) { p.Start() <= c.Start() && c.End() <= p.End() }

  predicate Disjoint(a: Blk, b: Blk) { a.End() <= b.Start() || b.End() <= a.Start() }

  // ---------- intervals of relatives ----------

  lemma HalfParents(b: Blk)
    requires b.k > 0
    ensures b.Left().Parent() == b && b.Right().Parent() == b
  {
  }

  lemma HalvesOf(b: Blk)
    requires b.k > 0
    ensures b.Left().Parent() == b && b.Right().Parent() == b
    ensures b.Left().Start() == b.Start() && b.Left().End() == b.Right().Start() && b.Right().End() == b.End()
  {
    var s := Pow2(b.k - 1);
    assert (2 * b.j) * s == b.j * (2 * s);
    assert (2 * b.j + 1) * s == b.j * (2 * s) + s;
  }

  lemma ParentHalves(c: Blk)
    ensures c == if c.j % 2 == 0 then c.Parent().Left() else c.Parent().Right()
    ensures Within(c, c.Parent())
  {
    HalvesOf(c.Parent());
  }

  lemma {:induction false} InsideWithin(c: Blk, p: Blk)
    requires Inside(c, p)
    ensures Within(c, p) && c.k <= p.k
    decreases p.k - c.k
  {
    if c != p {
      ParentHalves(c);
      InsideWithin(c.Parent(), p);
    }
  }

  lemma ScaledStep(i: nat, j: nat, s: nat)
    requires i < j
    ensures i * s + s <= j * s
  {
    var d := j - i - 1;
    assert j * s == (i + 1 + d) * s == i * s + s + d * s;
  }

  lemma SameLevelDisjoint(a: Blk, b: Blk)
    requires a.k == b.k && a != b
    ensures Disjoint(a, b)
  {
    if a.j < b.j {
      ScaledStep(a.j, b.j, Pow2(a.k));
    } else {
      ScaledStep(b.j, a.j, Pow2(a.k));
    }
  }

  // The classical buddy fact: two blocks are nested or disjoint.
  lemma {:induction false} NestedOrDisjoint(a: Blk, b: Blk)
    requires a.k <= b.k
    ensures Inside(a, b) <==> !Disjoint(a, b)
    ensures Inside(a, b) <==> Within(a, b)
    decreases b.k - a.k
  {
    if Inside(a, b) {
      InsideWithin(a, b);
    } else if a.k == b.k {
      SameLevelDisjoint(a, b);
    } else {
      ParentHalves(a);
      NestedOrDisjoint(a.Parent(), b);
    }
  }

  lemma {:induction false} InsideTransitive(a: Blk, b: Blk, c: Blk)
    requires Inside(a, b) && Inside(b, c)
    ensures Inside(a, c)
    decreases b.k - a.k
  {
    InsideWithin(a, b);
    InsideWithin(b, c);
    if a != b {
      InsideTransitive(a.Parent(), b, c);
    }
  }

  lemma ParentInside(a: Blk, c: Blk)
    requires Inside(a.Parent(), c)
    ensures Inside(a, c)
  {
    InsideWithin(a.Parent(), c);
  }

  lemma InsideAntisymmetric(a: Blk, b: Blk)
    requires Inside(a, b) && Inside(b, a)
    ensures a == b
  {
    InsideWithin(a, b);
    InsideWithin(b, a);
  }

  // What lies strictly inside b lies in exactly one half.
  lemma {:induction false} InsideHalf(c: Blk, b: Blk)
    requires Inside(c, b) && c != b
    ensures b.k > 0
    ensures Inside(c, b.Left()) <==> !Inside(c, b.Right())
    decreases b.k - c.k
  {
    if c.Parent() == b {
      ParentHalves(c);
    } else {
      InsideHalf(c.Parent(), b);
    }
    HalvesOf(b);
    if Inside(c, b.Left()) && Inside(c, b.Right()) {
      InsideWithin(c, b.Left());
      InsideWithin(c, b.Right());
    }
  }

  lemma HalfInside(c: Blk, b: Blk)
    requires b.k > 0
    requires Inside(c, b.Left()) || Inside(c, b.Right())
    ensures Inside(c, b) && c != b
  {
    HalvesOf(b);
    assert Inside(b.Left(), b) && Inside(b.Right(), b);
    if Inside(c, b.Left()) {
      InsideWithin(c, b.Left());
      InsideTransitive(c, b.Left(), b);
    } else {
      InsideWithin(c, b.Right());
      InsideTransitive(c, b.Right(), b);
    }
  }
}
