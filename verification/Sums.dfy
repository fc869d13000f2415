/** Finite sums of an integer-valued function over a set, and a little arithmetic. */
module Sums {

  function Max(a: int, b: int): int { if a >= b then a else b }

  lemma NonNegativeProduct(a: int, b: int)
    requires a >= 0 && b >= 0
    ensures a * b >= 0
  {
  }

  ghost function Sum<T(!new)>(s: set<T>, f: T -> int): int {
    if s == {} then 0
    else var x :| x in s; f(x) + Sum(s - {x}, f)
  }

  // The choice made inside Sum does not matter: any element can be taken out first.
  lemma {:induction false} SumRemove<T(!new)>(s: set<T>, f: T -> int, y: T)
    requires y in s
    ensures Sum(s, f) == f(y) + Sum(s - {y}, f)
    decreases s
  {
    var x :| x in s && Sum(s, f) == f(x) + Sum(s - {x}, f);
    if x != y {
      SumRemove(s - {x}, f, y);
      SumRemove(s - {y}, f, x);
      assert s - {x} - {y} == s - {y} - {x};
    }
  }

  lemma {:induction false} SumSame<T(!new)>(s: set<T>, f: T -> int, g: T -> int)
    requires forall x :: x in s ==> f(x) == g(x)
    ensures Sum(s, f) == Sum(s, g)
    decreases s
  {
    if s != {} {
      var x :| x in s;
      SumRemove(s, f, x);
      SumRemove(s, g, x);
      SumSame(s - {x}, f, g);
    }
  }

  // Changing the summand at one point changes the sum by the same amount.
  lemma SumUpdate<T(!new)>(s: set<T>, f: T -> int, g: T -> int, y: T)
    requires y in s
    requires forall x :: x in s && x != y ==> f(x) == g(x)
    ensures Sum(s, g) - Sum(s, f) == g(y) - f(y)
  {
    SumRemove(s, f, y);
    SumRemove(s, g, y);
    SumSame(s - {y}, f, g);
  }

  lemma {:induction false} SumUnion<T(!new)>(a: set<T>, b: set<T>, f: T -> int)
    requires a !! b
    ensures Sum(a + b, f) == Sum(a, f) + Sum(b, f)
    decreases a
  {
    if a == {} {
      assert a + b == b;
    } else {
      var x :| x in a;
      SumRemove(a, f, x);
      SumRemove(a + b, f, x);
      assert a + b - {x} == (a - {x}) + b;
      SumUnion(a - {x}, b, f);
    }
  }

  lemma {:induction false} SumZero<T(!new)>(s: set<T>, f: T -> int)
    requires forall x :: x in s ==> f(x) == 0
    ensures Sum(s, f) == 0
    decreases s
  {
    if s != {} {
      var x :| x in s;
      SumRemove(s, f, x);
      SumZero(s - {x}, f);
    }
  }

  lemma {:induction false} SumAdd<T(!new)>(s: set<T>, f: T -> int, g: T -> int, h: T -> int)
    requires forall x :: x in s ==> h(x) == f(x) + g(x)
    ensures Sum(s, h) == Sum(s, f) + Sum(s, g)
    decreases s
  {
    if s != {} {
      var x :| x in s;
      SumRemove(s, f, x);
      SumRemove(s, g, x);
      SumRemove(s, h, x);
      SumAdd(s - {x}, f, g, h);
    }
  }

  lemma {:induction false} SumMonotone<T(!new)>(s: set<T>, f: T -> int, g: T -> int)
    requires forall x :: x in s ==> f(x) <= g(x)
    ensures Sum(s, f) <= Sum(s, g)
    ensures (exists x :: x in s && f(x) < g(x)) ==> Sum(s, f) < Sum(s, g)
    decreases s
  {
    if s != {} {
      var x :| x in s && ((exists z :: z in s && f(z) < g(z)) ==> f(x) < g(x));
      SumRemove(s, f, x);
      SumRemove(s, g, x);
      SumMonotone(s - {x}, f, g);
    }
  }

  lemma {:induction false} SumPositive<T(!new)>(s: set<T>, f: T -> int)
    requires forall x :: x in s ==> f(x) >= 0
    ensures Sum(s, f) >= 0
    ensures (exists x :: x in s && f(x) >= 1) ==> Sum(s, f) >= 1
    decreases s
  {
    if s != {} {
      var x :| x in s && ((exists z :: z in s && f(z) >= 1) ==> f(x) >= 1);
      SumRemove(s, f, x);
      SumPositive(s - {x}, f);
    }
  }
}
