/** Finite sums. */
module Totals {

  ghost function Total(s: set<nat>, f: nat -> int): int
    decreases s
  {
    if s == {} then 0
    else
      var x :| x in s;
      f(x) + Total(s - {x}, f)
  }

  /** Any element may be counted first. */
  lemma {:induction false} TotalTake(s: set<nat>, f: nat -> int, x: nat)
    requires x in s
    ensures Total(s, f) == f(x) + Total(s - {x}, f)
    decreases s
  {
    var y :| y in s && Total(s, f) == f(y) + Total(s - {y}, f);
    if y != x {
      TotalTake(s - {y}, f, x);
      TotalTake(s - {x}, f, y);
      assert s - {y} - {x} == s - {x} - {y};
    }
  }

  lemma {:induction false} TotalSame(s: set<nat>, f: nat -> int, g: nat -> int)
    requires forall x :: x in s ==> f(x) == g(x)
    ensures Total(s, f) == Total(s, g)
    decreases s
  {
    if s != {} {
      var x :| x in s;
      TotalTake(s, f, x);
      TotalTake(s, g, x);
      TotalSame(s - {x}, f, g);
    }
  }

  /** Changing one summand changes the sum by as much. */
  lemma {:induction false} TotalChange(s: set<nat>, f: nat -> int, g: nat -> int, x: nat)
    requires x in s && forall y :: y in s && y != x ==> f(y) == g(y)
    ensures Total(s, g) == Total(s, f) - f(x) + g(x)
  {
    TotalTake(s, f, x);
    TotalTake(s, g, x);
    TotalSame(s - {x}, f, g);
  }

  lemma {:induction false} TotalGrow(s: set<nat>, f: nat -> int, g: nat -> int, x: nat)
    requires x !in s && forall y :: y in s ==> f(y) == g(y)
    ensures Total(s + {x}, g) == Total(s, f) + g(x)
  {
    TotalTake(s + {x}, g, x);
    assert s + {x} - {x} == s;
    TotalSame(s, f, g);
  }

  lemma {:induction false} TotalSum(s: set<nat>, f: nat -> int, g: nat -> int, h: nat -> int)
    requires forall x :: x in s ==> h(x) == f(x) + g(x)
    ensures Total(s, h) == Total(s, f) + Total(s, g)
    decreases s
  {
    if s != {} {
      var x :| x in s;
      TotalTake(s, f, x);
      TotalTake(s, g, x);
      TotalTake(s, h, x);
      TotalSum(s - {x}, f, g, h);
    }
  }

  lemma {:induction false} TotalBound(s: set<nat>, f: nat -> int, g: nat -> int)
    requires forall x :: x in s ==> f(x) <= g(x)
    ensures Total(s, f) <= Total(s, g)
    decreases s
  {
    if s != {} {
      var x :| x in s;
      TotalTake(s, f, x);
      TotalTake(s, g, x);
      TotalBound(s - {x}, f, g);
    }
  }
}
