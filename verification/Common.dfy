/** Definitions shared by every part of the model. */
module Common {

  datatype Option<+T> = None | Some(value: T)

  function Min(a: int, b: int): int { if a <= b then a else b }

  function Max(a: int, b: int): int { if a >= b then a else b }

  /** The least element of a non-empty set of identifiers. */
  ghost function Least(s: set<nat>): (m: nat)
    requires s != {}
    ensures m in s && forall x :: x in s ==> m <= x
  {
    var x :| x in s;
    if s == {x} then
      x
    else
      assert s == (s - {x}) + {x};
      var m := Least(s - {x});
      if x <= m then x else m
  }

  predicate Increasing(r: seq<nat>) { forall i, j :: 0 <= i < j < |r| ==> r[i] < r[j] }

  /** The elements of a set in ascending order, each once. */
  ghost function Ascending(s: set<nat>): (r: seq<nat>)
    ensures forall x :: x in r <==> x in s
    ensures Increasing(r)
  {
    if s == {} then []
    else
      var m := Least(s);
      var rest := Ascending(s - {m});
      assert forall i | 0 <= i < |rest| :: rest[i] in rest;
      [m] + rest
  }

  lemma SubsetSize(a: set<nat>, b: set<nat>)
    requires a <= b
    ensures |a| <= |b|
  {
    assert b == a + (b - a);
  }

  lemma AscendingStep(s: set<nat>)
    ensures if s == {} then Ascending(s) == [] else Ascending(s) == [Least(s)] + Ascending(s - {Least(s)})
  {}

  lemma Regrouped(r: seq<nat>, m: nat, rest: seq<nat>)
    ensures r + ([m] + rest) == (r + [m]) + rest && [] + rest == rest && r + [] == r
  {}

  method Sorted(s: set<nat>) returns (r: seq<nat>)
    ensures r == Ascending(s)
  {
    hide Ascending;
    Regrouped([], 0, Ascending(s));
    r := [];
    var left := s;
    while left != {}
      invariant r + Ascending(left) == Ascending(s)
      decreases left
    {
      var m := LeastOf(left);
      AscendingStep(left);
      Regrouped(r, m, Ascending(left - {m}));
      r, left := r + [m], left - {m};
    }
    AscendingStep({});
    Regrouped(r, 0, []);
  }

  method LeastOf(s: set<nat>) returns (m: nat)
    requires s != {}
    ensures m == Least(s)
  {
    m :| m in s;
    var todo := s - {m};
    while todo != {}
      invariant todo <= s && m in s && forall x :: x in s && x !in todo ==> m <= x
      decreases todo
    {
      var x :| x in todo;
      todo := todo - {x};
      if x < m { m := x; }
    }
  }
}
