/** Iteration over a Go map: any duplicate-free listing of its keys is a possible order. */
module Enumeration {
  predicate Distinct<T(==)>(xs: seq<T>) {
    forall i, j | 0 <= i < j < |xs| :: xs[i] != xs[j]
  }

  predicate Enumerates<T(==)>(xs: seq<T>, s: set<T>) {
    && Distinct(xs)
    && (forall x | x in xs :: x in s)
    && (forall x | x in s :: x in xs)
  }

  lemma DistinctConcat<T>(a: seq<T>, b: seq<T>)
    requires Distinct(a) && Distinct(b) && forall x | x in a :: x !in b
    ensures Distinct(a + b)
  {
    var ab := a + b;
    forall i, j | 0 <= i < j < |ab| ensures ab[i] != ab[j] {
      if i < |a| <= j {
        assert ab[i] in a && ab[j] in b;
      }
    }
  }

  lemma {:induction false} EnumerationSize<T>(xs: seq<T>, s: set<T>)
    requires Enumerates(xs, s)
    ensures |xs| == |s|
  {
    if xs == [] {
      assert s == {};
    } else {
      var rest, less := xs[1..], s - {xs[0]};
      forall x | x in less ensures x in rest {
        var i :| 0 <= i < |xs| && xs[i] == x;
        assert rest[i - 1] == x;
      }
      EnumerationSize(rest, less);
    }
  }

  /** Visits the members of a set in an order the caller cannot predict. */
  method Iterate<T(==)>(s: set<T>) returns (order: seq<T>)
    ensures Enumerates(order, s)
  {
    order := [];
    var rest := s;
    while rest != {}
      invariant rest <= s
      invariant Enumerates(order, s - rest)
      decreases rest
    {
      var x :| x in rest;
      order, rest := order + [x], rest - {x};
    }
    assert s - rest == s;
  }
}
