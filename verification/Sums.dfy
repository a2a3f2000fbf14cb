/** Sums of an integer weight over a finite set. */
module Sums {

  ghost function Pick<T>(xs: set<T>): (x: T)
    requires xs != {}
    ensures x in xs
  {
    var x :| x in xs; x
  }

  ghost function Sum<T>(xs: set<T>, weight: T -> int): int
    decreases xs
  {
    if xs == {} then 0 else weight(Pick(xs)) + Sum(xs - {Pick(xs)}, weight)
  }

  /** The order in which elements are taken does not matter. */
  lemma {:induction false} SumRemove<T>(xs: set<T>, x: T, weight: T -> int)
    requires x in xs
    ensures Sum(xs, weight) == weight(x) + Sum(xs - {x}, weight)
    decreases xs
  {
    var y := Pick(xs);
    if y != x {
      SumRemove(xs - {y}, x, weight);
      SumRemove(xs - {x}, y, weight);
      assert xs - {y} - {x} == xs - {x} - {y};
    }
  }

  lemma SumAdd<T>(xs: set<T>, x: T, weight: T -> int)
    requires x !in xs
    ensures Sum(xs + {x}, weight) == Sum(xs, weight) + weight(x)
  {
    SumRemove(xs + {x}, x, weight);
    assert xs + {x} - {x} == xs;
  }

  /** Weights that agree on the set give the same sum. */
  lemma {:induction false} SumAgrees<T>(xs: set<T>, f: T -> int, g: T -> int)
    requires forall x :: x in xs ==> f(x) == g(x)
    ensures Sum(xs, f) == Sum(xs, g)
    decreases xs
  {
    if xs != {} {
      SumAgrees(xs - {Pick(xs)}, f, g);
    }
  }

  /** Changing the weight of one element changes the sum by the difference. */
  lemma SumUpdate<T>(xs: set<T>, x: T, f: T -> int, g: T -> int)
    requires x in xs
    requires forall y :: y in xs && y != x ==> f(y) == g(y)
    ensures Sum(xs, g) == Sum(xs, f) - f(x) + g(x)
  {
    SumRemove(xs, x, f);
    SumRemove(xs, x, g);
    SumAgrees(xs - {x}, f, g);
  }

  lemma {:induction false} SumUnion<T>(xs: set<T>, ys: set<T>, weight: T -> int)
    requires xs !! ys
    ensures Sum(xs + ys, weight) == Sum(xs, weight) + Sum(ys, weight)
    decreases ys
  {
    if ys == {} {
      assert xs + ys == xs;
    } else {
      var y := Pick(ys);
      SumUnion(xs, ys - {y}, weight);
      SumRemove(xs + ys, y, weight);
      assert xs + ys - {y} == xs + (ys - {y});
    }
  }

  lemma {:induction false} SumBounds<T>(xs: set<T>, weight: T -> int)
    requires forall x :: x in xs ==> weight(x) >= 0
    ensures Sum(xs, weight) >= 0
    decreases xs
  {
    if xs != {} {
      SumBounds(xs - {Pick(xs)}, weight);
    }
  }
}
