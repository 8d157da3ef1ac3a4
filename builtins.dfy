/**
 * The few Python built-ins that the grid code leans on, with the
 * semantics Python gives them: int() applied to a float, sum() over a
 * list, and subscripting a list (negative indexes included).
 */
module Builtins {

  datatype Option<+T> = None | Some(value: T)

  /** Python's int(x) for a float x: truncation toward zero, not floor. */
  function Trunc(x: real): (r: int)
    ensures 0.0 <= x ==> 0 <= r && r as real <= x < r as real + 1.0
    ensures x < 0.0 ==> r <= 0 && r as real - 1.0 < x <= r as real
  {
    if 0.0 <= x then x.Floor else -((-x).Floor)
  }

  /**
   * The position that the Python subscript xs[i] reads in a list of
   * length n: negative indexes count from the end, and None stands for
   * the IndexError raised outside -n <= i < n.
   */
  function ListIndex(n: nat, i: int): (r: Option<nat>)
    ensures r.Some? <==> -(n as int) <= i < n
    ensures r.Some? ==> r.value < n && (r.value == i || r.value == i + n)
  {
    if 0 <= i < n then Some(i)
    else if -(n as int) <= i < 0 then Some(n + i)
    else None
  }

  /**
   * Python's sum(xs): a left fold with + starting from 0, so an empty
   * list sums to 0.
   */
  function Sum(xs: seq<real>): (total: real)
    ensures xs == [] ==> total == 0.0
  {
    if xs == [] then 0.0 else Sum(xs[..|xs| - 1]) + xs[|xs| - 1]
  }

  /** Extending the list by one element adds that element to the sum. */
  lemma SumAppend(xs: seq<real>, x: real)
    ensures Sum(xs + [x]) == Sum(xs) + x
  {
    assert (xs + [x])[..|xs|] == xs;
  }

  /** A sum of n values that all lie in [lo, hi] lies in [n * lo, n * hi]. */
  lemma {:induction false} SumBounds(xs: seq<real>, lo: real, hi: real)
    requires forall i :: 0 <= i < |xs| ==> lo <= xs[i] <= hi
    ensures lo * |xs| as real <= Sum(xs) <= hi * |xs| as real
  {
    if xs != [] {
      var init := xs[..|xs| - 1];
      SumBounds(init, lo, hi);
    }
  }
}
