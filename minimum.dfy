/** `getMinimum`: a loop that lowers a sentinel to every smaller value it meets. */
module Minimum {
  /** `Number.MAX_SAFE_INTEGER`, the value the loop starts from. */
  const MAX_SAFE_INTEGER: real := 9007199254740991.0

  /** The value the loop ends with: the sentinel, replaced by each value smaller than the current one. */
  function Minimum(values: seq<real>): real
  {
    if values == [] then MAX_SAFE_INTEGER
    else
      var min := Minimum(values[..|values| - 1]);
      if min > values[|values| - 1] then values[|values| - 1] else min
  }

  /** `getMinimum(values)`. */
  method GetMinimum(values: seq<real>) returns (min: real)
    ensures min == Minimum(values)
    ensures forall i :: 0 <= i < |values| ==> min <= values[i]
    ensures min <= MAX_SAFE_INTEGER
    ensures min == MAX_SAFE_INTEGER || min in values
  {
    min := MAX_SAFE_INTEGER;
    for i := 0 to |values|
      invariant min == Minimum(values[..i])
      invariant forall j :: 0 <= j < i ==> min <= values[j]
      invariant min <= MAX_SAFE_INTEGER
      invariant min == MAX_SAFE_INTEGER || min in values[..i]
    {
      assert values[..i + 1][..i] == values[..i];
      if min > values[i] {
        min := values[i];
      }
    }
    assert values[..|values|] == values;
  }

  /** The result is below every value and the sentinel, and is the sentinel or one of the values. */
  lemma {:induction false} MinimumBounds(values: seq<real>)
    ensures forall i :: 0 <= i < |values| ==> Minimum(values) <= values[i]
    ensures Minimum(values) <= MAX_SAFE_INTEGER
    ensures Minimum(values) == MAX_SAFE_INTEGER || Minimum(values) in values
  {
    if values != [] {
      var init := values[..|values| - 1];
      MinimumBounds(init);
      assert forall i :: 0 <= i < |init| ==> values[i] == init[i];
    }
  }

  /** When some value is at or below the sentinel, the result is one of the values. */
  lemma MinimumIsAValue(values: seq<real>, k: nat)
    requires k < |values| && values[k] <= MAX_SAFE_INTEGER
    ensures Minimum(values) in values
  {
    MinimumBounds(values);
    if Minimum(values) == MAX_SAFE_INTEGER {
      assert values[k] == MAX_SAFE_INTEGER;
    }
  }

  /** The result does not depend on the order of the values. */
  lemma MinimumIgnoresOrder(values: seq<real>, reordered: seq<real>)
    requires multiset(values) == multiset(reordered)
    ensures Minimum(values) == Minimum(reordered)
  {
    MinimumBounds(values);
    MinimumBounds(reordered);
    var a, b := Minimum(values), Minimum(reordered);
    assert forall x :: x in values <==> x in reordered by {
      forall x ensures x in values <==> x in reordered {
        assert x in values <==> x in multiset(values);
        assert x in reordered <==> x in multiset(reordered);
      }
    }
    if a != MAX_SAFE_INTEGER {
      var i :| 0 <= i < |reordered| && reordered[i] == a;
    }
    if b != MAX_SAFE_INTEGER {
      var j :| 0 <= j < |values| && values[j] == b;
    }
  }

  /** The getMinimum example: [4, 5, 1, 9, 7, 8] gives 1. */
  lemma MinimumExample()
    ensures Minimum([4.0, 5.0, 1.0, 9.0, 7.0, 8.0]) == 1.0
  {
    var xs := [4.0, 5.0, 1.0, 9.0, 7.0, 8.0];
    MinimumBounds(xs);
    assert xs[2] == 1.0;
    assert Minimum(xs) in xs;
  }
}
