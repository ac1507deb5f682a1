/** `getMaximum`: a loop that raises a sentinel to every larger value it meets. */
module Maximum {
  /** `Number.MIN_SAFE_INTEGER`, the value the loop starts from. */
  const MIN_SAFE_INTEGER: real := -9007199254740991.0

  /** The value the loop ends with: the sentinel, replaced by each value larger than the current one. */
  function Maximum(values: seq<real>): real
  {
    if values == [] then MIN_SAFE_INTEGER
    else
      var max := Maximum(values[..|values| - 1]);
      if max < values[|values| - 1] then values[|values| - 1] else max
  }

  /** `getMaximum(values)`. */
  method GetMaximum(values: seq<real>) returns (max: real)
    ensures max == Maximum(values)
    ensures forall i :: 0 <= i < |values| ==> values[i] <= max
    ensures MIN_SAFE_INTEGER <= max
    ensures max == MIN_SAFE_INTEGER || max in values
  {
    max := MIN_SAFE_INTEGER;
    for i := 0 to |values|
      invariant max == Maximum(values[..i])
      invariant forall j :: 0 <= j < i ==> values[j] <= max
      invariant MIN_SAFE_INTEGER <= max
      invariant max == MIN_SAFE_INTEGER || max in values[..i]
    {
      assert values[..i + 1][..i] == values[..i];
      if max < values[i] {
        max := values[i];
      }
    }
    assert values[..|values|] == values;
  }

  /** The result bounds every value and the sentinel, and is the sentinel or one of the values. */
  lemma {:induction false} MaximumBounds(values: seq<real>)
    ensures forall i :: 0 <= i < |values| ==> values[i] <= Maximum(values)
    ensures MIN_SAFE_INTEGER <= Maximum(values)
    ensures Maximum(values) == MIN_SAFE_INTEGER || Maximum(values) in values
  {
    if values != [] {
      var init := values[..|values| - 1];
      MaximumBounds(init);
      assert forall i :: 0 <= i < |init| ==> values[i] == init[i];
    }
  }

  /** When some value reaches the sentinel, the result is one of the values. */
  lemma MaximumIsAValue(values: seq<real>, k: nat)
    requires k < |values| && MIN_SAFE_INTEGER <= values[k]
    ensures Maximum(values) in values
  {
    MaximumBounds(values);
    if Maximum(values) == MIN_SAFE_INTEGER {
      assert values[k] == MIN_SAFE_INTEGER;
    }
  }

  /** The result does not depend on the order of the values. */
  lemma MaximumIgnoresOrder(values: seq<real>, reordered: seq<real>)
    requires multiset(values) == multiset(reordered)
    ensures Maximum(values) == Maximum(reordered)
  {
    MaximumBounds(values);
    MaximumBounds(reordered);
    var a, b := Maximum(values), Maximum(reordered);
    assert forall x :: x in values <==> x in reordered by {
      forall x ensures x in values <==> x in reordered {
        assert x in values <==> x in multiset(values);
        assert x in reordered <==> x in multiset(reordered);
      }
    }
    if a != MIN_SAFE_INTEGER {
      var i :| 0 <= i < |reordered| && reordered[i] == a;
    }
    if b != MIN_SAFE_INTEGER {
      var j :| 0 <= j < |values| && values[j] == b;
    }
  }

  /** The getMaximum example: [4, 5, 1, 9, 7, 8] gives 9. */
  lemma MaximumExample()
    ensures Maximum([4.0, 5.0, 1.0, 9.0, 7.0, 8.0]) == 9.0
  {
    var xs := [4.0, 5.0, 1.0, 9.0, 7.0, 8.0];
    MaximumBounds(xs);
    assert xs[3] == 9.0;
    assert Maximum(xs) in xs;
  }
}
