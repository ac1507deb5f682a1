/** `getAverage` and `getFasterAverage`: the mean of a list with a guard for the empty list. */
module Average {
  import opened Extremes

  /** The `reduce` that adds the values from left to right, starting at 0. */
  function Sum(values: seq<real>): real
  {
    if values == [] then 0.0 else Sum(values[..|values| - 1]) + values[|values| - 1]
  }

  /** `getAverage`: the sum divided by `values.length || 1`. */
  function GetAverage(values: seq<real>): (r: real)
    ensures values == [] ==> r == 0.0
    ensures values != [] ==> r * |values| as real == Sum(values)
  {
    Sum(values) / (if |values| == 0 then 1 else |values|) as real
  }

  /** `getFasterAverage`: 0 for an empty list, otherwise the sum divided by the length. */
  function GetFasterAverage(values: seq<real>): real
  {
    if |values| > 0 then Sum(values) / |values| as real else 0.0
  }

  /** Over exact arithmetic both versions compute the same mean. */
  lemma FasterAverageAgrees(values: seq<real>)
    ensures GetFasterAverage(values) == GetAverage(values)
  {
  }

  /** A sum of values that are all at least 0 is at least 0, and is 0 exactly when every value is. */
  lemma {:induction false} SumZeroExactly(values: seq<real>)
    requires forall i :: 0 <= i < |values| ==> 0.0 <= values[i]
    ensures 0.0 <= Sum(values)
    ensures Sum(values) == 0.0 <==> forall i :: 0 <= i < |values| ==> values[i] == 0.0
  {
    if values != [] {
      var front := values[..|values| - 1];
      SumZeroExactly(front);
      assert forall i :: 0 <= i < |front| ==> front[i] == values[i];
    }
  }

  /** The mean of values that are all at least 0 is 0 exactly when every value is. */
  lemma AverageZeroExactly(values: seq<real>)
    requires forall i :: 0 <= i < |values| ==> 0.0 <= values[i]
    ensures GetAverage(values) == 0.0 <==> forall i :: 0 <= i < |values| ==> values[i] == 0.0
  {
    SumZeroExactly(values);
    if values != [] {
      var n := |values| as real;
      assert GetAverage(values) == Sum(values) / n;
    }
  }

  /** The sum of values between `lo` and `hi` lies between `n * lo` and `n * hi`. */
  lemma {:induction false} SumBounds(values: seq<real>, lo: real, hi: real)
    requires forall i :: 0 <= i < |values| ==> lo <= values[i] <= hi
    ensures |values| as real * lo <= Sum(values) <= |values| as real * hi
  {
    if values != [] {
      SumBounds(values[..|values| - 1], lo, hi);
    }
  }

  /** The mean of a non-empty list lies between any lower and any upper bound of its values. */
  lemma AverageBetween(values: seq<real>, lo: real, hi: real)
    requires values != []
    requires forall i :: 0 <= i < |values| ==> lo <= values[i] <= hi
    ensures lo <= GetAverage(values) <= hi
  {
    SumBounds(values, lo, hi);
    var n := |values| as real;
    assert GetAverage(values) * n == Sum(values);
  }

  /** The mean lies between the smallest and the largest value of the list. */
  lemma AverageBetweenExtremes(values: seq<real>)
    requires values != []
    ensures Min(values) <= GetAverage(values) <= Max(values)
  {
    MinIsLeast(values);
    MaxIsGreatest(values);
    AverageBetween(values, Min(values), Max(values));
  }

  /** A list of equal values has that value as its mean. */
  lemma AverageOfConstant(values: seq<real>, c: real)
    requires values != []
    requires forall i :: 0 <= i < |values| ==> values[i] == c
    ensures GetAverage(values) == c
  {
    AverageBetween(values, c, c);
  }

  /** The getAverage examples: the empty list gives 0 and [20, 30, 40] gives 30. */
  lemma AverageExamples()
    ensures GetAverage([]) == 0.0
    ensures GetAverage([20.0, 30.0, 40.0]) == 30.0
  {
    var xs := [20.0, 30.0, 40.0];
    assert xs[..2] == [20.0, 30.0] && xs[..2][..1] == [20.0] && xs[..2][..1][..0] == [];
    assert Sum([20.0]) == 20.0;
    assert Sum([20.0, 30.0]) == 50.0;
    assert Sum(xs) == 90.0;
  }
}
