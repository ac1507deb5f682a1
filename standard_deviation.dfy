/**
 * `getStandardDeviation(values, average?)`: the square root of the mean squared distance from a
 * middle value, where the middle is the supplied average when it is truthy and the mean otherwise.
 */
module StandardDeviation {
  import opened Outcome
  import opened Average
  import Extremes
  import Squares

  /** A `BigSource` argument: a JavaScript number or a Big instance (strings are not modelled). */
  datatype BigSource = Number(n: real) | Decimal(d: real)
  {
    function Value(): real
    {
      match this
      case Number(n) => n
      case Decimal(d) => d
    }
  }

  /** JavaScript truthiness of the optional argument: `undefined` and the number 0 are falsy, a Big instance never is. */
  predicate Truthy(average: Option<BigSource>)
  {
    match average
    case None => false
    case Some(Number(n)) => n != 0.0
    case Some(Decimal(_)) => true
  }

  /** A square root left uninterpreted: only its radicand is computed. */
  datatype Root = Sqrt(radicand: real)

  /**
   * `average || getAverage(values)`: a missing average and the number 0 give the mean of the
   * values; any Big, 0 included, and any other number are used as they are.
   */
  function Middle(values: seq<real>, average: Option<BigSource>): (middle: real)
    ensures average == None ==> middle == GetAverage(values)
    ensures average == Some(Number(0.0)) ==> middle == GetAverage(values)
    ensures average.Some? && average.value.Decimal? ==> middle == average.value.d
    ensures average.Some? && average.value.Number? && average.value.n != 0.0 ==> middle == average.value.n
  {
    if Truthy(average) then average.value.Value() else GetAverage(values)
  }

  /** `values.map(value => (value - middle) ** 2)`. */
  function SquaredDifferences(values: seq<real>, middle: real): (squares: seq<real>)
    ensures |squares| == |values|
    ensures forall i :: 0 <= i < |squares| ==> squares[i] >= 0.0 && (squares[i] == 0.0 <==> values[i] == middle)
  {
    var squares := seq(|values|, i requires 0 <= i < |values| => (values[i] - middle) * (values[i] - middle));
    assert forall i :: 0 <= i < |squares| ==> squares[i] >= 0.0 && (squares[i] == 0.0 <==> values[i] == middle) by {
      forall i | 0 <= i < |squares|
        ensures squares[i] >= 0.0 && (squares[i] == 0.0 <==> values[i] == middle)
      {
        Squares.NonNegativeSquare(squares[i], values[i] - middle);
        Squares.NonZeroSquare(squares[i], values[i] - middle);
      }
    }
    squares
  }

  /** `getStandardDeviation(values, average)`: the square root of the mean squared difference. */
  function GetStandardDeviation(values: seq<real>, average: Option<BigSource>): (r: Root)
    ensures r.radicand >= 0.0
    ensures values == [] ==> r == Sqrt(0.0)
    ensures r.radicand == 0.0 <==> forall i :: 0 <= i < |values| ==> values[i] == Middle(values, average)
  {
    var squares := SquaredDifferences(values, Middle(values, average));
    MeanOfNonNegative(squares);
    AverageZeroExactly(squares);
    Sqrt(GetAverage(squares))
  }

  /** The mean of values that are all at least 0 is at least 0. */
  lemma MeanOfNonNegative(xs: seq<real>)
    requires forall i :: 0 <= i < |xs| ==> 0.0 <= xs[i]
    ensures 0.0 <= GetAverage(xs)
  {
    if xs != [] {
      Extremes.MaxIsGreatest(xs);
      AverageBetween(xs, 0.0, Extremes.Max(xs));
    }
  }

  /** Values that all equal their own mean have deviation 0. */
  lemma ConstantHasNoDeviation(values: seq<real>, c: real)
    requires forall i :: 0 <= i < |values| ==> values[i] == c
    ensures GetStandardDeviation(values, None) == Sqrt(0.0)
    ensures GetStandardDeviation(values, Some(Decimal(c))) == Sqrt(0.0)
  {
    if values != [] {
      AverageOfConstant(values, c);
      assert forall i :: 0 <= i < |values| ==> SquaredDifferences(values, c)[i] == 0.0;
      AverageOfConstant(SquaredDifferences(values, c), 0.0);
    }
  }

  /** A supplied numeric 0 is falsy, so the mean is used instead; a supplied Big 0 is used as it is. */
  lemma ZeroAverageArgument(values: seq<real>)
    ensures GetStandardDeviation(values, Some(Number(0.0))) == GetStandardDeviation(values, None)
    ensures GetStandardDeviation(values, Some(Decimal(0.0))).radicand
         == GetAverage(SquaredDifferences(values, 0.0))
  {
  }

  /** Sums computed front to back, one element at a time. */
  lemma {:induction false} SumFront(xs: seq<real>)
    requires xs != []
    ensures Sum(xs) == xs[0] + Sum(xs[1..])
    decreases |xs|
  {
    if |xs| > 1 {
      SumFront(xs[..|xs| - 1]);
      assert xs[..|xs| - 1][1..] == xs[1..][..|xs| - 2];
    } else {
      assert xs[1..] == [] && xs[..0] == [];
    }
  }

  /** Extending a prefix by one element adds that element to the sum. */
  lemma SumPrefixStep(xs: seq<real>, k: nat)
    requires k < |xs|
    ensures Sum(xs[..k + 1]) == Sum(xs[..k]) + xs[k]
  {
    assert xs[..k + 1][..k] == xs[..k];
  }

  /** The 20-value sample of the standard-deviation example; its mean is 7. */
  const SAMPLE: seq<real> := [9.0, 2.0, 5.0, 4.0, 12.0, 7.0, 8.0, 11.0, 9.0, 3.0,
                              7.0, 4.0, 12.0, 5.0, 4.0, 10.0, 9.0, 6.0, 9.0, 4.0]

  lemma SampleSum()
    ensures Sum(SAMPLE) == 140.0
  {
    var xs := SAMPLE;
    assert Sum(xs[..0]) == 0.0;
    SumPrefixStep(xs, 0); assert Sum(xs[..1]) == 9.0;
    SumPrefixStep(xs, 1); assert Sum(xs[..2]) == 11.0;
    SumPrefixStep(xs, 2); assert Sum(xs[..3]) == 16.0;
    SumPrefixStep(xs, 3); assert Sum(xs[..4]) == 20.0;
    SumPrefixStep(xs, 4); assert Sum(xs[..5]) == 32.0;
    SumPrefixStep(xs, 5); assert Sum(xs[..6]) == 39.0;
    SumPrefixStep(xs, 6); assert Sum(xs[..7]) == 47.0;
    SumPrefixStep(xs, 7); assert Sum(xs[..8]) == 58.0;
    SumPrefixStep(xs, 8); assert Sum(xs[..9]) == 67.0;
    SumPrefixStep(xs, 9); assert Sum(xs[..10]) == 70.0;
    SumPrefixStep(xs, 10); assert Sum(xs[..11]) == 77.0;
    SumPrefixStep(xs, 11); assert Sum(xs[..12]) == 81.0;
    SumPrefixStep(xs, 12); assert Sum(xs[..13]) == 93.0;
    SumPrefixStep(xs, 13); assert Sum(xs[..14]) == 98.0;
    SumPrefixStep(xs, 14); assert Sum(xs[..15]) == 102.0;
    SumPrefixStep(xs, 15); assert Sum(xs[..16]) == 112.0;
    SumPrefixStep(xs, 16); assert Sum(xs[..17]) == 121.0;
    SumPrefixStep(xs, 17); assert Sum(xs[..18]) == 127.0;
    SumPrefixStep(xs, 18); assert Sum(xs[..19]) == 136.0;
    SumPrefixStep(xs, 19); assert Sum(xs[..20]) == 140.0;
    assert xs[..20] == xs;
  }

  lemma SampleSquares()
    ensures SquaredDifferences(SAMPLE, 7.0) == [4.0, 25.0, 4.0, 9.0, 25.0, 0.0, 1.0, 16.0, 4.0, 16.0,
                                                0.0, 9.0, 25.0, 4.0, 9.0, 9.0, 4.0, 1.0, 4.0, 9.0]
  {
  }

  lemma SampleSquaresSum()
    ensures Sum([4.0, 25.0, 4.0, 9.0, 25.0, 0.0, 1.0, 16.0, 4.0, 16.0,
                 0.0, 9.0, 25.0, 4.0, 9.0, 9.0, 4.0, 1.0, 4.0, 9.0]) == 178.0
  {
    var squares := [4.0, 25.0, 4.0, 9.0, 25.0, 0.0, 1.0, 16.0, 4.0, 16.0,
                    0.0, 9.0, 25.0, 4.0, 9.0, 9.0, 4.0, 1.0, 4.0, 9.0];
    assert Sum(squares[..0]) == 0.0;
    SumPrefixStep(squares, 0); assert Sum(squares[..1]) == 4.0;
    SumPrefixStep(squares, 1); assert Sum(squares[..2]) == 29.0;
    SumPrefixStep(squares, 2); assert Sum(squares[..3]) == 33.0;
    SumPrefixStep(squares, 3); assert Sum(squares[..4]) == 42.0;
    SumPrefixStep(squares, 4); assert Sum(squares[..5]) == 67.0;
    SumPrefixStep(squares, 5); assert Sum(squares[..6]) == 67.0;
    SumPrefixStep(squares, 6); assert Sum(squares[..7]) == 68.0;
    SumPrefixStep(squares, 7); assert Sum(squares[..8]) == 84.0;
    SumPrefixStep(squares, 8); assert Sum(squares[..9]) == 88.0;
    SumPrefixStep(squares, 9); assert Sum(squares[..10]) == 104.0;
    SumPrefixStep(squares, 10); assert Sum(squares[..11]) == 104.0;
    SumPrefixStep(squares, 11); assert Sum(squares[..12]) == 113.0;
    SumPrefixStep(squares, 12); assert Sum(squares[..13]) == 138.0;
    SumPrefixStep(squares, 13); assert Sum(squares[..14]) == 142.0;
    SumPrefixStep(squares, 14); assert Sum(squares[..15]) == 151.0;
    SumPrefixStep(squares, 15); assert Sum(squares[..16]) == 160.0;
    SumPrefixStep(squares, 16); assert Sum(squares[..17]) == 164.0;
    SumPrefixStep(squares, 17); assert Sum(squares[..18]) == 165.0;
    SumPrefixStep(squares, 18); assert Sum(squares[..19]) == 169.0;
    SumPrefixStep(squares, 19); assert Sum(squares[..20]) == 178.0;
    assert squares[..20] == squares;
  }

  /** The standard-deviation example: the sample measured around its own mean gives sqrt(8.9), which is 2.98 to two places. */
  lemma StandardDeviationExample()
    ensures var r := GetStandardDeviation(SAMPLE, None);
            r.radicand == 8.9 && 2.975 * 2.975 <= r.radicand < 2.985 * 2.985
  {
    SampleSum();
    SampleSquares();
    SampleSquaresSum();
  }
}
