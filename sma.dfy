/** Simple Moving Average: the mean of the last `interval` prices. */
module SimpleMovingAverage {
  import opened Outcome
  import opened Indicator
  import opened FixedArray
  import Average
  import Extremes
  import StandardDeviation

  /** `SMA.getResultFromBatch(prices)`: the sum divided by `prices.length || 1`. */
  function GetResultFromBatch(prices: seq<real>): (r: real)
    ensures prices == [] ==> r == 0.0
    ensures prices != [] ==> r * |prices| as real == Average.Sum(prices)
    ensures r == Average.GetAverage(prices)
  {
    Average.Sum(prices) / (if |prices| == 0 then 1 else |prices|) as real
  }

  /** What `update` returns after the prices `xs`: the mean of the last `interval` once that many have arrived. */
  function Output(xs: seq<real>, interval: nat): Option<real>
  {
    if xs != [] && |xs| >= interval then Some(GetResultFromBatch(Last(xs, interval))) else None
  }

  /** Every result stored while the prices `xs` arrived, oldest first. */
  function Results(xs: seq<real>, interval: nat): seq<real>
  {
    if xs == [] then []
    else
      Results(xs[..|xs| - 1], interval)
      + (match Output(xs, interval) case Some(v) => [v] case None => [])
  }

  class SMA {
    const interval: nat
    /** The rolling window of raw prices. */
    var prices: seq<real>
    const series: IndicatorSeries
    /** Every price fed so far. */
    ghost var inputs: seq<real>
    ghost const Repr: set<object>

    ghost predicate Valid()
      reads this, Repr
    {
      Repr == {this, series} && series.Valid()
      && prices == Last(inputs, interval)
      && series.history == Results(inputs, interval)
      && series.result == Output(inputs, interval)
    }

    constructor (interval: nat)
      ensures Valid() && fresh(Repr)
      ensures this.interval == interval && inputs == [] && prices == []
      ensures series.history == [] && series.result == None
    {
      this.interval := interval;
      prices := [];
      series := new IndicatorSeries();
      inputs := [];
      Repr := {this, series};
    }

    /** `update(price)`: push the price, shift out the oldest when over capacity, average a full window. */
    method Update(price: real) returns (r: Option<real>)
      requires Valid()
      modifies Repr
      ensures Valid() && inputs == old(inputs) + [price]
      ensures |prices| <= interval && prices == Last(inputs, interval)
      ensures r.Some? <==> |inputs| >= interval
      ensures r.Some? ==> |prices| == interval && r.value == GetResultFromBatch(prices)
                          && series.history == old(series.history) + [r.value]
      ensures r.None? ==> series.history == old(series.history)
    {
      var window := prices + [price];
      if |window| > interval {
        window := window[1..];
      }
      ShiftIsPush(prices, interval, price);
      PushLast(inputs, interval, price);
      ResultsStep(inputs, interval, price);
      prices, inputs := window, inputs + [price];
      if |prices| == interval {
        var v := series.SetResult(GetResultFromBatch(prices));
        r := Some(v);
      } else {
        r := None;
      }
    }
  }

  /** The push-then-shift of `update` is a push onto a fixed array of capacity `interval`. */
  lemma ShiftIsPush(window: seq<real>, interval: nat, price: real)
    requires |window| <= interval
    ensures Push(window, interval, price)
         == if |window| + 1 > interval then (window + [price])[1..] else window + [price]
  {
    LastIsSuffix(window + [price], interval);
  }

  /** One more price adds the value that update stores, if any. */
  lemma ResultsStep(xs: seq<real>, interval: nat, price: real)
    ensures Results(xs + [price], interval)
         == Results(xs, interval) + (match Output(xs + [price], interval) case Some(v) => [v] case None => [])
  {
    assert (xs + [price])[..|xs|] == xs;
  }

  /** Once `interval` prices have arrived, every later update yields a result, so stability is never lost. */
  lemma {:induction false} OutputPersists(xs: seq<real>, ys: seq<real>, interval: nat)
    requires Output(xs, interval).Some?
    ensures Output(xs + ys, interval).Some?
  {
  }

  /** A result is stored exactly when at least `interval` prices (and at least one) have arrived. */
  lemma {:induction false} ResultsExistExactly(xs: seq<real>, interval: nat)
    ensures (Results(xs, interval) != []) <==> (xs != [] && |xs| >= interval)
    ensures Results(xs, interval) != [] ==> Results(xs, interval)[|Results(xs, interval)| - 1] == Output(xs, interval).value
    decreases |xs|
  {
    if xs != [] {
      ResultsExistExactly(xs[..|xs| - 1], interval);
    }
  }

  /** The SMA example: interval 3 over 40, 30, 20, 10, 30 ends at 20, with lowest 20 and highest 30. */
  lemma SmaExample()
    ensures var xs := [40.0, 30.0, 20.0, 10.0, 30.0];
            Output(xs, 3) == Some(20.0)
            && Results(xs, 3) == [30.0, 20.0, 20.0]
            && Extremes.Min(Results(xs, 3)) == 20.0 && Extremes.Max(Results(xs, 3)) == 30.0
  {
    var xs := [40.0, 30.0, 20.0, 10.0, 30.0];
    assert xs[..4] == [40.0, 30.0, 20.0, 10.0];
    assert xs[..4][..3] == [40.0, 30.0, 20.0];
    assert xs[..4][..3][..2] == [40.0, 30.0];
    assert Last(xs[..4][..3], 3) == [40.0, 30.0, 20.0];
    assert Last(xs[..4], 3) == [30.0, 20.0, 10.0];
    assert Last(xs, 3) == [20.0, 10.0, 30.0];
    SumOfThree(40.0, 30.0, 20.0);
    SumOfThree(30.0, 20.0, 10.0);
    SumOfThree(20.0, 10.0, 30.0);
    assert Results(xs[..4][..3][..2], 3) == [] by {
      ResultsExistExactly(xs[..4][..3][..2], 3);
    }
    var rs := [30.0, 20.0, 20.0];
    assert rs[..2] == [30.0, 20.0] && rs[..2][..1] == [30.0];
  }

  lemma SumOfThree(a: real, b: real, c: real)
    ensures Average.Sum([a, b, c]) == a + b + c
  {
    var xs := [a, b, c];
    assert xs[..2] == [a, b] && xs[..2][..1] == [a] && xs[..2][..1][..0] == [];
    assert Average.Sum([a]) == a;
    assert Average.Sum([a, b]) == a + b;
  }

  /** The rolling standard-deviation example: five prices around their batch mean 82.426 give sqrt(0.898664), which is 0.95 to two places. */
  lemma WindowStandardDeviationExample()
    ensures var prices := [81.59, 81.06, 82.87, 83.0, 83.61];
            var mean := GetResultFromBatch(prices);
            var r := StandardDeviation.GetStandardDeviation(prices, Some(StandardDeviation.Decimal(mean)));
            mean == 82.426 && r.radicand == 0.898664 && 0.945 * 0.945 <= r.radicand < 0.955 * 0.955
  {
    var prices := [81.59, 81.06, 82.87, 83.0, 83.61];
    SumOfFive(prices);
    var squares := StandardDeviation.SquaredDifferences(prices, 82.426);
    assert squares == [0.698896, 1.865956, 0.197136, 0.329476, 1.401856];
    SumOfFive(squares);
  }

  lemma SumOfFive(xs: seq<real>)
    requires |xs| == 5
    ensures Average.Sum(xs) == xs[0] + xs[1] + xs[2] + xs[3] + xs[4]
  {
    assert xs[..4][..3] == xs[..3] && xs[..3][..2] == xs[..2] && xs[..2][..1] == xs[..1] && xs[..1][..0] == [];
    assert Average.Sum(xs[..1]) == xs[0];
    assert Average.Sum(xs[..2]) == xs[0] + xs[1];
    assert Average.Sum(xs[..3]) == xs[0] + xs[1] + xs[2];
    assert Average.Sum(xs[..4]) == xs[0] + xs[1] + xs[2] + xs[3];
    assert xs[..5] == xs;
  }
}
