/**
 * Wilder's Smoothed Moving Average: seeded with the SMA of the first `interval` prices, then
 * moved towards each new price by the smoothing factor 1/interval.
 */
module WildersMovingAverage {
  import opened Outcome
  import opened Indicator
  import opened SimpleMovingAverage

  /** One smoothing step as the update writes it: `(price - previous) * factor + previous`. */
  function Smooth(previous: real, price: real, factor: real): real
  {
    (price - previous) * factor + previous
  }

  /** The result after the prices `xs`: none before `interval` prices, then the seed, then one smoothing step per price. */
  function Expected(xs: seq<real>, interval: nat): (r: Option<real>)
    requires interval > 0
    ensures r.Some? <==> |xs| >= interval
    ensures |xs| == interval ==> r == Some(GetResultFromBatch(xs))
  {
    if |xs| < interval then None
    else if |xs| == interval then Some(GetResultFromBatch(xs))
    else Some(Smooth(Expected(xs[..|xs| - 1], interval).value, xs[|xs| - 1], 1.0 / interval as real))
  }

  class WSMA {
    const interval: nat
    /** The SMA that provides the seed; it keeps being fed after that. */
    const indicator: SMA
    const smoothingFactor: real
    const series: IndicatorSeries
    ghost var inputs: seq<real>
    ghost const Repr: set<object>

    ghost predicate Valid()
      reads this, Repr
    {
      Repr == {this, series} + indicator.Repr && indicator in indicator.Repr
      && this !in indicator.Repr && series !in indicator.Repr
      && indicator.Valid() && series.Valid()
      && interval > 0 && indicator.interval == interval
      && smoothingFactor == 1.0 / interval as real
      && indicator.inputs == inputs
      && series.result == Expected(inputs, interval)
    }

    /** Big's `1 / interval` throws for interval 0, so only positive intervals construct. */
    constructor (interval: nat)
      requires interval > 0
      ensures Valid() && fresh(Repr)
      ensures this.interval == interval && inputs == [] && series.history == []
    {
      this.interval := interval;
      var sma := new SMA(interval);
      var base := new IndicatorSeries();
      indicator := sma;
      smoothingFactor := 1.0 / interval as real;
      series := base;
      inputs := [];
      Repr := {this, base} + sma.Repr;
    }

    /** `update(price)`: feed the SMA; smooth the stored result, or take the SMA's first result as the seed. */
    method Update(price: real) returns (r: Option<real>)
      requires Valid()
      modifies Repr
      ensures Valid() && inputs == old(inputs) + [price]
      ensures r == Expected(inputs, interval) && (r.Some? <==> |inputs| >= interval)
      ensures |inputs| == interval ==> r == Some(GetResultFromBatch(inputs))
      ensures old(series.result).Some? ==>
                r == Some(Smooth(old(series.result).value, price, 1.0 / interval as real))
      ensures r.Some? ==> series.history == old(series.history) + [r.value]
      ensures r.None? ==> series.history == old(series.history)
    {
      var sma := FeedAverage(price);
      r := Conclude(inputs, price, sma);
      inputs := inputs + [price];
    }

    /** The first half of `update(price)`: the SMA takes the price. */
    method FeedAverage(price: real) returns (sma: Option<real>)
      requires Valid()
      modifies indicator.Repr
      ensures indicator.Valid() && indicator.inputs == inputs + [price]
      ensures sma.Some? <==> |inputs| + 1 >= interval
      ensures |inputs| + 1 == interval ==> sma == Some(GetResultFromBatch(inputs + [price]))
    {
      sma := indicator.Update(price);
      if |inputs| + 1 == interval {
        assert indicator.prices == inputs + [price];
      }
    }

    /** The second half of `update(price)`, after the prices `before`: smooth the stored result, or store the SMA's seed. */
    method Conclude(ghost before: seq<real>, price: real, sma: Option<real>) returns (r: Option<real>)
      requires series.Valid() && interval > 0 && smoothingFactor == 1.0 / interval as real
      requires series.result == Expected(before, interval)
      requires sma.Some? <==> |before| + 1 >= interval
      requires |before| + 1 == interval ==> sma == Some(GetResultFromBatch(before + [price]))
      modifies series
      ensures series.Valid() && r == Expected(before + [price], interval) && series.result == r
      ensures old(series.result).Some? ==>
                r == Some(Smooth(old(series.result).value, price, 1.0 / interval as real))
      ensures r.Some? ==> series.history == old(series.history) + [r.value]
      ensures r.None? ==> series.history == old(series.history)
    {
      ExpectedStep(before, price, interval);
      if series.result.Some? {
        var previous := series.result.value;
        assert |before| >= interval && previous == Expected(before, interval).value;
        var smoothed := (price - previous) * smoothingFactor;
        assert smoothed + previous == Smooth(previous, price, 1.0 / interval as real);
        var v := series.SetResult(smoothed + previous);
        r := Some(v);
      } else if sma.Some? {
        var v := series.SetResult(sma.value);
        r := Some(v);
      } else {
        r := None;
      }
    }
  }

  /** One more price advances the expected result by one step. */
  lemma ExpectedStep(xs: seq<real>, price: real, interval: nat)
    requires interval > 0
    ensures Expected(xs + [price], interval)
         == if |xs| + 1 < interval then None
            else if |xs| + 1 == interval then Some(GetResultFromBatch(xs + [price]))
            else Some(Smooth(Expected(xs, interval).value, price, 1.0 / interval as real))
  {
    assert (xs + [price])[..|xs|] == xs;
  }

  /** Scaling a difference by a factor in (0, 1] keeps it between 0 and itself. */
  lemma ScaleWithin(d: real, f: real)
    requires 0.0 < f <= 1.0
    ensures d >= 0.0 ==> 0.0 <= d * f <= d
    ensures d <= 0.0 ==> d <= d * f <= 0.0
  {
    assert d - d * f == d * (1.0 - f);
  }

  lemma ReciprocalWithin(n: real)
    requires n >= 1.0
    ensures 0.0 < 1.0 / n <= 1.0
  {
    assert (1.0 / n) * n == 1.0;
  }

  /** With the factor 1/interval, a smoothing step lands between the previous result and the price. */
  lemma SmoothBetween(previous: real, price: real, interval: nat)
    requires interval > 0
    ensures var next := Smooth(previous, price, 1.0 / interval as real);
            (previous <= price ==> previous <= next <= price)
            && (price <= previous ==> price <= next <= previous)
  {
    ReciprocalWithin(interval as real);
    SmoothWithin(previous, price, 1.0 / interval as real);
  }

  /** A smoothing step with a factor in (0, 1] lands between the previous result and the price. */
  lemma SmoothWithin(previous: real, price: real, factor: real)
    requires 0.0 < factor <= 1.0
    ensures var next := Smooth(previous, price, factor);
            (previous <= price ==> previous <= next <= price)
            && (price <= previous ==> price <= next <= previous)
  {
    var d := price - previous;
    ScaleWithin(d, factor);
    assert Smooth(previous, price, factor) == d * factor + previous;
  }

  /** Every result after the seed lies between the result before it and the price that moved it. */
  lemma ResultBetweenPreviousAndPrice(xs: seq<real>, interval: nat)
    requires interval > 0 && |xs| > interval
    ensures var previous := Expected(xs[..|xs| - 1], interval).value;
            var price := xs[|xs| - 1];
            var next := Expected(xs, interval).value;
            (previous <= price ==> previous <= next <= price)
            && (price <= previous ==> price <= next <= previous)
  {
    SmoothBetween(Expected(xs[..|xs| - 1], interval).value, xs[|xs| - 1], interval);
  }

  /** The WSMA example: interval 3 is not stable after two prices and is after the third. */
  lemma WsmaStabilityExample()
    ensures Expected([1.0, 2.0], 3).None? && Expected([1.0, 2.0, 3.0], 3) == Some(2.0)
  {
    SumOfThree(1.0, 2.0, 3.0);
  }
}
