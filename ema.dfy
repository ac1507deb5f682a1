/**
 * Exponential Moving Average, as far as DEMA, MACD, AO and ATR rely on it. How a new price
 * is weighed against the previous result is not part of this model: it is the `blend`
 * function an EMA is built with. What the callers rely on is fixed: every update stores and
 * returns a result, the first result is the first price, and the average counts as stable,
 * and gives its result to `getResult`, once `interval` prices have arrived.
 */
module ExponentialMovingAverage {
  import opened Outcome
  import opened Indicator

  /** The result after the prices `xs`: the first price, then `blend(previous, price)` for each later one. */
  function Expected(blend: (real, real) -> real, xs: seq<real>): (r: Option<real>)
    ensures r.Some? <==> xs != []
  {
    if xs == [] then None
    else if |xs| == 1 then Some(xs[0])
    else Some(blend(Expected(blend, xs[..|xs| - 1]).value, xs[|xs| - 1]))
  }

  class EMA {
    const interval: nat
    const blend: (real, real) -> real
    var pricesCounter: nat
    const series: IndicatorSeries
    ghost var inputs: seq<real>
    ghost const Repr: set<object>

    ghost predicate Valid()
      reads this, Repr
    {
      Repr == {this, series} && series.Valid()
      && pricesCounter == |inputs|
      && series.result == Expected(blend, inputs)
    }

    constructor (interval: nat, blend: (real, real) -> real)
      ensures Valid() && fresh(Repr)
      ensures this.interval == interval && this.blend == blend && inputs == []
      ensures series.history == []
    {
      this.interval := interval;
      this.blend := blend;
      pricesCounter := 0;
      series := new IndicatorSeries();
      inputs := [];
      Repr := {this, series};
    }

    /** `isStable`: at least `interval` prices have arrived. */
    predicate IsStable()
      reads Repr
      requires Valid()
      ensures IsStable() <==> |inputs| >= interval
    {
      pricesCounter >= interval
    }

    /**
     * `getResult()`: NotEnoughData until `interval` prices have arrived, although a result is
     * stored from the first price on; afterwards the stored result.
     */
    function GetResult(): (r: Result<real>)
      reads Repr
      requires Valid()
      ensures r.Err? <==> inputs == [] || |inputs| < interval
      ensures r.Ok? ==> Some(r.value) == Expected(blend, inputs)
    {
      if pricesCounter < interval || series.result.None? then Err(NotEnoughData) else Ok(series.result.value)
    }

    /** `update(price)`: always stores and returns a result. */
    method Update(price: real) returns (r: real)
      requires Valid()
      modifies Repr
      ensures Valid() && inputs == old(inputs) + [price]
      ensures Some(r) == Expected(blend, inputs) && series.result == Some(r)
      ensures old(inputs) == [] ==> r == price
      ensures old(inputs) != [] ==> r == blend(old(series.result).value, price)
      ensures series.history == old(series.history) + [r]
    {
      pricesCounter := pricesCounter + 1;
      var next := if series.result.None? then price else blend(series.result.value, price);
      r := series.SetResult(next);
      inputs := inputs + [price];
      assert inputs[..|inputs| - 1] == old(inputs);
    }
  }
}
