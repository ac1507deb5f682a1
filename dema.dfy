/**
 * Double Exponential Moving Average: an inner EMA of the prices and an outer EMA of the inner
 * EMA's results, both of the same interval; the result is twice the inner minus the outer.
 * `FasterDEMA` follows the same cascade but treats a zero from either EMA as "no value".
 */
module DoubleExponentialMovingAverage {
  import opened Outcome
  import opened Indicator
  import E = ExponentialMovingAverage

  /** The inner EMA's result after each prefix of `xs`: what the outer EMA is fed. */
  function InnerTrail(blend: (real, real) -> real, xs: seq<real>): (r: seq<real>)
    ensures |r| == |xs|
    ensures forall i :: 0 <= i < |xs| ==> r[i] == E.Expected(blend, xs[..i + 1]).value
  {
    if xs == [] then []
    else
      var front := xs[..|xs| - 1];
      assert forall n :: 0 < n <= |front| ==> front[..n] == xs[..n];
      assert xs[..|xs|] == xs;
      InnerTrail(blend, front) + [E.Expected(blend, xs).value]
  }

  /** The DEMA result after the prices `xs`. */
  function Expected(blend: (real, real) -> real, xs: seq<real>): (r: Option<real>)
    ensures r.Some? <==> xs != []
  {
    if xs == [] then None
    else Some(2.0 * E.Expected(blend, xs).value - E.Expected(blend, InnerTrail(blend, xs)).value)
  }

  /** Every DEMA result, oldest first: one per price. */
  function Trail(blend: (real, real) -> real, xs: seq<real>): (r: seq<real>)
    ensures |r| == |xs|
    ensures forall i :: 0 <= i < |xs| ==> r[i] == Expected(blend, xs[..i + 1]).value
  {
    if xs == [] then []
    else
      var front := xs[..|xs| - 1];
      assert forall n :: 0 < n <= |front| ==> front[..n] == xs[..n];
      assert xs[..|xs|] == xs;
      Trail(blend, front) + [Expected(blend, xs).value]
  }

  /** The first result is the first price: both EMAs start from it, and 2p - p = p. */
  lemma FirstResultIsFirstPrice(blend: (real, real) -> real, price: real)
    ensures Expected(blend, [price]) == Some(price)
  {
    assert InnerTrail(blend, [price]) == [price] by {
      assert [price][..0] == [];
    }
  }

  class DEMA {
    const interval: nat
    const inner: E.EMA
    const outer: E.EMA
    const series: IndicatorSeries
    /** Every price fed so far. */
    ghost var inputs: seq<real>
    ghost const Repr: set<object>

    /** The parts are separate and consistent, and the outer EMA has seen every inner result. */
    ghost predicate Wired()
      reads this, Repr
    {
      Repr == {this, series} + inner.Repr + outer.Repr
      && inner.Repr == {inner, inner.series} && outer.Repr == {outer, outer.series}
      && inner.Repr !! outer.Repr && this !in inner.Repr + outer.Repr && series !in inner.Repr + outer.Repr
      && inner.Valid() && outer.Valid() && series.Valid()
      && inner.interval == interval && outer.interval == interval && outer.blend == inner.blend
      && inner.inputs == inputs && outer.inputs == InnerTrail(inner.blend, inputs)
    }

    ghost predicate Valid()
      reads this, Repr
    {
      Wired() && series.history == Trail(inner.blend, inputs)
    }

    /** `new DEMA(interval)`: two fresh EMAs of the same interval. */
    constructor (interval: nat, blend: (real, real) -> real)
      ensures Valid() && fresh(Repr)
      ensures this.interval == interval && inner.blend == blend && inputs == []
      ensures inner.interval == interval && outer.interval == interval && outer.blend == blend
      ensures inner.inputs == [] && outer.inputs == [] && series.history == []
    {
      this.interval := interval;
      var i := new E.EMA(interval, blend);
      var o := new E.EMA(interval, blend);
      var base := new IndicatorSeries();
      inner := i;
      outer := o;
      series := base;
      inputs := [];
      Repr := {this, base} + i.Repr + o.Repr;
    }

    /** `isStable`: the outer EMA's stability, which comes with the `interval`-th price. */
    predicate IsStable()
      reads Repr
      requires Valid()
      ensures IsStable() <==> |inputs| >= interval
    {
      outer.IsStable()
    }

    /** `getResult()`: the latest result, which exists from the first price on, stable or not. */
    function GetResult(): (r: Result<real>)
      reads Repr
      requires Valid()
      ensures inputs == [] <==> r == Err(NotEnoughData)
      ensures inputs != [] ==> r == Ok(Expected(inner.blend, inputs).value)
    {
      series.GetResult()
    }

    /** The EMA half of `update(price)`: the price goes to the inner EMA, its result to the outer one. */
    method Feed(price: real) returns (innerResult: real, outerResult: real)
      requires Valid()
      modifies this, inner.Repr, outer.Repr
      ensures Wired() && inputs == old(inputs) + [price] && series.history == old(series.history)
      ensures Some(innerResult) == E.Expected(inner.blend, inputs)
      ensures outer.inputs == old(outer.inputs) + [innerResult]
      ensures Some(outerResult) == E.Expected(inner.blend, outer.inputs)
    {
      inputs := inputs + [price];
      innerResult := inner.Update(price);
      assert inputs[..|inputs| - 1] == old(inputs);
      outerResult := outer.Update(innerResult);
    }

    /** `setResult(value)`. */
    method Store(value: real) returns (r: real)
      requires Wired()
      modifies series
      ensures Wired() && r == value && series.history == old(series.history) + [value]
    {
      r := series.SetResult(value);
    }

    /** `update(price)`: always stores and returns twice the inner result minus the outer one. */
    method Update(price: real) returns (r: real)
      requires Valid()
      modifies Repr
      ensures Valid() && inputs == old(inputs) + [price]
      ensures Some(r) == Expected(inner.blend, inputs)
      ensures series.history == old(series.history) + [r]
      ensures outer.inputs == old(outer.inputs) + [inner.series.result.value]
    {
      var innerResult, outerResult := Feed(price);
      assert inputs[..|inputs| - 1] == old(inputs);
      r := Store(2.0 * innerResult - outerResult);
    }
  }

  /**
   * Before stability the DEMA already has a result: after one price with an interval above one,
   * `isStable` is false while `getResult()` succeeds.
   */
  lemma ResultBeforeStability(dema: DEMA)
    requires dema.Valid() && |dema.inputs| == 1 && dema.interval > 1
    ensures !dema.IsStable() && dema.GetResult() == Ok(dema.inputs[0])
  {
    FirstResultIsFirstPrice(dema.inner.blend, dema.inputs[0]);
    assert dema.inputs == [dema.inputs[0]];
  }

  /** The values JavaScript treats as present, in their order: zero is falsy. */
  function Truthy(xs: seq<real>): (r: seq<real>)
    ensures |r| <= |xs|
    ensures forall i :: 0 <= i < |r| ==> r[i] != 0.0
    ensures forall x :: x != 0.0 ==> multiset(r)[x] == multiset(xs)[x]
  {
    if xs == [] then []
    else
      var front := xs[..|xs| - 1];
      var last := xs[|xs| - 1];
      assert xs == front + [last];
      Truthy(front) + (if last == 0.0 then [] else [last])
  }

  /** One more value is kept exactly when it is non-zero. */
  lemma TruthyStep(xs: seq<real>, x: real)
    ensures Truthy(xs + [x]) == Truthy(xs) + (if x == 0.0 then [] else [x])
  {
    assert (xs + [x])[..|xs|] == xs;
  }

  /** Without zeros, nothing is dropped. */
  lemma {:induction false} TruthyKeepsNonZero(xs: seq<real>)
    requires forall i :: 0 <= i < |xs| ==> xs[i] != 0.0
    ensures Truthy(xs) == xs
  {
    if xs != [] {
      TruthyKeepsNonZero(xs[..|xs| - 1]);
    }
  }

  /** The FasterDEMA result the prices `xs` leave behind, if the last update stored one. */
  function FasterStep(blend: (real, real) -> real, xs: seq<real>): (r: Option<real>)
    requires xs != []
  {
    var innerResult := E.Expected(blend, xs).value;
    if innerResult == 0.0 then None
    else
      var outerResult := E.Expected(blend, Truthy(InnerTrail(blend, xs))).value;
      if outerResult == 0.0 then None else Some(2.0 * innerResult - outerResult)
  }

  /** Every FasterDEMA result, oldest first. */
  function FasterTrail(blend: (real, real) -> real, xs: seq<real>): seq<real>
  {
    if xs == [] then []
    else FasterTrail(blend, xs[..|xs| - 1]) + (match FasterStep(blend, xs) case Some(v) => [v] case None => [])
  }

  /** One more price adds the result of that update, if it stores one. */
  lemma FasterTrailStep(blend: (real, real) -> real, xs: seq<real>, x: real)
    ensures FasterTrail(blend, xs + [x])
         == FasterTrail(blend, xs) + (match FasterStep(blend, xs + [x]) case Some(v) => [v] case None => [])
  {
    assert (xs + [x])[..|xs|] == xs;
  }

  /** While neither EMA ever yields zero, FasterDEMA keeps exactly the DEMA's results. */
  lemma {:induction false} FasterAgreesWithoutZeros(blend: (real, real) -> real, xs: seq<real>)
    requires forall k :: 1 <= k <= |xs| ==> E.Expected(blend, xs[..k]).value != 0.0
    requires forall k :: 1 <= k <= |xs| ==> E.Expected(blend, InnerTrail(blend, xs[..k])).value != 0.0
    ensures Truthy(InnerTrail(blend, xs)) == InnerTrail(blend, xs)
    ensures FasterTrail(blend, xs) == Trail(blend, xs)
  {
    if xs != [] {
      var before := xs[..|xs| - 1];
      forall k | 1 <= k <= |before|
        ensures E.Expected(blend, before[..k]).value != 0.0
        ensures E.Expected(blend, InnerTrail(blend, before[..k])).value != 0.0
      {
        assert before[..k] == xs[..k];
      }
      FasterAgreesWithoutZeros(blend, before);
      assert xs[..|xs|] == xs;
      FasterAgreesStep(blend, xs);
    }
  }

  /** The step of `FasterAgreesWithoutZeros`: one more price whose inner and outer results are non-zero. */
  lemma FasterAgreesStep(blend: (real, real) -> real, xs: seq<real>)
    requires xs != []
    requires Truthy(InnerTrail(blend, xs[..|xs| - 1])) == InnerTrail(blend, xs[..|xs| - 1])
    requires FasterTrail(blend, xs[..|xs| - 1]) == Trail(blend, xs[..|xs| - 1])
    requires E.Expected(blend, xs).value != 0.0
    requires E.Expected(blend, InnerTrail(blend, xs)).value != 0.0
    ensures Truthy(InnerTrail(blend, xs)) == InnerTrail(blend, xs)
    ensures FasterTrail(blend, xs) == Trail(blend, xs)
  {
    TruthyInnerStep(blend, xs);
    FasterStepAgrees(blend, xs);
  }

  /** A non-zero inner result keeps the outer EMA's input free of dropped values. */
  lemma TruthyInnerStep(blend: (real, real) -> real, xs: seq<real>)
    requires xs != []
    requires Truthy(InnerTrail(blend, xs[..|xs| - 1])) == InnerTrail(blend, xs[..|xs| - 1])
    requires E.Expected(blend, xs).value != 0.0
    ensures Truthy(InnerTrail(blend, xs)) == InnerTrail(blend, xs)
  {
    var before := xs[..|xs| - 1];
    var innerResult := E.Expected(blend, xs).value;
    assert InnerTrail(blend, xs) == InnerTrail(blend, before) + [innerResult];
    TruthyStep(InnerTrail(blend, before), innerResult);
  }

  /** When the outer EMA has seen every inner result and neither result is zero, both indicators store the same value. */
  lemma FasterStepAgrees(blend: (real, real) -> real, xs: seq<real>)
    requires xs != []
    requires Truthy(InnerTrail(blend, xs)) == InnerTrail(blend, xs)
    requires FasterTrail(blend, xs[..|xs| - 1]) == Trail(blend, xs[..|xs| - 1])
    requires E.Expected(blend, xs).value != 0.0
    requires E.Expected(blend, InnerTrail(blend, xs)).value != 0.0
    ensures FasterTrail(blend, xs) == Trail(blend, xs)
  {
    SameStep(blend, xs);
    assert FasterTrail(blend, xs) == FasterTrail(blend, xs[..|xs| - 1]) + [Expected(blend, xs).value];
  }

  /** Under the same conditions, the single update stores the DEMA's value. */
  lemma SameStep(blend: (real, real) -> real, xs: seq<real>)
    requires xs != []
    requires Truthy(InnerTrail(blend, xs)) == InnerTrail(blend, xs)
    requires E.Expected(blend, xs).value != 0.0
    requires E.Expected(blend, InnerTrail(blend, xs)).value != 0.0
    ensures FasterStep(blend, xs) == Expected(blend, xs)
  {
  }

  /** A first price of zero: DEMA stores 0, FasterDEMA stores nothing. */
  lemma ZeroPriceIsSkipped(blend: (real, real) -> real)
    ensures Trail(blend, [0.0]) == [0.0]
    ensures FasterTrail(blend, [0.0]) == []
  {
    FirstResultIsFirstPrice(blend, 0.0);
    assert [0.0][..0] == [];
  }

  class FasterDEMA {
    const interval: nat
    const inner: E.EMA
    const outer: E.EMA
    const series: IndicatorSeries
    ghost var inputs: seq<real>
    ghost const Repr: set<object>

    /** The parts are separate objects. */
    ghost predicate Separate()
    {
      inner.Repr == {inner, inner.series} && outer.Repr == {outer, outer.series} && inner.Repr !! outer.Repr
      && this !in inner.Repr && this !in outer.Repr && series !in inner.Repr && series !in outer.Repr
    }

    /** The parts are separate and consistent, and both EMAs share the interval and weighting. */
    ghost predicate Parts()
      reads series, inner.Repr, outer.Repr
    {
      Separate() && inner.Valid() && outer.Valid() && series.Valid()
      && inner.interval == interval && outer.interval == interval && outer.blend == inner.blend
    }

    /** The outer EMA has seen every non-zero inner result. */
    ghost predicate Wired()
      reads this, Repr
    {
      Repr == {this, series} + inner.Repr + outer.Repr && Parts()
      && inner.inputs == inputs && outer.inputs == Truthy(InnerTrail(inner.blend, inputs))
    }

    ghost predicate Valid()
      reads this, Repr
    {
      Wired() && series.history == FasterTrail(inner.blend, inputs)
    }

    /** `new FasterDEMA(interval)`: two fresh EMAs of the same interval. */
    constructor (interval: nat, blend: (real, real) -> real)
      ensures Valid() && fresh(Repr)
      ensures this.interval == interval && inner.blend == blend && inputs == []
      ensures inner.interval == interval && outer.interval == interval && outer.blend == blend
      ensures inner.inputs == [] && outer.inputs == [] && series.history == []
    {
      this.interval := interval;
      var base := new IndicatorSeries();
      var i := new E.EMA(interval, blend);
      var o := new E.EMA(interval, blend);
      inner := i;
      outer := o;
      series := base;
      inputs := [];
      Repr := {this, base} + i.Repr + o.Repr;
    }

    /** `isStable`: the outer EMA has seen `interval` non-zero inner results. */
    predicate IsStable()
      reads Repr
      requires Valid()
      ensures IsStable() <==> |Truthy(InnerTrail(inner.blend, inputs))| >= interval
    {
      outer.IsStable()
    }

    /** `this.inner.update(price)`. */
    method FeedInner(price: real) returns (innerResult: real)
      requires Parts()
      modifies inner.Repr
      ensures Parts() && inner.inputs == old(inner.inputs) + [price] && outer.inputs == old(outer.inputs)
      ensures Some(innerResult) == E.Expected(inner.blend, inner.inputs)
      ensures series.history == old(series.history)
    {
      innerResult := inner.Update(price);
    }

    /** `this.outer.update(innerResult)`. */
    method FeedOuter(innerResult: real) returns (outerResult: real)
      requires Parts()
      modifies outer.Repr
      ensures Parts() && outer.inputs == old(outer.inputs) + [innerResult] && inner.inputs == old(inner.inputs)
      ensures Some(outerResult) == E.Expected(outer.blend, outer.inputs)
      ensures series.history == old(series.history)
    {
      outerResult := outer.Update(innerResult);
    }

    /** The EMA half of `update(price)`: the outer EMA is only fed a non-zero inner result. */
    method Feed(price: real) returns (innerResult: real, outerResult: Option<real>)
      requires Parts() && outer.inputs == Truthy(InnerTrail(inner.blend, inner.inputs))
      modifies inner.Repr, outer.Repr
      ensures Parts() && inner.inputs == old(inner.inputs) + [price]
      ensures outer.inputs == Truthy(InnerTrail(inner.blend, inner.inputs))
      ensures series.history == old(series.history)
      ensures FasterStep(inner.blend, inner.inputs)
           == if outerResult.Some? && outerResult.value != 0.0 then Some(2.0 * innerResult - outerResult.value) else None
    {
      ghost var trail := InnerTrail(inner.blend, inner.inputs);
      innerResult := FeedInner(price);
      assert inner.inputs[..|inner.inputs| - 1] == old(inner.inputs);
      assert InnerTrail(inner.blend, inner.inputs) == trail + [innerResult];
      TruthyStep(trail, innerResult);
      if innerResult != 0.0 {
        var o := FeedOuter(innerResult);
        outerResult := Some(o);
      } else {
        outerResult := None;
      }
    }

    /** `setResult(value)`. */
    method Store(value: real) returns (r: real)
      requires Parts()
      modifies series
      ensures Parts() && r == value && series.history == old(series.history) + [value]
    {
      r := series.SetResult(value);
    }

    /** The second half of `update(price)`: store twice the inner result minus the outer one when both are non-zero. */
    method Conclude(innerResult: real, outerResult: Option<real>) returns (r: Option<real>)
      requires Parts()
      modifies series
      ensures Parts()
      ensures r == if outerResult.Some? && outerResult.value != 0.0 then Some(2.0 * innerResult - outerResult.value) else None
      ensures series.history == old(series.history) + (match r case Some(v) => [v] case None => [])
    {
      if outerResult.Some? && outerResult.value != 0.0 {
        var v := Store(2.0 * innerResult - outerResult.value);
        r := Some(v);
      } else {
        r := None;
      }
    }

    /** `update(price)`: the outer EMA only sees a non-zero inner result, and a result is only stored when both are non-zero. */
    method Update(price: real) returns (r: Option<real>)
      requires Valid()
      modifies Repr
      ensures Valid() && inputs == old(inputs) + [price]
      ensures r == FasterStep(inner.blend, inputs)
      ensures r.Some? ==> series.history == old(series.history) + [r.value]
      ensures r.None? ==> series.history == old(series.history)
    {
      var innerResult, outerResult := Feed(price);
      r := Conclude(innerResult, outerResult);
      FasterTrailStep(inner.blend, inputs, price);
      inputs := inputs + [price];
    }
  }
}
