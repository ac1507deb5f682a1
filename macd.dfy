/**
 * Moving Average Convergence Divergence: a short and a long average of the prices, their
 * difference (the MACD line), a signal average of that difference, and the histogram
 * `macd - signal`. The signal line is only fed once a window of `long.interval` raw prices is
 * full. The three averages are EMAs of one weighting scheme, each with its own interval.
 */
module MovingAverageConvergenceDivergence {
  import opened Outcome
  import opened FixedArray
  import E = ExponentialMovingAverage

  datatype MACDResult = MACDResult(histogram: real, macd: real, signal: real)

  /** The number of prices after which the window is full: `long.interval`, and at least one. */
  function FirstFull(interval: nat): (r: nat)
    ensures r >= 1 && r >= interval
    ensures interval > 0 ==> r == interval
  {
    if interval == 0 then 1 else interval
  }

  /** The MACD line after the prices `xs`: short minus long. */
  function Macd(short: E.EMA, long: E.EMA, xs: seq<real>): real
    requires xs != []
  {
    E.Expected(short.blend, xs).value - E.Expected(long.blend, xs).value
  }

  /** Every value fed to the signal line while the prices `xs` arrived: the MACD of each full window. */
  function MacdTrail(short: E.EMA, long: E.EMA, xs: seq<real>): seq<real>
  {
    if xs == [] then []
    else MacdTrail(short, long, xs[..|xs| - 1]) + (if |xs| >= long.interval then [Macd(short, long, xs)] else [])
  }

  /** One more price adds its MACD to the trail exactly when the window is then full. */
  lemma MacdTrailStep(short: E.EMA, long: E.EMA, xs: seq<real>, x: real)
    ensures MacdTrail(short, long, xs + [x])
         == MacdTrail(short, long, xs) + (if |xs| + 1 >= long.interval then [Macd(short, long, xs + [x])] else [])
  {
    assert (xs + [x])[..|xs|] == xs;
  }

  /** The signal line is fed once per price from the `FirstFull`-th price on. */
  lemma {:induction false} MacdTrailLength(short: E.EMA, long: E.EMA, xs: seq<real>)
    ensures |MacdTrail(short, long, xs)|
         == if |xs| >= FirstFull(long.interval) then |xs| - FirstFull(long.interval) + 1 else 0
  {
    if xs != [] {
      MacdTrailLength(short, long, xs[..|xs| - 1]);
    }
  }

  /** The stored result for the prices `xs`: set from the first full window on, never cleared. */
  function Stored(short: E.EMA, long: E.EMA, signal: E.EMA, xs: seq<real>): (r: Option<MACDResult>)
  {
    var trail := MacdTrail(short, long, xs);
    if trail == [] then None
    else
      var macd := trail[|trail| - 1];
      var sig := E.Expected(signal.blend, trail).value;
      Some(MACDResult(macd - sig, macd, sig))
  }

  class MACD {
    /** The window of the last `long.interval` raw prices. */
    var prices: seq<real>
    const long: E.EMA
    const short: E.EMA
    const signal: E.EMA
    var result: Option<MACDResult>
    /** Every price fed so far. */
    ghost var inputs: seq<real>
    ghost const Repr: set<object>

    /** The three averages are separate objects and consistent. */
    ghost predicate Wired()
      reads short.Repr, long.Repr, signal.Repr
    {
      short.Repr == {short, short.series} && long.Repr == {long, long.series}
      && signal.Repr == {signal, signal.series}
      && this !in short.Repr && this !in long.Repr && this !in signal.Repr
      && short.Repr !! long.Repr && short.Repr !! signal.Repr && long.Repr !! signal.Repr
      && short.Valid() && long.Valid() && signal.Valid()
    }

    ghost predicate Valid()
      reads this, Repr
    {
      Repr == {this} + short.Repr + long.Repr + signal.Repr && Wired()
      && short.inputs == inputs && long.inputs == inputs
      && prices == Last(inputs, long.interval)
      && signal.inputs == MacdTrail(short, long, inputs)
      && result == Stored(short, long, signal, inputs)
    }

    /** `new MACD({indicator: EMA, longInterval, shortInterval, signalInterval})`. */
    constructor (shortInterval: nat, longInterval: nat, signalInterval: nat, weigh: nat -> (real, real) -> real)
      ensures Valid() && fresh(Repr) && inputs == []
      ensures short.interval == shortInterval && long.interval == longInterval
      ensures signal.interval == signalInterval
      ensures short.blend == weigh(shortInterval) && long.blend == weigh(longInterval)
      ensures signal.blend == weigh(signalInterval)
      ensures prices == [] && result == None
      ensures short.inputs == [] && long.inputs == [] && signal.inputs == []
    {
      var l := new E.EMA(longInterval, weigh(longInterval));
      var s := new E.EMA(shortInterval, weigh(shortInterval));
      var g := new E.EMA(signalInterval, weigh(signalInterval));
      prices := [];
      long := l;
      short := s;
      signal := g;
      result := None;
      inputs := [];
      Repr := {this} + s.Repr + l.Repr + g.Repr;
      new;
      assert Wired();
    }

    /** `isStable`: a result has been stored, which happens exactly from the `FirstFull`-th price on. */
    predicate IsStable()
      reads Repr
      requires Valid()
      ensures IsStable() <==> |inputs| >= FirstFull(long.interval)
    {
      MacdTrailLength(short, long, inputs);
      result.Some?
    }

    /** `getResult()`: the stored result, or NotEnoughData before the first full window. */
    function GetResult(): (r: Result<MACDResult>)
      reads Repr
      requires Valid()
      ensures r.Err? <==> |inputs| < FirstFull(long.interval)
      ensures r.Ok? ==> Some(r.value) == Stored(short, long, signal, inputs)
    {
      MacdTrailLength(short, long, inputs);
      if result.None? then Err(NotEnoughData) else Ok(result.value)
    }

    /** The first half of `update(price)`: push the price, update short and long, shift the window. */
    method Feed(price: real) returns (s: real, l: real)
      requires Valid()
      modifies this, short.Repr, long.Repr
      ensures Wired() && inputs == old(inputs) + [price] && prices == Last(inputs, long.interval)
      ensures short.inputs == inputs && long.inputs == inputs && signal.inputs == old(signal.inputs)
      ensures result == old(result)
      ensures Some(s) == E.Expected(short.blend, inputs) && Some(l) == E.Expected(long.blend, inputs)
    {
      PushLast(inputs, long.interval, price);
      LastIsSuffix(Last(inputs, long.interval) + [price], long.interval);
      var window := prices + [price];
      if |window| > long.interval {
        window := window[1..];
      }
      prices, inputs := window, inputs + [price];
      s := short.Update(price);
      l := long.Update(price);
    }

    /** The signal half of `update(price)`: feed it the MACD, then store and return the new result. */
    method Signal(macd: real) returns (r: MACDResult)
      requires Wired()
      modifies this, signal.Repr
      ensures Wired() && signal.inputs == old(signal.inputs) + [macd]
      ensures short.inputs == old(short.inputs) && long.inputs == old(long.inputs)
      ensures prices == old(prices) && inputs == old(inputs)
      ensures Some(r.signal) == E.Expected(signal.blend, signal.inputs)
      ensures r == MACDResult(macd - r.signal, macd, r.signal) && result == Some(r)
    {
      var g := signal.Update(macd);
      r := MACDResult(macd - g, macd, g);
      result := Some(r);
    }

    /**
     * `update(price)`: once the window holds `long.interval` prices the signal line is fed
     * `short - long` and a result is stored and returned; before that nothing changes but the window.
     */
    method Update(price: real) returns (r: Option<MACDResult>)
      requires Valid()
      modifies Repr
      ensures Valid() && inputs == old(inputs) + [price]
      ensures |prices| <= long.interval && prices == Last(inputs, long.interval)
      ensures r.Some? <==> |inputs| >= FirstFull(long.interval)
      ensures r.Some? ==> r == result
                          && r.value.macd == Macd(short, long, inputs)
                          && signal.inputs == old(signal.inputs) + [r.value.macd]
                          && Some(r.value.signal) == E.Expected(signal.blend, signal.inputs)
                          && r.value.histogram == r.value.macd - r.value.signal
      ensures r.None? ==> result == old(result) && signal.inputs == old(signal.inputs)
    {
      MacdTrailStep(short, long, inputs, price);
      var s, l := Feed(price);
      if |prices| == long.interval {
        assert |inputs| >= long.interval;
        var v := Signal(s - l);
        assert signal.inputs == MacdTrail(short, long, inputs);
        assert Stored(short, long, signal, inputs) == Some(v);
        r := Some(v);
      } else {
        assert signal.inputs == MacdTrail(short, long, inputs);
        r := None;
      }
    }
  }

  /** The first result's histogram is zero: the signal line starts at the first MACD value it is fed. */
  lemma FirstHistogramIsZero(macd: MACD)
    requires macd.Valid() && |macd.inputs| == FirstFull(macd.long.interval)
    ensures macd.result.Some? && macd.result.value.histogram == 0.0
  {
    MacdTrailLength(macd.short, macd.long, macd.inputs);
    var trail := MacdTrail(macd.short, macd.long, macd.inputs);
    assert trail == [trail[0]];
  }

  /** With 18 as the long interval, 17 prices leave the MACD unstable and the 18th makes it stable. */
  lemma StableAtLongInterval(macd: MACD)
    requires macd.Valid() && macd.long.interval == 18
    ensures |macd.inputs| == 17 ==> !macd.IsStable()
    ensures |macd.inputs| == 18 ==> macd.IsStable()
  {
  }
}
