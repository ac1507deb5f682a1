/**
 * Awesome Oscillator: every candle's median price `(low + high) / 2` is fed to a short and a
 * long moving average of one kind (SMA by default); once the long one is stable the result is
 * the short result minus the long one.
 */
module AwesomeOscillator {
  import opened Outcome
  import opened Indicator
  import opened MovingAverages

  /** A candle's low and high prices (`HighLow`). */
  datatype HighLow = HighLow(low: real, high: real)

  /** The median price of a candle. */
  function Median(candle: HighLow): (r: real)
    ensures candle.low <= candle.high ==> candle.low <= r <= candle.high
    ensures r - candle.low == candle.high - r
  {
    (candle.low + candle.high) / 2.0
  }

  /** The median price of every candle, in order. */
  function Medians(candles: seq<HighLow>): (r: seq<real>)
    ensures |r| == |candles|
    ensures forall i :: 0 <= i < |candles| ==> r[i] == Median(candles[i])
  {
    if candles == [] then [] else Medians(candles[..|candles| - 1]) + [Median(candles[|candles| - 1])]
  }

  /** One more candle adds its median. */
  lemma MediansStep(candles: seq<HighLow>, candle: HighLow)
    ensures Medians(candles + [candle]) == Medians(candles) + [Median(candle)]
  {
    assert (candles + [candle])[..|candles|] == candles;
  }

  /** Whether `update` fails after the medians `xs`: the long average is stable, the short one gives no result. */
  predicate Fails(short: MovingAverage, long: MovingAverage, xs: seq<real>)
  {
    long.StableAfter(xs) && short.Available(xs).None?
  }

  /** The value `update` stores after the medians `xs`, if it stores one. */
  function Step(short: MovingAverage, long: MovingAverage, xs: seq<real>): (r: Option<real>)
    requires xs != []
    ensures r.Some? <==> long.StableAfter(xs) && !Fails(short, long, xs)
    ensures r.Some? ==> r.value == short.Expected(xs).value - long.Expected(xs).value
  {
    if long.StableAfter(xs) && short.Available(xs).Some? then
      long.StableHasResult(xs);
      Some(short.Available(xs).value - long.Available(xs).value)
    else None
  }

  /** Every result the oscillator stores while both averages see the medians `xs`, oldest first. */
  function Outputs(short: MovingAverage, long: MovingAverage, xs: seq<real>): seq<real>
  {
    if xs == [] then []
    else Outputs(short, long, xs[..|xs| - 1]) + (match Step(short, long, xs) case Some(v) => [v] case None => [])
  }

  /** One more median adds the stored value of that update, if any. */
  lemma OutputsStep(short: MovingAverage, long: MovingAverage, xs: seq<real>, x: real)
    ensures Outputs(short, long, xs + [x])
         == Outputs(short, long, xs) + (match Step(short, long, xs + [x]) case Some(v) => [v] case None => [])
  {
    assert (xs + [x])[..|xs|] == xs;
  }

  /** The two fresh averages an oscillator is built with: `new SmoothingIndicator(shortInterval)` and `new SmoothingIndicator(longInterval)`. */
  method NewAverages(kind: Kind, shortInterval: nat, longInterval: nat) returns (s: MovingAverage, l: MovingAverage)
    requires kind.WsmaKind? ==> shortInterval > 0 && longInterval > 0
    ensures fresh(s.Repr) && fresh(l.Repr) && s.Repr !! l.Repr
    ensures s.Valid() && s.kind == kind && s.interval == shortInterval && s.inputs == []
    ensures l.Valid() && l.kind == kind && l.interval == longInterval && l.inputs == []
    ensures s.series.history == [] && l.series.history == []
  {
    s := new MovingAverage(kind, shortInterval);
    l := new MovingAverage(kind, longInterval);
  }

  class AO {
    const shortInterval: nat
    const longInterval: nat
    const short: MovingAverage
    const long: MovingAverage
    const series: IndicatorSeries
    /** Every candle fed so far. */
    ghost var candles: seq<HighLow>
    ghost const Repr: set<object>

    /** The parts are separate objects. */
    ghost predicate Separate()
    {
      short in short.Repr && long in long.Repr
      && this !in short.Repr && series !in short.Repr
      && this !in long.Repr && series !in long.Repr && short.Repr !! long.Repr
    }

    /** The parts are separate and each is consistent. */
    ghost predicate Parts()
      reads series, short.Repr, long.Repr
    {
      Separate() && short.Valid() && long.Valid() && series.Valid()
    }

    /** The parts are separate and consistent, and both averages have seen the same prices. */
    ghost predicate Wired()
      reads series, short.Repr, long.Repr
    {
      Parts() && short.inputs == long.inputs
    }

    ghost predicate Valid()
      reads this, Repr
    {
      Repr == {this, series} + short.Repr + long.Repr && Wired()
      && short.interval == shortInterval && long.interval == longInterval
      && short.inputs == Medians(candles)
      && series.history == Outputs(short, long, short.inputs)
    }

    /** `new AO(shortInterval, longInterval, SmoothingIndicator)`; `SmaKind` is the default `SmoothingIndicator`. */
    constructor (shortInterval: nat, longInterval: nat, kind: Kind)
      requires kind.WsmaKind? ==> shortInterval > 0 && longInterval > 0
      ensures Valid() && candles == []
      ensures fresh(series) && fresh(short.Repr) && fresh(long.Repr)
      ensures this.shortInterval == shortInterval && this.longInterval == longInterval
      ensures short.kind == kind && long.kind == kind
    {
      this.shortInterval := shortInterval;
      this.longInterval := longInterval;
      var base := new IndicatorSeries();
      var s, l := NewAverages(kind, shortInterval, longInterval);
      short := s;
      long := l;
      series := base;
      candles := [];
      Repr := {this, base} + s.Repr + l.Repr;
    }

    /** `isStable`: a result has been stored. */
    predicate IsStable()
      reads Repr
      requires Valid()
      ensures IsStable() <==> Outputs(short, long, Medians(candles)) != []
    {
      series.IsStable()
    }

    /** `getResult()`: the latest stored result, or NotEnoughData while there is none. */
    function GetResult(): (r: Result<real>)
      reads Repr
      requires Valid()
      ensures r.Err? <==> Outputs(short, long, short.inputs) == []
      ensures r.Ok? ==> r.value == Outputs(short, long, short.inputs)[|Outputs(short, long, short.inputs)| - 1]
    {
      series.GetResult()
    }

    /** `this.short.update(medianPrice)`. */
    method FeedShort(median: real)
      requires Parts()
      modifies short.Repr
      ensures Parts() && short.inputs == old(short.inputs) + [median] && long.inputs == old(long.inputs)
      ensures series.history == old(series.history)
    {
      var ignored := short.Update(median);
    }

    /** `this.long.update(medianPrice)`. */
    method FeedLong(median: real)
      requires Parts()
      modifies long.Repr
      ensures Parts() && long.inputs == old(long.inputs) + [median] && short.inputs == old(short.inputs)
      ensures series.history == old(series.history)
    {
      var ignored := long.Update(median);
    }

    /** The first half of `update(candle)`: the median price goes into both averages. */
    method Feed(candle: HighLow) returns (median: real)
      requires Valid()
      modifies this, short.Repr, long.Repr
      ensures Wired() && candles == old(candles) + [candle] && series.history == old(series.history)
      ensures median == Median(candle)
      ensures short.inputs == old(short.inputs) + [median] && long.inputs == old(long.inputs) + [median]
    {
      MediansStep(candles, candle);
      median := (candle.low + candle.high) / 2.0;
      candles := candles + [candle];
      FeedShort(median);
      FeedLong(median);
    }

    /**
     * The decision in `update(candle)` once both averages have seen the medians `xs`: nothing
     * while the long average is unstable, NotEnoughData when the short one has no result, and
     * otherwise the short result minus the long one.
     */
    method Decide(ghost xs: seq<real>) returns (r: Result<Option<real>>)
      requires Wired() && xs != [] && long.inputs == xs
      ensures r.Err? <==> Fails(short, long, xs)
      ensures r.Ok? ==> r.value == Step(short, long, xs)
      ensures r.Ok? && r.value.Some? ==>
                r.value.value == short.Expected(xs).value - long.Expected(xs).value
    {
      if long.IsStable() {
        long.StableHasResult(xs);
        var shortResult := short.GetResult();
        if shortResult.Err? {
          r := Err(shortResult.error);
        } else {
          r := Ok(Some(shortResult.value - long.GetResult().value));
        }
      } else {
        r := Ok(None);
      }
    }

    /** `setResult(value)`. */
    method Store(value: real) returns (r: real)
      requires Wired()
      modifies series
      ensures Wired() && r == value && series.history == old(series.history) + [value]
    {
      r := series.SetResult(value);
    }

    /** The second half of `update(candle)`: decide, and store a value when there is one. */
    method Conclude(ghost xs: seq<real>) returns (r: Result<Option<real>>)
      requires Wired() && xs != [] && long.inputs == xs
      modifies series
      ensures Wired()
      ensures r.Err? <==> Fails(short, long, xs)
      ensures r.Ok? ==> r.value == Step(short, long, xs)
      ensures r.Ok? && r.value.Some? ==>
                r.value.value == short.Expected(xs).value - long.Expected(xs).value
      ensures series.history == old(series.history) + (match Step(short, long, xs) case Some(v) => [v] case None => [])
    {
      r := Decide(xs);
      if r.Ok? && r.value.Some? {
        var stored := Store(r.value.value);
      }
    }

    /**
     * `update(candle)`: the median goes into both averages; once the long average is stable the
     * difference of the two results is stored and returned, and a short average without a result
     * makes the update fail with NotEnoughData.
     */
    method Update(candle: HighLow) returns (r: Result<Option<real>>)
      requires Valid()
      modifies Repr
      ensures Valid() && candles == old(candles) + [candle]
      ensures short.inputs == old(short.inputs) + [Median(candle)]
      ensures long.inputs == old(long.inputs) + [Median(candle)]
      ensures r.Err? <==> Fails(short, long, long.inputs)
      ensures r == Ok(None) <==> !long.StableAfter(long.inputs)
      ensures r.Ok? && r.value.Some? ==>
                r.value == Step(short, long, long.inputs)
                && r.value.value == short.Expected(short.inputs).value - long.Expected(long.inputs).value
                && series.history == old(series.history) + [r.value.value]
      ensures r.Err? || r.value.None? ==> series.history == old(series.history)
    {
      ghost var before := long.inputs;
      var median := Feed(candle);
      OutputsStep(short, long, before, median);
      r := Conclude(before + [median]);
    }
  }

  /**
   * With a short interval above the long one, every update from the long average's first stable
   * price up to the short interval fails, whichever average was chosen: the long average is
   * stable, and the short one has no result to give (an EMA holds it back until its interval).
   */
  lemma SlowShortFails(short: MovingAverage, long: MovingAverage, xs: seq<real>)
    requires 0 < long.interval < short.interval
    requires long.interval <= |xs| < short.interval
    ensures Fails(short, long, xs)
  {
  }

  /** With a short interval up to the long one, a result is stored for every candle from the long interval on, whichever average was chosen. */
  lemma {:induction false} ResultCount(short: MovingAverage, long: MovingAverage, xs: seq<real>)
    requires 0 < short.interval <= long.interval
    ensures |Outputs(short, long, xs)| == if |xs| < long.interval then 0 else |xs| - long.interval + 1
  {
    if xs != [] {
      ResultCount(short, long, xs[..|xs| - 1]);
    }
  }
}
