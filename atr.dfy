/**
 * Average True Range: every candle's true range is fed into a smoothing moving average
 * (Wilder's by default), and once the smoothing is stable the ATR result is its result.
 */
module AverageTrueRange {
  import opened Outcome
  import opened Indicator
  import opened TrueRange
  import opened MovingAverages

  /** Every result the ATR stores while its smoothing sees the prices `xs`, oldest first. */
  ghost function Outputs(smoothing: MovingAverage, xs: seq<real>): seq<real>
  {
    if xs == [] then []
    else
      Outputs(smoothing, xs[..|xs| - 1])
      + (match smoothing.Expected(xs)
         case Some(v) => if smoothing.StableAfter(xs) then [v] else []
         case None => [])
  }

  /** With Wilder's smoothing the first result comes with the `interval`-th candle, then one per candle. */
  lemma {:induction false} WilderOutputCount(smoothing: MovingAverage, xs: seq<real>)
    requires smoothing.kind.WsmaKind? && smoothing.interval > 0
    ensures |Outputs(smoothing, xs)| == if |xs| < smoothing.interval then 0 else |xs| - smoothing.interval + 1
  {
    if xs != [] {
      WilderOutputCount(smoothing, xs[..|xs| - 1]);
    }
  }

  /** One more price adds the smoothing's result when the smoothing is then stable. */
  lemma OutputsStep(smoothing: MovingAverage, xs: seq<real>, x: real)
    ensures Outputs(smoothing, xs + [x])
         == Outputs(smoothing, xs)
            + (match smoothing.Expected(xs + [x])
               case Some(v) => if smoothing.StableAfter(xs + [x]) then [v] else []
               case None => [])
  {
    assert (xs + [x])[..|xs|] == xs;
  }

  class ATR {
    const interval: nat
    const tr: TR
    const smoothing: MovingAverage
    const series: IndicatorSeries
    /** Every candle fed so far. */
    ghost var candles: seq<HighLowClose>
    ghost const Repr: set<object>

    /** The parts are separate objects. */
    ghost predicate Separate()
    {
      tr in tr.Repr && smoothing in smoothing.Repr
      && this !in tr.Repr && series !in tr.Repr
      && this !in smoothing.Repr && series !in smoothing.Repr && tr.Repr !! smoothing.Repr
    }

    /** The parts are separate and each is consistent. */
    ghost predicate Wired()
      reads series, tr.Repr, smoothing.Repr
    {
      Separate() && tr.Valid() && smoothing.Valid() && series.Valid()
    }

    /** The smoothing has seen every candle's range, and the stored results are those it made stable. */
    ghost predicate Valid()
      reads this, Repr
    {
      Repr == {this, series} + tr.Repr + smoothing.Repr && Wired()
      && smoothing.interval == interval
      && tr.candles == candles
      && smoothing.inputs == Ranges(tr.range, candles)
      && series.history == Outputs(smoothing, smoothing.inputs)
    }

    /**
     * `new ATR(interval, SmoothingIndicator)`: a fresh TR and a fresh smoothing of the same
     * interval; `WsmaKind` is the default `SmoothingIndicator`.
     */
    constructor (interval: nat, range: (Option<HighLowClose>, HighLowClose) -> real, kind: Kind)
      requires kind.WsmaKind? ==> interval > 0
      ensures Valid() && fresh(series) && fresh(tr.Repr) && fresh(smoothing.Repr)
      ensures this.interval == interval && candles == [] && smoothing.kind == kind && tr.range == range
    {
      this.interval := interval;
      var base := new IndicatorSeries();
      var t := new TR(range);
      var s := new MovingAverage(kind, interval);
      tr := t;
      smoothing := s;
      series := base;
      candles := [];
      Repr := {this, base} + t.Repr + s.Repr;
    }

    /** `isStable`: a result has been stored. */
    predicate IsStable()
      reads Repr
      requires Valid()
      ensures IsStable() <==> Outputs(smoothing, smoothing.inputs) != []
    {
      series.IsStable()
    }

    /** `getResult()`: the latest stored result, or NotEnoughData while there is none. */
    function GetResult(): (r: Result<real>)
      reads Repr
      requires Valid()
      ensures r.Err? <==> Outputs(smoothing, smoothing.inputs) == []
      ensures r.Ok? ==> r.value == Outputs(smoothing, smoothing.inputs)[|Outputs(smoothing, smoothing.inputs)| - 1]
    {
      series.GetResult()
    }

    /** `this.tr.update(candle)`. */
    method FeedRange(candle: HighLowClose) returns (trueRange: real)
      requires Wired()
      modifies tr.Repr
      ensures Wired() && tr.candles == old(tr.candles) + [candle]
      ensures trueRange == tr.range(old(tr.previous), candle)
      ensures smoothing.inputs == old(smoothing.inputs) && series.history == old(series.history)
    {
      trueRange := tr.Update(candle);
    }

    /** `this.smoothing.update(trueRange)`. */
    method FeedSmoothing(trueRange: real)
      requires Wired()
      modifies smoothing.Repr
      ensures Wired() && smoothing.inputs == old(smoothing.inputs) + [trueRange]
      ensures tr.candles == old(tr.candles) && series.history == old(series.history)
    {
      var ignored := smoothing.Update(trueRange);
    }

    /** The first half of `update(candle)`: the true range of the candle goes into the smoothing. */
    method Feed(candle: HighLowClose) returns (trueRange: real)
      requires Valid()
      modifies this, tr.Repr, smoothing.Repr
      ensures Wired() && candles == old(candles) + [candle] && tr.candles == candles
      ensures series.history == old(series.history)
      ensures trueRange == tr.range(old(tr.previous), candle)
      ensures smoothing.inputs == old(smoothing.inputs) + [trueRange]
    {
      RangesStep(tr.range, candles, candle);
      candles := candles + [candle];
      trueRange := FeedRange(candle);
      FeedSmoothing(trueRange);
    }

    /** The second half of `update(candle)`: `setResult(value)`. */
    method Store(value: real) returns (r: real)
      requires Wired()
      modifies series
      ensures Wired() && r == value && series.history == old(series.history) + [value]
    {
      r := series.SetResult(value);
    }

    /** `update(candle)`: the true range goes into the smoothing; a stable smoothing's result becomes the ATR's. */
    method Update(candle: HighLowClose) returns (r: Option<real>)
      requires Valid()
      modifies Repr
      ensures Valid() && candles == old(candles) + [candle]
      ensures smoothing.inputs == old(smoothing.inputs) + [tr.range(old(tr.previous), candle)]
      ensures r.Some? <==> smoothing.StableAfter(smoothing.inputs)
      ensures r.Some? ==> r == smoothing.Expected(smoothing.inputs)
                          && series.history == old(series.history) + [r.value]
      ensures r.None? ==> series.history == old(series.history)
    {
      var trueRange := Feed(candle);
      OutputsStep(smoothing, old(smoothing.inputs), trueRange);
      if smoothing.IsStable() {
        smoothing.StableHasResult(smoothing.inputs);
        var v := smoothing.GetResult().value;
        assert Outputs(smoothing, smoothing.inputs) == series.history + [v];
        v := Store(v);
        r := Some(v);
      } else {
        r := None;
      }
    }
  }

  /** With the default smoothing, 15 candles at interval 5 leave 11 results, the first at the 5th candle. */
  lemma DefaultResultCount(atr: ATR)
    requires atr.Valid() && atr.smoothing.kind.WsmaKind? && atr.interval == 5
    requires |atr.candles| == 15
    ensures |atr.series.history| == 11
  {
    WilderOutputCount(atr.smoothing, atr.smoothing.inputs);
  }
}
