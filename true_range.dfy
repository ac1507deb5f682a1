/**
 * True Range, as far as ATR relies on it. How a candle's range is measured against the
 * candle before it is not part of this model: it is the `range` function a TR is built
 * with, given the previous candle (none for the first) and the new one. What ATR relies on
 * is fixed: every update stores and returns one range, measured against the candle before.
 */
module TrueRange {
  import opened Outcome
  import opened Indicator

  /** A candle with high, low and close prices (`HighLowClose`). */
  datatype HighLowClose = HighLowClose(high: real, low: real, close: real)

  /** The range of every candle in `candles`, each measured against its predecessor. */
  function Ranges(range: (Option<HighLowClose>, HighLowClose) -> real, candles: seq<HighLowClose>): (r: seq<real>)
    ensures |r| == |candles|
  {
    if candles == [] then []
    else
      var before := candles[..|candles| - 1];
      Ranges(range, before) + [range(if before == [] then None else Some(before[|before| - 1]), candles[|candles| - 1])]
  }

  /** The range at position `i` is the one measured from candle `i - 1` to candle `i`. */
  lemma {:induction false} RangeAt(range: (Option<HighLowClose>, HighLowClose) -> real, candles: seq<HighLowClose>, i: nat)
    requires i < |candles|
    ensures Ranges(range, candles)[i] == range(if i == 0 then None else Some(candles[i - 1]), candles[i])
    decreases |candles|
  {
    var before := candles[..|candles| - 1];
    if i < |candles| - 1 {
      RangeAt(range, before, i);
    }
  }

  /** One more candle adds its range against the last candle before it. */
  lemma RangesStep(range: (Option<HighLowClose>, HighLowClose) -> real, candles: seq<HighLowClose>, candle: HighLowClose)
    ensures Ranges(range, candles + [candle])
         == Ranges(range, candles) + [range(if candles == [] then None else Some(candles[|candles| - 1]), candle)]
  {
    assert (candles + [candle])[..|candles|] == candles;
  }

  class TR {
    const range: (Option<HighLowClose>, HighLowClose) -> real
    /** The candle of the previous update, if any. */
    var previous: Option<HighLowClose>
    const series: IndicatorSeries
    ghost var candles: seq<HighLowClose>
    ghost const Repr: set<object>

    ghost predicate Valid()
      reads this, Repr
    {
      Repr == {this, series} && series.Valid()
      && previous == (if candles == [] then None else Some(candles[|candles| - 1]))
      && series.history == Ranges(range, candles)
    }

    constructor (range: (Option<HighLowClose>, HighLowClose) -> real)
      ensures Valid() && fresh(Repr)
      ensures this.range == range && candles == []
    {
      this.range := range;
      previous := None;
      series := new IndicatorSeries();
      candles := [];
      Repr := {this, series};
    }

    /** `update(candle)`: measures the candle against the previous one and stores the range. */
    method Update(candle: HighLowClose) returns (r: real)
      requires Valid()
      modifies Repr
      ensures Valid() && candles == old(candles) + [candle]
      ensures r == range(old(previous), candle) && series.result == Some(r)
    {
      r := series.SetResult(range(previous, candle));
      previous := Some(candle);
      candles := candles + [candle];
      assert candles[..|candles| - 1] == old(candles);
    }
  }
}
