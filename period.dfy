/**
 * `Period`: a fixed window of the last `interval` values together with the lowest and highest
 * of them, recomputed on every update that leaves the window full. Before the window first
 * fills up, `highest` and `lowest` are still undefined.
 */
module RollingPeriod {
  import opened Outcome
  import opened FixedArray
  import Mn = Minimum
  import Mx = Maximum

  /** `{highest, lowest}`; `None` stands for the `undefined` of a period that was never full. */
  datatype PeriodResult = PeriodResult(highest: Option<real>, lowest: Option<real>)

  /** Whether an update has seen the window full after the values `xs`. */
  predicate Filled(xs: seq<real>, interval: nat)
  {
    xs != [] && |xs| >= interval
  }

  class Period {
    const interval: nat
    /** The window: the last `interval` values. */
    var values: seq<real>
    var highest: Option<real>
    var lowest: Option<real>
    /** Every value fed so far. */
    ghost var inputs: seq<real>

    ghost predicate Valid()
      reads this
    {
      values == Last(inputs, interval)
      && highest == (if Filled(inputs, interval) then Some(Mx.Maximum(values)) else None)
      && lowest == (if Filled(inputs, interval) then Some(Mn.Minimum(values)) else None)
    }

    /** `new Period(interval)`: an empty window, no extremes yet. */
    constructor (interval: nat)
      ensures Valid() && this.interval == interval && inputs == []
      ensures values == [] && highest == None && lowest == None
    {
      this.interval := interval;
      values := [];
      highest, lowest := None, None;
      inputs := [];
    }

    /** `isStable`: the window holds `interval` values. */
    predicate IsStable()
      reads this
      requires Valid()
      ensures IsStable() <==> |inputs| >= interval
    {
      |values| == interval
    }

    /** `getResult()`: the extremes of the last full window; both undefined until the first one. */
    function GetResult(): (r: PeriodResult)
      reads this
      requires Valid()
      ensures r.highest.Some? <==> Filled(inputs, interval)
      ensures r.lowest.Some? <==> Filled(inputs, interval)
      ensures r.highest.Some? ==> r.highest.value == Mx.Maximum(Last(inputs, interval))
      ensures r.lowest.Some? ==> r.lowest.value == Mn.Minimum(Last(inputs, interval))
    {
      PeriodResult(highest, lowest)
    }

    /** `update(value)`: push into the window; when it is full, recompute and return the extremes. */
    method Update(value: real) returns (r: Option<PeriodResult>)
      requires Valid()
      modifies this
      ensures Valid() && inputs == old(inputs) + [value]
      ensures values == Last(inputs, interval) && |values| <= interval
      ensures r.Some? <==> |inputs| >= interval
      ensures r.Some? ==> r.value == PeriodResult(Some(Mx.Maximum(values)), Some(Mn.Minimum(values)))
      ensures r.None? ==> highest == old(highest) == None && lowest == old(lowest) == None
    {
      PushLast(inputs, interval, value);
      values := Push(values, interval, value);
      inputs := inputs + [value];
      if |values| == interval {
        var min := Mn.GetMinimum(values);
        var max := Mx.GetMaximum(values);
        lowest := Some(min);
        highest := Some(max);
        r := Some(GetResult());
      } else {
        r := None;
      }
    }
  }

  /** Once full, the window's extremes bound every value in it and, within the safe-integer range, are among them. */
  lemma StableBounds(period: Period)
    requires period.Valid() && Filled(period.inputs, period.interval)
    ensures forall i :: 0 <= i < |period.values| ==>
              period.lowest.value <= period.values[i] <= period.highest.value
    ensures forall i :: 0 <= i < |period.values| && Mx.MIN_SAFE_INTEGER <= period.values[i] <= Mn.MAX_SAFE_INTEGER ==>
              period.lowest.value in period.values && period.highest.value in period.values
  {
    Mn.MinimumBounds(period.values);
    Mx.MaximumBounds(period.values);
    forall i | 0 <= i < |period.values| && Mx.MIN_SAFE_INTEGER <= period.values[i] <= Mn.MAX_SAFE_INTEGER
      ensures period.lowest.value in period.values && period.highest.value in period.values
    {
      Mn.MinimumIsAValue(period.values, i);
      Mx.MaximumIsAValue(period.values, i);
    }
  }

  /** A period of two fed 72 and 1337 reports 72 as lowest and 1337 as highest. */
  lemma TwoValueExample(period: Period)
    requires period.Valid() && period.interval == 2 && period.inputs == [72.0, 1337.0]
    ensures period.GetResult() == PeriodResult(Some(1337.0), Some(72.0))
  {
    LastIsSuffix(period.inputs, 2);
    assert period.values == [72.0, 1337.0];
    assert [72.0, 1337.0][..1] == [72.0];
    assert [72.0][..0] == [];
  }

  /** A period of zero counts as full from the start; its first update yields the two sentinels. */
  lemma ZeroIntervalSentinels(period: Period)
    requires period.Valid() && period.interval == 0 && period.inputs != []
    ensures period.IsStable()
    ensures period.GetResult() == PeriodResult(Some(Mx.MIN_SAFE_INTEGER), Some(Mn.MAX_SAFE_INTEGER))
  {
  }

  /** The fifteen prices of the rolling example. */
  const EXAMPLE_PRICES: seq<real> := [81.59, 81.06, 82.87, 83.0, 83.61, 83.15, 82.84, 83.99, 84.55, 84.36,
                                      85.53, 86.54, 86.89, 87.77, 87.29]

  /** A value of the window that no other value undercuts is its minimum; likewise for the maximum. */
  lemma WindowExtremes(w: seq<real>, low: real, high: real)
    requires low in w && high in w && Mx.MIN_SAFE_INTEGER <= high && low <= Mn.MAX_SAFE_INTEGER
    requires forall i :: 0 <= i < |w| ==> low <= w[i] <= high
    ensures Mn.Minimum(w) == low && Mx.Maximum(w) == high
  {
    Mn.MinimumBounds(w);
    Mx.MaximumBounds(w);
  }

  /** Over a period of five, the low of 81.06 leaves the window with the seventh price: the lowest becomes 82.84. */
  lemma LowestRollsOut(period: Period)
    requires period.Valid() && period.interval == 5 && period.inputs == EXAMPLE_PRICES[..7]
    ensures period.lowest == Some(82.84) && period.highest == Some(83.61)
  {
    var w := EXAMPLE_PRICES[2..7];
    LastIsSuffix(EXAMPLE_PRICES[..7], 5);
    assert EXAMPLE_PRICES[..7][2..] == w == [82.87, 83.0, 83.61, 83.15, 82.84];
    WindowExtremes(w, 82.84, 83.61);
  }

  /** After all fifteen prices the period of five reports 85.53 as lowest and 87.77 as highest. */
  lemma FinalExtremes(period: Period)
    requires period.Valid() && period.interval == 5 && period.inputs == EXAMPLE_PRICES
    ensures period.lowest == Some(85.53) && period.highest == Some(87.77)
  {
    LastIsSuffix(EXAMPLE_PRICES, 5);
    assert EXAMPLE_PRICES[10..] == [85.53, 86.54, 86.89, 87.77, 87.29];
    FinalWindow();
  }

  /** The last five example prices range from 85.53 to 87.77. */
  lemma FinalWindow()
    ensures Mn.Minimum([85.53, 86.54, 86.89, 87.77, 87.29]) == 85.53
    ensures Mx.Maximum([85.53, 86.54, 86.89, 87.77, 87.29]) == 87.77
  {
    WindowExtremes([85.53, 86.54, 86.89, 87.77, 87.29], 85.53, 87.77);
  }
}
