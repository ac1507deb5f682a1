/**
 * The state every indicator series shares: the current result and the highest and lowest
 * result over the whole lifetime of the indicator (not over its interval). The decimal and
 * the floating-point series behave alike over exact arithmetic, so one class stands for both.
 */
module Indicator {
  import opened Outcome
  import opened Extremes

  class IndicatorSeries {
    var highest: Option<real>
    var lowest: Option<real>
    var result: Option<real>
    /** Every value ever passed to SetResult, oldest first. */
    ghost var history: seq<real>

    ghost predicate Valid()
      reads this
    {
      if history == [] then
        result == None && highest == None && lowest == None
      else
        result == Some(history[|history| - 1])
        && highest == Some(Max(history)) && lowest == Some(Min(history))
    }

    constructor ()
      ensures Valid() && history == []
    {
      highest, lowest, result := None, None, None;
      history := [];
    }

    /** `isStable`: a result has been stored. */
    predicate IsStable()
      reads this
      requires Valid()
      ensures IsStable() <==> history != []
    {
      result.Some?
    }

    /** `getResult()`: the latest stored result, or NotEnoughData when there is none. */
    function GetResult(): (r: Result<real>)
      reads this
      requires Valid()
      ensures history == [] <==> r == Err(NotEnoughData)
      ensures history != [] ==> r == Ok(history[|history| - 1])
    {
      if result.None? then Err(NotEnoughData) else Ok(result.value)
    }

    /** `setResult(value)`: stores the value, widens the lifetime extrema and returns the value. */
    method SetResult(value: real) returns (r: real)
      requires Valid()
      modifies this
      ensures Valid() && history == old(history) + [value]
      ensures r == value && result == Some(value)
      ensures highest.Some? && lowest.Some? && lowest.value <= value <= highest.value
      ensures old(highest).Some? ==> old(highest).value <= highest.value
      ensures old(lowest).Some? ==> lowest.value <= old(lowest).value
    {
      MaxStep(history, value);
      MinStep(history, value);
      if highest.None? || value > highest.value {
        highest := Some(value);
      }
      if lowest.None? || value < lowest.value {
        lowest := Some(value);
      }
      result := Some(value);
      history := history + [value];
      r := value;
    }
  }

  /** Lifetime extrema bound every result the series ever stored, and are among them. */
  lemma ExtremaCoverHistory(series: IndicatorSeries)
    requires series.Valid() && series.history != []
    ensures series.highest.value in series.history && series.lowest.value in series.history
    ensures forall i :: 0 <= i < |series.history| ==>
              series.lowest.value <= series.history[i] <= series.highest.value
  {
    MaxIsGreatest(series.history);
    MinIsLeast(series.history);
  }
}
