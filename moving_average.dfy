/**
 * The moving averages a compound indicator can be built with (`MovingAverageTypes`: EMA, SMA
 * or WSMA). Each is an indicator series fed one price per update and carrying an interval;
 * `MovingAverage` stands for the abstract base class and forwards every call to whichever
 * object its constructor built.
 */
module MovingAverages {
  import opened Outcome
  import opened Indicator
  import S = SimpleMovingAverage
  import E = ExponentialMovingAverage
  import W = WildersMovingAverage

  /** The class chosen as `SmoothingIndicator`; an EMA's weighting depends on the interval it is built with. */
  datatype Kind = SmaKind | EmaKind(weigh: nat -> (real, real) -> real) | WsmaKind

  class MovingAverage {
    const kind: Kind
    /** `interval`, the one field the abstract `MovingAverage` base declares. */
    const interval: nat
    const sma: S.SMA?
    const ema: E.EMA?
    const wsma: W.WSMA?
    /** The series holding the current result and the lifetime extrema. */
    const series: IndicatorSeries
    /** Every price fed so far. */
    ghost var inputs: seq<real>
    ghost const Repr: set<object>

    ghost predicate Valid()
      reads this, Repr
    {
      this in Repr && series in Repr
      && (kind.SmaKind? ==> SmaValid())
      && (kind.EmaKind? ==> EmaValid())
      && (kind.WsmaKind? ==> WsmaValid())
    }

    ghost predicate SmaValid()
      reads this, Repr
    {
        sma != null && Repr == {this} + sma.Repr && sma.Repr == {sma, series} && sma.series == series
        && sma.Valid() && sma.interval == interval && sma.inputs == inputs
    }
    ghost predicate EmaValid()
      reads this, Repr
      requires kind.EmaKind?
    {
        ema != null && Repr == {this} + ema.Repr && ema.Repr == {ema, series} && ema.series == series
        && ema.Valid() && ema.interval == interval && ema.blend == kind.weigh(interval) && ema.inputs == inputs
    }
    ghost predicate WsmaValid()
      reads this, Repr
    {
        wsma != null && Repr == {this} + wsma.Repr && wsma in wsma.Repr && this !in wsma.Repr
        && wsma.series == series && series in wsma.Repr
        && wsma.Valid() && wsma.interval == interval && wsma.inputs == inputs
    }

    /** `new SmoothingIndicator(interval)`: builds a fresh average of the chosen kind. */
    constructor (kind: Kind, interval: nat)
      requires kind.WsmaKind? ==> interval > 0
      ensures Valid() && fresh(Repr) && this.kind == kind && this.interval == interval
      ensures inputs == [] && series.history == []
    {
      this.kind := kind;
      this.interval := interval;
      inputs := [];
      match kind
      case SmaKind =>
        var m := new S.SMA(interval);
        sma, ema, wsma := m, null, null;
        series := m.series;
        Repr := {this} + m.Repr;
      case EmaKind(weigh) =>
        var m := new E.EMA(interval, weigh(interval));
        sma, ema, wsma := null, m, null;
        series := m.series;
        Repr := {this} + m.Repr;
      case WsmaKind =>
        var m := new W.WSMA(interval);
        sma, ema, wsma := null, null, m;
        series := m.series;
        Repr := {this} + m.Repr;
    }

    /** The stored result after the prices `xs`. */
    function Expected(xs: seq<real>): (r: Option<real>)
      ensures kind.EmaKind? ==> (r.Some? <==> xs != [])
      ensures kind.SmaKind? ==> (r.Some? <==> xs != [] && |xs| >= interval)
      ensures kind.WsmaKind? && interval > 0 ==> (r.Some? <==> |xs| >= interval)
    {
      match kind
      case SmaKind => S.Output(xs, interval)
      case EmaKind(weigh) => E.Expected(weigh(interval), xs)
      case WsmaKind => if interval == 0 then None else W.Expected(xs, interval)
    }

    /** What `getResult()` gives after the prices `xs`: an EMA holds its result back until `interval` prices have arrived. */
    function Available(xs: seq<real>): (r: Option<real>)
      ensures r.Some? ==> r == Expected(xs)
      ensures kind.EmaKind? ==> (r.Some? <==> xs != [] && |xs| >= interval)
      ensures !kind.EmaKind? ==> r == Expected(xs)
    {
      if kind.EmaKind? && |xs| < interval then None else Expected(xs)
    }

    /** Whether `isStable` holds after the prices `xs`: an EMA counts prices, the others hold a result. */
    predicate StableAfter(xs: seq<real>)
    {
      if kind.EmaKind? then |xs| >= interval else Expected(xs).Some?
    }

    /** `isStable`. */
    predicate IsStable()
      reads Repr
      requires Valid()
      ensures IsStable() <==> StableAfter(inputs)
    {
      match kind
      case SmaKind => series.IsStable()
      case EmaKind(_) => ema.IsStable()
      case WsmaKind => series.IsStable()
    }

    /** `getResult()`: the result the chosen average gives out, or NotEnoughData while it gives none. */
    function GetResult(): (r: Result<real>)
      reads Repr
      requires Valid()
      ensures Available(inputs).None? <==> r == Err(NotEnoughData)
      ensures Available(inputs).Some? ==> r == Ok(Available(inputs).value)
    {
      match kind
      case SmaKind => series.GetResult()
      case EmaKind(_) => ema.GetResult()
      case WsmaKind => series.GetResult()
    }

    /** `update(price)`: the result it returns is the one the prices so far determine. */
    method Update(price: real) returns (r: Option<real>)
      requires Valid()
      modifies Repr
      ensures Valid() && inputs == old(inputs) + [price]
      ensures r == Expected(inputs) && series.result == r
      ensures r.Some? ==> series.history == old(series.history) + [r.value]
      ensures r.None? ==> series.history == old(series.history)
    {
      inputs := inputs + [price];
      match kind
      case SmaKind =>
        r := sma.Update(price);
      case EmaKind(_) =>
        var v := ema.Update(price);
        r := Some(v);
      case WsmaKind =>
        r := wsma.Update(price);
    }

    /** Once stable, an average that has been fed has a result to give. */
    lemma StableHasResult(xs: seq<real>)
      requires StableAfter(xs) && xs != []
      ensures Expected(xs).Some? && Available(xs) == Expected(xs)
    {
    }

    /** More prices never take stability away. */
    lemma StabilityPersists(xs: seq<real>, ys: seq<real>)
      requires interval > 0 || !kind.WsmaKind?
      requires StableAfter(xs) && xs != []
      ensures StableAfter(xs + ys)
    {
    }
  }
}
