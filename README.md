# trading-signals: the incremental indicator engine in Dafny

This project models the core of trading-signals, a library of streaming technical-analysis
indicators. Every indicator is a state machine fed one price, or one candle, per `update`.
It keeps its current result and the highest and lowest result over its whole lifetime.
`isStable` and `getResult` tell a caller whether a result can be trusted.

The decimal (`Big`) classes are modelled, with big.js arithmetic taken as exact `real`
arithmetic. Each class becomes a Dafny class whose fields the methods update in place:

- `IndicatorSeries` is the shared base state (`result`, `highest`, `lowest`). Each indicator
  owns one, because Dafny has no class inheritance here. A ghost `history` holds every value
  ever passed to `setResult`.
- `SMA`, `WSMA` and an abstract `EMA` are the primitive moving averages. `MovingAverage`
  wraps whichever of the three a compound indicator was built with (the TypeScript
  `SmoothingIndicator` constructor argument).
- `DEMA`, `FasterDEMA`, `MACD`, `AO` and `ATR` are the compound indicators. Each keeps its
  sub-indicators as separate objects and is proved against ghost functions of every input
  seen so far.
- `Period` is the rolling window with its minimum and maximum. `FixedArray` is the bounded
  first-in-first-out window that `getFixedArray` hands out.
- `getAverage`, `getStandardDeviation`, `getMaximum` and `getMinimum` are the batch helpers.

Every stateful class carries a `Valid()` invariant. It ties the fields to a function of the
inputs so far, such as the SMA window being the last `interval` prices, or the stored
results being the ones the inputs determine. Each `Update` is proved to keep that invariant
and states its result in terms of those functions. Lemmas then prove what the library
promises about the functions: window bounds, lifetime extrema, when stability starts and
that it is never lost, the recurrences, and the examples from the test suite.

Two consequences of the code are worth stating up front:

- A DEMA becomes stable with its `interval`-th price. `update` feeds the outer EMA on every
  call (src/DEMA/DEMA.ts:25-33), so the outer EMA reaches its interval together with the
  inner one. `DEMA.IsStable` states exactly that.
- A MACD is stable from its first full window of `long.interval` prices. Its `isStable` is
  "a result exists" (src/MACD/MACD.ts:50-52), and the signal EMA returns a result on its
  first update, so a result is stored with the first full window. `MACD.IsStable` states
  that.

## Model

| member | source | states |
|---|---|---|
| Indicator.IndicatorSeries.IsStable | src/Indicator.ts:27-29 | stable exactly when some value has been stored |
| Indicator.IndicatorSeries.GetResult | src/Indicator.ts:31-37 | NotEnoughData exactly when nothing was stored, otherwise the last stored value, without changing state |
| Indicator.IndicatorSeries.SetResult | src/Indicator.ts:39-49 | appends the value to the history and returns it; afterwards lowest <= value <= highest, highest never falls, lowest never rises, the result is set (never cleared), and highest/lowest stay the max/min of the whole history |
| Indicator.ExtremaCoverHistory | src/Indicator.ts:21-24 | highest and lowest bound every value ever stored and are among them (lifetime, not a window) |
| Extremes.MaxIsGreatest | src/Indicator.ts:40-42 | the running maximum is an element and bounds every element |
| Extremes.MinIsLeast | src/Indicator.ts:44-46 | the running minimum is an element and is below every element |
| FixedArray.LastIsSuffix | src/util/getFixedArray.test.ts:6-22 | dropping from the front until at most n remain leaves exactly the last n items, or all of them when there are fewer |
| FixedArray.PushLast | src/util/getFixedArray.test.ts:6-22 | one push onto the window of a history is the window of the longer history |
| FixedArray.PushedWindowIsLast | src/util/getFixedArray.test.ts:6-31 | pushing one at a time or all at once gives the most recent `capacity` items in arrival order, never more than `capacity` |
| FixedArray.FixedArrayExample | src/util/getFixedArray.test.ts:6-31 | capacity 3 after 1..5 holds [3, 4, 5], pushed singly or together |
| Average.GetAverage | src/util/getAverage.ts:7-13 | the empty list gives 0; otherwise result times length is the sum |
| Average.FasterAverageAgrees | src/util/getAverage.ts:15-17 | over exact arithmetic `getFasterAverage` equals `getAverage` on every list |
| Average.SumBounds | src/util/getAverage.ts:8-10 | a sum of n values within [lo, hi] lies within [n*lo, n*hi] |
| Average.SumZeroExactly | src/util/getAverage.ts:8-10 | a sum of non-negative values is non-negative, and 0 exactly when every value is 0 |
| Average.AverageZeroExactly | src/util/getAverage.ts:7-13 | the mean of non-negative values is 0 exactly when every value is 0 |
| Average.AverageBetween | src/util/getAverage.ts:7-13 | the mean of a non-empty list lies between any lower and upper bound of its values |
| Average.AverageBetweenExtremes | src/util/getAverage.ts:7-13 | the mean lies between the minimum and the maximum of the values |
| Average.AverageOfConstant | src/util/getAverage.ts:7-13 | a list of equal values has that value as its mean |
| Average.AverageExamples | src/util/getAverage.test.ts:5-14 | [] gives 0 and [20, 30, 40] gives 30 |
| Maximum.GetMaximum | src/util/getMaximum.ts:4-12 | the loop returns a value >= every element and >= MIN_SAFE_INTEGER, which is the sentinel or an element |
| Maximum.MaximumBounds | src/util/getMaximum.ts:5-11 | the result bounds every element and the sentinel; an empty list returns the sentinel |
| Maximum.MaximumIsAValue | src/util/getMaximum.ts:7-8 | if some element reaches the sentinel, the result is an element |
| Maximum.MaximumIgnoresOrder | src/util/getMaximum.ts:6-10 | any permutation of the list gives the same result |
| Maximum.MaximumExample | src/util/getMaximum.test.ts:5-8 | [4, 5, 1, 9, 7, 8] gives 9 |
| Minimum.GetMinimum | src/util/getMinimum.ts:4-12 | the loop returns a value <= every element and <= MAX_SAFE_INTEGER, which is the sentinel or an element |
| Minimum.MinimumBounds | src/util/getMinimum.ts:5-11 | the result is below every element and the sentinel; an empty list returns the sentinel |
| Minimum.MinimumIsAValue | src/util/getMinimum.ts:7-8 | if some element is at most the sentinel, the result is an element |
| Minimum.MinimumIgnoresOrder | src/util/getMinimum.ts:6-10 | any permutation of the list gives the same result |
| Minimum.MinimumExample | src/util/getMinimum.test.ts:5-8 | [4, 5, 1, 9, 7, 8] gives 1 |
| StandardDeviation.Middle | src/util/getStandardDeviation.ts:13 | no average, or the number 0, gives the mean of the values; a Big average is used as it is, even a Big 0; any other number is used as it is |
| StandardDeviation.SquaredDifferences | src/util/getStandardDeviation.ts:14 | one entry per value, never negative, and 0 exactly where the value equals the middle |
| StandardDeviation.GetStandardDeviation | src/util/getStandardDeviation.ts:12-16 | the square root is taken of a radicand that is never negative and is 0 exactly when every value equals the middle; the empty list gives sqrt(0) |
| StandardDeviation.MeanOfNonNegative | src/util/getStandardDeviation.ts:15 | the mean of non-negative squares is non-negative |
| StandardDeviation.ConstantHasNoDeviation | src/util/getStandardDeviation.ts:13-15 | a constant list around its own mean, computed or supplied, gives sqrt(0) |
| StandardDeviation.ZeroAverageArgument | src/util/getStandardDeviation.ts:13 | a numeric 0 as average is falsy and gives the same as no average; a Big 0 is used as the middle |
| StandardDeviation.StandardDeviationExample | src/util/getStandardDeviation.test.ts:6-10 | the 20-value sample gives sqrt(8.9), which is 2.98 to two places |
| SimpleMovingAverage.GetResultFromBatch | src/SMA/SMA.ts:29-32 | the empty batch is divided by 1 and gives 0; otherwise result times length is the sum; always equal to `getAverage` of the batch |
| SimpleMovingAverage.SMA.constructor | src/MA/MovingAverage.ts:13-15 | an SMA of the given interval with an empty window, no input, no stored result and an empty history |
| SimpleMovingAverage.SMA.Update | src/SMA/SMA.ts:17-27 | the window becomes the last `interval` prices, at most `interval` of them; a result is returned and stored exactly from the `interval`-th price on, and it is the mean of the full window |
| SimpleMovingAverage.OutputPersists | src/SMA/SMA.ts:24-26 | once the SMA has a result, every later update produces one as well |
| SimpleMovingAverage.ResultsExistExactly | src/SMA/SMA.ts:24-26 | some result has been stored exactly when at least `interval` prices (and at least one) have arrived, and the latest stored result is the current output |
| SimpleMovingAverage.SmaExample | src/SMA/SMA.test.ts:24-37 | interval 3 over 40, 30, 20, 10, 30 ends at 20, with results [30, 20, 20], lowest 20 and highest 30 |
| SimpleMovingAverage.WindowStandardDeviationExample | src/util/getStandardDeviation.test.ts:12-22 | five prices around their SMA batch mean 82.426 give sqrt(0.898664), which is 0.95 to two places |
| WildersMovingAverage.Expected | src/WSMA/WSMA.ts:34-42 | there is a result exactly when at least `interval` prices arrived, and with exactly `interval` it is the SMA of them |
| WildersMovingAverage.WSMA.constructor | src/WSMA/WSMA.ts:28-32 | the smoothing factor is 1/interval over a fresh SMA of the same interval; interval 0 is refused because `1/0` throws in big.js |
| WildersMovingAverage.WSMA.Update | src/WSMA/WSMA.ts:34-42 | the inner SMA is always fed; with a stored result the new one is `(price - result) * (1/interval) + result`, otherwise the SMA's first result is the seed; a result exists exactly from the `interval`-th price on |
| WildersMovingAverage.ExpectedStep | src/WSMA/WSMA.ts:36-40 | one more price gives nothing, the seed, or one smoothing step of the previous result |
| WildersMovingAverage.SmoothWithin | src/WSMA/WSMA.ts:37-38 | one smoothing step with any factor in (0, 1] lands between the previous result and the price |
| WildersMovingAverage.SmoothBetween | src/WSMA/WSMA.ts:37-38 | one smoothing step with factor 1/interval lands between the previous result and the price |
| WildersMovingAverage.ResultBetweenPreviousAndPrice | src/WSMA/WSMA.ts:36-38 | every result after the seed lies between the result before it and the price that moved it |
| WildersMovingAverage.WsmaStabilityExample | src/WSMA/WSMA.test.ts:84-91 | interval 3 has no result after 1, 2 and has the result 2 after 1, 2, 3 |
| ExponentialMovingAverage.Expected | src/DEMA/DEMA.ts:26-27 | an EMA has a result exactly after its first price |
| ExponentialMovingAverage.EMA.IsStable | src/DEMA/DEMA.test.ts:61-65 | stable exactly when at least `interval` prices have arrived |
| ExponentialMovingAverage.EMA.GetResult | src/EMA/EMA.test.ts:43-62 | NotEnoughData exactly before `interval` prices (and before the first), although a result is stored from the first price; afterwards the stored result, which is the expected EMA value |
| ExponentialMovingAverage.EMA.Update | src/DEMA/DEMA.ts:26-27 | every update stores and returns a result: the first price first, then the weighting of the previous result with the price |
| MovingAverages.MovingAverage.constructor | src/MA/MovingAverage.ts:12-15 | builds a fresh SMA, EMA or WSMA of the given interval, with no input and no stored result |
| MovingAverages.MovingAverage.Expected | src/MA/MovingAverageTypes.ts:5 | an EMA has a result after one price, an SMA or WSMA from the `interval`-th price on |
| MovingAverages.MovingAverage.IsStable | src/Indicator.ts:27-29 | an EMA is stable by count (the rule its own code is assumed to follow, see "## Left out"), an SMA or WSMA by the inherited `isStable`, when it has a result |
| MovingAverages.MovingAverage.Available | src/EMA/EMA.test.ts:43-62 | what `getResult` gives: an SMA's or WSMA's result as soon as it exists; an EMA's only once `interval` prices (and at least one) have arrived, and then it is the EMA's result |
| MovingAverages.MovingAverage.GetResult | src/Indicator.ts:31-37 | NotEnoughData exactly when the chosen average has no result to give (an EMA before `interval` prices), otherwise that result |
| MovingAverages.MovingAverage.Update | src/MA/MovingAverage.ts:17 | forwards the price to the chosen average and returns and stores what it determines |
| MovingAverages.MovingAverage.StableHasResult | src/AO/AO.ts:44-45 | a stable average that has been fed has a result and gives it to `getResult`, so the long average's `getResult` cannot fail |
| MovingAverages.MovingAverage.StabilityPersists | src/Indicator.ts:27-29 | more prices never take stability away |
| TrueRange.Ranges | src/ATR/ATR.ts:30 | one range per candle |
| TrueRange.RangeAt | src/ATR/ATR.ts:30 | the range of candle i is measured against candle i - 1, and the first against none |
| TrueRange.TR.Update | src/ATR/ATR.ts:30 | measures the candle against the previous one and stores and returns that range |
| AverageTrueRange.WilderOutputCount | src/ATR/ATR.ts:32-34 | with Wilder smoothing, the first result comes with the `interval`-th candle and then one per candle |
| AverageTrueRange.ATR.constructor | src/ATR/ATR.ts:23-27 | a fresh TR and a fresh smoothing of the same interval, of the chosen kind (WsmaKind is the default) |
| AverageTrueRange.ATR.IsStable | src/Indicator.ts:27-29 | stable exactly when the ATR has stored some result |
| AverageTrueRange.ATR.GetResult | src/ATR/ATR.test.ts:55-64 | NotEnoughData exactly before the first stored result, otherwise the latest one |
| AverageTrueRange.ATR.Update | src/ATR/ATR.ts:29-35 | the candle's true range goes into the smoothing; when the smoothing is then stable its result is stored and returned, otherwise nothing is |
| AverageTrueRange.DefaultResultCount | src/ATR/ATR.test.ts:27-41 | WSMA(5) over 15 candles stores 11 results |
| DoubleExponentialMovingAverage.InnerTrail | src/DEMA/DEMA.ts:26-27 | the outer EMA is fed one inner result per price, the i-th being the inner EMA's result after the first i + 1 prices |
| DoubleExponentialMovingAverage.Trail | src/DEMA/DEMA.ts:25-29 | one stored DEMA result per price, the i-th being the DEMA result after the first i + 1 prices |
| DoubleExponentialMovingAverage.Expected | src/DEMA/DEMA.ts:25-29 | a DEMA has a result exactly after its first price |
| DoubleExponentialMovingAverage.DEMA.constructor | src/DEMA/DEMA.ts:19-23 | two fresh EMAs of the DEMA's interval and weighting, neither fed yet, and nothing stored |
| DoubleExponentialMovingAverage.FirstResultIsFirstPrice | src/DEMA/DEMA.ts:28 | the first result is the first price: 2p - p |
| DoubleExponentialMovingAverage.DEMA.IsStable | src/DEMA/DEMA.ts:31-33 | stable exactly when the outer EMA is, from the `interval`-th price on |
| DoubleExponentialMovingAverage.DEMA.GetResult | src/DEMA/DEMA.test.ts:47-56 | NotEnoughData exactly before the first price, otherwise the expected DEMA value |
| DoubleExponentialMovingAverage.DEMA.Update | src/DEMA/DEMA.ts:25-29 | the price goes to the inner EMA and the inner result to the outer EMA; `2 * inner - outer` is always stored and returned |
| DoubleExponentialMovingAverage.ResultBeforeStability | src/DEMA/DEMA.ts:28-33 | after one price with interval above 1, `isStable` is false while `getResult` returns that price |
| DoubleExponentialMovingAverage.Truthy | src/DEMA/DEMA.ts:48-50 | JavaScript truthiness: no zero is kept, and every non-zero value is kept as often as it occurs |
| DoubleExponentialMovingAverage.TruthyStep | src/DEMA/DEMA.ts:48-50 | one more value is appended, in order, exactly when it is non-zero |
| DoubleExponentialMovingAverage.TruthyKeepsNonZero | src/DEMA/DEMA.ts:48-50 | without zeros nothing is dropped |
| DoubleExponentialMovingAverage.FasterAgreesWithoutZeros | src/DEMA/DEMA.ts:46-54 | while neither EMA ever yields 0, FasterDEMA feeds the outer EMA every inner result and stores exactly DEMA's results |
| DoubleExponentialMovingAverage.ZeroPriceIsSkipped | src/DEMA/DEMA.ts:46-54 | a first price of 0 makes DEMA store 0 and FasterDEMA store nothing |
| DoubleExponentialMovingAverage.FasterDEMA.constructor | src/DEMA/DEMA.ts:40-44 | two fresh EMAs of the interval and weighting, neither fed yet, and nothing stored |
| DoubleExponentialMovingAverage.FasterDEMA.IsStable | src/DEMA/DEMA.ts:56-58 | stable once the outer EMA has seen `interval` non-zero inner results |
| DoubleExponentialMovingAverage.FasterDEMA.Update | src/DEMA/DEMA.ts:46-54 | the outer EMA sees only non-zero inner results, a result is stored only when both are non-zero, and the stored results stay the FasterDEMA trail |
| MovingAverageConvergenceDivergence.FirstFull | src/MACD/MACD.ts:61-65 | the window first counts as full after `long.interval` prices, and never before the first price |
| MovingAverageConvergenceDivergence.MacdTrailLength | src/MACD/MACD.ts:65-76 | the signal line is fed once per price from the first full window on |
| MovingAverageConvergenceDivergence.MACD.constructor | src/MACD/MACD.ts:44-48 | three fresh EMAs, short, long and signal, each with its interval and the weighting `weigh(interval)`; no prices, no result |
| MovingAverageConvergenceDivergence.MACD.IsStable | src/MACD/MACD.ts:50-52 | stable exactly from the first full window on |
| MovingAverageConvergenceDivergence.MACD.GetResult | src/MACD/MACD.ts:91-97 | NotEnoughData exactly before the first full window, otherwise the stored result |
| MovingAverageConvergenceDivergence.MACD.Update | src/MACD/MACD.ts:54-89 | the window keeps the last `long.interval` prices; once it is full the signal EMA is fed `macd = short - long` and `{histogram: macd - signal, macd, signal}` is stored and returned; before that nothing is returned and the previous result is kept |
| MovingAverageConvergenceDivergence.FirstHistogramIsZero | src/MACD/MACD.test.ts:53-58 | the first histogram is 0 because the signal EMA starts at the first MACD value |
| MovingAverageConvergenceDivergence.StableAtLongInterval | src/MACD/MACD.test.ts:134-171 | with long interval 18, 17 prices leave the MACD unstable and 18 make it stable |
| AwesomeOscillator.Median | src/AO/AO.ts:38-39 | the median lies between low and high, at equal distance from both |
| AwesomeOscillator.Medians | src/AO/AO.ts:38-42 | one median per candle, in order |
| AwesomeOscillator.Step | src/AO/AO.ts:44-45 | a value is stored exactly when the long average is stable and the short one gives a result, and it is short minus long |
| AwesomeOscillator.AO.constructor | src/AO/AO.ts:27-35 | two fresh averages of the chosen kind (SmaKind is the default) with the given intervals |
| AwesomeOscillator.AO.IsStable | src/Indicator.ts:27-29 | stable exactly when the oscillator has stored some result |
| AwesomeOscillator.AO.GetResult | src/Indicator.ts:31-37 | NotEnoughData exactly before the first stored result, otherwise the latest one |
| AwesomeOscillator.AO.Decide | src/AO/AO.ts:44-46 | nothing while the long average is unstable, NotEnoughData when the short one has no result, otherwise short minus long |
| AwesomeOscillator.AO.Update | src/AO/AO.ts:37-47 | the median goes into both averages; once the long one is stable, `short - long` is stored and returned, and a short average without a result makes the update fail with NotEnoughData |
| AwesomeOscillator.SlowShortFails | src/AO/AO.ts:44-45 | with a short interval above the long one, of any kind, updates from the long interval up to the short interval fail |
| AwesomeOscillator.ResultCount | src/AO/AO.ts:44-45 | with the short interval at most the long one, of any kind, one result is stored per candle from the long interval on |
| RollingPeriod.Period.IsStable | src/util/Period.ts:45-47 | stable exactly when the window holds `interval` values |
| RollingPeriod.Period.constructor | src/util/Period.ts:25-27 | an empty window of the given interval, with both extremes undefined |
| RollingPeriod.Period.GetResult | src/util/Period.ts:29-34 | never fails; both extremes are those of the last full window, and undefined before the first |
| RollingPeriod.Period.Update | src/util/Period.ts:36-43 | the window becomes the last `interval` values; once full, lowest and highest become its minimum and maximum and are returned; before that nothing is returned and both stay undefined |
| RollingPeriod.StableBounds | src/util/Period.ts:38-42 | once full, lowest and highest bound every value of the window and, within the safe-integer range, are values of it |
| RollingPeriod.TwoValueExample | src/util/Period.test.ts:6-12 | a period of two fed 72 and 1337 gives lowest 72 and highest 1337 |
| RollingPeriod.ZeroIntervalSentinels | src/util/Period.ts:36-47 | interval 0 counts as full at once, and its extremes are the two sentinels |
| RollingPeriod.LowestRollsOut | src/util/Period.test.ts:27-53 | the low of 81.06 leaves the five-value window with the seventh price, and the lowest rises to 82.84 |
| RollingPeriod.FinalExtremes | src/util/Period.test.ts:27-55 | after all fifteen prices, lowest is 85.53 and highest 87.77 |

## Left out

- Floating-point arithmetic of the `Faster*` classes (`FasterSMA`, `FasterWSMA`, `FasterMACD`, `FasterAO`, `FasterATR`, `FasterPeriod`, `NumberIndicatorSeries`) is not modelled. Only FasterDEMA is modelled, with its zero-as-missing truthiness. `getFasterAverage` is modelled and proved equal to `getAverage`.
- FasterMACD is not modelled. Its `short && long` and `if (signal)` (src/MACD/MACD.ts:132, :136) treat a numeric 0 as missing. MACD's Big results are objects and always truthy (src/MACD/MACD.ts:65, :78). So a zero short or long EMA, or a zero signal, makes FasterMACD skip a result that MACD stores.
- FasterPeriod is not modelled. It takes `Math.min`/`Math.max` of the window (src/util/Period.ts:71-72) with no sentinel. Interval 0 gives +Infinity and -Infinity where Period gives the two sentinels. Values beyond the safe-integer range come back where Period returns the sentinels.
- FasterSMA is not modelled. FasterSMA(0) divides 0 by 0 and gives NaN (src/SMA/SMA.ts:48), where SMA(0) divides by `length` or else 1 and gives 0 (src/SMA/SMA.ts:31).
- big.js rounding (20 decimal places in `div` and `sqrt`) is not modelled; decimals are exact reals.
- Square root is left uninterpreted: `GetStandardDeviation` returns `Sqrt(radicand)` and its contract is about the radicand. The test values 2.98 and 0.95 are checked as bounds on the radicand.
- EMA and TR are not part of this model beyond what their callers rely on. An EMA's weighting is a function it is built with. The model assumes that the first result is the first price, that every update returns and stores a result, and that the EMA is stable by count. A TR's range formula is a function of the previous and the current candle. DEMA values that depend on the weighting, such as lowest 1.00 and highest 1.89 for DEMA(2), are not checked.
- ExponentialMovingAverage.EMA.IsStable: with interval 0 the count rule makes an EMA stable before any price, while its `getResult` still gives NotEnoughData. So a DEMA(0) is stable before its first price. The model keeps the count rule as it is and does not treat this case apart.
- MovingAverages.MovingAverage.GetResult: for an EMA, `getResult` is taken to give NotEnoughData until `interval` prices have arrived, and the stored result from then on (`ExponentialMovingAverage.EMA.GetResult`). EMA's own `getResult` is not part of this model. The tests only show it failing before any price (src/EMA/EMA.test.ts:43-62) and reading it once the EMA is stable (src/EMA/EMA.test.ts:31-35). This choice decides when an AO over EMAs fails: with a short interval above the long one, it fails between the two intervals, as over SMAs.
- Intervals are `nat`, while the source accepts any `number`. Negative and fractional intervals are not modelled; with them an SMA window never reaches its interval and never gives a result.
- MACD is modelled with EMA sub-indicators only. MACD over DEMA sub-indicators is not modelled.
- `BigSource` inputs are exact reals. Only `getStandardDeviation`'s optional average keeps the number/Big distinction, because its truthiness decides the result. Strings are not modelled.
- `NotEnoughDataError` becomes the `Err(NotEnoughData)` outcome.
- The `Default` arguments of `AO` (SMA) and `ATR` (WSMA) are not separate constructors. The caller passes `SmaKind` or `WsmaKind`.
- WildersMovingAverage.WSMA.constructor: requires `interval > 0`, because `new Big(1).div(0)` throws in big.js.
- `getFixedArray` itself is not part of this model. Its behaviour is modelled as the bounded first-in-first-out window that its tests describe.
