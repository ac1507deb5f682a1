/** Outcomes shared by every indicator: an optional value and the one failure the library knows. */
module Outcome {
  /** `undefined` or a value, as `update` returns it. */
  datatype Option<T> = None | Some(value: T)

  /** The only error kind: a result was asked for before there was enough input. */
  datatype IndicatorError = NotEnoughData

  /** A value, or the `NotEnoughDataError` that `getResult` throws instead. */
  datatype Result<T> = Ok(value: T) | Err(error: IndicatorError)
}
