/** Option and Result, the failure-carrying values used across the model. */
module Wrappers {

  datatype Option<+T> = None | Some(value: T)

  datatype Result<+T, +E> = Ok(value: T) | Err(error: E)

  /** The value of a JavaScript `x || fallback` on an optional string: an absent or empty string is falsy. */
  function StrOr(x: Option<string>, fallback: string): string
  {
    if x.Some? && x.value != "" then x.value else fallback
  }

  /** `x || fallback` on an optional boolean: only a present `true` is truthy. */
  function BoolOr(x: Option<bool>, fallback: bool): bool
  {
    if x.Some? && x.value then true else fallback
  }

  /** `x || fallback` on an optional number: an absent number, NaN (modelled as absent) or 0 is falsy. */
  function IntOr(x: Option<int>, fallback: int): int
  {
    if x.Some? && x.value != 0 then x.value else fallback
  }
}
