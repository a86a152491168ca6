/** Small value types shared by every module of the model. */
module Wrappers {

  /** Python's `Optional[...]`: a value that may be `None`. */
  datatype Option<+T> = None | Some(value: T)

  function Min(a: int, b: int): int
  {
    if a <= b then a else b
  }

  function Abs(x: real): (r: real)
    ensures r >= 0.0
    ensures r == x || r == -x
  {
    if x < 0.0 then -x else x
  }

  /** A setting that is present and not the empty string, as `if value:` reads it. */
  predicate Configured(setting: Option<string>)
  {
    setting.Some? && setting.value != ""
  }
}
