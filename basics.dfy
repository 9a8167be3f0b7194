/** Small shared definitions: an optional value (Python's `None`, or a
    stage that raised instead of returning) and the minimum of two numbers
    used by list slicing. */
module Basics {

  datatype Option<+T> = None | Some(value: T)

  /** `min(a, b)`. */
  function Min(a: int, b: int): int { if a <= b then a else b }
}
