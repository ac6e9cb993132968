/** Small shared vocabulary: Swift's optionals and the `min`/`max` of `CGFloat` heights. */
module Basics {

  /** Swift's `T?`: `nil` or a wrapped value. */
  datatype Option<T> = None | Some(value: T)

  /** Swift's `min` on two heights. */
  function Min(a: real, b: real): (r: real)
    ensures r <= a && r <= b
    ensures r == a || r == b
  {
    if a <= b then a else b
  }

  /** Swift's `max` on two heights. */
  function Max(a: real, b: real): (r: real)
    ensures a <= r && b <= r
    ensures r == a || r == b
  {
    if a <= b then b else a
  }
}
