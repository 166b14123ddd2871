/** Small shared vocabulary: an optional value (Go's nil pointer or nil error)
    and integer minimum and maximum. */
module Common {

  /** `None` stands for Go's `nil`. */
  datatype Option<+T> = None | Some(value: T)

  function Min(a: int, b: int): (m: int)
    ensures m <= a && m <= b && (m == a || m == b)
  {
    if a <= b then a else b
  }

  function Max(a: int, b: int): (m: int)
    ensures m >= a && m >= b && (m == a || m == b)
  {
    if a >= b then a else b
  }
}
