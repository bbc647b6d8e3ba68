/** Shared vocabulary: values that JavaScript may leave `undefined`, and the
    `Math.max`/`Math.min`/`Math.abs` the screens use, over exact reals. */
module Common {

  /** A JavaScript value that may be `undefined` or `null`. */
  datatype Option<+T> = None | Some(value: T)

  function Max(a: real, b: real): (r: real)
    ensures r >= a && r >= b
    ensures r == a || r == b
  {
    if a >= b then a else b
  }

  function Min(a: real, b: real): (r: real)
    ensures r <= a && r <= b
    ensures r == a || r == b
  {
    if a <= b then a else b
  }

  function Abs(a: real): (r: real)
    ensures r >= 0.0
    ensures r == a || r == -a
  {
    if a >= 0.0 then a else -a
  }
}
