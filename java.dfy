/** Java's numeric conventions that the game code relies on: the 64-bit `long`,
    casts from floating point to integer (truncation toward zero), integer division
    (also truncating), and the nullable references of the code as `Option`. */
module Java {

  const LONG_MIN: int := -0x8000_0000_0000_0000
  const LONG_MAX: int := 0x7FFF_FFFF_FFFF_FFFF
  const TWO_64: int := 0x1_0000_0000_0000_0000

  /** A Java `long`. */
  type Long = x: int | LONG_MIN <= x <= LONG_MAX

  /** A value or nothing, for the code's nullable fields and its optional results. */
  datatype Option<T> = None | Some(value: T)

  /** Two's-complement wrap-around of a mathematical integer into a `long`: what a
      `long` addition or subtraction yields in Java. */
  function WrapLong(x: int): (r: Long)
    ensures (r - x) % TWO_64 == 0
    ensures LONG_MIN <= x <= LONG_MAX ==> r == x
  {
    (x - LONG_MIN) % TWO_64 + LONG_MIN
  }

  /** The `(int)` / `(long)` cast of a floating-point value: truncation toward zero
      (Java does not floor, so -0.5 becomes 0). */
  function Trunc(v: real): (n: int)
    ensures 0.0 <= v ==> n as real <= v < n as real + 1.0
    ensures v < 0.0 ==> n as real - 1.0 < v <= n as real
  {
    if v >= 0.0 then v.Floor else -((-v).Floor)
  }

  /** Java's integer `/`, which truncates toward zero (Dafny's `/` is Euclidean). */
  function JavaDiv(a: int, b: int): (q: int)
    requires b != 0
    ensures a >= 0 && b > 0 ==> q == a / b
    ensures a < 0 && b > 0 ==> q == -((-a) / b)
  {
    var m := (if a < 0 then -a else a) / (if b < 0 then -b else b);
    if (a < 0) == (b < 0) then m else -m
  }
}

