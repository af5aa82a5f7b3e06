/** Small shared definitions: an optional value and Java's 32-bit `int`. */
module Common {

  /** A value that may be missing (Java's `null`, or an exception path). */
  datatype Option<T> = None | Some(value: T)

  const INT_MIN: int := -0x8000_0000
  const INT_MAX: int := 0x7fff_ffff

  /** Java's 32-bit signed `int`. */
  newtype int32 = x: int | -0x8000_0000 <= x < 0x8000_0000

  /** `n + 1` on a Java `int`: wraps from the largest value to the smallest. */
  function Increment(n: int32): (r: int32)
    ensures n as int < INT_MAX ==> r as int == n as int + 1
    ensures n as int == INT_MAX ==> r as int == INT_MIN
  {
    if n == 0x7fff_ffff then -0x8000_0000 else n + 1
  }

  /**
   * The Java `int` that an exact integer result becomes: the value congruent
   * to `x` modulo 2^32 in the `int` range.
   */
  function Wrap(x: int): (r: int32)
    ensures (r as int - x) % 0x1_0000_0000 == 0
    ensures INT_MIN <= x <= INT_MAX ==> r as int == x
  {
    var m := x % 0x1_0000_0000;
    if m >= 0x8000_0000 then (m - 0x1_0000_0000) as int32 else m as int32
  }
}
