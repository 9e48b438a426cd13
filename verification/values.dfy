/** Java values as the Try core sees them: references that may be null, and `int`. */
module Values {

  /** A Java reference of type T; `None` is `null`. */
  datatype Option<+T> = None | Some(value: T)

  /** Java's 32-bit `int`. */
  type Int32 = x: int | -0x8000_0000 <= x < 0x8000_0000

  /** The two's-complement wrap-around of Java `int` arithmetic. */
  function Wrap(x: int): (r: Int32)
    ensures (r - x) % 0x1_0000_0000 == 0
    ensures -0x8000_0000 <= x < 0x8000_0000 ==> r == x
  {
    (x + 0x8000_0000) % 0x1_0000_0000 - 0x8000_0000
  }
}
