/** The C integer types that appear in the logger's interface, as bounded
    subsets of the unbounded `int`, and C's truncating division. */
module CInt {

  /** `int` and `pid_t`: 32-bit two's complement. */
  type Int32 = x: int | -0x8000_0000 <= x < 0x8000_0000

  /** `long`, `long long` and `time_t`: 64-bit two's complement. */
  type Int64 = x: int | -0x8000_0000_0000_0000 <= x < 0x8000_0000_0000_0000

  /** `unsigned long`, the type a thread id is printed as. */
  type ULong = x: int | 0 <= x < 0x1_0000_0000_0000_0000

  /** C's `/` on integers, which rounds toward zero (Dafny's `/` is
      Euclidean, so the two differ on negative dividends). */
  function Quot(a: int, b: int): (q: int)
    requires b > 0
    ensures a >= 0 ==> 0 <= a - b * q < b
    ensures a < 0 ==> -b < a - b * q <= 0
  {
    if a >= 0 then a / b else -((-a) / b)
  }
}
