/**
 * The scalar helpers at the top of utils.h: 32-bit integer min, max, clamp
 * and absolute value, and the reference swap. A C++ reference is modelled as
 * a mutable cell (Ref) so that the callee's update is visible to the caller.
 */
module Scalars {

  const IntMin: int := -0x8000_0000
  const IntMax: int := 0x7fff_ffff

  /** A C++ `int`. */
  type Int32 = i: int | -0x8000_0000 <= i <= 0x7fff_ffff

  /** dtMin(int, int). */
  function Min(a: Int32, b: Int32): (r: Int32)
    ensures r <= a && r <= b
    ensures r == a || r == b
  {
    if a < b then a else b
  }

  /** dtMax(int, int). */
  function Max(a: Int32, b: Int32): (r: Int32)
    ensures a <= r && b <= r
    ensures r == a || r == b
  {
    if a > b then a else b
  }

  /**
   * dtClamp(a, b, c) clamps a into [b, c]. When the range is empty (c < b)
   * the lower bound wins below b and the upper bound wins from b upwards.
   */
  function Clamp(a: Int32, b: Int32, c: Int32): (r: Int32)
    ensures r == a || r == b || r == c
    ensures b <= c ==> b <= r <= c
    ensures b <= a <= c ==> r == a
    ensures c < b ==> r == (if a < b then b else c)
  {
    if a < b then b else if c < a then c else a
  }

  /** On a non-empty range, clamping is the maximum with b of the minimum with c. */
  lemma ClampIsMaxOfMin(a: Int32, b: Int32, c: Int32)
    requires b <= c
    ensures Clamp(a, b, c) == Max(b, Min(a, c))
  {
  }

  /**
   * dtAbs(int). The value is given as an unbounded integer: for INT_MIN the
   * negation leaves the 32-bit range (undefined behaviour in C++), which
   * AbsFitsInt32 pins down.
   */
  function Abs(a: Int32): (r: int)
    ensures 0 <= r
    ensures r == a || r == -(a as int)
  {
    if a > 0 then a else -(a as int)
  }

  /** The absolute value is representable exactly when the argument is not INT_MIN. */
  lemma AbsFitsInt32(a: Int32)
    ensures Abs(a) <= IntMax <==> a != IntMin
  {
  }

  /** A mutable cell standing for a C++ lvalue reference `T&`. */
  class Ref<T> {
    var value: T

    constructor (v: T)
      ensures value == v
    {
      value := v;
    }
  }

  /** dtSwap: exchanges the referenced values; swapping a cell with itself changes nothing. */
  method Swap<T>(a: Ref<T>, b: Ref<T>)
    modifies a, b
    ensures a.value == old(b.value)
    ensures b.value == old(a.value)
  {
    var temp := a.value;
    a.value := b.value;
    b.value := temp;
  }
}
