/**
 * The SSE single-precision intrinsics that the geometry layer is built from,
 * as functions on four-lane values with real lanes. Lane 0 is x, lane 3 is w.
 */
module Sse {

  /** One 128-bit register seen as four lanes. */
  datatype Vec4 = Vec4(x: real, y: real, z: real, w: real)

  /** The result of a lane-wise comparison: true where the lane is all ones. */
  datatype Mask4 = Mask4(x: bool, y: bool, z: bool, w: bool)

  /** A two-bit lane selector inside a shuffle immediate. */
  type Selector = i: bv8 | i < 4

  function Lane(v: Vec4, i: Selector): real
  {
    if i == 0 then v.x else if i == 1 then v.y else if i == 2 then v.z else v.w
  }

  /** The _MM_SHUFFLE(fp3, fp2, fp1, fp0) macro: the selector for result lane k sits in bits 2k+1..2k. */
  function MmShuffle(fp3: Selector, fp2: Selector, fp1: Selector, fp0: Selector): bv8
  {
    (fp3 << 6) | (fp2 << 4) | (fp1 << 2) | fp0
  }

  /** SHUFFLEPS: result lanes 0 and 1 are picked from a, lanes 2 and 3 from b, two bits of imm each. */
  function Shuffle(a: Vec4, b: Vec4, imm: bv8): Vec4
  {
    Vec4(Lane(a, imm & 3), Lane(a, (imm >> 2) & 3), Lane(b, (imm >> 4) & 3), Lane(b, (imm >> 6) & 3))
  }

  /** Decoding an immediate built by _MM_SHUFFLE gives back the four selectors, lowest lane last. */
  lemma ShuffleSelects(a: Vec4, b: Vec4, fp3: Selector, fp2: Selector, fp1: Selector, fp0: Selector)
    ensures Shuffle(a, b, MmShuffle(fp3, fp2, fp1, fp0))
         == Vec4(Lane(a, fp0), Lane(a, fp1), Lane(b, fp2), Lane(b, fp3))
  {
  }

  /** MOVSS (register form): lane 0 from b, lanes 1 to 3 from a. */
  function MoveSS(a: Vec4, b: Vec4): Vec4
  {
    Vec4(b.x, a.y, a.z, a.w)
  }

  /** _mm_set_ss: the scalar in lane 0, zero elsewhere. */
  function SetSS(s: real): Vec4
  {
    Vec4(s, 0.0, 0.0, 0.0)
  }

  /** _mm_set1_ps: the scalar in every lane. */
  function Set1(s: real): Vec4
  {
    Vec4(s, s, s, s)
  }

  /** _mm_set_ps: the arguments are given from lane 3 down to lane 0. */
  function SetPs(e3: real, e2: real, e1: real, e0: real): Vec4
  {
    Vec4(e0, e1, e2, e3)
  }

  /** _mm_setzero_ps. */
  function SetZero(): Vec4
  {
    Set1(0.0)
  }

  /** UNPCKLPS: interleaves the low halves of a and b. */
  function UnpackLo(a: Vec4, b: Vec4): Vec4
  {
    Vec4(a.x, b.x, a.y, b.y)
  }

  /** MOVLHPS: low half of a, then low half of b. */
  function MoveLH(a: Vec4, b: Vec4): Vec4
  {
    Vec4(a.x, a.y, b.x, b.y)
  }

  /** _mm_store_ss: the value of lane 0. */
  function StoreSS(v: Vec4): real
  {
    v.x
  }

  function AddPs(a: Vec4, b: Vec4): Vec4
  {
    Vec4(a.x + b.x, a.y + b.y, a.z + b.z, a.w + b.w)
  }

  function SubPs(a: Vec4, b: Vec4): Vec4
  {
    Vec4(a.x - b.x, a.y - b.y, a.z - b.z, a.w - b.w)
  }

  function MulPs(a: Vec4, b: Vec4): Vec4
  {
    Vec4(a.x * b.x, a.y * b.y, a.z * b.z, a.w * b.w)
  }

  /**
   * Unary minus of the compiler's vector extension on an __m128 value: every
   * lane changes sign.
   */
  function NegPs(a: Vec4): Vec4
  {
    Vec4(-a.x, -a.y, -a.z, -a.w)
  }

  /** DIVPS; a zero divisor lane has no real quotient. */
  function DivPs(a: Vec4, b: Vec4): Vec4
    requires b.x != 0.0 && b.y != 0.0 && b.z != 0.0 && b.w != 0.0
  {
    Vec4(a.x / b.x, a.y / b.y, a.z / b.z, a.w / b.w)
  }

  /** MINPS lane rule: the first operand when it is smaller, else the second. */
  function MinSS(a: real, b: real): real
  {
    if a < b then a else b
  }

  /** MAXPS lane rule: the first operand when it is greater, else the second. */
  function MaxSS(a: real, b: real): real
  {
    if a > b then a else b
  }

  function MinPs(a: Vec4, b: Vec4): Vec4
  {
    Vec4(MinSS(a.x, b.x), MinSS(a.y, b.y), MinSS(a.z, b.z), MinSS(a.w, b.w))
  }

  function MaxPs(a: Vec4, b: Vec4): Vec4
  {
    Vec4(MaxSS(a.x, b.x), MaxSS(a.y, b.y), MaxSS(a.z, b.z), MaxSS(a.w, b.w))
  }

  /** SQRTPS, with the square root supplied by the caller. */
  function SqrtPs(v: Vec4, sqrt: real -> real): Vec4
  {
    Vec4(sqrt(v.x), sqrt(v.y), sqrt(v.z), sqrt(v.w))
  }

  /** CMPEQPS: each lane is all ones (true) where the operands are equal. */
  function CmpEqPs(a: Vec4, b: Vec4): Mask4
  {
    Mask4(a.x == b.x, a.y == b.y, a.z == b.z, a.w == b.w)
  }

  /** MOVMSKPS: the sign bit of lane k becomes bit k of the result. */
  function MoveMaskPs(m: Mask4): int
  {
    (if m.x then 1 else 0) + (if m.y then 2 else 0) + (if m.z then 4 else 0) + (if m.w then 8 else 0)
  }
}
