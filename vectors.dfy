/**
 * dtVec: a four-lane vector held in one SSE register. Every operation is the
 * composition of intrinsics the C++ code uses, and its contract states the
 * closed form that composition is meant to compute.
 */
module Vectors {
  import opened Sse
  import opened Scalars

  /** A dtVec: four lanes x, y, z, w. */
  type Vec = Vec4

  const Zero: Vec := Vec4(0.0, 0.0, 0.0, 0.0)
  const UnitX: Vec := Vec4(1.0, 0.0, 0.0, 0.0)
  const UnitY: Vec := Vec4(0.0, 1.0, 0.0, 0.0)
  const UnitZ: Vec := Vec4(0.0, 0.0, 1.0, 0.0)

  /** The same value in all four lanes, as produced by a splat or a horizontal reduction. */
  predicate IsBroadcast(v: Vec)
  {
    v.x == v.y && v.y == v.z && v.z == v.w
  }

  /** Agreement on the three geometric lanes; the w lane is ignored. */
  predicate SameXyz(a: Vec, b: Vec)
  {
    a.x == b.x && a.y == b.y && a.z == b.z
  }

  /** The three-component dot product as a number: the reference that Dot3 is checked against. */
  function Dot(a: Vec, b: Vec): real
  {
    a.x * b.x + a.y * b.y + a.z * b.z
  }

  // ---------------------------------------------------------------- construction

  /** dtVecSet(x, y, z): w is zero. */
  function VecSet3(x: real, y: real, z: real): (r: Vec)
    ensures r.x == x && r.y == y && r.z == z && r.w == 0.0
  {
    SetPs(0.0, z, y, x)
  }

  /** dtVecSet(x, y, z, w): the lanes in reading order, although _mm_set_ps takes them reversed. */
  function VecSet4(x: real, y: real, z: real, w: real): (r: Vec)
    ensures r.x == x && r.y == y && r.z == z && r.w == w
  {
    SetPs(w, z, y, x)
  }

  /**
   * dtVecSet(x, y, z) on three vectors: packs lane 0 of each into x, y, z.
   * The w lane is lane 1 of z.
   */
  function VecSetVecs(x: Vec, y: Vec, z: Vec): (r: Vec)
    ensures r.x == x.x && r.y == y.x && r.z == z.x && r.w == z.y
  {
    var r := UnpackLo(x, y);
    MoveLH(r, z)
  }

  /** Packing three broadcasts: the w lane repeats the z lane. */
  lemma VecSetVecsOfBroadcasts(x: Vec, y: Vec, z: Vec)
    requires IsBroadcast(z)
    ensures VecSetVecs(x, y, z) == Vec4(x.x, y.x, z.x, z.x)
  {
  }

  /** dtSplat. */
  function Splat(s: real): (r: Vec)
    ensures IsBroadcast(r) && r.x == s
  {
    Set1(s)
  }

  // ---------------------------------------------------------------- lane access

  /** dtSetX: lane x replaced, the other lanes kept. */
  function SetX(v: Vec, s: real): (r: Vec)
    ensures r == v.(x := s)
  {
    var t := SetSS(s);
    MoveSS(v, t)
  }

  /** dtSetY: swap lanes 0 and 1, overwrite lane 0, swap back. */
  function SetY(v: Vec, s: real): (r: Vec)
    ensures r == v.(y := s)
  {
    var r := Shuffle(v, v, MmShuffle(3, 2, 0, 1));
    var t := SetSS(s);
    var r := MoveSS(r, t);
    Shuffle(r, r, MmShuffle(3, 2, 0, 1))
  }

  /** dtSetZ: swap lanes 0 and 2, overwrite lane 0, swap back. */
  function SetZ(v: Vec, s: real): (r: Vec)
    ensures r == v.(z := s)
  {
    var r := Shuffle(v, v, MmShuffle(3, 0, 1, 2));
    var t := SetSS(s);
    var r := MoveSS(r, t);
    Shuffle(r, r, MmShuffle(3, 0, 1, 2))
  }

  /** dtSetW: swap lanes 0 and 3, overwrite lane 0, swap back. */
  function SetW(v: Vec, s: real): (r: Vec)
    ensures r == v.(w := s)
  {
    var r := Shuffle(v, v, MmShuffle(0, 2, 1, 3));
    var t := SetSS(s);
    var r := MoveSS(r, t);
    Shuffle(r, r, MmShuffle(0, 2, 1, 3))
  }

  /** dtGetX. */
  function GetX(v: Vec): (s: real)
    ensures s == v.x
  {
    StoreSS(v)
  }

  /** dtGetY: broadcast lane 1, read lane 0. */
  function GetY(v: Vec): (s: real)
    ensures s == v.y
  {
    var t := Shuffle(v, v, MmShuffle(1, 1, 1, 1));
    StoreSS(t)
  }

  /** dtGetZ: broadcast lane 2, read lane 0. */
  function GetZ(v: Vec): (s: real)
    ensures s == v.z
  {
    var t := Shuffle(v, v, MmShuffle(2, 2, 2, 2));
    StoreSS(t)
  }

  /** dtGetW: broadcast lane 3, read lane 0. */
  function GetW(v: Vec): (s: real)
    ensures s == v.w
  {
    var t := Shuffle(v, v, MmShuffle(3, 3, 3, 3));
    StoreSS(t)
  }

  /** The lane dtGet reads for an index: 0, 1, 2 name x, y, z; every other index names w. */
  function LaneOf(index: int): Selector
  {
    if 0 <= index <= 2 then index as bv8 else 3
  }

  /** dtGet: the switch over the index. */
  function Get(v: Vec, index: int): (s: real)
    ensures s == Lane(v, LaneOf(index))
    ensures (index < 0 || 3 <= index) ==> s == v.w
  {
    match index
    case 0 => GetX(v)
    case 1 => GetY(v)
    case 2 => GetZ(v)
    case _ => GetW(v)
  }

  /** The setter for lane k, dispatching to dtSetX, dtSetY, dtSetZ or dtSetW. */
  function SetLane(v: Vec, k: Selector, s: real): Vec
  {
    if k == 0 then SetX(v, s) else if k == 1 then SetY(v, s) else if k == 2 then SetZ(v, s) else SetW(v, s)
  }

  /** Reading back a lane just set gives the new value; every other lane reads as before. */
  lemma GetAfterSet(v: Vec, k: Selector, s: real, index: int)
    ensures Get(SetLane(v, k, s), index) == (if LaneOf(index) == k then s else Get(v, index))
  {
  }

  /** Setting a lane to the value it already holds gives the same vector back. */
  lemma SetOwnLane(v: Vec, k: Selector)
    ensures SetLane(v, k, Get(v, k as int)) == v
  {
  }

  // ---------------------------------------------------------------- lane-wise arithmetic

  /** dtMin(dtVec, dtVec): in every lane, the smaller of the two. */
  function Min(a: Vec, b: Vec): (r: Vec)
    ensures r.x <= a.x && r.x <= b.x && (r.x == a.x || r.x == b.x)
    ensures r.y <= a.y && r.y <= b.y && (r.y == a.y || r.y == b.y)
    ensures r.z <= a.z && r.z <= b.z && (r.z == a.z || r.z == b.z)
    ensures r.w <= a.w && r.w <= b.w && (r.w == a.w || r.w == b.w)
  {
    MinPs(a, b)
  }

  /** dtMax(dtVec, dtVec): in every lane, the larger of the two. */
  function Max(a: Vec, b: Vec): (r: Vec)
    ensures a.x <= r.x && b.x <= r.x && (r.x == a.x || r.x == b.x)
    ensures a.y <= r.y && b.y <= r.y && (r.y == a.y || r.y == b.y)
    ensures a.z <= r.z && b.z <= r.z && (r.z == a.z || r.z == b.z)
    ensures a.w <= r.w && b.w <= r.w && (r.w == a.w || r.w == b.w)
  {
    MaxPs(a, b)
  }

  /** operator +: lane-wise sum. */
  function Add(a: Vec, b: Vec): (r: Vec)
    ensures r == Vec4(a.x + b.x, a.y + b.y, a.z + b.z, a.w + b.w)
  {
    AddPs(a, b)
  }

  /** operator - (binary): lane-wise difference. */
  function Sub(a: Vec, b: Vec): (r: Vec)
    ensures r == Vec4(a.x - b.x, a.y - b.y, a.z - b.z, a.w - b.w)
  {
    SubPs(a, b)
  }

  /** operator - (unary): zero minus the operand, which negates every lane. */
  function Neg(a: Vec): (r: Vec)
    ensures r == Vec4(-a.x, -a.y, -a.z, -a.w)
  {
    SubPs(SetZero(), a)
  }

  /** operator * on two vectors, lane-wise; the three overloads of the source differ only in const-ness. */
  function Mul(a: Vec, b: Vec): (r: Vec)
    ensures r == Vec4(a.x * b.x, a.y * b.y, a.z * b.z, a.w * b.w)
  {
    MulPs(a, b)
  }

  /** operator * (float, dtVec): the scalar is broadcast, then multiplied lane by lane. */
  function Scale(s: real, v: Vec): (r: Vec)
    ensures r == Vec4(s * v.x, s * v.y, s * v.z, s * v.w)
  {
    var sv := Set1(s);
    MulPs(sv, v)
  }

  /**
   * dtAbs(dtVec): the maximum of the operand and its negation, in every lane.
   * The negation is the vector-extension minus on __m128, not operator -.
   */
  function Abs(a: Vec): (r: Vec)
    ensures 0.0 <= r.x && (r.x == a.x || r.x == -a.x)
    ensures 0.0 <= r.y && (r.y == a.y || r.y == -a.y)
    ensures 0.0 <= r.z && (r.z == a.z || r.z == -a.z)
    ensures 0.0 <= r.w && (r.w == a.w || r.w == -a.w)
  {
    MaxPs(a, NegPs(a))
  }

  /** Subtraction undoes addition, and addition undoes subtraction. */
  lemma AddSubInverse(a: Vec, b: Vec)
    ensures Sub(Add(a, b), b) == a
    ensures Add(Sub(a, b), b) == a
  {
  }

  /** Addition and the vector product are commutative; subtracting is adding the negation. */
  lemma AddMulCommute(a: Vec, b: Vec)
    ensures Add(a, b) == Add(b, a)
    ensures Mul(a, b) == Mul(b, a)
    ensures Sub(a, b) == Add(a, Neg(b))
  {
  }

  /** Negation is its own inverse and cancels the operand. */
  lemma NegInvolutive(a: Vec)
    ensures Neg(Neg(a)) == a
    ensures Add(a, Neg(a)) == Zero
  {
  }

  /** Scaling is the vector product with a splat, and distributes over addition. */
  lemma ScaleIsSplatMul(s: real, a: Vec, b: Vec)
    ensures Scale(s, a) == Mul(Splat(s), a)
    ensures Scale(s, Add(a, b)) == Add(Scale(s, a), Scale(s, b))
  {
  }

  /** Min and max are commutative, and Abs is the lane-wise max of a and -a. */
  lemma MinMaxCommute(a: Vec, b: Vec)
    ensures Min(a, b) == Min(b, a)
    ensures Max(a, b) == Max(b, a)
    ensures Abs(a) == Abs(Neg(a))
  {
  }

  /** operator ==: compare every lane and require all four mask bits. */
  function Eq(a: Vec, b: Vec): (r: bool)
    ensures r <==> a == b
  {
    var t := CmpEqPs(a, b);
    MoveMaskPs(t) == 0xF
  }

  /** operator +=: overwrites the referenced vector and returns the same reference. */
  method AddAssign(a: Ref<Vec>, b: Vec) returns (r: Ref<Vec>)
    modifies a
    ensures a.value == Add(old(a.value), b)
    ensures r == a
  {
    a.value := AddPs(a.value, b);
    r := a;
  }

  /** operator -=: overwrites the referenced vector and returns the same reference. */
  method SubAssign(a: Ref<Vec>, b: Vec) returns (r: Ref<Vec>)
    modifies a
    ensures a.value == Sub(old(a.value), b)
    ensures r == a
  {
    a.value := SubPs(a.value, b);
    r := a;
  }

  // ---------------------------------------------------------------- dot, cross, length

  /** dtDot3: multiply, broadcast lanes 0, 1 and 2 and add them; the sum lands in every lane. */
  function Dot3(a: Vec, b: Vec): (r: Vec)
    ensures IsBroadcast(r)
    ensures r.x == Dot(a, b)
  {
    var t := MulPs(a, b);
    var xx := Shuffle(t, t, MmShuffle(0, 0, 0, 0));
    var yy := Shuffle(t, t, MmShuffle(1, 1, 1, 1));
    var zz := Shuffle(t, t, MmShuffle(2, 2, 2, 2));
    AddPs(AddPs(xx, yy), zz)
  }

  /** Dot3 is symmetric and reads neither w lane. */
  lemma Dot3SymmetricIgnoresW(a: Vec, b: Vec, s: real, t: real)
    ensures Dot3(a, b) == Dot3(b, a)
    ensures Dot3(a.(w := s), b.(w := t)) == Dot3(a, b)
  {
  }

  /** Dot3 of a vector with itself is its squared length, never negative. */
  lemma Dot3SelfNonNegative(a: Vec)
    ensures Dot3(a, a) == Splat(a.x * a.x + a.y * a.y + a.z * a.z)
    ensures 0.0 <= Dot3(a, a).x
  {
  }

  /** Dot is linear in its second argument. */
  lemma DotLinear(a: Vec, u: Vec, v: Vec, s: real, t: real)
    ensures Dot(a, Add(Scale(s, u), Scale(t, v))) == s * Dot(a, u) + t * Dot(a, v)
  {
    var c := Add(Scale(s, u), Scale(t, v));
    assert c.x == s * u.x + t * v.x && c.y == s * u.y + t * v.y && c.z == s * u.z + t * v.z;
    LinearIdentity(a.x, a.y, a.z, u.x, u.y, u.z, v.x, v.y, v.z, c.x, c.y, c.z, s, t, Dot(a, u), Dot(a, v));
  }

  /** Linearity on coordinates, with c = s u + t v. */
  lemma LinearIdentity(a1: real, a2: real, a3: real, u1: real, u2: real, u3: real,
                       v1: real, v2: real, v3: real, c1: real, c2: real, c3: real,
                       s: real, t: real, au: real, av: real)
    requires c1 == s * u1 + t * v1 && c2 == s * u2 + t * v2 && c3 == s * u3 + t * v3
    requires au == a1 * u1 + a2 * u2 + a3 * u3 && av == a1 * v1 + a2 * v2 + a3 * v3
    ensures a1 * c1 + a2 * c2 + a3 * c3 == s * au + t * av
  {
    assert a1 * c1 == s * (a1 * u1) + t * (a1 * v1);
    assert a2 * c2 == s * (a2 * u2) + t * (a2 * v2);
    assert a3 * c3 == s * (a3 * u3) + t * (a3 * v3);
  }

  /**
   * dtCross: a * b.yzx - a.yzx * b gives the cross product in z, x, y order,
   * and a last yzx rotation puts it in place. The w lane is a.w*b.w - a.w*b.w.
   */
  function Cross(a: Vec, b: Vec): (r: Vec)
    ensures r.x == a.y * b.z - a.z * b.y
    ensures r.y == a.z * b.x - a.x * b.z
    ensures r.z == a.x * b.y - a.y * b.x
    ensures r.w == 0.0
  {
    var a_yzx := Shuffle(a, a, MmShuffle(3, 0, 2, 1));
    var b_yzx := Shuffle(b, b, MmShuffle(3, 0, 2, 1));
    var c := SubPs(MulPs(a, b_yzx), MulPs(a_yzx, b));
    Shuffle(c, c, MmShuffle(3, 0, 2, 1))
  }

  /** The cross product is orthogonal to both operands. */
  lemma CrossOrthogonal(a: Vec, b: Vec)
    ensures Dot3(Cross(a, b), a) == Zero
    ensures Dot3(Cross(a, b), b) == Zero
  {
  }

  /** Swapping the operands negates the cross product; it reads neither w lane. */
  lemma CrossAntiCommutative(a: Vec, b: Vec, s: real, t: real)
    ensures Cross(b, a) == Neg(Cross(a, b))
    ensures Cross(a.(w := s), b.(w := t)) == Cross(a, b)
  {
  }

  /** Lagrange's identity: the squared length of a x b is |a|^2 |b|^2 - (a . b)^2. */
  lemma CrossLagrange(a: Vec, b: Vec)
    ensures Dot(Cross(a, b), Cross(a, b)) == Dot(a, a) * Dot(b, b) - Dot(a, b) * Dot(a, b)
  {
    LagrangeLanes(a, b, Cross(a, b));
  }

  /** Lagrange's identity for any c whose x, y, z lanes are those of a x b. */
  lemma LagrangeLanes(a: Vec, b: Vec, c: Vec)
    requires c.x == a.y * b.z - a.z * b.y && c.y == a.z * b.x - a.x * b.z && c.z == a.x * b.y - a.y * b.x
    ensures Dot(c, c) == Dot(a, a) * Dot(b, b) - Dot(a, b) * Dot(a, b)
  {
    LagrangeIdentity(a.x, a.y, a.z, b.x, b.y, b.z, c.x, c.y, c.z, Dot(a, a), Dot(b, b), Dot(a, b));
  }

  /** Lagrange's identity on coordinates, with c = a x b. */
  lemma LagrangeIdentity(a1: real, a2: real, a3: real, b1: real, b2: real, b3: real,
                         c1: real, c2: real, c3: real, aa: real, bb: real, ab: real)
    requires c1 == a2 * b3 - a3 * b2 && c2 == a3 * b1 - a1 * b3 && c3 == a1 * b2 - a2 * b1
    requires aa == a1 * a1 + a2 * a2 + a3 * a3 && bb == b1 * b1 + b2 * b2 + b3 * b3
    requires ab == a1 * b1 + a2 * b2 + a3 * b3
    ensures c1 * c1 + c2 * c2 + c3 * c3 == aa * bb - ab * ab
  {
  }

  /** The vector triple product: r x (a x b) == a (r . b) - b (r . a) on x, y and z. */
  lemma TripleCross(r: Vec, a: Vec, b: Vec)
    ensures Cross(r, Cross(a, b)).x == Dot(r, b) * a.x - Dot(r, a) * b.x
    ensures Cross(r, Cross(a, b)).y == Dot(r, b) * a.y - Dot(r, a) * b.y
    ensures Cross(r, Cross(a, b)).z == Dot(r, b) * a.z - Dot(r, a) * b.z
  {
    TripleCrossX(r, a, b);
    TripleCrossY(r, a, b);
    TripleCrossZ(r, a, b);
  }

  lemma TripleCrossX(r: Vec, a: Vec, b: Vec)
    ensures Cross(r, Cross(a, b)).x == Dot(r, b) * a.x - Dot(r, a) * b.x
  {
    var n := Cross(a, b);
    TripleCrossLane(r.x, r.y, r.z, a.x, a.y, a.z, b.x, b.y, b.z, n.y, n.z, Dot(r, b), Dot(r, a));
  }

  lemma TripleCrossY(r: Vec, a: Vec, b: Vec)
    ensures Cross(r, Cross(a, b)).y == Dot(r, b) * a.y - Dot(r, a) * b.y
  {
    var n := Cross(a, b);
    TripleCrossLane(r.y, r.z, r.x, a.y, a.z, a.x, b.y, b.z, b.x, n.z, n.x, Dot(r, b), Dot(r, a));
  }

  lemma TripleCrossZ(r: Vec, a: Vec, b: Vec)
    ensures Cross(r, Cross(a, b)).z == Dot(r, b) * a.z - Dot(r, a) * b.z
  {
    var n := Cross(a, b);
    TripleCrossLane(r.z, r.x, r.y, a.z, a.x, a.y, b.z, b.x, b.y, n.x, n.y, Dot(r, b), Dot(r, a));
  }

  /**
   * One lane of the triple product identity: lane 1 of r x n where n = a x b,
   * written with the lanes rotated so that the wanted lane comes first.
   */
  lemma TripleCrossLane(r1: real, r2: real, r3: real, a1: real, a2: real, a3: real, b1: real, b2: real, b3: real,
                        n2: real, n3: real, rb: real, ra: real)
    requires n2 == a3 * b1 - a1 * b3 && n3 == a1 * b2 - a2 * b1
    requires rb == r1 * b1 + r2 * b2 + r3 * b3 && ra == r1 * a1 + r2 * a2 + r3 * a3
    ensures r2 * n3 - r3 * n2 == rb * a1 - ra * b1
  {
  }

  /** The axis examples: x cross y is z, and x and y are orthogonal. */
  lemma CrossOfUnitAxes(a: Vec, b: Vec)
    requires a == UnitX && b == UnitY
    ensures Cross(a, b) == UnitZ
  {
  }
  lemma DotOfUnitAxes(a: Vec, b: Vec)
    requires a == UnitX && b == UnitY
    ensures Dot3(a, b) == Zero
  {
  }

  /** Whether sqrt is a square root on the non-negative reals. */
  ghost predicate IsSqrt(sqrt: real -> real)
  {
    forall t :: 0.0 <= t ==> 0.0 <= sqrt(t) && sqrt(t) * sqrt(t) == t
  }

  /** dtLength3: the square root of Dot3(a, a), in every lane. */
  function Length3(a: Vec, sqrt: real -> real): (r: Vec)
    ensures IsBroadcast(r) && r.x == sqrt(Dot(a, a))
    ensures IsSqrt(sqrt) ==> 0.0 <= r.x && r.x * r.x == Dot(a, a)
  {
    var t := Dot3(a, a);
    SqrtPs(t, sqrt)
  }

  /** dtNormalize3: every lane divided by the length. */
  function Normalize3(v: Vec, sqrt: real -> real): (r: Vec)
    requires sqrt(Dot(v, v)) != 0.0
    ensures Mul(r, Length3(v, sqrt)) == v
  {
    var length := SqrtPs(Dot3(v, v), sqrt);
    DivPs(v, length)
  }

  /** A normalized non-zero vector has unit length. */
  lemma Normalize3IsUnit(v: Vec, sqrt: real -> real)
    requires IsSqrt(sqrt)
    requires Dot(v, v) != 0.0
    ensures sqrt(Dot(v, v)) != 0.0
    ensures Dot(Normalize3(v, sqrt), Normalize3(v, sqrt)) == 1.0
    ensures Length3(Normalize3(v, sqrt), sqrt) == Splat(1.0)
  {
    var d := Dot(v, v);
    assert 0.0 <= d;
    var l := sqrt(d);
    assert l * l == d;
    var n := Normalize3(v, sqrt);
    var len := Length3(v, sqrt);
    assert len.x == l && len.y == l && len.z == l;
    assert Mul(n, len) == v;
    assert n.x * l == v.x && n.y * l == v.y && n.z * l == v.z;
    ScaledDot(n, v, l);
    UnitFactor(Dot(n, n), l * l, Dot(v, v));
    SqrtOfOne(sqrt);
  }

  /** Scaling the three lanes by l scales the squared length by l * l. */
  lemma ScaledDot(n: Vec, v: Vec, l: real)
    requires n.x * l == v.x && n.y * l == v.y && n.z * l == v.z
    ensures Dot(n, n) * (l * l) == Dot(v, v)
  {
    calc {
      Dot(n, n) * (l * l);
      (n.x * l) * (n.x * l) + (n.y * l) * (n.y * l) + (n.z * l) * (n.z * l);
    }
  }

  /** A square root maps one to one. */
  lemma SqrtOfOne(sqrt: real -> real)
    requires IsSqrt(sqrt)
    ensures sqrt(1.0) == 1.0
  {
    var one := sqrt(1.0);
    assert 0.0 <= one && one * one == 1.0;
    assert (one - 1.0) * (one + 1.0) == 0.0;
    ZeroProduct(one - 1.0, one + 1.0);
  }

  /** A factor that leaves a non-zero number unchanged is one. */
  lemma UnitFactor(a: real, q: real, p: real)
    requires q != 0.0 && a * q == p && p == q
    ensures a == 1.0
  {
    assert (a - 1.0) * q == 0.0;
    ZeroProduct(a - 1.0, q);
  }

  /** A product with a non-zero factor is zero only when the other factor is. */
  lemma ZeroProduct(a: real, b: real)
    requires b != 0.0 && a * b == 0.0
    ensures a == 0.0
  {
  }
}
