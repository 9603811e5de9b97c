/**
 * dtMtx: a rigid transform y = R * x + p stored as the three rotation columns
 * cx, cy, cz and the translation cw. Transforms read only the x, y and z
 * lanes of their argument; the w lanes of the results carry no meaning, so
 * the round-trip properties are stated on x, y and z (SameXyz).
 */
module Matrices {
  import opened Sse
  import opened Vectors

  /** A dtMtx. */
  datatype Mtx = Mtx(cx: Vec, cy: Vec, cz: Vec, cw: Vec)

  /** The rotation columns are unit length and pairwise orthogonal, so R^T is R^-1. */
  predicate Orthonormal(m: Mtx)
  {
    && Dot(m.cx, m.cx) == 1.0 && Dot(m.cy, m.cy) == 1.0 && Dot(m.cz, m.cz) == 1.0
    && Dot(m.cx, m.cy) == 0.0 && Dot(m.cx, m.cz) == 0.0 && Dot(m.cy, m.cz) == 0.0
  }

  // ---------------------------------------------------------------- forward transforms

  /** dtTransformVector: cx * v.x + cy * v.y + cz * v.z, lane by lane; the translation is not applied. */
  function TransformVector(m: Mtx, v: Vec): (r: Vec)
    ensures r.x == m.cx.x * v.x + m.cy.x * v.y + m.cz.x * v.z
    ensures r.y == m.cx.y * v.x + m.cy.y * v.y + m.cz.y * v.z
    ensures r.z == m.cx.z * v.x + m.cy.z * v.y + m.cz.z * v.z
    ensures r.w == m.cx.w * v.x + m.cy.w * v.y + m.cz.w * v.z
  {
    var x := Shuffle(v, v, MmShuffle(0, 0, 0, 0));
    var y := Shuffle(v, v, MmShuffle(1, 1, 1, 1));
    var z := Shuffle(v, v, MmShuffle(2, 2, 2, 2));
    var r := MulPs(m.cx, x);
    var r := AddPs(MulPs(m.cy, y), r);
    AddPs(MulPs(m.cz, z), r)
  }

  /** dtTransformPoint: the rotation as in dtTransformVector, then the translation cw. */
  function TransformPoint(m: Mtx, p: Vec): (r: Vec)
    ensures r == Add(TransformVector(m, p), m.cw)
  {
    var x := Shuffle(p, p, MmShuffle(0, 0, 0, 0));
    var y := Shuffle(p, p, MmShuffle(1, 1, 1, 1));
    var z := Shuffle(p, p, MmShuffle(2, 2, 2, 2));
    var r := MulPs(m.cx, x);
    var r := AddPs(MulPs(m.cy, y), r);
    var r := AddPs(MulPs(m.cz, z), r);
    AddPs(m.cw, r)
  }

  /** Transforms read only the x, y and z lanes of their argument. */
  lemma TransformIgnoresW(m: Mtx, u: Vec, v: Vec)
    requires SameXyz(u, v)
    ensures TransformVector(m, u) == TransformVector(m, v)
    ensures TransformPoint(m, u) == TransformPoint(m, v)
  {
  }

  /** A vector transform commutes with negation. */
  lemma {:induction false} TransformVectorNeg(m: Mtx, u: Vec)
    ensures TransformVector(m, Neg(u)) == Neg(TransformVector(m, u))
  {
    var n := Neg(u);
    NegIdentity(m.cx.x, m.cy.x, m.cz.x, n.x, n.y, n.z, u.x, u.y, u.z);
    NegIdentity(m.cx.y, m.cy.y, m.cz.y, n.x, n.y, n.z, u.x, u.y, u.z);
    NegIdentity(m.cx.z, m.cy.z, m.cz.z, n.x, n.y, n.z, u.x, u.y, u.z);
    NegIdentity(m.cx.w, m.cy.w, m.cz.w, n.x, n.y, n.z, u.x, u.y, u.z);
  }


  // ---------------------------------------------------------------- inverse transforms

  /** dtInvTransformVector: R^T * v, as the three dot products with the columns packed into one vector. */
  function InvTransformVector(m: Mtx, v: Vec): (r: Vec)
    ensures r == Vec4(Dot(m.cx, v), Dot(m.cy, v), Dot(m.cz, v), Dot(m.cz, v))
  {
    var x := Dot3(m.cx, v);
    var y := Dot3(m.cy, v);
    var z := Dot3(m.cz, v);
    VecSetVecs(x, y, z)
  }

  /** dtInvTransformPoint: R^T * (p - cw). */
  function InvTransformPoint(m: Mtx, p: Vec): (r: Vec)
    ensures r == InvTransformVector(m, Sub(p, m.cw))
  {
    var v := SubPs(p, m.cw);
    var x := Dot3(m.cx, v);
    var y := Dot3(m.cy, v);
    var z := Dot3(m.cz, v);
    VecSetVecs(x, y, z)
  }

  // ---------------------------------------------------------------- transpose and inverse

  /**
   * dmTranspose33: rows and columns of the 3x3 block exchanged. The w lane of
   * every new column is copied from cz.w, and the translation becomes zero.
   */
  function Transpose33(a: Mtx): (b: Mtx)
    ensures b.cx == Vec4(a.cx.x, a.cy.x, a.cz.x, a.cz.w)
    ensures b.cy == Vec4(a.cx.y, a.cy.y, a.cz.y, a.cz.w)
    ensures b.cz == Vec4(a.cx.z, a.cy.z, a.cz.z, a.cz.w)
    ensures b.cw == Zero
  {
    var t1 := Shuffle(a.cx, a.cy, MmShuffle(0, 0, 0, 0));
    var t2 := Shuffle(a.cx, a.cy, MmShuffle(1, 1, 1, 1));
    var t3 := Shuffle(a.cx, a.cy, MmShuffle(2, 2, 2, 2));
    Mtx(Shuffle(t1, a.cz, MmShuffle(3, 0, 2, 0)),
        Shuffle(t2, a.cz, MmShuffle(3, 1, 2, 0)),
        Shuffle(t3, a.cz, MmShuffle(3, 2, 2, 0)),
        SetZero())
  }

  /** Transposing twice restores the 3x3 block on x, y and z. */
  lemma Transpose33Twice(m: Mtx)
    ensures SameXyz(Transpose33(Transpose33(m)).cx, m.cx)
    ensures SameXyz(Transpose33(Transpose33(m)).cy, m.cy)
    ensures SameXyz(Transpose33(Transpose33(m)).cz, m.cz)
  {
  }

  /**
   * The transposed rotation applied forwards is the inverse rotation of the
   * original, and the other way round.
   */
  lemma TransposeIsInverseRotation(m: Mtx, v: Vec)
    ensures SameXyz(TransformVector(Transpose33(m), v), InvTransformVector(m, v))
    ensures SameXyz(TransformVector(m, v), InvTransformVector(Transpose33(m), v))
  {
    TransposeForward(m, v);
    TransposeBackward(m, v);
  }

  lemma {:induction false} TransposeForward(m: Mtx, v: Vec)
    ensures SameXyz(TransformVector(Transpose33(m), v), InvTransformVector(m, v))
  {
    var t := Transpose33(m);
    var f := TransformVector(t, v);
    LaneIsDot(f.x, t.cx.x, t.cy.x, t.cz.x, m.cx, v);
    LaneIsDot(f.y, t.cx.y, t.cy.y, t.cz.y, m.cy, v);
    LaneIsDot(f.z, t.cx.z, t.cy.z, t.cz.z, m.cz, v);
  }

  lemma {:induction false} TransposeBackward(m: Mtx, v: Vec)
    ensures SameXyz(TransformVector(m, v), InvTransformVector(Transpose33(m), v))
  {
    var t := Transpose33(m);
    var g := TransformVector(m, v);
    LaneIsDot(g.x, m.cx.x, m.cy.x, m.cz.x, t.cx, v);
    LaneIsDot(g.y, m.cx.y, m.cy.y, m.cz.y, t.cy, v);
    LaneIsDot(g.z, m.cx.z, m.cy.z, m.cz.z, t.cz, v);
  }

  /** A lane of the form p1 * v.x + p2 * v.y + p3 * v.z is the dot product of (p1, p2, p3) with v. */
  lemma LaneIsDot(r: real, p1: real, p2: real, p3: real, c: Vec, v: Vec)
    requires r == p1 * v.x + p2 * v.y + p3 * v.z
    requires p1 == c.x && p2 == c.y && p3 == c.z
    ensures r == Dot(c, v)
  {
  }

  /**
   * dtMtx_InvertOrtho: from y = R * x + p follows x = R^T * y - R^T * p, so the
   * rotation is transposed and the translation is -(R^T * p) on x, y and z.
   */
  function InvertOrtho(m: Mtx): (im: Mtx)
    ensures (im.cx, im.cy, im.cz) == (Transpose33(m).cx, Transpose33(m).cy, Transpose33(m).cz)
    ensures im.cw.x == -Dot(m.cx, m.cw) && im.cw.y == -Dot(m.cy, m.cw) && im.cw.z == -Dot(m.cz, m.cw)
    ensures im.cw.w == -(m.cz.w * (m.cw.x + m.cw.y + m.cw.z))
  {
    var im := Transpose33(m);
    var t := TransformVector(im, m.cw);
    LaneIsDot(t.x, im.cx.x, im.cy.x, im.cz.x, m.cx, m.cw);
    LaneIsDot(t.y, im.cx.y, im.cy.y, im.cz.y, m.cy, m.cw);
    LaneIsDot(t.z, im.cx.z, im.cy.z, im.cz.z, m.cz, m.cw);
    CommonFactor(t.w, im.cx.w, im.cy.w, im.cz.w, m.cz.w, m.cw.x, m.cw.y, m.cw.z);
    im.(cw := Neg(t))
  }

  /** A sum whose three weights are all c is c times the sum. */
  lemma CommonFactor(r: real, c1: real, c2: real, c3: real, c: real, x: real, y: real, z: real)
    requires r == c1 * x + c2 * y + c3 * z && c1 == c && c2 == c && c3 == c
    ensures r == c * (x + y + z)
  {
  }

  /** The point transform of the inverted matrix computes dtInvTransformPoint, for every matrix. */
  lemma {:induction false} InvertOrthoIsInvTransformPoint(m: Mtx, y: Vec)
    ensures SameXyz(TransformPoint(InvertOrtho(m), y), InvTransformPoint(m, y))
  {
    var im := InvertOrtho(m);
    var t := Transpose33(m);
    assert TransformVector(im, y) == TransformVector(t, y);
    TransposeIsInverseRotation(m, y);
    DotSub(m.cx, y, m.cw);
    DotSub(m.cy, y, m.cw);
    DotSub(m.cz, y, m.cw);
  }

  /** The dot product distributes over a difference. */
  lemma DotSub(a: Vec, u: Vec, v: Vec)
    ensures Dot(a, Sub(u, v)) == Dot(a, u) - Dot(a, v)
  {
    var d := Sub(u, v);
    SubIdentity(a.x, a.y, a.z, u.x, u.y, u.z, v.x, v.y, v.z, d.x, d.y, d.z);
  }

  lemma SubIdentity(a1: real, a2: real, a3: real, u1: real, u2: real, u3: real,
                    v1: real, v2: real, v3: real, d1: real, d2: real, d3: real)
    requires d1 == u1 - v1 && d2 == u2 - v2 && d3 == u3 - v3
    ensures a1 * d1 + a2 * d2 + a3 * d3 == (a1 * u1 + a2 * u2 + a3 * u3) - (a1 * v1 + a2 * v2 + a3 * v3)
  {
  }

  // ---------------------------------------------------------------- round trips

  /** The dot product of a with R * v, expanded over the columns. */
  lemma DotTransformVector(a: Vec, m: Mtx, v: Vec)
    ensures Dot(a, TransformVector(m, v)) == v.x * Dot(a, m.cx) + v.y * Dot(a, m.cy) + v.z * Dot(a, m.cz)
  {
  }

  /** With orthonormal columns, R^T * (R * v) == v. */
  lemma InvTransformVectorUndoes(m: Mtx, v: Vec)
    requires Orthonormal(m)
    ensures SameXyz(InvTransformVector(m, TransformVector(m, v)), v)
  {
    var t := TransformVector(m, v);
    DotTransformVector(m.cx, m, v);
    DotTransformVector(m.cy, m, v);
    DotTransformVector(m.cz, m, v);
  }

  /** With orthonormal columns, dtInvTransformPoint undoes dtTransformPoint. */
  lemma InvTransformPointUndoes(m: Mtx, x: Vec)
    requires Orthonormal(m)
    ensures SameXyz(InvTransformPoint(m, TransformPoint(m, x)), x)
  {
    AddSubInverse(TransformVector(m, x), m.cw);
    InvTransformVectorUndoes(m, x);
  }

  /** With orthonormal columns, the point transform of InvertOrtho(m) undoes that of m. */
  lemma InvertOrthoUndoes(m: Mtx, x: Vec)
    requires Orthonormal(m)
    ensures SameXyz(TransformPoint(InvertOrtho(m), TransformPoint(m, x)), x)
  {
    InvertOrthoIsInvTransformPoint(m, TransformPoint(m, x));
    InvTransformPointUndoes(m, x);
  }

  /**
   * A vector orthogonal to two orthonormal vectors a and b lies along their
   * cross product n: r == (n . r) * n on x, y and z.
   */
  lemma {:induction false} AlongNormal(a: Vec, b: Vec, r: Vec)
    requires Dot(a, a) == 1.0 && Dot(b, b) == 1.0 && Dot(a, b) == 0.0
    requires Dot(r, a) == 0.0 && Dot(r, b) == 0.0
    ensures SameXyz(r, Scale(Dot(Cross(a, b), r), Cross(a, b)))
  {
    var n := Cross(a, b);
    CrossLagrange(a, b);
    assert Dot(n, n) == 1.0;
    // r x n == n (r . b) - ... vanishes, since r is orthogonal to a and b
    var q := Cross(r, n);
    TripleCross(r, a, b);
    ZeroDifference(q.x, Dot(r, b), a.x, Dot(r, a), b.x);
    ZeroDifference(q.y, Dot(r, b), a.y, Dot(r, a), b.y);
    ZeroDifference(q.z, Dot(r, b), a.z, Dot(r, a), b.z);
    // so n x (r x n) == r (n . n) - n (n . r) vanishes too
    var c := Cross(n, q);
    CrossWithZero(n, q);
    TripleCross(n, r, n);
    var k := Dot(n, r);
    UnitAlong(c.x, Dot(n, n), r.x, k, n.x);
    UnitAlong(c.y, Dot(n, n), r.y, k, n.y);
    UnitAlong(c.z, Dot(n, n), r.z, k, n.z);
    ScaledLanes(r, k, n);
  }

  lemma ScaledLanes(r: Vec, k: real, n: Vec)
    requires r.x == k * n.x && r.y == k * n.y && r.z == k * n.z
    ensures SameXyz(r, Scale(k, n))
  {
  }

  lemma ZeroDifference(t: real, u: real, s: real, v: real, w: real)
    requires t == u * s - v * w && u == 0.0 && v == 0.0
    ensures t == 0.0
  {
  }

  lemma CrossWithZero(n: Vec, q: Vec)
    requires SameXyz(q, Zero)
    ensures SameXyz(Cross(n, q), Zero)
  {
  }

  lemma UnitAlong(t: real, nn: real, rk: real, nr: real, nk: real)
    requires t == nn * rk - nr * nk && t == 0.0 && nn == 1.0
    ensures rk == nr * nk
  {
  }

  /** The dot product of two multiples of n. */
  lemma DotOfMultiples(a: Vec, b: Vec, n: Vec, j: real, k: real)
    requires SameXyz(a, Scale(j, n)) && SameXyz(b, Scale(k, n))
    ensures Dot(a, b) == j * k * Dot(n, n)
  {
    var sa, sb := Scale(j, n), Scale(k, n);
    assert a.x == j * n.x && a.y == j * n.y && a.z == j * n.z;
    assert b.x == k * n.x && b.y == k * n.y && b.z == k * n.z;
    MultiplesIdentity(a.x, a.y, a.z, b.x, b.y, b.z, n.x, n.y, n.z, j, k, Dot(n, n));
  }

  lemma MultiplesIdentity(a1: real, a2: real, a3: real, b1: real, b2: real, b3: real,
                          n1: real, n2: real, n3: real, j: real, k: real, nn: real)
    requires a1 == j * n1 && a2 == j * n2 && a3 == j * n3
    requires b1 == k * n1 && b2 == k * n2 && b3 == k * n3
    requires nn == n1 * n1 + n2 * n2 + n3 * n3
    ensures a1 * b1 + a2 * b2 + a3 * b3 == j * k * nn
  {
    ProductOfMultiples(a1, b1, n1, j, k);
    ProductOfMultiples(a2, b2, n2, j, k);
    ProductOfMultiples(a3, b3, n3, j, k);
  }

  lemma ProductOfMultiples(a: real, b: real, n: real, j: real, k: real)
    requires a == j * n && b == k * n
    ensures a * b == j * k * (n * n)
  {
  }

  /** Three orthonormal columns leave no room for a fourth direction: only zero is orthogonal to all. */
  lemma {:induction false} OrthonormalSpans(m: Mtx, r: Vec)
    requires Orthonormal(m)
    requires Dot(m.cx, r) == 0.0 && Dot(m.cy, r) == 0.0 && Dot(m.cz, r) == 0.0
    ensures SameXyz(r, Zero)
  {
    var n := Cross(m.cx, m.cy);
    CrossLagrange(m.cx, m.cy);
    assert Dot(n, n) == 1.0;
    AlongNormal(m.cx, m.cy, r);
    AlongNormal(m.cx, m.cy, m.cz);
    var k, j := Dot(n, r), Dot(n, m.cz);
    DotOfMultiples(m.cz, r, n, j, k);
    DotOfMultiples(m.cz, m.cz, n, j, j);
    ZeroProduct(k, j);
  }

  /** With orthonormal columns, R * (R^T * v) == v: the converse of InvTransformVectorUndoes. */
  lemma {:induction false} TransformVectorUndoes(m: Mtx, v: Vec)
    requires Orthonormal(m)
    ensures SameXyz(TransformVector(m, InvTransformVector(m, v)), v)
  {
    var u := InvTransformVector(m, v);
    var t := TransformVector(m, u);
    var r := Sub(v, t);
    // each column's dot product with t picks out the matching lane of u, which is its dot product with v
    DotTransformVector(m.cx, m, u);
    DotTransformVector(m.cy, m, u);
    DotTransformVector(m.cz, m, u);
    KnownWeights(Dot(m.cx, t), u.x, u.y, u.z, Dot(m.cx, m.cx), Dot(m.cx, m.cy), Dot(m.cx, m.cz), 1.0, 0.0, 0.0);
    KnownWeights(Dot(m.cy, t), u.x, u.y, u.z, Dot(m.cy, m.cx), Dot(m.cy, m.cy), Dot(m.cy, m.cz), 0.0, 1.0, 0.0);
    KnownWeights(Dot(m.cz, t), u.x, u.y, u.z, Dot(m.cz, m.cx), Dot(m.cz, m.cy), Dot(m.cz, m.cz), 0.0, 0.0, 1.0);
    DotSub(m.cx, v, t);
    DotSub(m.cy, v, t);
    DotSub(m.cz, v, t);
    OrthonormalSpans(m, r);
  }

  /** A weighted sum with weights known to be e1, e2 and e3. */
  lemma KnownWeights(d: real, u1: real, u2: real, u3: real, w1: real, w2: real, w3: real, e1: real, e2: real, e3: real)
    requires d == u1 * w1 + u2 * w2 + u3 * w3
    requires w1 == e1 && w2 == e2 && w3 == e3
    ensures d == u1 * e1 + u2 * e2 + u3 * e3
  {
  }

  /** With orthonormal columns, dtTransformPoint undoes dtInvTransformPoint. */
  lemma {:induction false} TransformPointUndoes(m: Mtx, p: Vec)
    requires Orthonormal(m)
    ensures SameXyz(TransformPoint(m, InvTransformPoint(m, p)), p)
  {
    TransformVectorUndoes(m, Sub(p, m.cw));
  }

  /** Inverting an orthonormal transform twice gives it back, on x, y and z of every column. */
  lemma {:induction false} InvertOrthoTwice(m: Mtx)
    requires Orthonormal(m)
    ensures SameXyz(InvertOrtho(InvertOrtho(m)).cx, m.cx)
    ensures SameXyz(InvertOrtho(InvertOrtho(m)).cy, m.cy)
    ensures SameXyz(InvertOrtho(InvertOrtho(m)).cz, m.cz)
    ensures SameXyz(InvertOrtho(InvertOrtho(m)).cw, m.cw)
  {
    var im := InvertOrtho(m);
    var iim := InvertOrtho(im);
    Transpose33Twice(m);
    var q := InvTransformVector(m, m.cw);
    assert SameXyz(im.cw, Neg(q));
    TransposeIsInverseRotation(m, q);
    DotNeg(im.cx, im.cw, q);
    DotNeg(im.cy, im.cw, q);
    DotNeg(im.cz, im.cw, q);
    assert SameXyz(iim.cw, TransformVector(m, q));
    TransformVectorUndoes(m, m.cw);
  }

  /** Dot product with a negated vector. */
  lemma DotNeg(a: Vec, b: Vec, c: Vec)
    requires SameXyz(b, Neg(c))
    ensures Dot(a, b) == -Dot(a, c)
  {
    NegIdentity(a.x, a.y, a.z, b.x, b.y, b.z, c.x, c.y, c.z);
  }

  lemma NegIdentity(a1: real, a2: real, a3: real, b1: real, b2: real, b3: real, c1: real, c2: real, c3: real)
    requires b1 == 0.0 - c1 && b2 == 0.0 - c2 && b3 == 0.0 - c3
    ensures a1 * b1 + a2 * b2 + a3 * b3 == -(a1 * c1 + a2 * c2 + a3 * c3)
  {
  }

  /** The transpose of an orthonormal rotation is orthonormal, so InvertOrtho keeps the invariant. */
  lemma {:induction false} InvertOrthoOrthonormal(m: Mtx)
    requires Orthonormal(m)
    ensures Orthonormal(InvertOrtho(m))
  {
    var t := Transpose33(m);
    RowIsUnitImage(m, UnitX, t.cx);
    RowIsUnitImage(m, UnitY, t.cy);
    RowIsUnitImage(m, UnitZ, t.cz);
  }

  /**
   * For an axis e whose inverse image is the row `row` of R, R * row == e:
   * the dot products of the rows with `row` are the lanes of e.
   */
  lemma {:induction false} RowIsUnitImage(m: Mtx, e: Vec, row: Vec)
    requires Orthonormal(m)
    requires SameXyz(InvTransformVector(m, e), row)
    ensures SameXyz(InvTransformVector(Transpose33(m), row), e)
  {
    TransformVectorUndoes(m, e);
    TransformIgnoresW(m, InvTransformVector(m, e), row);
    TransposeIsInverseRotation(m, row);
  }

  /** A matrix with the identity rotation only translates: points move by cw, vectors stay. */
  lemma {:induction false} PureTranslation(m: Mtx, x: Vec)
    requires m.cx == UnitX && m.cy == UnitY && m.cz == UnitZ
    ensures TransformVector(m, x) == x.(w := 0.0)
    ensures TransformPoint(m, x) == Add(x.(w := 0.0), m.cw)
    ensures var d := Sub(x, m.cw); InvTransformPoint(m, x) == Vec4(d.x, d.y, d.z, d.z)
  {
    var d := Sub(x, m.cw);
    assert Dot(m.cx, d) == d.x && Dot(m.cy, d) == d.y && Dot(m.cz, d) == d.z;
  }

  /** The example: identity rotation and translation (1, 2, 3) moves the origin to (1, 2, 3) ... */
  lemma {:induction false} TranslationExample(m: Mtx, p: Vec)
    requires m.cx == UnitX && m.cy == UnitY && m.cz == UnitZ && m.cw == p
    requires p == Vec4(1.0, 2.0, 3.0, 0.0)
    ensures TransformPoint(m, Zero) == p
  {
    PureTranslation(m, Zero);
  }

  /** ... and (1, 2, 3) back to the origin. */
  lemma {:induction false} TranslationExampleInverse(m: Mtx, p: Vec)
    requires m.cx == UnitX && m.cy == UnitY && m.cz == UnitZ && m.cw == p
    requires p == Vec4(1.0, 2.0, 3.0, 0.0)
    ensures InvTransformPoint(m, p) == Zero
  {
    PureTranslation(m, p);
  }
}
