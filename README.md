# dynamic-tree utils.h in Dafny

A model of `utils.h` from the dynamic-tree library. This header holds the SSE geometry layer that the
bounding-volume tree is built on:

- **`dtVec`** is a four-lane single-precision vector held in one `__m128` register.
- **`dtMtx`** is a rigid transform `y = R * x + p`. It is stored as three rotation columns `cx, cy, cz`
  and a translation `cw`.
- **`dtAABB`** is an axis-aligned box with a lower and an upper corner.
- The header also has the 32-bit integer helpers `dtMin`, `dtMax`, `dtClamp` and `dtAbs`, and the
  template `dtSwap`.

The vector, matrix and box functions of the header are straight-line code over `__m128` values. They
call SSE intrinsics, and a few use the compiler's vector-extension operators on `__m128`: unary minus in
`dtAbs`, and `*` in `dtCenter` and `dtExtent`. The exceptions are `dtGet`, a `switch` over the lane
index, and the integer helpers and `dtSwap`, which use no intrinsics at all.

Each intrinsic the header uses is a function in module `Sse`, following Intel's description of the
instruction:

- `Shuffle` is SHUFPS.
- `MmShuffle` is the `_MM_SHUFFLE` macro.
- The others are `MoveSS`, `UnpackLo`, `MoveLH`, `CmpEqPs`, `MoveMaskPs` and so on.
- `NegPs` is the vector-extension unary minus. The vector-extension `*` multiplies lane by lane, so it is
  `MulPs`.

Each vector, matrix and box function is written as the same sequence of these calls, with the same
shuffle immediates, as the header. `Get` is a `match` with the same cases as the `switch`. The integer
helpers are plain functions over `Int32`, and `Swap` is a method. Each contract states the closed form
that the code computes. Lemmas state the algebra the library relies on:

- getting a lane returns what was set in it;
- dot and cross products;
- transforms and inverse transforms undo each other for orthonormal rotations;
- union is a least upper bound;
- areas are non-negative and grow under union;
- the center and the extent reconstruct the box.

Lanes are `real`, so the algebra is exact and IEEE-754 rounding is not modelled.

Modules:

- `Sse` (sse.dfy): the intrinsics, over `Vec4` (four real lanes) and `Mask4` (a comparison mask).
- `Scalars` (scalars.dfy): the integer helpers, with `Int32` for C++ `int`. It also has `Ref<T>`, a
  mutable cell that stands for a C++ reference `T&`, and `Swap`.
- `Vectors` (vectors.dfy): `dtVec`.
- `Matrices` (matrices.dfy): `dtMtx`.
- `Boxes` (boxes.dfy): `dtAABB`.

Rigid-transform results carry no meaning in their w lane, so the round-trip properties are stated on
lanes x, y and z (`SameXyz`).

## Model

| member | source | states |
|---|---|---|
| Sse.ShuffleSelects | utils.h:102-109 | The general decoding of the `_MM_SHUFFLE` macro, which every shuffle in the header relies on (dtSetY is the first). An immediate built by `_MM_SHUFFLE(fp3, fp2, fp1, fp0)` makes SHUFPS take lanes fp0 and fp1 of the first operand and lanes fp2 and fp3 of the second. |
| Scalars.Min | utils.h:9-12 | The result is one of the arguments and no greater than either. |
| Scalars.Max | utils.h:14-17 | The result is one of the arguments and no smaller than either. |
| Scalars.Clamp | utils.h:19-22 | The result is one of a, b and c. On a non-empty range [b, c] it lies in the range, and it is a whenever a does. On an empty range it is b below b and c from b upwards. |
| Scalars.ClampIsMaxOfMin | utils.h:19-22 | On a non-empty range, clamping equals max(b, min(a, c)). |
| Scalars.Abs | utils.h:24-27 | The result is non-negative and equals a or -a. |
| Scalars.AbsFitsInt32 | utils.h:24-27 | The absolute value fits in an `int` exactly when a is not INT_MIN. |
| Scalars.Swap | utils.h:34-40 | Each reference ends up holding the other's old value. |
| Vectors.VecSet3 | utils.h:73-76 | Lanes x, y, z hold the arguments and w is 0. |
| Vectors.VecSet4 | utils.h:78-81 | Lanes x, y, z, w hold the arguments in reading order, although `_mm_set_ps` takes them reversed. |
| Vectors.VecSetVecs | utils.h:83-89 | The result is (x.x, y.x, z.x, z.y). |
| Vectors.VecSetVecsOfBroadcasts | utils.h:83-89 | When z is a broadcast, the w lane equals the z lane. |
| Vectors.Splat | utils.h:91-94 | All four lanes hold the scalar. |
| Vectors.SetX | utils.h:96-100 | The result is v with lane x replaced and the other lanes unchanged. |
| Vectors.SetY | utils.h:102-109 | The result is v with lane y replaced and the other lanes unchanged. |
| Vectors.SetZ | utils.h:111-118 | The result is v with lane z replaced and the other lanes unchanged. |
| Vectors.SetW | utils.h:120-127 | The result is v with lane w replaced and the other lanes unchanged. |
| Vectors.GetX | utils.h:129-134 | Returns lane x. |
| Vectors.GetY | utils.h:136-142 | Returns lane y. |
| Vectors.GetZ | utils.h:144-150 | Returns lane z. |
| Vectors.GetW | utils.h:152-158 | Returns lane w. |
| Vectors.Get | utils.h:160-173 | Indices 0, 1, 2 read lanes x, y, z. Every other index, negative ones included, reads w. |
| Vectors.GetAfterSet | utils.h:96-173 | Reading a lane just set gives the new value, and every other lane reads as before. |
| Vectors.SetOwnLane | utils.h:96-173 | Setting a lane to the value it holds returns the same vector. |
| Vectors.Min | utils.h:175-178 | In every lane, the result is the smaller operand. |
| Vectors.Max | utils.h:180-183 | In every lane, the result is the larger operand. |
| Vectors.Abs | utils.h:185-188 | In every lane, the result is non-negative and equals a or -a. The negation is the vector-extension minus. |
| Vectors.Add | utils.h:190-193 | Every lane is the sum of the operands' lanes. |
| Vectors.Sub | utils.h:195-198 | Every lane is the difference of the operands' lanes. |
| Vectors.Neg | utils.h:235-238 | Zero minus the operand negates every lane. |
| Vectors.Mul | utils.h:218-233 | Every lane is the product of the operands' lanes. |
| Vectors.AddSubInverse | utils.h:190-198 | Binary minus undoes plus, and plus undoes minus. |
| Vectors.AddMulCommute | utils.h:190-233 | Plus and the vector product commute, and a - b == a + (-b). |
| Vectors.NegInvolutive | utils.h:235-238 | Unary minus is an involution, and a + (-a) is zero. |
| Vectors.Scale | utils.h:212-216 | float * dtVec multiplies every lane by the scalar. |
| Vectors.ScaleIsSplatMul | utils.h:212-233 | Scaling equals the vector product with a splat, and distributes over plus. |
| Vectors.MinMaxCommute | utils.h:175-188 | Vector min and max are commutative, and Abs(a) == Abs(-a). |
| Vectors.Eq | utils.h:240-244 | The comparison holds exactly when all four lanes are equal. |
| Vectors.AddAssign | utils.h:200-204 | += stores a + b into the referenced vector and returns the same reference. |
| Vectors.SubAssign | utils.h:206-210 | -= stores a - b into the referenced vector and returns the same reference. |
| Vectors.Dot3 | utils.h:246-253 | a.x*b.x + a.y*b.y + a.z*b.z lands in all four lanes. |
| Vectors.Dot3SymmetricIgnoresW | utils.h:246-253 | Dot3 is symmetric and reads neither w lane. |
| Vectors.Dot3SelfNonNegative | utils.h:246-253 | Dot3(a, a) is the non-negative squared length. |
| Vectors.DotLinear | utils.h:246-253 | The dot product is linear in its second argument. |
| Vectors.Cross | utils.h:255-262 | Lanes x, y, z are the cross product, and w is a.w*b.w - a.w*b.w = 0. |
| Vectors.CrossOrthogonal | utils.h:255-262 | Dot3 of the cross product with either operand is zero. |
| Vectors.CrossAntiCommutative | utils.h:255-262 | Swapping the operands negates the result, and neither w lane is read. |
| Vectors.CrossLagrange | utils.h:255-262 | \|a x b\|^2 == \|a\|^2 \|b\|^2 - (a . b)^2. |
| Vectors.TripleCross | utils.h:255-262 | r x (a x b) == a (r . b) - b (r . a) on x, y and z. |
| Vectors.CrossOfUnitAxes | utils.h:68-71 | UnitX x UnitY == UnitZ. |
| Vectors.DotOfUnitAxes | utils.h:68-71 | UnitX and UnitY are orthogonal. |
| Vectors.Length3 | utils.h:264-268 | Every lane is sqrt(a . a). For a true square root this is the non-negative root. |
| Vectors.Normalize3 | utils.h:270-274 | The result times the length gives back v. |
| Vectors.Normalize3IsUnit | utils.h:270-274 | For a non-zero v the result has unit length, and its Length3 is a splat of 1. |
| Matrices.TransformVector | utils.h:281-291 | Each lane is cx*v.x + cy*v.y + cz*v.z, with no translation. |
| Matrices.TransformPoint | utils.h:293-304 | The vector transform plus cw. |
| Matrices.TransformIgnoresW | utils.h:281-304 | Both transforms read only lanes x, y, z of their argument. |
| Matrices.TransformVectorNeg | utils.h:281-291 | The vector transform commutes with negation. |
| Matrices.InvTransformVector | utils.h:306-312 | The result is (cx . v, cy . v, cz . v, cz . v). |
| Matrices.InvTransformPoint | utils.h:314-321 | The inverse vector transform of p - cw. |
| Matrices.Transpose33 | utils.h:323-335 | Column cx becomes (cx.x, cy.x, cz.x, cz.w), and likewise for cy and cz. The translation becomes zero. |
| Matrices.Transpose33Twice | utils.h:323-335 | Transposing twice restores the 3x3 block. |
| Matrices.TransposeIsInverseRotation | utils.h:281-335 | The forward transform by the transpose is the inverse transform, and vice versa. |
| Matrices.InvertOrtho | utils.h:337-345 | The rotation is transposed, and the translation is -(cx . cw, cy . cw, cz . cw) on x, y, z. Its w lane is -(cz.w (cw.x + cw.y + cw.z)), left over from the transposed columns. |
| Matrices.InvertOrthoIsInvTransformPoint | utils.h:337-345 | The point transform of InvertOrtho(m) computes dtInvTransformPoint(m, .), for every matrix. |
| Matrices.InvTransformVectorUndoes | utils.h:281-312 | For orthonormal columns, R^T (R v) == v. |
| Matrices.InvTransformPointUndoes | utils.h:293-321 | For orthonormal columns, dtInvTransformPoint undoes dtTransformPoint. |
| Matrices.InvertOrthoUndoes | utils.h:337-345 | For orthonormal columns, the point transform of InvertOrtho(m) undoes that of m. |
| Matrices.OrthonormalSpans | utils.h:337-345 | Only zero is orthogonal to three orthonormal columns. |
| Matrices.TransformVectorUndoes | utils.h:281-312 | For orthonormal columns, R (R^T v) == v. |
| Matrices.TransformPointUndoes | utils.h:293-321 | For orthonormal columns, dtTransformPoint undoes dtInvTransformPoint. |
| Matrices.InvertOrthoTwice | utils.h:337-345 | Inverting an orthonormal transform twice restores all four columns. |
| Matrices.InvertOrthoOrthonormal | utils.h:337-345 | InvertOrtho keeps the columns orthonormal. |
| Matrices.PureTranslation | utils.h:281-321 | With the identity rotation, a vector keeps x, y, z and gets w = 0, a point is moved by cw, and the inverse point transform subtracts cw. |
| Matrices.TranslationExample | utils.h:293-304 | With identity rotation and translation (1, 2, 3), the origin goes to (1, 2, 3). |
| Matrices.TranslationExampleInverse | utils.h:314-321 | With the same matrix, (1, 2, 3) goes back to the origin. |
| Boxes.Union | utils.h:353-359 | The union contains both boxes and keeps a well-formed box well formed. |
| Boxes.UnionIsLeast | utils.h:353-359 | A box contains both inputs exactly when it contains their union. |
| Boxes.UnionCommutative | utils.h:353-359 | Union is commutative. |
| Boxes.UnionAssociative | utils.h:353-359 | Union is associative. |
| Boxes.UnionIdempotent | utils.h:353-359 | Union is idempotent. |
| Boxes.UnionAbsorbs | utils.h:353-359 | The union with an enclosed box is the enclosing box. |
| Boxes.Area | utils.h:361-373 | The result is SurfaceArea(w) = 2 (wx wy + wy wz + wz wx), with w = upper - lower, read from lane 0. |
| Boxes.AreaNonNegative | utils.h:361-373 | A well-formed box has non-negative area. |
| Boxes.AreaMonotone | utils.h:361-373 | An enclosing box has at least the area of a well-formed box it encloses. |
| Boxes.SurfaceAreaMonotone | utils.h:361-373 | The area formula grows with each non-negative edge length. |
| Boxes.UnionAreaBound | utils.h:353-373 | The union of two well-formed boxes has at least the area of each. |
| Boxes.UnionExample | utils.h:353-359 | [(0,0,0),(1,1,1)] joined with [(2,2,2),(3,3,3)] is [(0,0,0),(3,3,3)]. |
| Boxes.CubeArea | utils.h:361-373 | A cube with edge s has area 6 s^2. |
| Boxes.AreaExample | utils.h:361-373 | A box with edges 3 has area 54. |
| Boxes.Center | utils.h:375-378 | Half of lower + upper, in every lane. |
| Boxes.Extent | utils.h:380-383 | Half of upper - lower, in every lane. |
| Boxes.CenterExtent | utils.h:375-383 | Center - Extent == lower and Center + Extent == upper, in every lane. |
| Boxes.CenterInside | utils.h:375-383 | A well-formed box has a non-negative extent, and its center lies inside it. |

## Left out

- IEEE-754 single precision. Lanes are real numbers, so the model drops rounding and evaluation order,
  NaN and infinity propagation, and the NaN asymmetry of MINPS and MAXPS. It also drops NaN under
  `operator ==`: `Vectors.Eq` is exact equality.
- Vectors.Abs: does not model signed zero. MAXPS returns its second operand when the lanes compare
  equal, so with floats dtAbs(+0) = max(+0, -0) gives -0.
- Vectors.Cross: the w lane is 0 only over the reals. With floats, a.w*b.w - a.w*b.w is NaN for an
  infinite w.
- Vectors.Length3 and Vectors.Normalize3: there is no square root on Dafny reals, so the square root
  is a parameter. `IsSqrt` says when it is a true one.
- Vectors.Normalize3: requires a non-zero length. With floats, division by zero gives infinities or NaN,
  which have no real counterpart.
- Scalars.Abs: returns an unbounded integer. For INT_MIN, the C++ negation overflows, which is
  undefined behaviour; `AbsFitsInt32` marks exactly that input.
- Round-trip lemmas in Matrices: stated on lanes x, y and z only. Transforms leave arbitrary values in
  w, and `dmTranspose33` copies `cz.w` into every column.
- Matrices.TransformVector: additivity over vector addition is not stated. Only the commutation with
  negation that the inverse needs is stated.
- The `dtVec` constructors, the implicit conversions and `operator=` from `__m128` (utils.h:47-59) are
  type plumbing. Vec4 values are built directly instead.
- The three `operator *` overloads on two vectors (utils.h:218-233) differ only in const-ness. They are
  modelled once, as `Vectors.Mul`.
- `dtPi` and `dtAbs(float)` (utils.h:7, 29-32) are float scalars with no behaviour worth stating.
- `dtFree` (utils.h:385-388) is a call into the C library's `free`.
- `dtTimer` (utils.h:390-409) reads the wall clock, and its bodies are not in this header.
