/**
 * dtAABB: an axis-aligned bounding box given by its lower and upper corners,
 * with the union, surface area, center and half-extent the tree uses to
 * decide where boxes go.
 */
module Boxes {
  import opened Sse
  import opened Vectors

  /** A dtAABB. */
  datatype Aabb = Aabb(lowerBound: Vec, upperBound: Vec)

  /** a <= b in every lane. */
  predicate LeLanes(a: Vec, b: Vec)
  {
    a.x <= b.x && a.y <= b.y && a.z <= b.z && a.w <= b.w
  }

  /** A well-formed box: the lower corner is below the upper corner in every lane. */
  predicate Valid(a: Aabb)
  {
    LeLanes(a.lowerBound, a.upperBound)
  }

  /** Box `outer` encloses box `inner`, lane by lane. */
  predicate Contains(outer: Aabb, inner: Aabb)
  {
    LeLanes(outer.lowerBound, inner.lowerBound) && LeLanes(inner.upperBound, outer.upperBound)
  }

  // ---------------------------------------------------------------- union

  /** dtUnion: lane-wise minimum of the lower corners and maximum of the upper corners. */
  function Union(a: Aabb, b: Aabb): (c: Aabb)
    ensures Contains(c, a) && Contains(c, b)
    ensures Valid(a) ==> Valid(c)
  {
    Aabb(Min(a.lowerBound, b.lowerBound), Max(a.upperBound, b.upperBound))
  }

  /** The union is the smallest box enclosing both inputs. */
  lemma UnionIsLeast(a: Aabb, b: Aabb, d: Aabb)
    ensures Contains(d, a) && Contains(d, b) <==> Contains(d, Union(a, b))
  {
  }

  lemma UnionCommutative(a: Aabb, b: Aabb)
    ensures Union(a, b) == Union(b, a)
  {
  }

  lemma UnionAssociative(a: Aabb, b: Aabb, c: Aabb)
    ensures Union(Union(a, b), c) == Union(a, Union(b, c))
  {
  }

  lemma UnionIdempotent(a: Aabb)
    ensures Union(a, a) == a
  {
  }

  /** A box absorbs every box it encloses. */
  lemma UnionAbsorbs(a: Aabb, b: Aabb)
    requires Contains(a, b)
    ensures Union(a, b) == a
  {
  }

  // ---------------------------------------------------------------- area

  /** The edge lengths of a box in lanes x, y and z. */
  function Size(a: Aabb): Vec
  {
    Sub(a.upperBound, a.lowerBound)
  }

  /** The surface area of a box with edge lengths w.x, w.y and w.z. */
  function SurfaceArea(w: Vec): real
  {
    2.0 * (w.x * w.y + w.y * w.z + w.z * w.x)
  }

  /**
   * dtArea: the surface area of the box with edges w = upper - lower,
   * computed in all lanes and read from lane 0.
   */
  function Area(a: Aabb): (r: real)
    ensures r == SurfaceArea(Size(a))
  {
    var w := Sub(a.upperBound, a.lowerBound);
    var x := Shuffle(w, w, MmShuffle(0, 0, 0, 0));
    var y := Shuffle(w, w, MmShuffle(1, 1, 1, 1));
    var z := Shuffle(w, w, MmShuffle(2, 2, 2, 2));
    var area := Add(Add(Mul(x, y), Mul(y, z)), Mul(z, x));
    var area := Add(area, area);
    StoreSS(area)
  }

  /** A well-formed box has non-negative area. */
  lemma AreaNonNegative(a: Aabb)
    requires Valid(a)
    ensures 0.0 <= Area(a)
  {
    SurfaceAreaMonotone(Zero, Size(a));
  }

  /** Enclosing a well-formed box never takes less area, so the union costs at least as much as either part. */
  lemma {:induction false} AreaMonotone(outer: Aabb, inner: Aabb)
    requires Valid(inner) && Contains(outer, inner)
    ensures Area(inner) <= Area(outer)
  {
    SurfaceAreaMonotone(Size(inner), Size(outer));
  }

  /** Surface area grows with each non-negative edge length. */
  lemma {:induction false} SurfaceAreaMonotone(u: Vec, v: Vec)
    requires 0.0 <= u.x <= v.x && 0.0 <= u.y <= v.y && 0.0 <= u.z <= v.z
    ensures SurfaceArea(u) <= SurfaceArea(v)
  {
    ProductMonotone(u.x, u.y, v.x, v.y);
    ProductMonotone(u.y, u.z, v.y, v.z);
    ProductMonotone(u.z, u.x, v.z, v.x);
  }

  lemma UnionAreaBound(a: Aabb, b: Aabb)
    requires Valid(a) && Valid(b)
    ensures Area(a) <= Area(Union(a, b)) && Area(b) <= Area(Union(a, b))
  {
    AreaMonotone(Union(a, b), a);
    AreaMonotone(Union(a, b), b);
  }

  lemma ProductMonotone(a: real, b: real, c: real, d: real)
    requires 0.0 <= a <= c && 0.0 <= b <= d
    ensures a * b <= c * d
  {
    assert a * b <= c * b;
    assert c * b <= c * d;
  }

  /** The unit cube at the origin and the unit cube at (2, 2, 2) join into the cube [0, 3]^3 ... */
  lemma UnionExample(a: Aabb, b: Aabb)
    requires a == Aabb(Zero, Vec4(1.0, 1.0, 1.0, 0.0))
    requires b == Aabb(Vec4(2.0, 2.0, 2.0, 0.0), Vec4(3.0, 3.0, 3.0, 0.0))
    ensures Union(a, b) == Aabb(Zero, Vec4(3.0, 3.0, 3.0, 0.0))
  {
  }

  /** A cube with edge s has area 6 * s * s. */
  lemma CubeArea(c: Aabb, s: real)
    requires SameXyz(Size(c), Splat(s))
    ensures Area(c) == 6.0 * s * s
  {
    var w := Size(c);
    CubeSum(w.x, w.y, w.z, s);
  }

  lemma CubeSum(x: real, y: real, z: real, s: real)
    requires x == s && y == s && z == s
    ensures 2.0 * (x * y + y * z + z * x) == 6.0 * s * s
  {
  }

  /** ... and a box with edges 3 has area 6 * 3 * 3 = 54. */
  lemma AreaExample(c: Aabb)
    requires SameXyz(Size(c), Splat(3.0))
    ensures Area(c) == 54.0
  {
    CubeArea(c, 3.0);
  }

  // ---------------------------------------------------------------- center and extent

  /**
   * dtCenter: half the sum of the corners. The product is the vector-extension
   * `*` on __m128, which multiplies lane by lane as MULPS does.
   */
  function Center(a: Aabb): (r: Vec)
    ensures r == Scale(0.5, Add(a.lowerBound, a.upperBound))
  {
    Mul(Splat(0.5), Add(a.lowerBound, a.upperBound))
  }

  /** dtExtent: half the edge lengths, multiplied as in dtCenter. */
  function Extent(a: Aabb): (r: Vec)
    ensures r == Scale(0.5, Size(a))
  {
    Mul(Splat(0.5), Sub(a.upperBound, a.lowerBound))
  }

  /** The box is the center plus or minus the half-extent, in every lane. */
  lemma CenterExtent(a: Aabb)
    ensures Sub(Center(a), Extent(a)) == a.lowerBound
    ensures Add(Center(a), Extent(a)) == a.upperBound
  {
  }

  /** A well-formed box has a non-negative half-extent, and its center lies inside it. */
  lemma CenterInside(a: Aabb)
    requires Valid(a)
    ensures LeLanes(Zero, Extent(a))
    ensures LeLanes(a.lowerBound, Center(a)) && LeLanes(Center(a), a.upperBound)
  {
  }
}
