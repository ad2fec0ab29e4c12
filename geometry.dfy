// The slice of the vector library the game uses: 3-component vectors over the
// reals, the component-wise operations, the cross product, and 4x4 matrices
// applied to points.

module Geometry {

  /** A 3-component vector; positions, half-extents and directions alike. */
  datatype Vec3 = Vec3(x: real, y: real, z: real)

  const Zero: Vec3 := Vec3(0.0, 0.0, 0.0)

  /** The world's up direction, (0, 1, 0). */
  const Up: Vec3 := Vec3(0.0, 1.0, 0.0)

  function Add(a: Vec3, b: Vec3): Vec3 {
    Vec3(a.x + b.x, a.y + b.y, a.z + b.z)
  }

  function Sub(a: Vec3, b: Vec3): Vec3 {
    Vec3(a.x - b.x, a.y - b.y, a.z - b.z)
  }

  function Scale(a: Vec3, k: real): Vec3 {
    Vec3(a.x * k, a.y * k, a.z * k)
  }

  /** Component-wise product, the `vec3 * vec3` of the vector library. */
  function Mul(a: Vec3, b: Vec3): Vec3 {
    Vec3(a.x * b.x, a.y * b.y, a.z * b.z)
  }

  function Dot(a: Vec3, b: Vec3): real {
    a.x * b.x + a.y * b.y + a.z * b.z
  }

  /** The horizontal part of a vector, `v * vec3(1, 0, 1)`. */
  function Level(v: Vec3): (r: Vec3)
    ensures r.y == 0.0 && r.x == v.x && r.z == v.z
  {
    Mul(v, Vec3(1.0, 0.0, 1.0))
  }

  /** The cross product; the result is orthogonal to both operands. */
  function Cross(a: Vec3, b: Vec3): (r: Vec3)
    ensures Dot(r, a) == 0.0 && Dot(r, b) == 0.0
  {
    Vec3(a.y * b.z - a.z * b.y, a.z * b.x - a.x * b.z, a.x * b.y - a.y * b.x)
  }

  /** A vector crossed with world-up lies in the horizontal plane: (-d.z, 0, d.x). */
  lemma CrossUp(d: Vec3)
    ensures Cross(d, Up) == Vec3(-d.z, 0.0, d.x)
    ensures Cross(d, Up).y == 0.0
  {
  }

  /** A 4x4 matrix stored column by column, as the vector library stores it. */
  predicate IsMat4(m: seq<seq<real>>) {
    |m| == 4 && forall c :: 0 <= c < 4 ==> |m[c]| == 4
  }

  /** `mat4(d)`: d on the diagonal, 0 elsewhere; it scales every point by d. */
  function Diagonal(d: real): (m: seq<seq<real>>)
    ensures IsMat4(m)
    ensures forall p :: TransformPoint(m, p) == Scale(p, d)
  {
    seq(4, c => seq(4, r => if c == r then d else 0.0))
  }

  /** The matrix applied to the point (p, 1), keeping the first three coordinates. */
  function TransformPoint(m: seq<seq<real>>, p: Vec3): Vec3
    requires IsMat4(m)
  {
    Vec3(m[0][0] * p.x + m[1][0] * p.y + m[2][0] * p.z + m[3][0],
         m[0][1] * p.x + m[1][1] * p.y + m[2][1] * p.z + m[3][1],
         m[0][2] * p.x + m[1][2] * p.y + m[2][2] * p.z + m[3][2])
  }
}

// The foreign maths calls the core makes (pow, normalize, sin, cos), passed in
// as values, and the exponential smoothing step built on pow.

module Numerics {
  import opened Geometry

  datatype Option<T> = None | Some(value: T)

  /** The library functions the core calls but that are not modelled. */
  datatype Library = Library(
    pow: (real, real) -> real,
    normalize: Vec3 -> Vec3,
    sin: real -> real,
    cos: real -> real)

  /** `pow(base, t)` for a base in (0, 1) and a non-negative exponent lies in [0, 1]. */
  ghost predicate PowDecays(pow: (real, real) -> real) {
    forall b: real, t: real :: 0.0 < b < 1.0 && 0.0 <= t ==> 0.0 <= pow(b, t) <= 1.0
  }

  /** `pow(base, 0) == 1`. */
  ghost predicate PowZeroIsOne(pow: (real, real) -> real) {
    forall b: real :: 0.0 < b < 1.0 ==> pow(b, 0.0) == 1.0
  }

  /**
    * Normalising a non-zero vector scales every component by one factor, so a
    * zero y stays zero. The zero vector is excluded: it has no direction, and
    * normalising it divides by a zero length.
    */
  ghost predicate NormalizeKeepsLevel(normalize: Vec3 -> Vec3) {
    forall v: Vec3 :: v.y == 0.0 && v != Zero ==> normalize(v).y == 0.0
  }

  /** x lies between from and to, whichever of the two is larger. */
  predicate Between(from: real, x: real, to: real) {
    (from <= to && from <= x <= to) || (to <= from && to <= x <= from)
  }

  /**
    * One step of exponential smoothing, `v + (t - v) * (1 - k)` with k = pow(base, dt):
    * a factor in [0, 1] lands between the current value and the target, k == 1
    * (no time passed) keeps the value, k == 0 reaches the target.
    */
  function Smooth(v: real, t: real, k: real): (r: real)
    ensures 0.0 <= k <= 1.0 ==> (v <= t ==> v <= r <= t) && (t <= v ==> t <= r <= v)
    ensures k == 1.0 ==> r == v
    ensures k == 0.0 ==> r == t
  {
    PortionBounds(t - v, 1.0 - k);
    v + Portion(t - v, 1.0 - k)
  }

  /** The part f of a gap. */
  function Portion(gap: real, f: real): real {
    gap * f
  }

  /** For f in [0, 1] the part f of a gap lies between 0 and the gap, whatever the gap's sign. */
  lemma PortionBounds(gap: real, f: real)
    ensures 0.0 <= f <= 1.0 && gap >= 0.0 ==> 0.0 <= Portion(gap, f) <= gap
    ensures 0.0 <= f <= 1.0 && gap <= 0.0 ==> gap <= Portion(gap, f) <= 0.0
    ensures f == 0.0 ==> Portion(gap, f) == 0.0
    ensures f == 1.0 ==> Portion(gap, f) == gap
  {
    if 0.0 <= f <= 1.0 {
      if gap >= 0.0 {
        ProductBounds(gap, f);
      } else {
        NegatedBounds(gap, f);
      }
    }
  }

  lemma NegatedBounds(gap: real, f: real)
    requires gap <= 0.0 && 0.0 <= f <= 1.0
    ensures gap <= gap * f <= 0.0
  {
    ProductBounds(-gap, f);
    assert (-gap) * f == -(gap * f);
  }

  lemma ProductBounds(a: real, f: real)
    requires a >= 0.0 && 0.0 <= f <= 1.0
    ensures 0.0 <= a * f <= a
  {
    NonNegativeProduct(a, f);
    NonNegativeProduct(a, 1.0 - f);
    assert a * (1.0 - f) == a - a * f;
  }

  lemma NonNegativeProduct(a: real, b: real)
    requires a >= 0.0 && b >= 0.0
    ensures a * b >= 0.0
  {
  }
}
