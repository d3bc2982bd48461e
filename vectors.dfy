/** Three-component vectors over the reals, standing in for three.js `Vector3`
    (JavaScript doubles are idealised as reals).

    Dafny's reals have no square root, so a vector's Euclidean length is
    supplied by a `norm` function that the caller vouches for with
    `IsEuclideanNorm`. `Normalize` and `ClampLength` follow three.js: both
    divide by `length || 1`, so the zero vector stays the zero vector. That
    zero-vector behaviour is an assumption about the library, which is not
    part of this model. */
module Vectors {

  datatype Vec3 = Vec3(x: real, y: real, z: real)

  function Add(a: Vec3, b: Vec3): Vec3 {
    Vec3(a.x + b.x, a.y + b.y, a.z + b.z)
  }

  function Sub(a: Vec3, b: Vec3): Vec3 {
    Vec3(a.x - b.x, a.y - b.y, a.z - b.z)
  }

  function Scale(v: Vec3, k: real): Vec3 {
    Vec3(v.x * k, v.y * k, v.z * k)
  }

  function Dot(a: Vec3, b: Vec3): real {
    a.x * b.x + a.y * b.y + a.z * b.z
  }

  /** The squared Euclidean length. */
  function NormSq(v: Vec3): real {
    Dot(v, v)
  }

  /** The squared Euclidean distance, what `distanceTo` squares to. */
  function DistSq(a: Vec3, b: Vec3): real {
    NormSq(Sub(a, b))
  }

  /** `l` is the Euclidean length of a vector whose squared length is `sq`. */
  predicate IsLengthOf(l: real, sq: real) {
    0.0 <= l && l * l == sq
  }

  /** `norm` computes Euclidean lengths, as three.js `Vector3.length` does.
      (The fact about `norm(v)` is brought in where a proof mentions the
      squared length of `v`.) */
  ghost predicate IsEuclideanNorm(norm: Vec3 -> real) {
    forall v {:trigger NormSq(v)} :: IsLengthOf(norm(v), NormSq(v))
  }

  function Min(a: real, b: real): real { if a <= b then a else b }

  function Max(a: real, b: real): real { if a >= b then a else b }

  /** three.js divides by `length || 1`. */
  function Divisor(l: real): real { if l == 0.0 then 1.0 else l }

  /** three.js `v.normalize()`, given `l`, the length of `v`. */
  function NormalizeBy(v: Vec3, l: real): Vec3 {
    Scale(v, 1.0 / Divisor(l))
  }

  /** three.js `v.clampLength(lo, hi)`, given `l`, the length of `v`:
      divide by the length, then multiply by the length clamped into [lo, hi]. */
  function ClampLengthBy(v: Vec3, lo: real, hi: real, l: real): Vec3 {
    Scale(Scale(v, 1.0 / Divisor(l)), Max(lo, Min(hi, l)))
  }

  function Normalize(v: Vec3, norm: Vec3 -> real): Vec3 {
    NormalizeBy(v, norm(v))
  }

  function ClampLength(v: Vec3, lo: real, hi: real, norm: Vec3 -> real): Vec3 {
    ClampLengthBy(v, lo, hi, norm(v))
  }

  // ---------------------------------------------------------------------
  // Real multiplication facts. Each is stated on plain variables, which is
  // the form in which the solver proves them on its own.

  lemma MulPos(a: real, b: real)
    requires 0.0 < a && 0.0 < b
    ensures 0.0 < a * b
  {
  }

  lemma MulMonotone(a: real, b: real, c: real)
    requires a <= b && 0.0 <= c
    ensures a * c <= b * c
  {
  }

  /** Multiplying by a non-negative factor keeps the sign of a value. */
  lemma MulKeepsSign(a: real, k: real)
    requires 0.0 <= k
    ensures a <= 0.0 ==> a * k <= 0.0
    ensures a >= 0.0 ==> a * k >= 0.0
  {
  }

  lemma SquareStrict(a: real, b: real)
    requires 0.0 <= a < b
    ensures a * a < b * b
  {
    MulPos(b - a, b + a);
    assert (b - a) * (b + a) == b * b - a * a;
  }

  lemma SquareMonotone(a: real, b: real)
    requires 0.0 <= a <= b
    ensures a * a <= b * b
  {
    if a < b {
      SquareStrict(a, b);
    }
  }

  lemma InverseSquare(l: real)
    requires l != 0.0
    ensures (1.0 / l) * (1.0 / l) * (l * l) == 1.0
  {
  }

  lemma InverseTimesSquare(l: real)
    requires l != 0.0
    ensures (1.0 / l) * (l * l) == l
  {
  }

  // ---------------------------------------------------------------------
  // Facts about lengths

  lemma NormSqScale(v: Vec3, k: real)
    ensures NormSq(Scale(v, k)) == k * k * NormSq(v)
  {
    assert (v.x * k) * (v.x * k) == k * k * (v.x * v.x);
    assert (v.y * k) * (v.y * k) == k * k * (v.y * v.y);
    assert (v.z * k) * (v.z * k) == k * k * (v.z * v.z);
  }

  lemma DotScale(a: Vec3, b: Vec3, k: real)
    ensures Dot(Scale(a, k), b) == k * Dot(a, b)
  {
    assert (a.x * k) * b.x == k * (a.x * b.x);
    assert (a.y * k) * b.y == k * (a.y * b.y);
    assert (a.z * k) * b.z == k * (a.z * b.z);
  }

  /** Lengths are unique: two non-negative reals with equal squares are equal. */
  lemma LengthUnique(l: real, m: real, sq: real)
    requires IsLengthOf(l, sq) && IsLengthOf(m, sq)
    ensures l == m
  {
    if l < m {
      SquareStrict(l, m);
    } else if m < l {
      SquareStrict(m, l);
    }
  }

  /** A threshold on the length is the same as one on the squared length,
      which is how the model compares distances without a square root. */
  lemma LengthBelowIff(l: real, sq: real, r: real)
    requires IsLengthOf(l, sq) && 0.0 < r
    ensures l < r <==> sq < r * r
  {
    if l < r {
      SquareStrict(l, r);
    } else {
      SquareMonotone(r, l);
    }
  }

  /** `normalize` gives a unit vector, except that a vector of length zero
      stays as it is. */
  lemma NormalizeByUnit(v: Vec3, l: real)
    requires IsLengthOf(l, NormSq(v))
    ensures NormSq(v) == 0.0 ==> NormalizeBy(v, l) == v
    ensures NormSq(v) != 0.0 ==> NormSq(NormalizeBy(v, l)) == 1.0
  {
    var k := 1.0 / Divisor(l);
    NormSqScale(v, k);
    if NormSq(v) != 0.0 {
      assert l != 0.0;
      InverseSquare(l);
    }
  }

  /** `clampLength(lo, hi)` leaves a vector of non-zero length with length
      `c`, the old length clamped into [lo, hi]; a vector of length zero keeps
      length zero. */
  lemma ClampLengthByExact(v: Vec3, lo: real, hi: real, l: real)
    requires IsLengthOf(l, NormSq(v))
    ensures NormSq(v) == 0.0 ==> NormSq(ClampLengthBy(v, lo, hi, l)) == 0.0
    ensures NormSq(v) != 0.0 ==>
      var c := Max(lo, Min(hi, l));
      NormSq(ClampLengthBy(v, lo, hi, l)) == c * c
  {
    NormalizeByUnit(v, l);
    var u := Scale(v, 1.0 / Divisor(l));
    var c := Max(lo, Min(hi, l));
    NormSqScale(u, c);
  }

  /** With 0 <= lo <= hi, the clamped length is at most hi in every case and
      at least lo for a vector of non-zero length. */
  lemma ClampLengthByBounds(v: Vec3, lo: real, hi: real, l: real)
    requires IsLengthOf(l, NormSq(v)) && 0.0 <= lo <= hi
    ensures NormSq(ClampLengthBy(v, lo, hi, l)) <= hi * hi
    ensures NormSq(v) != 0.0 ==> lo * lo <= NormSq(ClampLengthBy(v, lo, hi, l))
  {
    ClampLengthByExact(v, lo, hi, l);
    var c := Max(lo, Min(hi, l));
    assert lo <= c <= hi;
    SquareMonotone(c, hi);
    SquareMonotone(lo, c);
    SquareMonotone(0.0, hi);
  }

  /** Clamping scales by a non-negative factor: each component keeps its sign. */
  lemma ClampLengthBySign(v: Vec3, lo: real, hi: real, l: real)
    requires 0.0 <= l && 0.0 <= lo
    ensures var r := ClampLengthBy(v, lo, hi, l);
      (v.x <= 0.0 ==> r.x <= 0.0) && (v.x >= 0.0 ==> r.x >= 0.0) &&
      (v.y <= 0.0 ==> r.y <= 0.0) && (v.y >= 0.0 ==> r.y >= 0.0)
  {
    var c := Max(lo, Min(hi, l));
    var k := 1.0 / Divisor(l);
    var x, y := v.x, v.y;
    MulKeepsSign(x, k);
    MulKeepsSign(y, k);
    var xk, yk := x * k, y * k;
    MulKeepsSign(xk, c);
    MulKeepsSign(yk, c);
  }
}
