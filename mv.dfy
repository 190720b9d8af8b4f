/** Vectors and matrices as the scene uses them (the MV.js helpers `vec2`, `vec3`,
    `mat4`, `translate`, `scalem`, `mult`, `add`, `subtract`, `cross`), with exact
    `real` arithmetic. Trigonometric and normalising helpers are not here: their
    results are floating point and the model takes them from `Host.Lib`. */
module Mv {

  datatype Vec2 = Vec2(u: real, v: real)
  datatype Vec3 = Vec3(x: real, y: real, z: real)
  datatype Vec4 = Vec4(x: real, y: real, z: real, w: real)

  /** A 3x3 matrix, by rows (the normal-correction matrix). */
  datatype Mat3 = Mat3(r0: Vec3, r1: Vec3, r2: Vec3)

  /** A 4x4 homogeneous matrix, by rows; MV.js keeps the translation in the last column. */
  datatype Mat4 = Mat4(r0: Vec4, r1: Vec4, r2: Vec4, r3: Vec4)

  function Add(a: Vec3, b: Vec3): Vec3 { Vec3(a.x + b.x, a.y + b.y, a.z + b.z) }

  function Subtract(a: Vec3, b: Vec3): Vec3 { Vec3(a.x - b.x, a.y - b.y, a.z - b.z) }

  /** Componentwise product, which is what `mult` does on two vectors. */
  function MultV(a: Vec3, b: Vec3): Vec3 { Vec3(a.x * b.x, a.y * b.y, a.z * b.z) }

  function Dot(a: Vec3, b: Vec3): real { a.x * b.x + a.y * b.y + a.z * b.z }

  function Cross(a: Vec3, b: Vec3): Vec3
  {
    Vec3(a.y * b.z - a.z * b.y, a.z * b.x - a.x * b.z, a.x * b.y - a.y * b.x)
  }

  /** The cross product is orthogonal to both of its factors. */
  lemma CrossOrthogonal(a: Vec3, b: Vec3)
    ensures Dot(Cross(a, b), a) == 0.0 && Dot(Cross(a, b), b) == 0.0
  {
    var r := Cross(a, b);
    assert Dot(r, a) == a.y * b.z * a.x - a.z * b.y * a.x + a.z * b.x * a.y - a.x * b.z * a.y
                        + a.x * b.y * a.z - a.y * b.x * a.z;
  }

  /** Entry (i, j) of a 4x4 matrix. */
  function At(m: Mat4, i: nat, j: nat): real
    requires i < 4 && j < 4
  {
    var r := if i == 0 then m.r0 else if i == 1 then m.r1 else if i == 2 then m.r2 else m.r3;
    if j == 0 then r.x else if j == 1 then r.y else if j == 2 then r.z else r.w
  }

  /** The first `n` terms of entry (i, j) of `mult(a, b)`: the sum over k < n of
      a[i][k] * b[k][j]. */
  function ProductSum(a: Mat4, b: Mat4, i: nat, j: nat, n: nat): real
    requires i < 4 && j < 4 && n <= 4
  {
    if n == 0 then 0.0 else ProductSum(a, b, i, j, n - 1) + At(a, i, n - 1) * At(b, n - 1, j)
  }

  /** Entry (i, j) of `mult(a, b)`. */
  function Entry(a: Mat4, b: Mat4, i: nat, j: nat): real
    requires i < 4 && j < 4
  {
    ProductSum(a, b, i, j, 4)
  }

  /** The matrix product `mult(a, b)`. */
  function Mult(a: Mat4, b: Mat4): Mat4
  {
    Mat4(Vec4(Entry(a, b, 0, 0), Entry(a, b, 0, 1), Entry(a, b, 0, 2), Entry(a, b, 0, 3)),
         Vec4(Entry(a, b, 1, 0), Entry(a, b, 1, 1), Entry(a, b, 1, 2), Entry(a, b, 1, 3)),
         Vec4(Entry(a, b, 2, 0), Entry(a, b, 2, 1), Entry(a, b, 2, 2), Entry(a, b, 2, 3)),
         Vec4(Entry(a, b, 3, 0), Entry(a, b, 3, 1), Entry(a, b, 3, 2), Entry(a, b, 3, 3)))
  }

  /** An entry of a product written out: the four terms of the sum. */
  lemma EntryExpanded(a: Mat4, b: Mat4, i: nat, j: nat)
    requires i < 4 && j < 4
    ensures Entry(a, b, i, j) == At(a, i, 0) * At(b, 0, j) + At(a, i, 1) * At(b, 1, j) +
                                 At(a, i, 2) * At(b, 2, j) + At(a, i, 3) * At(b, 3, j)
  {
    assert ProductSum(a, b, i, j, 1) == At(a, i, 0) * At(b, 0, j);
    assert ProductSum(a, b, i, j, 2) == ProductSum(a, b, i, j, 1) + At(a, i, 1) * At(b, 1, j);
    assert ProductSum(a, b, i, j, 3) == ProductSum(a, b, i, j, 2) + At(a, i, 2) * At(b, 2, j);
  }

  /** `mat4()`. */
  function Identity4(): Mat4
  {
    Mat4(Vec4(1.0, 0.0, 0.0, 0.0), Vec4(0.0, 1.0, 0.0, 0.0), Vec4(0.0, 0.0, 1.0, 0.0), Vec4(0.0, 0.0, 0.0, 1.0))
  }

  /** `mat3()`. */
  function Identity3(): Mat3
  {
    Mat3(Vec3(1.0, 0.0, 0.0), Vec3(0.0, 1.0, 0.0), Vec3(0.0, 0.0, 1.0))
  }

  /** `translate(x, y, z)`. */
  function Translate(x: real, y: real, z: real): Mat4
  {
    Mat4(Vec4(1.0, 0.0, 0.0, x), Vec4(0.0, 1.0, 0.0, y), Vec4(0.0, 0.0, 1.0, z), Vec4(0.0, 0.0, 0.0, 1.0))
  }

  /** `scalem(x, y, z)`. */
  function Scalem(x: real, y: real, z: real): Mat4
  {
    Mat4(Vec4(x, 0.0, 0.0, 0.0), Vec4(0.0, y, 0.0, 0.0), Vec4(0.0, 0.0, z, 0.0), Vec4(0.0, 0.0, 0.0, 1.0))
  }

  function Diagonal(m: Mat4): Vec4 { Vec4(m.r0.x, m.r1.y, m.r2.z, m.r3.w) }

  function TranslationColumn(m: Mat4): Vec3 { Vec3(m.r0.w, m.r1.w, m.r2.w) }

  /** A scale followed by a translation: zero off the diagonal except in the translation column. */
  predicate IsTranslateScale(m: Mat4)
  {
    m.r0.y == 0.0 && m.r0.z == 0.0 &&
    m.r1.x == 0.0 && m.r1.z == 0.0 &&
    m.r2.x == 0.0 && m.r2.y == 0.0 &&
    m.r3 == Vec4(0.0, 0.0, 0.0, 1.0)
  }

  /** The product `translate(t) * scalem(s)` in closed form: the scale factors on the
      diagonal, the translation in the last column. */
  lemma TranslateTimesScale(tx: real, ty: real, tz: real, sx: real, sy: real, sz: real)
    ensures var m := Mult(Translate(tx, ty, tz), Scalem(sx, sy, sz));
            IsTranslateScale(m) && Diagonal(m) == Vec4(sx, sy, sz, 1.0) && TranslationColumn(m) == Vec3(tx, ty, tz)
  {
    forall i: nat, j: nat | i < 4 && j < 4 {
      EntryExpanded(Translate(tx, ty, tz), Scalem(sx, sy, sz), i, j);
    }
  }

  /** Multiplying by the identity on the left changes nothing. */
  lemma IdentityLeft(m: Mat4)
    ensures Mult(Identity4(), m) == m
  {
    forall i: nat, j: nat | i < 4 && j < 4 {
      EntryExpanded(Identity4(), m, i, j);
    }
  }
}
