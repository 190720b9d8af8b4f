/** What the scene takes from its JavaScript host: argument values that the source
    checks by duck typing, the conversion a `Uint8Array` applies to what is stored in
    it, and the library functions whose code is not part of this model (`Math`, the
    MV.js helpers that use trigonometry or normalisation, and `cylinder.js`). */
module Host {
  import opened Mv
  import opened Gl

  /** An element of a `Uint8Array`. */
  newtype byte = x: int | 0 <= x < 256

  /** The value a `Uint8Array` element holds after a non-negative integer `v` is
      stored in it: `v` modulo 2^8. */
  function ToUint8(v: nat): (b: byte)
    ensures b as int == v <==> v < 256
  {
    (v % 256) as byte
  }

  /** `new Uint8Array(s)`, element by element. */
  function ToUint8Array(s: seq<nat>): (r: seq<byte>)
    ensures |r| == |s|
  {
    seq(|s|, k requires 0 <= k < |s| => ToUint8(s[k]))
  }

  /** An argument the source inspects with `Array.isArray` and `length`: either an
      array of numbers or something that is not an array at all. */
  datatype JsArg = JsArray(items: seq<real>) | NotAnArray

  /** `Array.isArray(x) && x.length == 3`. */
  predicate IsTriple(x: JsArg)
  {
    x.JsArray? && |x.items| == 3
  }

  /** The colour check of the cone and the short cube: an array of three numbers,
      each in [0, 1]. */
  predicate ValidColor(color: JsArg)
  {
    IsTriple(color) &&
    color.items[0] >= 0.0 && color.items[1] >= 0.0 && color.items[2] >= 0.0 &&
    color.items[0] <= 1.0 && color.items[1] <= 1.0 && color.items[2] <= 1.0
  }

  /** Library functions whose results the model does not compute. */
  datatype Lib = Lib(
    sin: real -> real,                    // Math.sin
    cos: real -> real,                    // Math.cos
    atan: real -> real,                   // Math.atan
    pi: real,                             // Math.PI
    radians: real -> real,                // MV.js radians (degrees to radians)
    normalize: Vec3 -> Vec3,              // MV.js normalize
    vec3: JsArg -> Vec3,                  // MV.js vec3 applied to anything but a numeric triple
    rotate: (real, Vec3) -> Mat4,         // MV.js rotate(angle, axis)
    rotateY: real -> Mat4,                // MV.js rotateY(angle)
    normalMatrix: Mat4 -> Mat3,           // MV.js normalMatrix(m, true)
    lookAt: (Vec3, Vec3, Vec3) -> Mat4,   // MV.js lookAt(eye, at, up)
    cylinderDraws: (nat, JsArg, real) -> seq<Call>  // draws of a Cylinder(nSectors, color, texFlag)
  )

  /** `vec3(x)`: a numeric triple is copied as it is. */
  function Vec3Of(lib: Lib, x: JsArg): Vec3
  {
    if IsTriple(x) then Vec3(x.items[0], x.items[1], x.items[2]) else lib.vec3(x)
  }
}
