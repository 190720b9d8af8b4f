/** The horse's body: a unit cube whose top face is lowered from y = 0.5 to
    y = 0.2 so that the head (a cone) sits on it. It is drawn as 12 triangles,
    6 vertices per face. */
module ShortCubes {
  import opened Mv
  import opened Host
  import opened Gl

  /** `cubeVertices`. */
  const CubeVertices: nat := 36

  /** The faces in the order the constructor pushes them. */
  datatype Face = Front | Right | Bottom | Top | Back | Left

  const FaceOrder: seq<Face> := [Front, Right, Bottom, Top, Back, Left]

  /** The outward normal of a face. */
  function FaceNormal(f: Face): Vec3
  {
    match f
    case Front => Vec3(0.0, 0.0, 1.0)
    case Right => Vec3(1.0, 0.0, 0.0)
    case Bottom => Vec3(0.0, -1.0, 0.0)
    case Top => Vec3(0.0, 1.0, 0.0)
    case Back => Vec3(0.0, 0.0, -1.0)
    case Left => Vec3(-1.0, 0.0, 0.0)
  }

  /** The distance of a face's plane from the origin: 0.5, except 0.2 for the
      shortened top. */
  function FaceOffset(f: Face): real
  {
    if f == Top then 0.2 else 0.5
  }

  /** The two triangles of a face, as the constructor lists their corners. */
  function FacePoints(f: Face): (r: seq<Vec3>)
    ensures |r| == 6
  {
    match f
    case Front => [Vec3(-0.5, 0.2, 0.5), Vec3(-0.5, -0.5, 0.5), Vec3(0.5, -0.5, 0.5),
                   Vec3(-0.5, 0.2, 0.5), Vec3(0.5, -0.5, 0.5), Vec3(0.5, 0.2, 0.5)]
    case Right => [Vec3(0.5, 0.2, 0.5), Vec3(0.5, -0.5, 0.5), Vec3(0.5, -0.5, -0.5),
                   Vec3(0.5, 0.2, 0.5), Vec3(0.5, -0.5, -0.5), Vec3(0.5, 0.2, -0.5)]
    case Bottom => [Vec3(0.5, -0.5, 0.5), Vec3(-0.5, -0.5, 0.5), Vec3(-0.5, -0.5, -0.5),
                    Vec3(0.5, -0.5, 0.5), Vec3(-0.5, -0.5, -0.5), Vec3(0.5, -0.5, -0.5)]
    case Top => [Vec3(0.5, 0.2, -0.5), Vec3(-0.5, 0.2, -0.5), Vec3(-0.5, 0.2, 0.5),
                 Vec3(0.5, 0.2, -0.5), Vec3(-0.5, 0.2, 0.5), Vec3(0.5, 0.2, 0.5)]
    case Back => [Vec3(-0.5, -0.5, -0.5), Vec3(-0.5, 0.2, -0.5), Vec3(0.5, 0.2, -0.5),
                  Vec3(-0.5, -0.5, -0.5), Vec3(0.5, 0.2, -0.5), Vec3(0.5, -0.5, -0.5)]
    case Left => [Vec3(-0.5, 0.2, -0.5), Vec3(-0.5, -0.5, -0.5), Vec3(-0.5, -0.5, 0.5),
                  Vec3(-0.5, 0.2, -0.5), Vec3(-0.5, -0.5, 0.5), Vec3(-0.5, 0.2, 0.5)]
  }

  /** The texture coordinates the constructor pushes, six per loop pass: the corners
      of the unit square in the order of a face's two triangles. */
  const TexPattern: seq<Vec2> := [Vec2(1.0, 1.0), Vec2(0.0, 1.0), Vec2(0.0, 0.0),
                                  Vec2(1.0, 1.0), Vec2(0.0, 0.0), Vec2(1.0, 0.0)]

  /** Block `f` (six vertices from `6 * f` on) of `points` and `normals` is the
      `f`-th face: its two triangles, each vertex with the face's normal. */
  ghost predicate FaceBlock(points: seq<Vec3>, normals: seq<Vec3>, f: nat)
    requires f < 6 && 6 * f + 6 <= |points| && 6 * f + 6 <= |normals|
  {
    var n := FaceNormal(FaceOrder[f]);
    points[6 * f..6 * f + 6] == FacePoints(FaceOrder[f]) && normals[6 * f..6 * f + 6] == [n, n, n, n, n, n]
  }

  /** The cube's faces as the constructor pushes them, one six-vertex block per face. */
  method FaceVertices() returns (points: seq<Vec3>, normals: seq<Vec3>)
    ensures |points| == |normals| == CubeVertices
    ensures forall f :: 0 <= f < 6 ==> FaceBlock(points, normals, f)
  {
    points, normals := [], [];
    // Front face
    points := points + [Vec3(-0.5, 0.2, 0.5), Vec3(-0.5, -0.5, 0.5), Vec3(0.5, -0.5, 0.5),
                        Vec3(-0.5, 0.2, 0.5), Vec3(0.5, -0.5, 0.5), Vec3(0.5, 0.2, 0.5)];
    normals := normals + [Vec3(0.0, 0.0, 1.0), Vec3(0.0, 0.0, 1.0), Vec3(0.0, 0.0, 1.0),
                          Vec3(0.0, 0.0, 1.0), Vec3(0.0, 0.0, 1.0), Vec3(0.0, 0.0, 1.0)];
    // Right face
    points := points + [Vec3(0.5, 0.2, 0.5), Vec3(0.5, -0.5, 0.5), Vec3(0.5, -0.5, -0.5),
                        Vec3(0.5, 0.2, 0.5), Vec3(0.5, -0.5, -0.5), Vec3(0.5, 0.2, -0.5)];
    normals := normals + [Vec3(1.0, 0.0, 0.0), Vec3(1.0, 0.0, 0.0), Vec3(1.0, 0.0, 0.0),
                          Vec3(1.0, 0.0, 0.0), Vec3(1.0, 0.0, 0.0), Vec3(1.0, 0.0, 0.0)];
    // Bottom face
    points := points + [Vec3(0.5, -0.5, 0.5), Vec3(-0.5, -0.5, 0.5), Vec3(-0.5, -0.5, -0.5),
                        Vec3(0.5, -0.5, 0.5), Vec3(-0.5, -0.5, -0.5), Vec3(0.5, -0.5, -0.5)];
    normals := normals + [Vec3(0.0, -1.0, 0.0), Vec3(0.0, -1.0, 0.0), Vec3(0.0, -1.0, 0.0),
                          Vec3(0.0, -1.0, 0.0), Vec3(0.0, -1.0, 0.0), Vec3(0.0, -1.0, 0.0)];
    // Top face
    points := points + [Vec3(0.5, 0.2, -0.5), Vec3(-0.5, 0.2, -0.5), Vec3(-0.5, 0.2, 0.5),
                        Vec3(0.5, 0.2, -0.5), Vec3(-0.5, 0.2, 0.5), Vec3(0.5, 0.2, 0.5)];
    normals := normals + [Vec3(0.0, 1.0, 0.0), Vec3(0.0, 1.0, 0.0), Vec3(0.0, 1.0, 0.0),
                          Vec3(0.0, 1.0, 0.0), Vec3(0.0, 1.0, 0.0), Vec3(0.0, 1.0, 0.0)];
    // Back face
    points := points + [Vec3(-0.5, -0.5, -0.5), Vec3(-0.5, 0.2, -0.5), Vec3(0.5, 0.2, -0.5),
                        Vec3(-0.5, -0.5, -0.5), Vec3(0.5, 0.2, -0.5), Vec3(0.5, -0.5, -0.5)];
    normals := normals + [Vec3(0.0, 0.0, -1.0), Vec3(0.0, 0.0, -1.0), Vec3(0.0, 0.0, -1.0),
                          Vec3(0.0, 0.0, -1.0), Vec3(0.0, 0.0, -1.0), Vec3(0.0, 0.0, -1.0)];
    // Left face
    points := points + [Vec3(-0.5, 0.2, -0.5), Vec3(-0.5, -0.5, -0.5), Vec3(-0.5, -0.5, 0.5),
                        Vec3(-0.5, 0.2, -0.5), Vec3(-0.5, -0.5, 0.5), Vec3(-0.5, 0.2, 0.5)];
    normals := normals + [Vec3(-1.0, 0.0, 0.0), Vec3(-1.0, 0.0, 0.0), Vec3(-1.0, 0.0, 0.0),
                          Vec3(-1.0, 0.0, 0.0), Vec3(-1.0, 0.0, 0.0), Vec3(-1.0, 0.0, 0.0)];
    assert FaceBlock(points, normals, 0) && FaceBlock(points, normals, 1) && FaceBlock(points, normals, 2);
    assert FaceBlock(points, normals, 3) && FaceBlock(points, normals, 4) && FaceBlock(points, normals, 5);
  }

  /** Vertex `k` of the block layout is corner `k % 6` of face `k / 6`, with that
      face's normal. */
  lemma VertexOfBlock(points: seq<Vec3>, normals: seq<Vec3>, k: nat)
    requires |points| == |normals| == CubeVertices && k < CubeVertices
    requires forall f :: 0 <= f < 6 ==> FaceBlock(points, normals, f)
    ensures points[k] == FacePoints(FaceOrder[k / 6])[k % 6] && normals[k] == FaceNormal(FaceOrder[k / 6])
  {
    var f := k / 6;
    assert FaceBlock(points, normals, f);
    assert points[k] == points[6 * f..6 * f + 6][k % 6];
    assert normals[k] == normals[6 * f..6 * f + 6][k % 6];
  }

  /** The colour loop: `cubeVertices + 1` copies of `vec3(color)`. The result of the
      colour check is never used, so there is no random fallback. */
  method CubeColors(lib: Lib, color: JsArg) returns (colors: seq<Vec3>)
    ensures |colors| == CubeVertices + 1
    ensures forall k :: 0 <= k < |colors| ==> colors[k] == Vec3Of(lib, color)
  {
    colors := [];
    var i := 0;
    while i < CubeVertices + 1
      invariant 0 <= i <= CubeVertices + 1
      invariant |colors| == i
      invariant forall k :: 0 <= k < i ==> colors[k] == Vec3Of(lib, color)
    {
      colors := colors + [Vec3Of(lib, color)];
      i := i + 1;
    }
  }

  /** `n` copies of the texture pattern, one after the other. */
  function TexRepeat(n: nat): (r: seq<Vec2>)
    ensures |r| == 6 * n
  {
    if n == 0 then [] else TexRepeat(n - 1) + TexPattern
  }

  /** Entry `k` of the repetition is entry `k mod 6` of the pattern. */
  lemma {:induction false} TexRepeatIndex(n: nat, k: nat)
    requires k < 6 * n
    ensures TexRepeat(n)[k] == TexPattern[k % 6]
  {
    if k < 6 * (n - 1) {
      TexRepeatIndex(n - 1, k);
    }
  }

  /** The texture loop: 36 passes, each pushing the six-entry pattern and one
      texture selector 1.0 (the checkered texture). */
  method CubeTexCoords() returns (texCoords: seq<Vec2>, texindex: seq<real>)
    ensures texCoords == TexRepeat(36) && |texindex| == 36
    ensures forall k :: 0 <= k < |texindex| ==> texindex[k] == 1.0
  {
    texCoords, texindex := [], [];
    var i := 0;
    while i < 36
      invariant 0 <= i <= 36
      invariant texCoords == TexRepeat(i) && |texindex| == i
      invariant forall k :: 0 <= k < i ==> texindex[k] == 1.0
    {
      texCoords := texCoords + [Vec2(1.0, 1.0), Vec2(0.0, 1.0), Vec2(0.0, 0.0)];
      texCoords := texCoords + [Vec2(1.0, 1.0), Vec2(0.0, 0.0), Vec2(1.0, 0.0)];
      assert texCoords == TexRepeat(i) + TexPattern;
      texindex := texindex + [1.0];
      i := i + 1;
    }
  }

  class ShortCube {
    const color: JsArg
    const cubeVertices: nat := 36
    const points: seq<Vec3>
    const colors: seq<Vec3>
    const normals: seq<Vec3>
    const texCoords: seq<Vec2>
    const texindex: seq<real>

    constructor (lib: Lib, color: JsArg)
      ensures this.color == color
      ensures |points| == |normals| == |texindex| == CubeVertices
      ensures |colors| == CubeVertices + 1 && |texCoords| == 6 * CubeVertices
      ensures forall f :: 0 <= f < 6 ==> FaceBlock(points, normals, f)
      ensures forall k :: 0 <= k < CubeVertices ==> texindex[k] == 1.0
      ensures forall k :: 0 <= k < |colors| ==> colors[k] == Vec3Of(lib, color)
      ensures texCoords == TexRepeat(CubeVertices)
    {
      this.color := color;
      var validColor := ValidColor(color);
      var points, normals := FaceVertices();
      var colors := CubeColors(lib, color);
      var texCoords, texindex := CubeTexCoords();
      this.points := points;
      this.colors := colors;
      this.normals := normals;
      this.texCoords := texCoords;
      this.texindex := texindex;
    }

    method Render(gl: Context)
      modifies gl
      ensures gl.trace == old(gl.trace) + DrawSequence()
    {
      gl.DrawArrays(Triangles, 0, cubeVertices);
    }
  }

  /** The one draw of `render`: all 36 vertices as separate triangles. */
  function DrawSequence(): (r: seq<Call>)
    ensures Tiles(r, 0, CubeVertices)
  {
    [DrawArrays(Triangles, 0, CubeVertices)]
  }

  /** Every corner of face `f` lies in the face's plane, at distance 0.5 (0.2 for the
      top) along the face's normal. */
  lemma FaceOnPlane(f: Face)
    ensures forall p :: p in FacePoints(f) ==> Dot(p, FaceNormal(f)) == FaceOffset(f)
  {
    match f
    case Front =>
    case Right =>
    case Bottom =>
    case Top =>
    case Back =>
    case Left =>
  }

  /** Each face normal is a unit vector along one axis. */
  lemma NormalIsUnitAxis(f: Face)
    ensures FaceNormal(f) in {Vec3(1.0, 0.0, 0.0), Vec3(-1.0, 0.0, 0.0), Vec3(0.0, 1.0, 0.0),
                              Vec3(0.0, -1.0, 0.0), Vec3(0.0, 0.0, 1.0), Vec3(0.0, 0.0, -1.0)}
    ensures Dot(FaceNormal(f), FaceNormal(f)) == 1.0
  {
  }

  /** Every x and z coordinate is -0.5 or 0.5 and every y is -0.5 or 0.2. */
  lemma CornerCoordinates(f: Face)
    ensures forall p :: p in FacePoints(f) ==>
              (p.x == -0.5 || p.x == 0.5) && (p.y == -0.5 || p.y == 0.2) && (p.z == -0.5 || p.z == 0.5)
  {
  }

  /** The corners the two triangles of a face share (the first and fourth, and the
      third and fifth) are pushed twice with equal positions, and the texture
      pattern gives both copies the same coordinate, each in {0, 1}^2. */
  lemma SharedCorners(f: Face)
    ensures FacePoints(f)[0] == FacePoints(f)[3] && FacePoints(f)[2] == FacePoints(f)[4]
    ensures TexPattern[0] == TexPattern[3] && TexPattern[2] == TexPattern[4]
    ensures forall v :: 0 <= v < 6 ==> TexPattern[v].u in {0.0, 1.0} && TexPattern[v].v in {0.0, 1.0}
  {
  }
}
