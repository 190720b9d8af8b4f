/** The billboard advertising the merry-go-round: one quad of two triangles,
    listed as six vertices, textured with the painted sign image. */
module Signs {
  import opened Mv
  import opened Gl

  /** The corners in the order the constructor pushes them. The two triangles share
      the corners (0, 10, 23) and (10, 0, 13), which are therefore pushed twice. */
  const SignPoints: seq<Vec3> := [Vec3(0.0, 0.0, 18.0), Vec3(0.0, 10.0, 23.0), Vec3(10.0, 0.0, 13.0),
                                  Vec3(10.0, 0.0, 13.0), Vec3(0.0, 10.0, 23.0), Vec3(10.0, 10.0, 18.0)]

  const SignColor := Vec3(0.8, 0.8, 0.8)

  const SignTexCoords: seq<Vec2> := [Vec2(1.0, 0.0), Vec2(1.0, 1.0), Vec2(0.0, 0.0),
                                     Vec2(0.0, 0.0), Vec2(1.0, 1.0), Vec2(0.0, 1.0)]

  /** The sign's normal, `cross(p1 - p0, p2 - p0)` of the first triangle, left
      unnormalised: (-50, 50, -100). */
  function SignNormal(): (n: Vec3)
    ensures n == Vec3(-50.0, 50.0, -100.0)
  {
    Cross(Subtract(Vec3(0.0, 10.0, 23.0), Vec3(0.0, 0.0, 18.0)), Subtract(Vec3(10.0, 0.0, 13.0), Vec3(0.0, 0.0, 18.0)))
  }

  /** The normal and colour loop: six passes. */
  method NormalsAndColors(normal: Vec3) returns (normals: seq<Vec3>, colors: seq<Vec3>)
    ensures |normals| == |colors| == 6
    ensures forall k :: 0 <= k < 6 ==> normals[k] == normal && colors[k] == SignColor
  {
    normals, colors := [], [];
    var i := 0;
    while i < 6
      invariant 0 <= i <= 6
      invariant |normals| == |colors| == i
      invariant forall k :: 0 <= k < i ==> normals[k] == normal && colors[k] == SignColor
    {
      normals := normals + [normal];
      colors := colors + [Vec3(0.8, 0.8, 0.8)];
      i := i + 1;
    }
  }

  /** The texture selector loop: twelve entries of 2.0 (the sign's own texture). */
  method TexIndices() returns (texindex: seq<real>)
    ensures |texindex| == 12
    ensures forall k :: 0 <= k < 12 ==> texindex[k] == 2.0
  {
    texindex := [];
    var i := 0;
    while i < 12
      invariant 0 <= i <= 12
      invariant |texindex| == i
      invariant forall k :: 0 <= k < i ==> texindex[k] == 2.0
    {
      texindex := texindex + [2.0];
      i := i + 1;
    }
  }

  class Sign {
    const points: seq<Vec3>
    const colors: seq<Vec3>
    const normals: seq<Vec3>
    const texCoords: seq<Vec2>
    const texindex: seq<real>

    constructor ()
      ensures points == SignPoints && texCoords == SignTexCoords
      ensures |normals| == |colors| == 6
      ensures forall k :: 0 <= k < 6 ==> normals[k] == SignNormal() && colors[k] == SignColor
      ensures |texindex| == 12 && forall k :: 0 <= k < 12 ==> texindex[k] == 2.0
    {
      var points := [];
      points := points + [Vec3(0.0, 0.0, 18.0)];
      points := points + [Vec3(0.0, 10.0, 23.0)];
      points := points + [Vec3(10.0, 0.0, 13.0)];
      points := points + [Vec3(10.0, 0.0, 13.0)];
      points := points + [Vec3(0.0, 10.0, 23.0)];
      points := points + [Vec3(10.0, 10.0, 18.0)];

      var normal := Cross(Subtract(Vec3(0.0, 10.0, 23.0), Vec3(0.0, 0.0, 18.0)),
                          Subtract(Vec3(10.0, 0.0, 13.0), Vec3(0.0, 0.0, 18.0)));
      var normals, colors := NormalsAndColors(normal);

      var texCoords := [];
      texCoords := texCoords + [Vec2(1.0, 0.0)];
      texCoords := texCoords + [Vec2(1.0, 1.0)];
      texCoords := texCoords + [Vec2(0.0, 0.0)];
      texCoords := texCoords + [Vec2(0.0, 0.0)];
      texCoords := texCoords + [Vec2(1.0, 1.0)];
      texCoords := texCoords + [Vec2(0.0, 1.0)];

      var texindex := TexIndices();

      this.points := points;
      this.colors := colors;
      this.normals := normals;
      this.texCoords := texCoords;
      this.texindex := texindex;
    }

    method Render(gl: Context)
      modifies gl
      ensures gl.trace == old(gl.trace) + DrawSequence()
    {
      gl.DrawArrays(Triangles, 0, 6);
    }
  }

  /** The one draw of `render`: the six vertices as two triangles. */
  function DrawSequence(): (r: seq<Call>)
    ensures Tiles(r, 0, |SignPoints|)
  {
    [DrawArrays(Triangles, 0, 6)]
  }

  /** The shared corners are duplicated: vertices 1 and 4 are both (0, 10, 23) and
      vertices 2 and 3 both (10, 0, 13), and each pair carries one texture
      coordinate; all texture coordinates are corners of the unit square. */
  lemma SharedCorners()
    ensures SignPoints[1] == SignPoints[4] == Vec3(0.0, 10.0, 23.0)
    ensures SignPoints[2] == SignPoints[3] == Vec3(10.0, 0.0, 13.0)
    ensures SignTexCoords[1] == SignTexCoords[4] && SignTexCoords[2] == SignTexCoords[3]
    ensures forall t :: t in SignTexCoords ==> t.u in {0.0, 1.0} && t.v in {0.0, 1.0}
  {
  }

  /** Every corner of both triangles lies in the plane through the first corner
      perpendicular to the normal: the quad is flat. */
  lemma SignIsFlat()
    ensures forall p :: p in SignPoints ==> Dot(SignNormal(), p) == Dot(SignNormal(), SignPoints[0])
  {
  }

  /** The normal is orthogonal to the segment between any two corners, so to each
      edge of both triangles. */
  lemma NormalOrthogonalToEdges()
    ensures forall p, q :: p in SignPoints && q in SignPoints ==> Dot(SignNormal(), Subtract(q, p)) == 0.0
  {
    SignIsFlat();
    forall p, q | p in SignPoints && q in SignPoints
      ensures Dot(SignNormal(), Subtract(q, p)) == 0.0
    {
      DotSubtract(SignNormal(), q, p);
    }
  }

  /** The dot product distributes over a difference. */
  lemma DotSubtract(n: Vec3, a: Vec3, b: Vec3)
    ensures Dot(n, Subtract(a, b)) == Dot(n, a) - Dot(n, b)
  {
  }
}
