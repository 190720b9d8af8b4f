/** The unit sphere of the merry-go-round's top: two pole fans of `nLong + 2`
    vertices each, then `nLat - 2` latitude bands drawn as triangle strips of
    `2 * (nLong + 1)` vertices. */
module Spheres {
  import opened Mv
  import opened Host
  import opened Gl

  /** Longitude steps of each pole fan. */
  const NLong: nat := 20
  /** Latitude steps from pole to pole. */
  const NLat: nat := 35
  /** The radius. */
  const R: real := 1.0

  /** Vertices of one pole fan: the pole and `nLong + 1` ring vertices. */
  const FanSize: nat := NLong + 2
  /** Vertices of one latitude band: two per longitude step. */
  const StripSize: nat := 2 * (NLong + 1)
  const VertexCount: nat := 2 * FanSize + (NLat - 2) * StripSize

  const Gray := Vec3(0.6, 0.6, 0.6)

  /** What slot `k` of the vertex arrays holds. `Strip(i, j, second)` is vertex
      `j` of band `i`, on its upper (first) or lower (second) latitude line. */
  datatype Slot = TopPole | TopRing(i: nat) | BottomPole | BottomRing(i: nat) | Strip(band: nat, j: nat, second: bool)

  function SlotOf(k: nat): Slot
    requires k < VertexCount
  {
    if k == 0 then TopPole
    else if k < FanSize then TopRing(k - 1)
    else if k == FanSize then BottomPole
    else if k < 2 * FanSize then BottomRing(k - FanSize - 1)
    else
      var m := k - 2 * FanSize;
      Strip(m / StripSize, (m % StripSize) / 2, m % 2 == 1)
  }

  /** The angle of longitude step `j`: `j * (2 * PI / nLong)`. */
  function Theta(lib: Lib, j: nat): real { (j as real) * (2.0 * lib.pi / (NLong as real)) }

  /** The latitude of both ring loops, `PI / nLat`. */
  function CapPhi(lib: Lib): real { lib.pi / (NLat as real) }

  /** The latitudes of the upper and lower line of band `i`. */
  function BandPhi1(lib: Lib, i: nat): real { ((i + 1) as real) * (lib.pi / (NLat as real)) }
  function BandPhi2(lib: Lib, i: nat): real { BandPhi1(lib, i) + lib.pi / (NLat as real) }

  /** A point at longitude `theta` on the circle of radius `rSin` at height `y`. */
  function OnCircle(lib: Lib, rSin: real, y: real, theta: real): Vec3
  {
    Vec3(rSin * lib.cos(theta), y, rSin * lib.sin(theta))
  }

  function PointAt(lib: Lib, k: nat): Vec3
    requires k < VertexCount
  {
    match SlotOf(k)
    case TopPole => Vec3(0.0, R, 0.0)
    case TopRing(i) => OnCircle(lib, R * lib.sin(CapPhi(lib)), R * lib.cos(CapPhi(lib)), Theta(lib, i))
    case BottomPole => Vec3(0.0, -R, 0.0)
    case BottomRing(i) => OnCircle(lib, R * lib.sin(CapPhi(lib)), -(R * lib.cos(CapPhi(lib))), Theta(lib, i))
    case Strip(i, j, second) =>
      var phi := if second then BandPhi2(lib, i) else BandPhi1(lib, i);
      OnCircle(lib, R * lib.sin(phi), -(R * lib.cos(phi)), Theta(lib, j))
  }

  function TexCoordAt(k: nat): Vec2
    requires k < VertexCount
  {
    match SlotOf(k)
    case TopPole => Vec2(1.0, 1.0)
    case TopRing(i) => Vec2(0.0 / (NLong as real), (i as real) / (NLat as real))
    case BottomPole => Vec2(0.0, 0.0)
    case BottomRing(i) => Vec2(0.0 / (NLong as real), (i as real) / (NLat as real))
    case Strip(i, j, _) => Vec2((j as real) / (NLong as real), (i as real) / (NLat as real))
  }

  /** The first `m` slots of every attribute array are as specified: the normal is the
      normalised position (the centre is the origin), the colour is grey and the
      texture selector is 1 (the checkered texture). */
  ghost predicate Filled(lib: Lib, points: seq<Vec3>, normals: seq<Vec3>, colors: seq<Vec3>, texCoords: seq<Vec2>,
                         texindex: seq<real>, m: nat)
    requires m <= VertexCount
  {
    |points| == |normals| == |colors| == |texCoords| == |texindex| == m &&
    forall k :: 0 <= k < m ==>
      points[k] == PointAt(lib, k) && normals[k] == lib.normalize(points[k]) &&
      colors[k] == Gray && texCoords[k] == TexCoordAt(k) && texindex[k] == 1.0
  }

  /** Pushing the specified vertex of slot `m` keeps the arrays filled. */
  lemma Push(lib: Lib, points: seq<Vec3>, normals: seq<Vec3>, colors: seq<Vec3>, texCoords: seq<Vec2>,
             texindex: seq<real>, m: nat, p: Vec3, t: Vec2)
    requires m < VertexCount && Filled(lib, points, normals, colors, texCoords, texindex, m)
    requires p == PointAt(lib, m) && t == TexCoordAt(m)
    ensures Filled(lib, points + [p], normals + [lib.normalize(p)], colors + [Gray], texCoords + [t],
                   texindex + [1.0], m + 1)
  {
  }

  /** Slot `1 + i` is top-ring vertex `i` and slot `FanSize + 1 + i` bottom-ring
      vertex `i`. */
  lemma RingSlots(i: nat)
    requires i < NLong + 1
    ensures 1 + i < VertexCount && SlotOf(1 + i) == TopRing(i)
    ensures FanSize + 1 + i < VertexCount && SlotOf(FanSize + 1 + i) == BottomRing(i)
  {
  }

  /** Slot `2 * fanSize + i * stripSize + 2j` holds vertex `j` of band `i` on its upper
      line, and the next slot the same vertex on its lower line. */
  lemma StripSlot(i: nat, j: nat, second: bool, k: nat)
    requires i < NLat - 2 && j <= NLong
    requires k == 2 * FanSize + i * StripSize + 2 * j + (if second then 1 else 0)
    ensures k < VertexCount && SlotOf(k) == Strip(i, j, second)
  {
    var within := 2 * j + (if second then 1 else 0);
    var m := i * 42 + within;
    assert StripSize == 42 && 0 <= within < 42;
    assert m / 42 == i && m % 42 == within;
  }

  /** Pushing both vertices of step `j` of band `i` keeps the arrays filled. */
  lemma PushBandStep(lib: Lib, points: seq<Vec3>, normals: seq<Vec3>, colors: seq<Vec3>, texCoords: seq<Vec2>,
                     texindex: seq<real>, i: nat, j: nat, p1: Vec3, p2: Vec3, t: Vec2)
    requires i < NLat - 2 && j <= NLong
    requires Filled(lib, points, normals, colors, texCoords, texindex, 2 * FanSize + i * StripSize + 2 * j)
    requires p1 == OnCircle(lib, R * lib.sin(BandPhi1(lib, i)), -(R * lib.cos(BandPhi1(lib, i))), Theta(lib, j))
    requires p2 == OnCircle(lib, R * lib.sin(BandPhi2(lib, i)), -(R * lib.cos(BandPhi2(lib, i))), Theta(lib, j))
    requires t == Vec2((j as real) / (NLong as real), (i as real) / (NLat as real))
    ensures Filled(lib, points + [p1, p2], normals + [lib.normalize(p1), lib.normalize(p2)], colors + [Gray, Gray],
                   texCoords + [t, t], texindex + [1.0, 1.0], 2 * FanSize + i * StripSize + 2 * j + 2)
  {
    var m := 2 * FanSize + i * StripSize + 2 * j;
    StripSlot(i, j, false, m);
    StripSlot(i, j, true, m + 1);
    Push(lib, points, normals, colors, texCoords, texindex, m, p1, t);
    Push(lib, points + [p1], normals + [lib.normalize(p1)], colors + [Gray], texCoords + [t], texindex + [1.0], m + 1, p2, t);
    assert points + [p1] + [p2] == points + [p1, p2];
    assert normals + [lib.normalize(p1)] + [lib.normalize(p2)] == normals + [lib.normalize(p1), lib.normalize(p2)];
    assert colors + [Gray] + [Gray] == colors + [Gray, Gray];
    assert texCoords + [t] + [t] == texCoords + [t, t];
    assert texindex + [1.0] + [1.0] == texindex + [1.0, 1.0];
  }

  /** The pole and the top ring loop. */
  method TopCap(lib: Lib, color: Vec3)
    returns (points: seq<Vec3>, normals: seq<Vec3>, colors: seq<Vec3>, texCoords: seq<Vec2>, texindex: seq<real>)
    requires color == Gray
    ensures Filled(lib, points, normals, colors, texCoords, texindex, FanSize)
  {
    points, normals, colors, texCoords, texindex := [], [], [], [], [];
    Push(lib, points, normals, colors, texCoords, texindex, 0, Vec3(0.0, R, 0.0), Vec2(1.0, 1.0));
    points := points + [Vec3(0.0, R, 0.0)];
    colors := colors + [color];
    texCoords := texCoords + [Vec2(1.0, 1.0)];
    texindex := texindex + [1.0];
    normals := normals + [lib.normalize(Vec3(0.0, R, 0.0))];

    var phi := lib.pi / (NLat as real);
    var rSinPhi := R * lib.sin(phi);
    var rCosPhi := R * lib.cos(phi);
    var dTheta := 2.0 * lib.pi / (NLong as real);

    var i := 0;
    while i < NLong + 1
      invariant 0 <= i <= NLong + 1
      invariant Filled(lib, points, normals, colors, texCoords, texindex, 1 + i)
    {
      var theta := (i as real) * dTheta;
      var p := Vec3(rSinPhi * lib.cos(theta), rCosPhi, rSinPhi * lib.sin(theta));
      RingSlots(i);
      assert theta == Theta(lib, i);
      Push(lib, points, normals, colors, texCoords, texindex, 1 + i, p, Vec2(0.0 / (NLong as real), (i as real) / (NLat as real)));
      points := points + [p];
      normals := normals + [lib.normalize(Vec3(rSinPhi * lib.cos(theta), rCosPhi, rSinPhi * lib.sin(theta)))];
      colors := colors + [color];
      texCoords := texCoords + [Vec2(0.0 / (NLong as real), (i as real) / (NLat as real))];
      texindex := texindex + [1.0];
      i := i + 1;
    }
  }

  /** The other pole and the bottom ring loop, appended to the top fan. */
  method BottomCap(lib: Lib, color: Vec3, points0: seq<Vec3>, normals0: seq<Vec3>, colors0: seq<Vec3>,
                   texCoords0: seq<Vec2>, texindex0: seq<real>)
    returns (points: seq<Vec3>, normals: seq<Vec3>, colors: seq<Vec3>, texCoords: seq<Vec2>, texindex: seq<real>)
    requires color == Gray
    requires Filled(lib, points0, normals0, colors0, texCoords0, texindex0, FanSize)
    ensures Filled(lib, points, normals, colors, texCoords, texindex, 2 * FanSize)
  {
    points, normals, colors, texCoords, texindex := points0, normals0, colors0, texCoords0, texindex0;
    Push(lib, points, normals, colors, texCoords, texindex, FanSize, Vec3(0.0, -R, 0.0), Vec2(0.0, 0.0));
    points := points + [Vec3(0.0, -R, 0.0)];
    normals := normals + [lib.normalize(Vec3(0.0, -R, 0.0))];
    colors := colors + [color];
    texCoords := texCoords + [Vec2(0.0, 0.0)];
    texindex := texindex + [1.0];

    var phi := lib.pi / (NLat as real);
    var rSinPhi := R * lib.sin(phi);
    var rCosPhi := R * lib.cos(phi);
    var dTheta := 2.0 * lib.pi / (NLong as real);

    var i := 0;
    while i < NLong + 1
      invariant 0 <= i <= NLong + 1
      invariant Filled(lib, points, normals, colors, texCoords, texindex, FanSize + 1 + i)
    {
      var theta := (i as real) * dTheta;
      var p := Vec3(rSinPhi * lib.cos(theta), -rCosPhi, rSinPhi * lib.sin(theta));
      RingSlots(i);
      assert theta == Theta(lib, i);
      Push(lib, points, normals, colors, texCoords, texindex, FanSize + 1 + i, p,
           Vec2(0.0 / (NLong as real), (i as real) / (NLat as real)));
      points := points + [p];
      normals := normals + [lib.normalize(Vec3(rSinPhi * lib.cos(theta), -rCosPhi, rSinPhi * lib.sin(theta)))];
      colors := colors + [color];
      texCoords := texCoords + [Vec2(0.0 / (NLong as real), (i as real) / (NLat as real))];
      texindex := texindex + [1.0];
      i := i + 1;
    }
  }

  /** One pass of the inner band loop: vertex `j` of band `i` on both latitude lines. */
  method BandVertex(lib: Lib, color: Vec3, i: nat, j: nat, points0: seq<Vec3>, normals0: seq<Vec3>, colors0: seq<Vec3>,
                    texCoords0: seq<Vec2>, texindex0: seq<real>)
    returns (points: seq<Vec3>, normals: seq<Vec3>, colors: seq<Vec3>, texCoords: seq<Vec2>, texindex: seq<real>)
    requires color == Gray && i < NLat - 2 && j <= NLong
    requires Filled(lib, points0, normals0, colors0, texCoords0, texindex0, 2 * FanSize + i * StripSize + 2 * j)
    ensures Filled(lib, points, normals, colors, texCoords, texindex, 2 * FanSize + i * StripSize + 2 * j + 2)
  {
    var dPhi := lib.pi / (NLat as real);
    var dTheta := 2.0 * lib.pi / (NLong as real);
    var phi1 := ((i + 1) as real) * dPhi;
    var phi2 := phi1 + dPhi;
    var rSinPhi1, rCosPhi1 := R * lib.sin(phi1), R * lib.cos(phi1);
    var rSinPhi2, rCosPhi2 := R * lib.sin(phi2), R * lib.cos(phi2);
    var theta := (j as real) * dTheta;
    assert phi1 == BandPhi1(lib, i) && phi2 == BandPhi2(lib, i) && theta == Theta(lib, j);
    var t := Vec2((j as real) / (NLong as real), (i as real) / (NLat as real));
    var p1 := Vec3(rSinPhi1 * lib.cos(theta), -rCosPhi1, rSinPhi1 * lib.sin(theta));
    var p2 := Vec3(rSinPhi2 * lib.cos(theta), -rCosPhi2, rSinPhi2 * lib.sin(theta));
    PushBandStep(lib, points0, normals0, colors0, texCoords0, texindex0, i, j, p1, p2, t);

    points := points0 + [p1, p2];
    normals := normals0 + [lib.normalize(Vec3(rSinPhi1 * lib.cos(theta), -rCosPhi1, rSinPhi1 * lib.sin(theta))),
                           lib.normalize(Vec3(rSinPhi2 * lib.cos(theta), -rCosPhi2, rSinPhi2 * lib.sin(theta)))];
    colors := colors0 + [color, color];
    texCoords := texCoords0 + [t, t];
    texindex := texindex0 + [1.0, 1.0];
  }

  /** The nested band loops, appended to both fans. */
  method Bands(lib: Lib, color: Vec3, points0: seq<Vec3>, normals0: seq<Vec3>, colors0: seq<Vec3>,
               texCoords0: seq<Vec2>, texindex0: seq<real>)
    returns (points: seq<Vec3>, normals: seq<Vec3>, colors: seq<Vec3>, texCoords: seq<Vec2>, texindex: seq<real>)
    requires color == Gray
    requires Filled(lib, points0, normals0, colors0, texCoords0, texindex0, 2 * FanSize)
    ensures Filled(lib, points, normals, colors, texCoords, texindex, VertexCount)
  {
    points, normals, colors, texCoords, texindex := points0, normals0, colors0, texCoords0, texindex0;
    var i := 0;
    while i < NLat - 2
      invariant 0 <= i <= NLat - 2
      invariant Filled(lib, points, normals, colors, texCoords, texindex, 2 * FanSize + i * StripSize)
    {
      var j := 0;
      while j < NLong + 1
        invariant 0 <= j <= NLong + 1
        invariant Filled(lib, points, normals, colors, texCoords, texindex, 2 * FanSize + i * StripSize + 2 * j)
      {
        points, normals, colors, texCoords, texindex := BandVertex(lib, color, i, j, points, normals, colors, texCoords, texindex);
        j := j + 1;
      }
      i := i + 1;
    }
  }

  /** The draws of the latitude bands `0..n`, each a strip of `stripSize` vertices. */
  function BandDraws(n: nat): (r: seq<Call>)
    ensures |r| == n
    ensures forall i :: 0 <= i < n ==> r[i] == DrawArrays(TriangleStrip, 2 * FanSize + i * StripSize, StripSize)
  {
    if n == 0 then [] else BandDraws(n - 1) + [DrawArrays(TriangleStrip, 2 * FanSize + (n - 1) * StripSize, StripSize)]
  }

  /** The draws of `render`: the two pole fans, then every band. */
  function DrawSequence(): seq<Call>
  {
    [DrawArrays(TriangleFan, 0, FanSize), DrawArrays(TriangleFan, FanSize, FanSize)] + BandDraws(NLat - 2)
  }

  class Sphere {
    const points: seq<Vec3>
    const colors: seq<Vec3>
    const normals: seq<Vec3>
    const texCoords: seq<Vec2>
    const texindex: seq<real>

    constructor (lib: Lib)
      ensures |points| == |normals| == |colors| == |texCoords| == |texindex| == VertexCount
      ensures forall k :: 0 <= k < VertexCount ==>
                points[k] == PointAt(lib, k) && normals[k] == lib.normalize(points[k]) &&
                colors[k] == Gray && texCoords[k] == TexCoordAt(k) && texindex[k] == 1.0
    {
      var color := Vec3(0.6, 0.6, 0.6);
      var points, normals, colors, texCoords, texindex := TopCap(lib, color);
      points, normals, colors, texCoords, texindex := BottomCap(lib, color, points, normals, colors, texCoords, texindex);
      points, normals, colors, texCoords, texindex := Bands(lib, color, points, normals, colors, texCoords, texindex);
      this.points := points;
      this.colors := colors;
      this.normals := normals;
      this.texCoords := texCoords;
      this.texindex := texindex;
    }

    method Render(gl: Context)
      modifies gl
      ensures gl.trace == old(gl.trace) + DrawSequence()
    {
      gl.DrawArrays(TriangleFan, 0, NLong + 2);
      gl.DrawArrays(TriangleFan, NLong + 2, NLong + 2);
      var i := 0;
      while i < NLat - 2
        invariant 0 <= i <= NLat - 2
        invariant gl.trace == old(gl.trace) + [DrawArrays(TriangleFan, 0, FanSize), DrawArrays(TriangleFan, FanSize, FanSize)] + BandDraws(i)
      {
        var firstIndex := 2 * (NLong + 2) + i * (2 * (NLong + 1));
        gl.DrawArrays(TriangleStrip, firstIndex, 2 * (NLong + 1));
        i := i + 1;
      }
    }
  }

  /** 2 * (20 + 2) + 33 * 2 * (20 + 1) vertices. */
  lemma VertexCountIs1430()
    ensures VertexCount == 1430
  {
  }

  /** The poles sit at slots 0 and `nLong + 2`. */
  lemma Poles(lib: Lib)
    ensures PointAt(lib, 0) == Vec3(0.0, R, 0.0) && PointAt(lib, FanSize) == Vec3(0.0, -R, 0.0)
  {
  }

  /** Bottom-ring vertex `i` mirrors top-ring vertex `i` in the plane y = 0. */
  lemma BottomMirrorsTop(lib: Lib, i: nat)
    requires i <= NLong
    ensures var top, bottom := PointAt(lib, 1 + i), PointAt(lib, FanSize + 1 + i);
            bottom.x == top.x && bottom.z == top.z && bottom.y == -top.y
  {
    RingSlots(i);
  }

  /** Both vertices of a band step carry one texture coordinate `(j / nLong, i / nLat)`,
      with u in [0, 1] and v in [0, 1). */
  lemma BandTexCoords(i: nat, j: nat, k: nat)
    requires i < NLat - 2 && j <= NLong && k == 2 * FanSize + i * StripSize + 2 * j
    ensures k + 1 < VertexCount && TexCoordAt(k) == TexCoordAt(k + 1)
    ensures 0.0 <= TexCoordAt(k).u <= 1.0 && 0.0 <= TexCoordAt(k).v < 1.0
  {
    StripSlot(i, j, false, k);
    StripSlot(i, j, true, k + 1);
  }

  /** The band strips read consecutive ranges from `2 * fanSize` on. */
  lemma {:induction false} BandsTile(n: nat)
    ensures Tiles(BandDraws(n), 2 * FanSize, 2 * FanSize + n * StripSize)
  {
    if n > 0 {
      BandsTile(n - 1);
      var last := DrawArrays(TriangleStrip, 2 * FanSize + (n - 1) * StripSize, StripSize);
      assert Tiles([last][1..], End(last), 2 * FanSize + n * StripSize);
      TilesAppend(BandDraws(n - 1), [last], 2 * FanSize, 2 * FanSize + (n - 1) * StripSize, 2 * FanSize + n * StripSize);
    }
  }

  /** The draw ranges of `render` lie in the vertex array, do not overlap, and
      together read every vertex. */
  lemma DrawsPartitionVertices()
    ensures Tiles(DrawSequence(), 0, VertexCount)
    ensures forall k :: 0 <= k < |DrawSequence()| ==> End(DrawSequence()[k]) <= VertexCount
    ensures forall k, l :: 0 <= k < l < |DrawSequence()| ==> End(DrawSequence()[k]) <= First(DrawSequence()[l])
    ensures forall v: nat :: v < VertexCount ==> Covered(DrawSequence(), v)
  {
    var fans := [DrawArrays(TriangleFan, 0, FanSize), DrawArrays(TriangleFan, FanSize, FanSize)];
    BandsTile(NLat - 2);
    assert Tiles(fans[1..][1..], 2 * FanSize, 2 * FanSize);
    assert Tiles(fans, 0, 2 * FanSize);
    TilesAppend(fans, BandDraws(NLat - 2), 0, 2 * FanSize, VertexCount);
    TilesCover(DrawSequence(), 0, VertexCount);
  }
}
