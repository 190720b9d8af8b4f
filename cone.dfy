/** A cone of height 1 over the unit circle in the y = 0 plane, apex at (0, 1, 0).
    Its vertex arrays hold two blocks of `2 * nSectors + 2` vertices each: the lateral
    block (drawn as one triangle strip) and a copy of the same positions carrying the
    flat normals of the caps (drawn as two index-buffer fans). */
module Cones {
  import opened Mv
  import opened Host
  import opened Gl

  /** Vertices per block: a ring vertex and an apex vertex for each of the
      `nSectors + 1` steps (the first step is repeated to close the surface). */
  function HalfPts(nSectors: nat): nat { 2 * nSectors + 2 }

  function VertexCount(nSectors: nat): nat { 2 * HalfPts(nSectors) }

  /** What slot `k` of the vertex arrays holds: the block (lateral or cap), the
      angular step `i` and whether it is the ring vertex or the apex vertex. */
  datatype Slot = Slot(cap: bool, step: nat, apex: bool)

  function SlotOf(nSectors: nat, k: nat): Slot
    requires k < VertexCount(nSectors)
  {
    var j := if k < HalfPts(nSectors) then k else k - HalfPts(nSectors);
    Slot(k >= HalfPts(nSectors), j / 2, j % 2 == 1)
  }

  /** Step `i` of each block occupies two consecutive slots, ring vertex first. */
  lemma SlotsOfStep(nSectors: nat, i: nat)
    requires i <= nSectors
    ensures SlotOf(nSectors, 2 * i) == Slot(false, i, false)
    ensures SlotOf(nSectors, 2 * i + 1) == Slot(false, i, true)
    ensures SlotOf(nSectors, HalfPts(nSectors) + 2 * i) == Slot(true, i, false)
    ensures SlotOf(nSectors, HalfPts(nSectors) + 2 * i + 1) == Slot(true, i, true)
  {
  }

  /** The attributes the constructor gives the four slots of step `i`. */
  lemma StepValues(lib: Lib, nSectors: nat, i: nat)
    requires nSectors >= 1 && i <= nSectors
    ensures PointAt(lib, nSectors, 2 * i) == RingPoint(lib, nSectors, i)
    ensures PointAt(lib, nSectors, HalfPts(nSectors) + 2 * i) == RingPoint(lib, nSectors, i)
    ensures PointAt(lib, nSectors, 2 * i + 1) == Apex
    ensures PointAt(lib, nSectors, HalfPts(nSectors) + 2 * i + 1) == Apex
    ensures NormalAt(lib, nSectors, 2 * i) == SideNormal(lib, nSectors, i)
    ensures NormalAt(lib, nSectors, 2 * i + 1) == SideNormal(lib, nSectors, i)
    ensures NormalAt(lib, nSectors, HalfPts(nSectors) + 2 * i) == Down
    ensures NormalAt(lib, nSectors, HalfPts(nSectors) + 2 * i + 1) == Up
    ensures TexCoordAt(nSectors, 2 * i) == Vec2((i as real) / (nSectors as real), 0.0)
    ensures TexCoordAt(nSectors, HalfPts(nSectors) + 2 * i) == Vec2((i as real) / (nSectors as real), 0.0)
    ensures TexCoordAt(nSectors, 2 * i + 1) == Vec2((i as real) / (nSectors as real), 1.0)
    ensures TexCoordAt(nSectors, HalfPts(nSectors) + 2 * i + 1) == Vec2((i as real) / (nSectors as real), 1.0)
  {
    SlotsOfStep(nSectors, i);
  }

  /** `i * radians(360 / nSectors)`. */
  function Theta(lib: Lib, nSectors: nat, i: nat): real
    requires nSectors >= 1
  {
    (i as real) * lib.radians(360.0 / (nSectors as real))
  }

  function RingPoint(lib: Lib, nSectors: nat, i: nat): Vec3
    requires nSectors >= 1
  {
    Vec3(lib.cos(Theta(lib, nSectors, i)), 0.0, lib.sin(Theta(lib, nSectors, i)))
  }

  const Apex := Vec3(0.0, 1.0, 0.0)
  const Up := Vec3(0.0, 1.0, 0.0)
  const Down := Vec3(0.0, -1.0, 0.0)

  /** The lateral normal of step `i`, shared by its ring and apex vertex. */
  function SideNormal(lib: Lib, nSectors: nat, i: nat): Vec3
    requires nSectors >= 1
  {
    var theta := Theta(lib, nSectors, i);
    lib.normalize(Vec3(lib.cos(theta), lib.sin(lib.atan(1.0)), lib.sin(theta)))
  }

  function PointAt(lib: Lib, nSectors: nat, k: nat): Vec3
    requires nSectors >= 1 && k < VertexCount(nSectors)
  {
    var s := SlotOf(nSectors, k);
    if s.apex then Apex else RingPoint(lib, nSectors, s.step)
  }

  function NormalAt(lib: Lib, nSectors: nat, k: nat): Vec3
    requires nSectors >= 1 && k < VertexCount(nSectors)
  {
    var s := SlotOf(nSectors, k);
    if !s.cap then SideNormal(lib, nSectors, s.step) else if s.apex then Up else Down
  }

  function TexCoordAt(nSectors: nat, k: nat): Vec2
    requires nSectors >= 1 && k < VertexCount(nSectors)
  {
    var s := SlotOf(nSectors, k);
    Vec2((s.step as real) / (nSectors as real), if s.apex then 1.0 else 0.0)
  }

  /** The colour of vertex `k`: the given colour when it passes the check, otherwise
      the `k`-th colour drawn from `Math.random`. */
  function ColorAt(lib: Lib, color: JsArg, random: nat -> Vec3, k: nat): Vec3
  {
    if ValidColor(color) then Vec3Of(lib, color) else random(k)
  }

  /** The index buffer: the cap ring vertices `halfPts + 2i`, then the cap apex
      vertices `halfPts + 2i + 1`, for `i` in `0..nSectors`. */
  function Indices(nSectors: nat): (r: seq<nat>)
    ensures |r| == 2 * nSectors + 2
    ensures forall e :: 0 <= e < |r| ==> HalfPts(nSectors) <= r[e] < VertexCount(nSectors)
    ensures forall e :: 0 <= e < |r| ==> (r[e] % 2 == 0 <==> e < nSectors + 1)
  {
    seq(nSectors + 1, i => HalfPts(nSectors) + 2 * i) + seq(nSectors + 1, i => HalfPts(nSectors) + 2 * i + 1)
  }

  /** The draws of `render`: the lateral strip, then two fans of `nSectors + 1`
      elements of the index buffer, at element offsets 0 and `nSectors + 1`. */
  function DrawSequence(nSectors: nat): seq<Call>
  {
    [ DrawArrays(TriangleStrip, 0, 2 * nSectors + 2),
      DrawElements(TriangleFan, nSectors + 1, 0),
      DrawElements(TriangleFan, nSectors + 1, nSectors + 1) ]
  }

  /** The elements of an index buffer that an indexed draw reads. */
  function FanElements<T>(indexBuffer: seq<T>, c: Call): seq<T>
    requires c.DrawElements? && c.offset + c.count <= |indexBuffer|
  {
    indexBuffer[c.offset..c.offset + c.count]
  }

  /** The colour loop of the constructor: one colour per vertex, the given one when
      the check passes, otherwise a fresh random one each time. */
  method VertexColors(lib: Lib, color: JsArg, random: nat -> Vec3, count: nat) returns (colors: seq<Vec3>)
    ensures |colors| == count
    ensures forall k :: 0 <= k < count ==> colors[k] == ColorAt(lib, color, random, k)
  {
    colors := [];
    var validColor := false;
    if color.JsArray? && |color.items| == 3
       && color.items[0] >= 0.0 && color.items[1] >= 0.0 && color.items[2] >= 0.0
       && color.items[0] <= 1.0 && color.items[1] <= 1.0 && color.items[2] <= 1.0 {
      validColor := true;
    }

    var i := 0;
    while i < count
      invariant 0 <= i <= count
      invariant |colors| == i
      invariant forall k :: 0 <= k < i ==> colors[k] == ColorAt(lib, color, random, k)
    {
      if validColor {
        colors := colors + [Vec3Of(lib, color)];
      } else {
        colors := colors + [random(i)];
      }
      i := i + 1;
    }
  }

  /** One step of the lateral loop: the ring position, the shared normal and the
      texture coordinate u of step `i`. */
  method LateralStep(lib: Lib, nSectors: nat, dTheta: real, i: nat) returns (ring: Vec3, normal: Vec3, u: real)
    requires nSectors >= 1 && dTheta == lib.radians(360.0 / (nSectors as real))
    ensures ring == RingPoint(lib, nSectors, i) && ring.y == 0.0
    ensures normal == SideNormal(lib, nSectors, i)
    ensures u == (i as real) / (nSectors as real)
  {
    var theta := (i as real) * dTheta;
    assert theta == Theta(lib, nSectors, i);
    var phi := lib.atan(1.0);
    u := (i as real) / (nSectors as real);
    normal := Vec3(lib.cos(theta), lib.sin(phi), lib.sin(theta));
    normal := lib.normalize(normal);
    ring := Vec3(lib.cos(theta), 0.0, lib.sin(theta));
  }

  /** The first `m` slots of each attribute array hold what the specification
      functions give them. */
  ghost predicate Filled(lib: Lib, nSectors: nat, points: seq<Vec3>, normals: seq<Vec3>, texCoords: seq<Vec2>,
                         texindex: seq<real>, m: nat)
    requires nSectors >= 1 && m <= VertexCount(nSectors)
  {
    |points| == |normals| == |texCoords| == |texindex| == m &&
    (forall k :: 0 <= k < m ==> points[k] == PointAt(lib, nSectors, k)) &&
    (forall k :: 0 <= k < m ==> normals[k] == NormalAt(lib, nSectors, k)) &&
    (forall k :: 0 <= k < m ==> texCoords[k] == TexCoordAt(nSectors, k)) &&
    (forall k :: 0 <= k < m ==> texindex[k] == 1.0)
  }

  /** Appending the two vertices of a slot pair that the specification functions
      describe keeps the arrays filled. */
  lemma FilledAppend(lib: Lib, nSectors: nat, points: seq<Vec3>, normals: seq<Vec3>, texCoords: seq<Vec2>,
                     texindex: seq<real>, m: nat, p: seq<Vec3>, n: seq<Vec3>, t: seq<Vec2>)
    requires nSectors >= 1 && m + 2 <= VertexCount(nSectors)
    requires Filled(lib, nSectors, points, normals, texCoords, texindex, m)
    requires |p| == |n| == |t| == 2
    requires forall j :: 0 <= j < 2 ==> p[j] == PointAt(lib, nSectors, m + j)
    requires forall j :: 0 <= j < 2 ==> n[j] == NormalAt(lib, nSectors, m + j)
    requires forall j :: 0 <= j < 2 ==> t[j] == TexCoordAt(nSectors, m + j)
    ensures Filled(lib, nSectors, points + p, normals + n, texCoords + t, texindex + [1.0, 1.0], m + 2)
  {
    assert forall k :: m <= k < m + 2 ==> (points + p)[k] == p[k - m];
    assert forall k :: m <= k < m + 2 ==> (normals + n)[k] == n[k - m];
    assert forall k :: m <= k < m + 2 ==> (texCoords + t)[k] == t[k - m];
  }

  /** Step `i` of the lateral loop appends the slots `2i` and `2i + 1`. */
  lemma SideStepFilled(lib: Lib, nSectors: nat, points: seq<Vec3>, normals: seq<Vec3>, texCoords: seq<Vec2>,
                       texindex: seq<real>, i: nat, ring: Vec3, normal: Vec3, u: real)
    requires nSectors >= 1 && i <= nSectors
    requires Filled(lib, nSectors, points, normals, texCoords, texindex, 2 * i)
    requires ring == RingPoint(lib, nSectors, i) && normal == SideNormal(lib, nSectors, i)
    requires u == (i as real) / (nSectors as real)
    ensures Filled(lib, nSectors, points + [ring, Apex], normals + [normal, normal],
                   texCoords + [Vec2(u, 0.0), Vec2(u, 1.0)], texindex + [1.0, 1.0], 2 * i + 2)
  {
    StepValues(lib, nSectors, i);
    FilledAppend(lib, nSectors, points, normals, texCoords, texindex, 2 * i,
                 [ring, Apex], [normal, normal], [Vec2(u, 0.0), Vec2(u, 1.0)]);
  }

  /** Step `i` of the cap loop appends the slots `halfPts + 2i` and `halfPts + 2i + 1`. */
  lemma CapStepFilled(lib: Lib, nSectors: nat, points: seq<Vec3>, normals: seq<Vec3>, texCoords: seq<Vec2>,
                      texindex: seq<real>, i: nat, ring: Vec3, u: real)
    requires nSectors >= 1 && i <= nSectors
    requires Filled(lib, nSectors, points, normals, texCoords, texindex, HalfPts(nSectors) + 2 * i)
    requires ring == RingPoint(lib, nSectors, i)
    requires u == (i as real) / (nSectors as real)
    ensures Filled(lib, nSectors, points + [ring, Apex], normals + [Down, Up],
                   texCoords + [Vec2(u, 0.0), Vec2(u, 1.0)], texindex + [1.0, 1.0], HalfPts(nSectors) + 2 * i + 2)
  {
    StepValues(lib, nSectors, i);
    FilledAppend(lib, nSectors, points, normals, texCoords, texindex, HalfPts(nSectors) + 2 * i,
                 [ring, Apex], [Down, Up], [Vec2(u, 0.0), Vec2(u, 1.0)]);
  }

  /** The first vertex loop of the constructor: the lateral block, ring vertex then
      apex vertex for each step, and the first half of the index buffer. */
  method SideVertices(lib: Lib, nSectors: nat)
    returns (points: seq<Vec3>, normals: seq<Vec3>, texCoords: seq<Vec2>, texindex: seq<real>, indices: seq<nat>)
    requires nSectors >= 1
    ensures Filled(lib, nSectors, points, normals, texCoords, texindex, HalfPts(nSectors))
    ensures |indices| == nSectors + 1
    ensures forall e :: 0 <= e < nSectors + 1 ==> indices[e] == HalfPts(nSectors) + 2 * e
  {
    points, normals, texCoords, texindex, indices := [], [], [], [], [];
    var dTheta := lib.radians(360.0 / (nSectors as real));
    var halfPts := 2 * nSectors + 2;

    var i := 0;
    while i < nSectors + 1
      invariant 0 <= i <= nSectors + 1
      invariant Filled(lib, nSectors, points, normals, texCoords, texindex, 2 * i)
      invariant |indices| == i
      invariant forall e :: 0 <= e < i ==> indices[e] == HalfPts(nSectors) + 2 * e
    {
      var ring, normal, u := LateralStep(lib, nSectors, dTheta, i);
      SideStepFilled(lib, nSectors, points, normals, texCoords, texindex, i, ring, normal, u);

      points := points + [ring, Vec3(0.0, 1.0, 0.0)];
      normals := normals + [normal, normal];
      texCoords := texCoords + [Vec2(u, 0.0), Vec2(u, 1.0)];
      indices := indices + [halfPts + 2 * i];
      texindex := texindex + [1.0, 1.0];
      i := i + 1;
    }
  }

  /** The second vertex loop of the constructor: the cap block (the same positions
      again, with the normals of the caps) and the second half of the index buffer. */
  method CapVertices(lib: Lib, nSectors: nat, points0: seq<Vec3>, normals0: seq<Vec3>, texCoords0: seq<Vec2>,
                     texindex0: seq<real>, indices0: seq<nat>)
    returns (points: seq<Vec3>, normals: seq<Vec3>, texCoords: seq<Vec2>, texindex: seq<real>, indices: seq<nat>)
    requires nSectors >= 1
    requires Filled(lib, nSectors, points0, normals0, texCoords0, texindex0, HalfPts(nSectors))
    requires |indices0| == nSectors + 1
    requires forall e :: 0 <= e < nSectors + 1 ==> indices0[e] == HalfPts(nSectors) + 2 * e
    ensures Filled(lib, nSectors, points, normals, texCoords, texindex, VertexCount(nSectors))
    ensures indices == Indices(nSectors)
  {
    points, normals, texCoords, texindex, indices := points0, normals0, texCoords0, texindex0, indices0;
    var dTheta := lib.radians(360.0 / (nSectors as real));
    var halfPts := 2 * nSectors + 2;

    var i := 0;
    while i < nSectors + 1
      invariant 0 <= i <= nSectors + 1
      invariant Filled(lib, nSectors, points, normals, texCoords, texindex, HalfPts(nSectors) + 2 * i)
      invariant |indices| == nSectors + 1 + i
      invariant forall e :: 0 <= e < nSectors + 1 ==> indices[e] == HalfPts(nSectors) + 2 * e
      invariant forall e :: 0 <= e < i ==> indices[nSectors + 1 + e] == HalfPts(nSectors) + 2 * e + 1
    {
      var theta := (i as real) * dTheta;
      assert theta == Theta(lib, nSectors, i);
      var u := (i as real) / (nSectors as real);
      var ring := Vec3(lib.cos(theta), 0.0, lib.sin(theta));
      assert ring == RingPoint(lib, nSectors, i);
      CapStepFilled(lib, nSectors, points, normals, texCoords, texindex, i, ring, u);

      points := points + [ring, Vec3(0.0, 1.0, 0.0)];
      normals := normals + [Vec3(0.0, -1.0, 0.0), Vec3(0.0, 1.0, 0.0)];
      texCoords := texCoords + [Vec2(u, 0.0), Vec2(u, 1.0)];
      indices := indices + [halfPts + 2 * i + 1];
      texindex := texindex + [1.0, 1.0];
      i := i + 1;
    }
    assert forall e :: 0 <= e < |indices| ==> indices[e] == Indices(nSectors)[e];
  }

  class Cone {
    const nSectors: nat
    const points: seq<Vec3>
    const colors: seq<Vec3>
    const normals: seq<Vec3>
    const indices: seq<nat>
    /** The contents of the `Uint8Array` built from `indices` and uploaded as the
        element buffer. */
    const indexBuffer: seq<byte>
    const texCoords: seq<Vec2>
    const texindex: seq<real>

    constructor (nSectors: nat, lib: Lib, color: JsArg, random: nat -> Vec3)
      requires nSectors >= 1
      ensures this.nSectors == nSectors
      ensures |points| == |normals| == |colors| == |texCoords| == |texindex| == VertexCount(nSectors)
      ensures forall k :: 0 <= k < VertexCount(nSectors) ==>
                points[k] == PointAt(lib, nSectors, k) && normals[k] == NormalAt(lib, nSectors, k) &&
                colors[k] == ColorAt(lib, color, random, k) &&
                texCoords[k] == TexCoordAt(nSectors, k) && texindex[k] == 1.0
      ensures indices == Indices(nSectors)
      ensures indexBuffer == ToUint8Array(indices)
    {
      var colors := VertexColors(lib, color, random, 2 * (2 * nSectors + 2));
      var points, normals, texCoords, texindex, indices := SideVertices(lib, nSectors);
      points, normals, texCoords, texindex, indices := CapVertices(lib, nSectors, points, normals, texCoords, texindex, indices);

      this.nSectors := nSectors;
      this.points := points;
      this.colors := colors;
      this.normals := normals;
      this.indices := indices;
      this.indexBuffer := ToUint8Array(indices);
      this.texCoords := texCoords;
      this.texindex := texindex;
    }


    method Render(gl: Context)
      modifies gl
      ensures gl.trace == old(gl.trace) + DrawSequence(nSectors)
    {
      gl.DrawArrays(TriangleStrip, 0, 2 * nSectors + 2);
      gl.DrawElements(TriangleFan, nSectors + 1, 0);
      gl.DrawElements(TriangleFan, nSectors + 1, nSectors + 1);
    }
  }

  /** A valid colour is given to every vertex; any other argument makes every vertex
      take the fallback branch and its own random colour. */
  lemma ColorsFollowValidity(lib: Lib, color: JsArg, random: nat -> Vec3, k: nat)
    ensures ValidColor(color) ==> ColorAt(lib, color, random, k) == Vec3(color.items[0], color.items[1], color.items[2])
    ensures !ValidColor(color) ==> ColorAt(lib, color, random, k) == random(k)
  {
  }

  /** In the lateral block the odd slots are apex copies and the even slots lie on
      the base circle; the two vertices of each step share one normal. */
  lemma LateralBlockLayout(lib: Lib, nSectors: nat, i: nat)
    requires nSectors >= 1 && i <= nSectors
    ensures PointAt(lib, nSectors, 2 * i + 1) == Apex
    ensures PointAt(lib, nSectors, 2 * i).y == 0.0
    ensures NormalAt(lib, nSectors, 2 * i) == NormalAt(lib, nSectors, 2 * i + 1) == SideNormal(lib, nSectors, i)
  {
  }

  /** The cap ring vertex of step `i` lies on the base circle and has the downward
      normal. */
  lemma CapRingVertex(lib: Lib, nSectors: nat, i: nat, e: nat)
    requires nSectors >= 1 && i <= nSectors && e == HalfPts(nSectors) + 2 * i
    ensures e < VertexCount(nSectors) && SlotOf(nSectors, e).cap
    ensures PointAt(lib, nSectors, e).y == 0.0 && NormalAt(lib, nSectors, e) == Down
  {
    StepValues(lib, nSectors, i);
  }

  /** The cap apex copy of step `i` is the apex with the upward normal. */
  lemma CapApexVertex(lib: Lib, nSectors: nat, i: nat, e: nat)
    requires nSectors >= 1 && i <= nSectors && e == HalfPts(nSectors) + 2 * i + 1
    ensures e < VertexCount(nSectors) && SlotOf(nSectors, e).cap
    ensures PointAt(lib, nSectors, e) == Apex && NormalAt(lib, nSectors, e) == Up
  {
    StepValues(lib, nSectors, i);
  }

  /** The fans read the Uint8Array buffer. While every index fits a byte, the
      first fan reads only cap ring vertices, whose normal points down, and the
      second only apex copies with the upward normal, so it is degenerate: every
      triangle it draws has three equal corners. */
  lemma FansHitCaps(lib: Lib, nSectors: nat)
    requires 1 <= nSectors <= 63
    ensures var calls, buffer := DrawSequence(nSectors), ToUint8Array(Indices(nSectors));
            forall b :: b in FanElements(buffer, calls[1]) ==>
              b as int < VertexCount(nSectors) && SlotOf(nSectors, b as int).cap &&
              PointAt(lib, nSectors, b as int).y == 0.0 && NormalAt(lib, nSectors, b as int) == Down
    ensures var calls, buffer := DrawSequence(nSectors), ToUint8Array(Indices(nSectors));
            forall b :: b in FanElements(buffer, calls[2]) ==>
              b as int < VertexCount(nSectors) && SlotOf(nSectors, b as int).cap &&
              PointAt(lib, nSectors, b as int) == Apex && NormalAt(lib, nSectors, b as int) == Up
  {
    var calls, buffer := DrawSequence(nSectors), ToUint8Array(Indices(nSectors));
    forall b | b in FanElements(buffer, calls[1])
      ensures b as int < VertexCount(nSectors) && SlotOf(nSectors, b as int).cap &&
              PointAt(lib, nSectors, b as int).y == 0.0 && NormalAt(lib, nSectors, b as int) == Down
    {
      var fan := FanElements(buffer, calls[1]);
      var i :| 0 <= i < |fan| && fan[i] == b;
      ByteIsIndex(nSectors, i);
      CapRingVertex(lib, nSectors, i, b as int);
    }
    forall b | b in FanElements(buffer, calls[2])
      ensures b as int < VertexCount(nSectors) && SlotOf(nSectors, b as int).cap &&
              PointAt(lib, nSectors, b as int) == Apex && NormalAt(lib, nSectors, b as int) == Up
    {
      var fan := FanElements(buffer, calls[2]);
      var i :| 0 <= i < |fan| && fan[i] == b;
      ByteIsIndex(nSectors, nSectors + 1 + i);
      CapApexVertex(lib, nSectors, i, b as int);
    }
  }

  /** Below 64 sectors element `e` of the byte buffer is the index itself: step
      `e` of the ring half, or step `e - nSectors - 1` of the apex half. */
  lemma ByteIsIndex(nSectors: nat, e: nat)
    requires nSectors <= 63 && e < 2 * nSectors + 2
    ensures ToUint8Array(Indices(nSectors))[e] as int ==
            if e < nSectors + 1 then HalfPts(nSectors) + 2 * e
            else HalfPts(nSectors) + 2 * (e - nSectors - 1) + 1
  {
  }

  /** With 64 sectors the largest index, 259, no longer fits a byte: element 64 of
      the first fan wraps around to vertex 2, a lateral vertex, not a cap. */
  lemma WideConeFanLeavesCap()
    ensures var buffer := ToUint8Array(Indices(64));
            buffer[64] in FanElements(buffer, DrawSequence(64)[1]) && buffer[64] == 2 && !SlotOf(64, 2).cap
  {
    var buffer := ToUint8Array(Indices(64));
    assert Indices(64)[64] == 258;
    assert FanElements(buffer, DrawSequence(64)[1])[64] == buffer[64];
  }

  /** The strip reads exactly the lateral block, and the two fans together read the
      whole index buffer, each element once, in order. */
  lemma DrawsSplitBuffers(nSectors: nat)
    ensures var calls := DrawSequence(nSectors);
            Tiles(calls[..1], 0, HalfPts(nSectors)) &&
            FanElements(ToUint8Array(Indices(nSectors)), calls[1]) + FanElements(ToUint8Array(Indices(nSectors)), calls[2]) ==
              ToUint8Array(Indices(nSectors))
  {
    var calls := DrawSequence(nSectors);
    assert Tiles(calls[1..1], HalfPts(nSectors), HalfPts(nSectors));
  }

  /** Texture coordinates: u = i / nSectors lies in [0, 1], v is 0 on ring vertices
      and 1 on apex vertices; every texture selector is 1 (the checkered texture). */
  lemma TexCoordsInUnitSquare(nSectors: nat, k: nat)
    requires nSectors >= 1 && k < VertexCount(nSectors)
    ensures 0.0 <= TexCoordAt(nSectors, k).u <= 1.0
    ensures TexCoordAt(nSectors, k).v == if SlotOf(nSectors, k).apex then 1.0 else 0.0
  {
    var s := SlotOf(nSectors, k);
    assert s.step <= nSectors;
    assert (s.step as real) <= (nSectors as real);
    DivAtMostOne(s.step as real, nSectors as real);
  }

  lemma DivAtMostOne(a: real, b: real)
    requires 0.0 <= a <= b && b > 0.0
    ensures 0.0 <= a / b <= 1.0
  {
  }

  /** The byte element buffer holds the indices unchanged exactly when the largest
      index, `4 * nSectors + 3`, is at most 255, that is when `nSectors <= 63`. */
  lemma IndexBufferFitsBytes(nSectors: nat)
    ensures (forall e :: 0 <= e < 2 * nSectors + 2 ==>
               ToUint8Array(Indices(nSectors))[e] as int == Indices(nSectors)[e]) <==> nSectors <= 63
  {
    var r := Indices(nSectors);
    if nSectors > 63 {
      assert r[2 * nSectors + 1] == 4 * nSectors + 3;
      assert ToUint8Array(r)[2 * nSectors + 1] as int != r[2 * nSectors + 1];
    }
  }
}
