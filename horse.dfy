/** A carousel horse: a short cube for the body and a 30-sector cone for the head,
    both built from one colour. */
module Horses {
  import opened Mv
  import opened Gl
  import opened Host
  import Cones
  import ShortCubes

  /** Every horse's head has this many sectors. */
  const HeadSectors: nat := 30

  class Horse {
    const cube: ShortCubes.ShortCube
    const cone: Cones.Cone

    /** The head is the 30-sector cone. */
    predicate Valid()
    {
      cone.nSectors == HeadSectors
    }

    constructor (lib: Lib, color: JsArg, random: nat -> Vec3)
      ensures Valid()
      ensures cube.color == color
      ensures |cone.colors| == Cones.VertexCount(HeadSectors) && |cube.colors| == ShortCubes.CubeVertices + 1
      ensures forall k :: 0 <= k < |cone.colors| ==> cone.colors[k] == Cones.ColorAt(lib, color, random, k)
      ensures forall k :: 0 <= k < |cube.colors| ==> cube.colors[k] == Vec3Of(lib, color)
    {
      cube := new ShortCubes.ShortCube(lib, color);
      cone := new Cones.Cone(HeadSectors, lib, color, random);
    }

    /** The head, then the body; the horse itself changes nothing. */
    method Render(gl: Context)
      requires Valid()
      modifies gl
      ensures gl.trace == old(gl.trace) + DrawSequence()
    {
      cone.Render(gl);
      cube.Render(gl);
    }
  }

  /** The calls of one horse's `render`. */
  function DrawSequence(): seq<Call>
  {
    Cones.DrawSequence(HeadSectors) + ShortCubes.DrawSequence()
  }

  /** The head's lateral strip and two cap fans come before the body's 36-vertex
      triangle list. */
  lemma HeadBeforeBody()
    ensures DrawSequence() == [ DrawArrays(TriangleStrip, 0, 62),
                                DrawElements(TriangleFan, 31, 0),
                                DrawElements(TriangleFan, 31, 31),
                                DrawArrays(Triangles, 0, 36) ]
  {
  }

  /** The head's indices run up to 123, so storing them in a `Uint8Array` keeps
      every one of them. */
  lemma HeadIndicesFitBytes()
    ensures forall e :: 0 <= e < |Cones.Indices(HeadSectors)| ==> Cones.Indices(HeadSectors)[e] <= 123
    ensures Cones.Indices(HeadSectors)[2 * HeadSectors + 1] == 123
    ensures forall e :: 0 <= e < |Cones.Indices(HeadSectors)| ==>
              ToUint8Array(Cones.Indices(HeadSectors))[e] as int == Cones.Indices(HeadSectors)[e]
  {
    Cones.IndexBufferFitsBytes(HeadSectors);
  }
}
