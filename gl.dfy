/** The part of a WebGL context the scene is observed through: the uniform uploads
    and draw calls it issues, recorded in order. Buffer creation, binding, attribute
    pointers and shader setup are not recorded. */
module Gl {
  import opened Mv

  datatype Mode = Triangles | TriangleStrip | TriangleFan

  datatype Call =
    | DrawArrays(mode: Mode, first: nat, count: nat)
      /** `drawElements(mode, count, UNSIGNED_BYTE, offset)`: with byte indices the
          offset in bytes is also the position of the first element. */
    | DrawElements(mode: Mode, count: nat, offset: nat)
    | UniformTransformation(m: Mat4)
    | UniformNormalTransformation(n: Mat3)
    | UniformModelView(m: Mat4)
    | Clear

  /** First vertex read by an unindexed draw (0 for any other call). */
  function First(c: Call): nat { if c.DrawArrays? then c.first else 0 }

  /** One past the last vertex read by an unindexed draw (0 for any other call). */
  function End(c: Call): nat { if c.DrawArrays? then c.first + c.count else 0 }

  /** The unindexed draws in `cs` read consecutive ranges that together make up
      `[from, to)`, in order, each starting where the previous one ended. */
  predicate Tiles(cs: seq<Call>, from: nat, to: nat)
    decreases |cs|
  {
    if cs == [] then from == to
    else cs[0].DrawArrays? && cs[0].first == from && Tiles(cs[1..], End(cs[0]), to)
  }

  /** Two tilings in a row make one. */
  lemma {:induction false} TilesAppend(a: seq<Call>, b: seq<Call>, from: nat, mid: nat, to: nat)
    requires Tiles(a, from, mid) && Tiles(b, mid, to)
    ensures Tiles(a + b, from, to)
    decreases |a|
  {
    if a != [] {
      assert (a + b)[0] == a[0];
      assert (a + b)[1..] == a[1..] + b;
      TilesAppend(a[1..], b, End(a[0]), mid, to);
      assert Tiles((a + b)[1..], End((a + b)[0]), to);
    } else {
      assert a + b == b;
    }
  }

  /** The draw `c` reads vertex `v`. */
  predicate ReadsVertex(c: Call, v: nat) { First(c) <= v < End(c) }

  /** Some draw of `cs` reads vertex `v`. */
  predicate Covered(cs: seq<Call>, v: nat) { exists k :: 0 <= k < |cs| && ReadsVertex(cs[k], v) }

  /** In a tiling of `[from, to)` every range lies inside `[from, to)`, ranges that come
      later start where or after earlier ones end (so no vertex is read twice), and
      every vertex of `[from, to)` is read by some range. */
  lemma {:induction false} TilesCover(cs: seq<Call>, from: nat, to: nat)
    requires Tiles(cs, from, to)
    ensures from <= to
    ensures forall k :: 0 <= k < |cs| ==> from <= First(cs[k]) <= End(cs[k]) <= to
    ensures forall k, l :: 0 <= k < l < |cs| ==> End(cs[k]) <= First(cs[l])
    ensures forall v: nat :: from <= v < to ==> Covered(cs, v)
    decreases |cs|
  {
    if cs != [] {
      var rest := cs[1..];
      TilesCover(rest, End(cs[0]), to);
      forall k | 0 <= k < |cs| ensures from <= First(cs[k]) <= End(cs[k]) <= to {
        if k > 0 { assert cs[k] == rest[k - 1]; }
      }
      forall k, l | 0 <= k < l < |cs| ensures End(cs[k]) <= First(cs[l]) {
        assert cs[l] == rest[l - 1];
        if k > 0 { assert cs[k] == rest[k - 1]; }
      }
      forall v: nat | from <= v < to ensures Covered(cs, v) {
        if v >= End(cs[0]) {
          assert Covered(rest, v);
          var k :| 0 <= k < |rest| && ReadsVertex(rest[k], v);
          assert cs[k + 1] == rest[k];
        } else {
          assert ReadsVertex(cs[0], v);
        }
      }
    }
  }

  /** The recorded GL context. */
  class Context {
    ghost var trace: seq<Call>

    constructor ()
      ensures trace == []
    {
      trace := [];
    }

    method DrawArrays(mode: Mode, first: nat, count: nat)
      modifies this
      ensures trace == old(trace) + [Call.DrawArrays(mode, first, count)]
    {
      trace := trace + [Call.DrawArrays(mode, first, count)];
    }

    method DrawElements(mode: Mode, count: nat, offset: nat)
      modifies this
      ensures trace == old(trace) + [Call.DrawElements(mode, count, offset)]
    {
      trace := trace + [Call.DrawElements(mode, count, offset)];
    }

    method UniformTransformation(m: Mat4)
      modifies this
      ensures trace == old(trace) + [Call.UniformTransformation(m)]
    {
      trace := trace + [Call.UniformTransformation(m)];
    }

    method UniformNormalTransformation(n: Mat3)
      modifies this
      ensures trace == old(trace) + [Call.UniformNormalTransformation(n)]
    {
      trace := trace + [Call.UniformNormalTransformation(n)];
    }

    method UniformModelView(m: Mat4)
      modifies this
      ensures trace == old(trace) + [Call.UniformModelView(m)]
    {
      trace := trace + [Call.UniformModelView(m)];
    }

    method Clear()
      modifies this
      ensures trace == old(trace) + [Call.Clear]
    {
      trace := trace + [Call.Clear];
    }

    /** Calls issued by code whose source is not part of this model. */
    method Append(calls: seq<Call>)
      modifies this
      ensures trace == old(trace) + calls
    {
      trace := trace + calls;
    }
  }
}
