/** The merry-go-round: a cone used as both the base and the roof, a cylinder used
    as both the base rim and the centre pole, a sphere on top, and four arms, each a
    bobbing horse on a coloured pole. The whole ride turns about the y-axis with
    time and may be placed at a given position. */
module MerryGoRounds {
  import opened Mv
  import opened Gl
  import opened Host
  import Cones
  import Spheres
  import Cylinders
  import Horses

  /** The number of arms: horses, and poles under them. */
  const Arms: nat := 4

  /** `vec3(0.6, 0.6, 0.6)`: the grey of the structure and of every horse. */
  const Gray: JsArg := JsArray([0.6, 0.6, 0.6])

  /** Sectors of the base/roof cone and of the centre cylinder. */
  const FoundationSectors: nat := 25
  /** Sectors of each arm's pole. */
  const PoleSectors: nat := 12

  // The fixed local transforms of the shared parts.
  const BaseXform: Mat4 := Mult(Translate(0.0, 0.1, 0.0), Scalem(5.0, 0.2, 5.0))
  const BaseDepthXform: Mat4 := Mult(Translate(0.0, -0.4, 0.0), Scalem(5.0, 0.5, 5.0))
  const TopXform: Mat4 := Mult(Translate(0.0, 5.0, 0.0), Scalem(5.0, 2.0, 5.0))
  const MidXform: Mat4 := Scalem(1.0, 5.0, 1.0)
  const SphereXform: Mat4 := Translate(0.0, 7.5, 0.0)

  const PoleScale: Mat4 := Scalem(0.1, 5.0, 0.1)
  const HorseScale: Mat4 := Scalem(0.8, 2.0, 0.8)

  /** Where each arm's horse and pole stand, before the ride turns. */
  const HorseTranslation: seq<Vec3> :=
    [Vec3(4.0, 2.5, 1.0), Vec3(1.0, 2.5, -4.0), Vec3(-4.0, 2.5, -1.0), Vec3(-1.0, 2.5, 4.0)]
  const PoleTranslation: seq<Vec3> :=
    [Vec3(4.0, 0.0, 1.0), Vec3(1.0, 0.0, -4.0), Vec3(-4.0, 0.0, -1.0), Vec3(-1.0, 0.0, 4.0)]

  /** The axis each horse is turned a quarter about, so that it faces along the ride. */
  const HorseAxes: seq<Vec3> :=
    [Vec3(-1.0, 0.0, 0.0), Vec3(0.0, 0.0, 1.0), Vec3(1.0, 0.0, 0.0), Vec3(0.0, 0.0, -1.0)]

  /** The pole colours, one per arm. */
  const HorseColors: seq<JsArg> :=
    [JsArray([1.0, 0.5, 0.5]), JsArray([0.5, 1.0, 0.5]), JsArray([0.5, 0.5, 1.0]), JsArray([0.5, 0.5, 0.5])]

  /** Arm `i`'s horse: scaled, turned 90 degrees about its axis, then moved out. */
  function HorseXform(lib: Lib, i: nat): Mat4
    requires i < Arms
  {
    Mult(Translate(HorseTranslation[i].x, HorseTranslation[i].y, HorseTranslation[i].z),
         Mult(lib.rotate(90.0, HorseAxes[i]), HorseScale))
  }

  /** Arm `i`'s pole: scaled, then moved out. */
  function PoleXform(i: nat): Mat4
    requires i < Arms
  {
    Mult(Translate(PoleTranslation[i].x, PoleTranslation[i].y, PoleTranslation[i].z), PoleScale)
  }

  /** The translation `render` applies: the given position when it is an array of
      three numbers, no translation otherwise. */
  function Translation(position: JsArg): Mat4
  {
    if IsTriple(position) then Translate(position.items[0], position.items[1], position.items[2])
    else Identity4()
  }

  /** The whole ride's transform at `time`: turned, then placed. */
  function World(lib: Lib, time: real, position: JsArg): Mat4
  {
    Mult(Translation(position), lib.rotateY(time))
  }

  /** The argument of the sine that lifts arm `i`'s horse: a quarter period of
      90 time units separates neighbouring arms. */
  function BobArg(time: real, i: nat): real
  {
    0.03 * (time + (i as real) * 90.0)
  }

  /** The vertical bob of arm `i`'s horse. */
  function Bob(lib: Lib, time: real, i: nat): Mat4
  {
    Translate(0.0, lib.sin(BobArg(time, i)), 0.0)
  }

  /** One part render of `render`, naming the object drawn and the transform used. */
  datatype Part = Base | BaseDepth | Top | Middle | TopSphere | Pole(i: nat) | Rider(i: nat)

  predicate ValidPart(p: Part)
  {
    match p
    case Pole(i) => i < Arms
    case Rider(i) => i < Arms
    case _ => true
  }

  /** The number of part renders in one `render`. */
  const PartCount: nat := 5 + 2 * Arms

  /** The `k`-th part `render` draws: the five shared parts, then the four poles,
      then the four horses. */
  function PartAt(k: nat): (p: Part)
    requires k < PartCount
    ensures ValidPart(p)
  {
    if k == 0 then Base
    else if k == 1 then BaseDepth
    else if k == 2 then Top
    else if k == 3 then Middle
    else if k == 4 then TopSphere
    else if k < 5 + Arms then Pole(k - 5)
    else Rider(k - 5 - Arms)
  }

  /** Pole `i` is drawn after the shared parts. */
  lemma PoleAt(i: nat)
    requires i < Arms
    ensures PartAt(5 + i) == Pole(i)
  {
  }

  /** Horse `i` is drawn after the shared parts and the poles. */
  lemma RiderAt(i: nat)
    requires i < Arms
    ensures PartAt(5 + Arms + i) == Rider(i)
  {
  }

  /** The uploads before a part is drawn: its transformation, then its normal matrix. */
  function Upload(lib: Lib, m: Mat4): seq<Call>
  {
    [UniformTransformation(m), UniformNormalTransformation(lib.normalMatrix(m))]
  }

  class MerryGoRound {
    const foundation: Cones.Cone
    const middlePole: Cylinders.Cylinder
    const topSphere: Spheres.Sphere
    const horses: seq<Horses.Horse>
    const poles: seq<Cylinders.Cylinder>

    const baseXform: Mat4
    const baseDepthXform: Mat4
    const topXform: Mat4
    const midXform: Mat4
    const sphereXform: Mat4
    const horseXform: seq<Mat4>
    const polesXform: seq<Mat4>

    /** Four arms, each with a horse whose head is a 30-sector cone. */
    predicate Valid()
    {
      foundation.nSectors == FoundationSectors &&
      |horses| == |poles| == |horseXform| == |polesXform| == Arms &&
      forall i :: 0 <= i < Arms ==> horses[i].Valid()
    }

    constructor (lib: Lib, random: nat -> Vec3)
      ensures Valid()
      ensures baseXform == BaseXform && baseDepthXform == BaseDepthXform && topXform == TopXform
      ensures midXform == MidXform && sphereXform == SphereXform
      ensures forall k :: 0 <= k < |foundation.colors| ==> foundation.colors[k] == Vec3(0.6, 0.6, 0.6)
      ensures middlePole.nSectors == FoundationSectors && middlePole.color == Gray && middlePole.texFlag == 1.0
      ensures middlePole.draws == lib.cylinderDraws(FoundationSectors, Gray, 1.0)
      ensures |topSphere.points| == |topSphere.colors| == |topSphere.texindex| == Spheres.VertexCount
      ensures forall k :: 0 <= k < Spheres.VertexCount ==>
                topSphere.points[k] == Spheres.PointAt(lib, k) && topSphere.colors[k] == Spheres.Gray &&
                topSphere.texindex[k] == 1.0
      ensures forall i :: 0 <= i < Arms ==>
                horseXform[i] == HorseXform(lib, i) && horses[i].cube.color == Gray &&
                polesXform[i] == PoleXform(i) &&
                poles[i].nSectors == PoleSectors && poles[i].color == HorseColors[i] && poles[i].texFlag == 0.0 &&
                poles[i].draws == lib.cylinderDraws(PoleSectors, HorseColors[i], 0.0)
    {
      var foundation := new Cones.Cone(FoundationSectors, lib, Gray, random);
      forall k | 0 <= k < |foundation.colors|
        ensures foundation.colors[k] == Vec3(0.6, 0.6, 0.6)
      {
        Cones.ColorsFollowValidity(lib, Gray, random, k);
      }
      this.foundation := foundation;
      middlePole := new Cylinders.Cylinder(lib, FoundationSectors, Gray, 1.0);
      topSphere := new Spheres.Sphere(lib);

      baseXform := BaseXform;
      baseDepthXform := BaseDepthXform;
      topXform := TopXform;
      midXform := MidXform;
      sphereXform := SphereXform;

      var horseXform, horses := ArmHorses(lib, random);
      var polesXform, poles := ArmPoles(lib);
      this.horseXform := horseXform;
      this.horses := horses;
      this.polesXform := polesXform;
      this.poles := poles;
    }

    /** The local transform of a part; a horse's includes its bob at `time`. */
    function Local(lib: Lib, time: real, p: Part): Mat4
      requires Valid() && ValidPart(p)
    {
      match p
      case Base => baseXform
      case BaseDepth => baseDepthXform
      case Top => topXform
      case Middle => midXform
      case TopSphere => sphereXform
      case Pole(i) => polesXform[i]
      case Rider(i) => Mult(Bob(lib, time, i), horseXform[i])
    }

    /** The draws of the object a part renders. */
    function PartDraws(p: Part): seq<Call>
      requires Valid() && ValidPart(p)
    {
      match p
      case Base => Cones.DrawSequence(foundation.nSectors)
      case Top => Cones.DrawSequence(foundation.nSectors)
      case BaseDepth => middlePole.draws
      case Middle => middlePole.draws
      case TopSphere => Spheres.DrawSequence()
      case Pole(i) => poles[i].draws
      case Rider(_) => Horses.DrawSequence()
    }

    /** A part's calls: its transform `world * local` and normal matrix, then its draws. */
    function PartTrace(lib: Lib, world: Mat4, time: real, p: Part): seq<Call>
      requires Valid() && ValidPart(p)
    {
      Upload(lib, Mult(world, Local(lib, time, p))) + PartDraws(p)
    }

    /** The calls of the first `n` parts. */
    function Trace(lib: Lib, world: Mat4, time: real, n: nat): seq<Call>
      requires Valid() && n <= PartCount
    {
      if n == 0 then []
      else Trace(lib, world, time, n - 1) + PartTrace(lib, world, time, PartAt(n - 1))
    }

    /** The calls of one `render(time, position)`. */
    function FrameTrace(lib: Lib, time: real, position: JsArg): seq<Call>
      requires Valid()
    {
      Trace(lib, World(lib, time, position), time, PartCount)
    }

    method Render(lib: Lib, gl: Context, time: real, position: JsArg)
      requires Valid()
      modifies gl
      ensures gl.trace == old(gl.trace) + FrameTrace(lib, time, position)
    {
      var world := WorldTransform(lib, time, position);
      ghost var start := gl.trace;
      RenderShared(lib, gl, world, time, start);
      RenderPoles(lib, gl, world, time, start);
      RenderHorses(lib, gl, world, time, start);
    }

    /** The five shared parts: base, rim, roof, centre pole, sphere. */
    method RenderShared(lib: Lib, gl: Context, world: Mat4, time: real, ghost start: seq<Call>)
      requires Valid() && gl.trace == start
      modifies gl
      ensures gl.trace == start + Trace(lib, world, time, 5)
    {
      Extend(lib, world, time, start, 0, Base);
      RenderPart(lib, gl, world, time, Base);
      Extend(lib, world, time, start, 1, BaseDepth);
      RenderPart(lib, gl, world, time, BaseDepth);
      Extend(lib, world, time, start, 2, Top);
      RenderPart(lib, gl, world, time, Top);
      Extend(lib, world, time, start, 3, Middle);
      RenderPart(lib, gl, world, time, Middle);
      Extend(lib, world, time, start, 4, TopSphere);
      RenderPart(lib, gl, world, time, TopSphere);
    }

    /** The loop over the poles. */
    method RenderPoles(lib: Lib, gl: Context, world: Mat4, time: real, ghost start: seq<Call>)
      requires Valid() && gl.trace == start + Trace(lib, world, time, 5)
      modifies gl
      ensures gl.trace == start + Trace(lib, world, time, 5 + Arms)
    {
      var i := 0;
      while i < Arms
        invariant 0 <= i <= Arms
        invariant gl.trace == start + Trace(lib, world, time, 5 + i)
      {
        PoleAt(i);
        Extend(lib, world, time, start, 5 + i, Pole(i));
        RenderPart(lib, gl, world, time, Pole(i));
        i := i + 1;
      }
    }

    /** The loop over the horses, each lifted by its bob. */
    method RenderHorses(lib: Lib, gl: Context, world: Mat4, time: real, ghost start: seq<Call>)
      requires Valid() && gl.trace == start + Trace(lib, world, time, 5 + Arms)
      modifies gl
      ensures gl.trace == start + Trace(lib, world, time, PartCount)
    {
      var i := 0;
      while i < Arms
        invariant 0 <= i <= Arms
        invariant gl.trace == start + Trace(lib, world, time, 5 + Arms + i)
      {
        RiderAt(i);
        Extend(lib, world, time, start, 5 + Arms + i, Rider(i));
        RenderPart(lib, gl, world, time, Rider(i));
        i := i + 1;
      }
    }

    /** Rendering part `k` after the parts before it extends the calls by part
        `k`'s; with no part rendered yet there are no calls. */
    lemma Extend(lib: Lib, world: Mat4, time: real, start: seq<Call>, k: nat, p: Part)
      requires Valid() && k < PartCount && PartAt(k) == p
      ensures start + Trace(lib, world, time, 0) == start
      ensures start + Trace(lib, world, time, k) + PartTrace(lib, world, time, p) ==
              start + Trace(lib, world, time, k + 1)
    {
      assert Trace(lib, world, time, 0) == [];
    }

    /** Uploads part `p`'s transform and normal matrix and renders its object. */
    method RenderPart(lib: Lib, gl: Context, world: Mat4, time: real, p: Part)
      requires Valid() && ValidPart(p)
      modifies gl
      ensures gl.trace == old(gl.trace) + PartTrace(lib, world, time, p)
    {
      var xf := Mult(world, Local(lib, time, p));
      gl.UniformTransformation(xf);
      gl.UniformNormalTransformation(lib.normalMatrix(xf));
      match p
      case Base => foundation.Render(gl);
      case Top => foundation.Render(gl);
      case BaseDepth => middlePole.Render(gl);
      case Middle => middlePole.Render(gl);
      case TopSphere => topSphere.Render(gl);
      case Pole(i) => poles[i].Render(gl);
      case Rider(i) => horses[i].Render(gl);
    }
  }

  /** The transform of the whole ride: the rotation about the y-axis by `time`,
      preceded by the translation to `position` when that is an array of three
      numbers. */
  method WorldTransform(lib: Lib, time: real, position: JsArg) returns (world: Mat4)
    ensures world == World(lib, time, position)
  {
    var rotation := lib.rotateY(time);
    var translation := Identity4();
    if IsTriple(position) {
      translation := Translate(position.items[0], position.items[1], position.items[2]);
    }
    world := Mult(translation, rotation);
  }

  /** The horse loop of the constructor: each arm's horse transform, and a grey horse. */
  method ArmHorses(lib: Lib, random: nat -> Vec3) returns (xforms: seq<Mat4>, horses: seq<Horses.Horse>)
    ensures |xforms| == |horses| == Arms
    ensures forall i :: 0 <= i < Arms ==>
              xforms[i] == HorseXform(lib, i) && horses[i].Valid() && horses[i].cube.color == Gray
  {
    xforms, horses := [], [];
    var i := 0;
    while i < Arms
      invariant 0 <= i <= Arms
      invariant |xforms| == |horses| == i
      invariant forall j :: 0 <= j < i ==>
                  xforms[j] == HorseXform(lib, j) && horses[j].Valid() && horses[j].cube.color == Gray
    {
      xforms := xforms + [HorseXform(lib, i)];
      var horse := new Horses.Horse(lib, Gray, random);
      horses := horses + [horse];
      i := i + 1;
    }
  }

  /** The pole loop of the constructor: each arm's pole transform, and a pole in
      the arm's colour, untextured. */
  method ArmPoles(lib: Lib) returns (xforms: seq<Mat4>, poles: seq<Cylinders.Cylinder>)
    ensures |xforms| == |poles| == Arms
    ensures forall i :: 0 <= i < Arms ==>
              xforms[i] == PoleXform(i) &&
              poles[i].nSectors == PoleSectors && poles[i].color == HorseColors[i] && poles[i].texFlag == 0.0 &&
              poles[i].draws == lib.cylinderDraws(PoleSectors, HorseColors[i], 0.0)
  {
    xforms, poles := [], [];
    var i := 0;
    while i < Arms
      invariant 0 <= i <= Arms
      invariant |xforms| == |poles| == i
      invariant forall j :: 0 <= j < i ==>
                  xforms[j] == PoleXform(j) &&
                  poles[j].nSectors == PoleSectors && poles[j].color == HorseColors[j] && poles[j].texFlag == 0.0 &&
                  poles[j].draws == lib.cylinderDraws(PoleSectors, HorseColors[j], 0.0)
    {
      xforms := xforms + [PoleXform(i)];
      var pole := new Cylinders.Cylinder(lib, PoleSectors, HorseColors[i], 0.0);
      poles := poles + [pole];
      i := i + 1;
    }
  }

  /** The translation is exactly the given position when that is an array of three
      numbers, and none at all otherwise; in the latter case the ride only turns. */
  lemma PositionTranslation(lib: Lib, time: real, position: JsArg)
    ensures var t := Translation(position);
            IsTranslateScale(t) && Diagonal(t) == Vec4(1.0, 1.0, 1.0, 1.0) &&
            TranslationColumn(t) == (if IsTriple(position)
                                     then Vec3(position.items[0], position.items[1], position.items[2])
                                     else Vec3(0.0, 0.0, 0.0))
    ensures !IsTriple(position) ==> World(lib, time, position) == lib.rotateY(time)
  {
    if !IsTriple(position) {
      IdentityLeft(lib.rotateY(time));
    }
  }

  /** The shared parts come first (base, rim, roof, centre pole, sphere), then the
      four poles, then the four horses: thirteen part renders, the cone and the
      cylinder twice each. */
  lemma RenderOrder()
    ensures PartCount == 13
    ensures seq(PartCount, k requires 0 <= k < PartCount => PartAt(k)) ==
            [Base, BaseDepth, Top, Middle, TopSphere,
             Pole(0), Pole(1), Pole(2), Pole(3),
             Rider(0), Rider(1), Rider(2), Rider(3)]
  {
  }

  /** Each arm is the previous one turned a quarter about the y-axis: (x, z) becomes
      (z, -x), for the offsets and for the horses' axes alike, and the fourth turn
      comes back to the first arm. All arms stand at distance sqrt(17) from the
      centre, the horse 2.5 above its pole. */
  lemma ArmsAreQuarterTurns()
    ensures |HorseTranslation| == |PoleTranslation| == |HorseAxes| == |HorseColors| == Arms
    ensures forall i :: 0 <= i < Arms - 1 ==> QuarterTurn(HorseTranslation[i], HorseTranslation[i + 1])
    ensures QuarterTurn(HorseTranslation[Arms - 1], HorseTranslation[0])
    ensures forall i :: 0 <= i < Arms - 1 ==> QuarterTurn(HorseAxes[i], HorseAxes[i + 1])
    ensures QuarterTurn(HorseAxes[Arms - 1], HorseAxes[0])
    ensures forall i :: 0 <= i < Arms ==> HorseAxes[i].y == 0.0
    ensures forall i :: 0 <= i < Arms ==>
              var t := HorseTranslation[i];
              t.x * t.x + t.z * t.z == 17.0 && t.y == 2.5 &&
              PoleTranslation[i] == Vec3(t.x, 0.0, t.z)
  {
  }

  /** `b` is `a` turned a quarter about the y-axis: (x, z) becomes (z, -x). */
  predicate QuarterTurn(a: Vec3, b: Vec3)
  {
    b.x == a.z && b.z == -a.x && b.y == a.y
  }

  /** `m` scales by `d` and then moves by `t`. */
  predicate ScaleThenMove(m: Mat4, d: Vec4, t: Vec3)
  {
    IsTranslateScale(m) && Diagonal(m) == d && TranslationColumn(m) == t
  }

  /** The base, its rim and the roof are each a scale followed by a translation,
      with the scale factors on the diagonal and the offset in the last column;
      the centre pole is only scaled and the sphere only lifted. */
  lemma SharedTransforms()
    ensures ScaleThenMove(BaseXform, Vec4(5.0, 0.2, 5.0, 1.0), Vec3(0.0, 0.1, 0.0))
    ensures ScaleThenMove(BaseDepthXform, Vec4(5.0, 0.5, 5.0, 1.0), Vec3(0.0, -0.4, 0.0))
    ensures ScaleThenMove(TopXform, Vec4(5.0, 2.0, 5.0, 1.0), Vec3(0.0, 5.0, 0.0))
    ensures ScaleThenMove(MidXform, Vec4(1.0, 5.0, 1.0, 1.0), Vec3(0.0, 0.0, 0.0))
    ensures ScaleThenMove(SphereXform, Vec4(1.0, 1.0, 1.0, 1.0), Vec3(0.0, 7.5, 0.0))
  {
    assert ScaleThenMove(BaseXform, Vec4(5.0, 0.2, 5.0, 1.0), Vec3(0.0, 0.1, 0.0)) by {
      TranslateTimesScale(0.0, 0.1, 0.0, 5.0, 0.2, 5.0);
    }
    assert ScaleThenMove(BaseDepthXform, Vec4(5.0, 0.5, 5.0, 1.0), Vec3(0.0, -0.4, 0.0)) by {
      TranslateTimesScale(0.0, -0.4, 0.0, 5.0, 0.5, 5.0);
    }
    assert ScaleThenMove(TopXform, Vec4(5.0, 2.0, 5.0, 1.0), Vec3(0.0, 5.0, 0.0)) by {
      TranslateTimesScale(0.0, 5.0, 0.0, 5.0, 2.0, 5.0);
    }
  }

  /** Each pole is scaled to a thin rod (0.1 wide, 5 tall) and moved out to its
      arm's offset. */
  lemma PoleTransform(i: nat)
    requires i < Arms
    ensures ScaleThenMove(PoleXform(i), Vec4(0.1, 5.0, 0.1, 1.0), PoleTranslation[i])
  {
    var t := PoleTranslation[i];
    TranslateTimesScale(t.x, t.y, t.z, 0.1, 5.0, 0.1);
  }

  /** Arm `i + 1`'s horse is at the height arm `i`'s horse reaches 90 time units
      later: the arms bob a quarter of a cycle apart. */
  lemma BobQuarterApart(lib: Lib, time: real, i: nat)
    ensures Bob(lib, time, i + 1) == Bob(lib, time + 90.0, i)
  {
    assert BobArg(time, i + 1) == BobArg(time + 90.0, i);
  }
}
