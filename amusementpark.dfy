/** The driver of the amusement park: the scene (a billboard sign and the
    merry-go-round), its two textures, the camera that the W, A, S, D, R and Q keys
    steer, and the animation frame that advances the clock. */
module AmusementPark {
  import opened Mv
  import opened Gl
  import opened Host
  import Signs
  import MerryGoRounds
  import Textures

  /** Key codes `moveCamera` reacts to. */
  const KeyW: int := 87
  const KeyS: int := 83
  const KeyA: int := 65
  const KeyD: int := 68
  const KeyQ: int := 81
  const KeyR: int := 82

  /** The animation clock advances by this much per frame. */
  const TimeStep: real := 0.8

  /** Where the merry-go-round stands. */
  const ParkPosition := JsArray([6.0, 0.0, 6.0])

  /** The scale applied to `lookAT` when W or S moves the eye. */
  const Stride := Vec3(0.1, 0.0, 0.1)

  /** The camera variables the keys change. */
  datatype Camera = Camera(lookEye: Vec3, lookAt: Vec3, lookUp: Vec3, cameraXform: Mat4)

  /** The state `moveCamera` acts on: the camera and whether the program was quit. */
  datatype Controls = Controls(camera: Camera, exit: bool)

  /** The camera the page starts with and R restores. */
  const InitialCamera := Camera(Vec3(-3.0, 3.0, -3.0), Vec3(6.0, 0.0, 6.0), Vec3(0.0, 1.0, 0.0), Identity4())

  /** The direction A adds to `lookAT` and D subtracts from it, for a turn of `degrees`. */
  function TurnDirection(lib: Lib, degrees: real): Vec3
  {
    Vec3(lib.cos(lib.radians(degrees)), 0.0, lib.sin(lib.radians(degrees)))
  }

  /** What `moveCamera` does for one key code. */
  function KeyStep(lib: Lib, s: Controls, key: int): (t: Controls)
    ensures t.exit <==> s.exit || key == KeyQ
    ensures key != KeyR ==> t.camera.lookUp == s.camera.lookUp
  {
    var cam := s.camera;
    if key == KeyW then
      s.(camera := cam.(lookEye := Add(cam.lookEye, MultV(Stride, cam.lookAt))))
    else if key == KeyS then
      s.(camera := cam.(lookEye := Subtract(cam.lookEye, MultV(Stride, cam.lookAt))))
    else if key == KeyA then
      s.(camera := cam.(cameraXform := Mult(lib.rotateY(-2.0), cam.cameraXform),
                        lookAt := Add(TurnDirection(lib, -2.0), cam.lookAt)))
    else if key == KeyD then
      s.(camera := cam.(cameraXform := Mult(lib.rotateY(2.0), cam.cameraXform),
                        lookAt := Subtract(cam.lookAt, TurnDirection(lib, 2.0))))
    else if key == KeyQ then
      s.(exit := true)
    else if key == KeyR then
      s.(camera := InitialCamera)
    else
      s
  }

  /** The model-view matrix `render` uploads: the camera transform times the view from
      the eye towards `eye + at`. */
  function ModelView(lib: Lib, cam: Camera): Mat4
  {
    Mult(cam.cameraXform, lib.lookAt(cam.lookEye, Add(cam.lookEye, cam.lookAt), cam.lookUp))
  }

  /** The calls of one `render` with controls `s` and the clock already at `time`: a
      clear, and unless the program was quit the camera and identity uploads, the
      sign and the merry-go-round. */
  function FrameCalls(lib: Lib, mgr: MerryGoRounds.MerryGoRound, s: Controls, time: real): seq<Call>
    requires mgr.Valid()
  {
    if s.exit then [Clear] else [Clear] + FrameBody(lib, mgr, s.camera, time)
  }

  /** What a frame draws after the clear when the program is running. */
  function FrameBody(lib: Lib, mgr: MerryGoRounds.MerryGoRound, cam: Camera, time: real): seq<Call>
    requires mgr.Valid()
  {
    [UniformModelView(ModelView(lib, cam)), UniformTransformation(Identity4()), UniformNormalTransformation(Identity3())] +
    SceneCalls(lib, mgr, time)
  }

  /** The draws of the scene: the sign, then the merry-go-round. */
  function SceneCalls(lib: Lib, mgr: MerryGoRounds.MerryGoRound, time: real): seq<Call>
    requires mgr.Valid()
  {
    Signs.DrawSequence() + mgr.FrameTrace(lib, time, ParkPosition)
  }

  class Park {
    var time: real
    var exit: bool
    var lookEye: Vec3
    var lookAt: Vec3
    var lookUp: Vec3
    var cameraXform: Mat4
    /** How many times `render` asked for another animation frame. */
    var framesRequested: nat

    const mgr: MerryGoRounds.MerryGoRound
    const sign: Signs.Sign
    /** The images handed to the GPU as texture units 0 and 1. */
    const checkered: seq<byte>
    const signTexture: seq<byte>

    predicate Valid()
    {
      mgr.Valid()
    }

    /** The controls as one value. */
    function State(): Controls
      reads this
    {
      Controls(Camera(lookEye, lookAt, lookUp, cameraXform), exit)
    }

    /** The page's globals and `init`: the clock at 0, not quit, the initial camera,
        the merry-go-round, the sign and the two texture images; `init` then renders
        the first frame, so the clock stands at one step, that frame is drawn on `gl`
        and one further frame is requested. */
    constructor (lib: Lib, random: nat -> Vec3, gl: Context)
      modifies gl
      ensures Valid()
      ensures time == TimeStep && framesRequested == 1
      ensures State() == Controls(InitialCamera, false)
      ensures gl.trace == old(gl.trace) + FrameCalls(lib, mgr, State(), TimeStep)
      ensures |checkered| == |signTexture| == Textures.ImageBytes
      ensures forall r, c :: 0 <= r < 32 && 0 <= c < 32 ==> Textures.Pixel(checkered, r, c) == Textures.CheckerPixel(r, c)
      ensures forall r, c :: 0 <= r < 32 && 0 <= c < 32 ==> Textures.Pixel(signTexture, r, c).a == 255
      ensures forall r, c :: 30 <= r < 32 && 0 <= c < 32 ==> Textures.Pixel(signTexture, r, c) == Textures.Grey
    {
      time := 0.0;
      exit := false;
      lookEye := InitialCamera.lookEye;
      lookAt := InitialCamera.lookAt;
      lookUp := InitialCamera.lookUp;
      cameraXform := InitialCamera.cameraXform;
      framesRequested := 0;
      mgr := new MerryGoRounds.MerryGoRound(lib, random);
      sign := new Signs.Sign();
      var texChecker := Textures.FillArrayCheckered();
      var texSign := Textures.FillArrayMGR();
      checkered := texChecker[..];
      signTexture := texSign[..];
      new;
      Render(lib, gl);
    }

    /** `moveCamera` for a key press with code `key`. */
    method MoveCamera(lib: Lib, key: int)
      modifies this
      ensures State() == KeyStep(lib, old(State()), key)
      ensures time == old(time) && framesRequested == old(framesRequested)
    {
      if key == KeyW {
        lookEye := Add(lookEye, MultV(Stride, lookAt));
      } else if key == KeyS {
        lookEye := Subtract(lookEye, MultV(Stride, lookAt));
      } else if key == KeyA {
        cameraXform := Mult(lib.rotateY(-2.0), cameraXform);
        var direction := Vec3(lib.cos(lib.radians(-2.0)), 0.0, lib.sin(lib.radians(-2.0)));
        lookAt := Add(direction, lookAt);
      } else if key == KeyD {
        cameraXform := Mult(lib.rotateY(2.0), cameraXform);
        var direction := Vec3(lib.cos(lib.radians(2.0)), 0.0, lib.sin(lib.radians(2.0)));
        lookAt := Subtract(lookAt, direction);
      } else if key == KeyQ {
        exit := true;
      } else if key == KeyR {
        lookEye := Vec3(-3.0, 3.0, -3.0);
        lookAt := Vec3(6.0, 0.0, 6.0);
        lookUp := Vec3(0.0, 1.0, 0.0);
        cameraXform := Identity4();
      }
    }

    /** One animation frame: the clock advances, the buffers are cleared, and unless
        the program was quit the scene is drawn and another frame requested. */
    method Render(lib: Lib, gl: Context)
      requires Valid()
      modifies this, gl
      ensures time == old(time) + TimeStep
      ensures State() == old(State())
      ensures framesRequested == old(framesRequested) + if exit then 0 else 1
      ensures gl.trace == old(gl.trace) + FrameCalls(lib, mgr, State(), time)
    {
      time := time + TimeStep;
      gl.Clear();
      if exit {
        return;
      }
      DrawFrame(lib, gl);
      framesRequested := framesRequested + 1;
    }

    /** The camera and identity uploads, then the scene. */
    method DrawFrame(lib: Lib, gl: Context)
      requires Valid()
      modifies gl
      ensures gl.trace == old(gl.trace) + FrameBody(lib, mgr, State().camera, time)
    {
      var modelView := ModelView(lib, Camera(lookEye, lookAt, lookUp, cameraXform));
      gl.UniformModelView(modelView);
      gl.UniformTransformation(Identity4());
      gl.UniformNormalTransformation(Identity3());
      DrawScene(lib, gl, time);
    }

    /** The sign, then the merry-go-round at its place in the park. */
    method DrawScene(lib: Lib, gl: Context, time: real)
      requires Valid()
      modifies gl
      ensures gl.trace == old(gl.trace) + SceneCalls(lib, mgr, time)
    {
      sign.Render(gl);
      mgr.Render(lib, gl, time, ParkPosition);
    }
  }

  /** W then S puts the eye back where it was, and neither key moves anything but
      the eye. */
  lemma ForwardThenBack(lib: Lib, s: Controls)
    ensures KeyStep(lib, KeyStep(lib, s, KeyW), KeyS) == s
    ensures KeyStep(lib, s, KeyW).camera.(lookEye := s.camera.lookEye) == s.camera
    ensures KeyStep(lib, s, KeyS).camera.(lookEye := s.camera.lookEye) == s.camera
    ensures KeyStep(lib, s, KeyW).exit == KeyStep(lib, s, KeyS).exit == s.exit
  {
    var cam := s.camera;
    var d := MultV(Stride, cam.lookAt);
    assert Subtract(Add(cam.lookEye, d), d) == cam.lookEye;
  }

  /** S then W puts the eye back too. */
  lemma BackThenForward(lib: Lib, s: Controls)
    ensures KeyStep(lib, KeyStep(lib, s, KeyS), KeyW) == s
  {
    var cam := s.camera;
    var d := MultV(Stride, cam.lookAt);
    assert Add(Subtract(cam.lookEye, d), d) == cam.lookEye;
  }

  /** W moves the eye along `lookAT` scaled by 0.1 in x and z, and never vertically. */
  lemma ForwardStaysLevel(lib: Lib, s: Controls)
    ensures KeyStep(lib, s, KeyW).camera.lookEye.y == s.camera.lookEye.y
    ensures KeyStep(lib, s, KeyW).camera.lookEye.x == s.camera.lookEye.x + 0.1 * s.camera.lookAt.x
    ensures KeyStep(lib, s, KeyW).camera.lookEye.z == s.camera.lookEye.z + 0.1 * s.camera.lookAt.z
  {
  }

  /** A key other than W, S, A, D, Q and R changes nothing. */
  lemma OtherKeysIgnored(lib: Lib, s: Controls, key: int)
    requires key !in {KeyW, KeyS, KeyA, KeyD, KeyQ, KeyR}
    ensures KeyStep(lib, s, key) == s
  {
  }

  /** R restores the initial camera from any state, leaves `exit` alone, and a second
      R changes nothing. */
  lemma ResetRestores(lib: Lib, s: Controls)
    ensures KeyStep(lib, s, KeyR) == Controls(InitialCamera, s.exit)
    ensures KeyStep(lib, KeyStep(lib, s, KeyR), KeyR) == KeyStep(lib, s, KeyR)
  {
  }

  /** Once quit, the program stays quit whatever keys follow. */
  lemma {:induction false} QuitIsFinal(lib: Lib, s: Controls, keys: seq<int>)
    requires s.exit
    ensures Replay(lib, s, keys).exit
    decreases |keys|
  {
    if keys != [] {
      QuitIsFinal(lib, KeyStep(lib, s, keys[0]), keys[1..]);
    }
  }

  /** The controls after a run of key presses. */
  function Replay(lib: Lib, s: Controls, keys: seq<int>): Controls
    decreases |keys|
  {
    if keys == [] then s else Replay(lib, KeyStep(lib, s, keys[0]), keys[1..])
  }

  /** The program is quit after a run of key presses exactly when it was quit before
      or one of them was Q. */
  lemma {:induction false} QuitExactlyOnQ(lib: Lib, s: Controls, keys: seq<int>)
    ensures Replay(lib, s, keys).exit <==> s.exit || KeyQ in keys
    decreases |keys|
  {
    if keys != [] {
      QuitExactlyOnQ(lib, KeyStep(lib, s, keys[0]), keys[1..]);
      assert keys == [keys[0]] + keys[1..];
    }
  }

  /** Once quit, a frame is only a clear: no camera upload, no object drawn. While
      running, a frame starts with the clear and the camera upload and draws the
      sign before the merry-go-round. */
  lemma QuitFrameOnlyClears(lib: Lib, mgr: MerryGoRounds.MerryGoRound, s: Controls, time: real)
    requires mgr.Valid()
    ensures s.exit ==> FrameCalls(lib, mgr, s, time) == [Clear]
    ensures !s.exit ==> FrameCalls(lib, mgr, s, time)[..2] == [Clear, UniformModelView(ModelView(lib, s.camera))]
    ensures !s.exit ==> FrameCalls(lib, mgr, s, time)[4..5] == Signs.DrawSequence()
    ensures !s.exit ==> FrameCalls(lib, mgr, s, time)[5..] == mgr.FrameTrace(lib, time, ParkPosition)
  {
  }

  /** A turn left then right leaves the camera transform rotated by
      `rotateY(2) * rotateY(-2)`, but does not restore `lookAT`: both turns move it by
      `-sin(2 degrees)` in z, so it ends `2 sin(2 degrees)` lower in z while x is
      restored, given that cosine is even and sine odd. */
  lemma LeftThenRight(lib: Lib, s: Controls)
    requires lib.cos(lib.radians(-2.0)) == lib.cos(lib.radians(2.0))
    requires lib.sin(lib.radians(-2.0)) == -lib.sin(lib.radians(2.0))
    ensures KeyStep(lib, KeyStep(lib, s, KeyA), KeyD).camera.cameraXform ==
            Mult(lib.rotateY(2.0), Mult(lib.rotateY(-2.0), s.camera.cameraXform))
    ensures KeyStep(lib, KeyStep(lib, s, KeyA), KeyD).camera.lookAt ==
            Add(s.camera.lookAt, Vec3(0.0, 0.0, -2.0 * lib.sin(lib.radians(2.0))))
  {
  }
}
