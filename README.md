# Amusement Park: a verified model of the merry-go-round scene

This project models, in Dafny, the WebGL amusement park scene: a billboard sign
and a merry-go-round that turns and whose horses bob. The scene is built from the
primitive meshes `Cone`, `Sphere`, `ShortCube` and `Sign`, the composite `Horse`,
and an opaque `Cylinder`. The driver paints two 32 x 32 RGBA textures, steers the
camera from key presses and renders one animation frame at a time.

How the model is organised:

- `mv.dfy` (module `Mv`): the MV.js vectors and matrices that the scene uses
  with exact values. These are `add`, `subtract`, componentwise `mult`, `cross`,
  `dot`, 4 x 4 `mult`, `translate`, `scalem`, `mat4()` and `mat3()`.
- `host.dfy` (module `Host`): what the scene takes from its JavaScript host.
  - Duck-typed arguments (`JsArg`) and the colour check of the cone and cube.
  - The value a `Uint8Array` element keeps.
  - A `Lib` record of library functions whose code is not part of this model:
    `Math.sin/cos/atan/PI`, and MV.js `radians`, `normalize`, `rotate`,
    `rotateY`, `normalMatrix` and `lookAt`. It also holds the draws of a
    cylinder, and `vec3` of a non-triple.
- `gl.dfy` (module `Gl`): the WebGL context as a recorded trace of calls.
  - The calls are draw calls (mode, first vertex, count, or an element count and
    offset), uniform uploads and clears.
  - `Tiles` and `Covered` say when a run of draws reads consecutive,
    non-overlapping ranges that cover the vertex array.
- `cone.dfy`, `spheres.dfy`, `shortcube.dfy`, `sign.dfy`: the mesh builders.
  - Each constructor fills its attribute arrays in loops, as the source does.
  - Specification functions (`PointAt`, `NormalAt`, `TexCoordAt`, ...) give the
    value of every slot.
  - Each `Render` appends a fixed draw sequence to the trace.
- `cylinder.dfy`, `horse.dfy`: the cylinder stand-in and the horse (head cone,
  then body cube).
- `merrygoround.dfy`: the ride.
  - The constructor builds the local transform tables and the four arms.
  - `Render(time, position)` appends, for each of the 13 parts in order, the
    upload of `world * local` and its normal matrix, then the part's draws.
- `textures.dfy`: `fillArrayCheckered` and `fillArrayMGR` as in-place writes to
  a 4096-byte array.
- `amusementpark.dfy`: the driver.
  - The page's globals and the camera controls form the class `Park`.
  - `moveCamera` is proved against the pure transition `KeyStep`.
  - `render` is proved against the frame's call sequence `FrameCalls`.

Observations the proofs make precise:

- The cone's second fan reads only apex copies, so every triangle it draws has
  three equal corners.
- A cone's byte index buffer is exact only up to 63 sectors.
- The short cube has 37 colours and 216 texture coordinates for 36 vertices.
- The sign has 12 texture selectors for 6 vertices.
- The A and D keys are not inverse: A then D moves `lookAT` by
  `-2 sin(2 degrees)` in z.

## Model

| member | source | states |
|---|---|---|
| Host.ToUint8 | MerryGoRound/cone.js:107 | an index stored in the `Uint8Array` element buffer keeps its value exactly when it is below 256 |
| Cones.VertexColors | MerryGoRound/cone.js:25-40 | one colour per vertex: the given colour for every vertex when the colour check passes, otherwise the k-th random colour for vertex k |
| Cones.ColorsFollowValidity | MerryGoRound/cone.js:25-40 | a valid colour (array of 3 numbers in [0, 1]) is copied to every vertex; any other argument sends every vertex to the random branch |
| Cones.LateralStep | MerryGoRound/cone.js:48-54 | step i of the side loop yields the ring point (cos, 0, sin) of angle i * radians(360/n), the normalised side normal, and u = i/n |
| Cones.SideVertices | MerryGoRound/cone.js:47-68 | the side loop fills the first 2n + 2 slots of points, normals, texCoords and texindex as specified, and pushes index 2n + 2 + 2i for each step i |
| Cones.CapVertices | MerryGoRound/cone.js:71-87 | the cap loop fills the remaining 2n + 2 slots (same positions, normals down/up) and completes the index buffer |
| Cones.Indices | MerryGoRound/cone.js:66-85 | the index buffer has 2n + 2 entries, all in the cap block [2n + 2, 4n + 4); the first n + 1 are even (ring copies), the rest odd (apex copies) |
| Cones.StepValues | MerryGoRound/cone.js:47-87 | the four slots of step i: ring point and apex in both blocks, the shared side normal in the lateral block, (0,-1,0) and (0,1,0) in the cap block, texcoords (i/n, 0) and (i/n, 1) |
| Cones.Cone.constructor | MerryGoRound/cone.js:10-122 | all five attribute arrays have 4n + 4 entries with the specified point, normal, colour, texcoord and texindex 1.0 in every slot; the element buffer is the byte image of the indices |
| Cones.Cone.Render | MerryGoRound/cone.js:164-166 | render draws a strip over [0, 2n + 2), then two fans of n + 1 elements at element offsets 0 and n + 1 |
| Cones.LateralBlockLayout | MerryGoRound/cone.js:47-64 | in the lateral block odd slots are the apex (0,1,0), even slots lie in y = 0, and slots 2i and 2i + 1 share one normal |
| Cones.CapRingVertex | MerryGoRound/cone.js:76-78 | the cap ring copy of step i lies in the cap block, in y = 0, with normal (0,-1,0) |
| Cones.CapApexVertex | MerryGoRound/cone.js:81-83 | the cap apex copy of step i lies in the cap block, at the apex, with normal (0,1,0) |
| Cones.FansHitCaps | MerryGoRound/cone.js:165-166 | for 1 <= n <= 63, every byte the first fan reads from the Uint8Array buffer is a cap ring vertex with normal (0,-1,0); every byte the second fan reads is an apex copy with normal (0,1,0), so that fan is degenerate |
| Cones.WideConeFanLeavesCap | MerryGoRound/cone.js:107 | with 64 sectors the first fan's element 64 wraps to byte 2, a lateral vertex and not a cap vertex, so the 63 bound of FansHitCaps is needed |
| Cones.DrawsSplitBuffers | MerryGoRound/cone.js:164-166 | the strip reads exactly the lateral block, and the two fans together read the whole byte buffer once, in order |
| Cones.TexCoordsInUnitSquare | MerryGoRound/cone.js:50-86 | every u = i/n is in [0, 1]; v is 0 on ring vertices and 1 on apex vertices |
| Cones.IndexBufferFitsBytes | MerryGoRound/cone.js:107 | the byte element buffer holds every index unchanged if and only if n <= 63 (largest index 4n + 3) |
| Spheres.TopCap | MerryGoRound/sphere.js:34-56 | the top pole and the top ring loop fill the first nLong + 2 slots as specified, with normal = normalize(point), grey colour and texindex 1.0 |
| Spheres.BottomCap | MerryGoRound/sphere.js:59-73 | the bottom pole and the bottom ring loop fill the next nLong + 2 slots as specified |
| Spheres.BandVertex | MerryGoRound/sphere.js:88-99 | one inner band step appends vertex j of band i on its upper and lower latitude line, keeping every slot as specified |
| Spheres.Bands | MerryGoRound/sphere.js:76-101 | the nested band loops fill all remaining slots up to the vertex count as specified |
| Spheres.Sphere.constructor | MerryGoRound/sphere.js:14-132 | all five attribute arrays have 1430 entries; each point is as specified, each normal is the normalised point, each colour (0.6,0.6,0.6), each texindex 1.0 |
| Spheres.BandDraws | MerryGoRound/sphere.js:174-177 | band strip i starts at 2(nLong + 2) + 2i(nLong + 1) and reads 2(nLong + 1) vertices |
| Spheres.Sphere.Render | MerryGoRound/sphere.js:171-177 | render draws the two pole fans, then one strip per band |
| Spheres.VertexCountIs1430 | MerryGoRound/sphere.js:9-10 | 2(nLong + 2) + (nLat - 2) * 2(nLong + 1) is 1430 for nLong = 20, nLat = 35 |
| Spheres.Poles | MerryGoRound/sphere.js:34-59 | vertex 0 is the top pole (0, R, 0) and vertex nLong + 2 the bottom pole (0, -R, 0) |
| Spheres.BottomMirrorsTop | MerryGoRound/sphere.js:51-68 | bottom-ring vertex i has the x and z of top-ring vertex i and the negated y |
| Spheres.BandTexCoords | MerryGoRound/sphere.js:94-98 | both vertices of a band step carry the same texcoord (j/nLong, i/nLat), u in [0, 1], v in [0, 1) |
| Spheres.BandsTile | MerryGoRound/sphere.js:174-177 | the band strips read consecutive, non-overlapping ranges from 2(nLong + 2) on |
| Spheres.DrawsPartitionVertices | MerryGoRound/sphere.js:171-177 | the draw ranges of render are contiguous, in bounds, pairwise disjoint and together read every vertex |
| ShortCubes.FaceVertices | MerryGoRound/shortCube.js:34-69 | 36 points and normals, one six-vertex block per face in the order front, right, bottom, top, back, left, each block with its face's normal |
| ShortCubes.VertexOfBlock | MerryGoRound/shortCube.js:34-69 | vertex k is corner k mod 6 of face k / 6 and carries that face's normal |
| ShortCubes.CubeColors | MerryGoRound/shortCube.js:72-74 | 37 colours, every one vec3(color), whether or not the colour is valid |
| ShortCubes.TexRepeatIndex | MerryGoRound/shortCube.js:78-80 | texture coordinate k is entry k mod 6 of the six-corner pattern |
| ShortCubes.CubeTexCoords | MerryGoRound/shortCube.js:78-82 | 216 texture coordinates (36 copies of the pattern) and 36 texture selectors, all 1.0 |
| ShortCubes.ShortCube.constructor | MerryGoRound/shortCube.js:10-113 | 36 points, normals and texindex entries, 37 colours all equal to vec3(color), 216 texcoords, faces laid out block by block |
| ShortCubes.DrawSequence | MerryGoRound/shortCube.js:152 | the one TRIANGLES draw reads exactly the 36 vertices |
| ShortCubes.ShortCube.Render | MerryGoRound/shortCube.js:152 | render draws TRIANGLES over [0, 36) |
| ShortCubes.FaceOnPlane | MerryGoRound/shortCube.js:35-67 | every corner p of a face with normal n has p . n = 0.5, except the shortened top where it is 0.2 |
| ShortCubes.NormalIsUnitAxis | MerryGoRound/shortCube.js:37-69 | each face normal is a unit vector along one axis |
| ShortCubes.CornerCoordinates | MerryGoRound/shortCube.js:35-67 | every x and z is -0.5 or 0.5 and every y is -0.5 or 0.2 |
| ShortCubes.SharedCorners | MerryGoRound/shortCube.js:35-80 | the corners shared by a face's two triangles are pushed twice with equal positions and equal texcoords, all in {0, 1}^2 |
| Signs.SignNormal | MerryGoRound/sign.js:28 | the normal cross((0,10,5), (10,0,-5)) is (-50, 50, -100), unnormalised |
| Signs.NormalsAndColors | MerryGoRound/sign.js:29-32 | six normals, all the given normal, and six colours, all (0.8, 0.8, 0.8) |
| Signs.TexIndices | MerryGoRound/sign.js:39-41 | twelve texture selectors, all 2.0 |
| Signs.Sign.constructor | MerryGoRound/sign.js:10-70 | the six points and texcoords as listed, six normals (-50, 50, -100), six grey colours, twelve selectors 2.0 |
| Signs.DrawSequence | MerryGoRound/sign.js:112 | the one TRIANGLES draw reads exactly the six points |
| Signs.Sign.Render | MerryGoRound/sign.js:112 | render draws TRIANGLES over [0, 6) |
| Signs.SharedCorners | MerryGoRound/sign.js:22-37 | points 1 and 4 are both (0, 10, 23), points 2 and 3 both (10, 0, 13), each duplicated pair has one texcoord, all texcoords in {0, 1}^2 |
| Signs.SignIsFlat | MerryGoRound/sign.js:22-28 | every corner lies in the plane through the first corner perpendicular to the normal |
| Signs.NormalOrthogonalToEdges | MerryGoRound/sign.js:22-28 | the normal is orthogonal to the segment between any two corners, so to every edge of both triangles |
| Horses.Horse.constructor | MerryGoRound/horse.js:10-18 | the body cube and the 30-sector head cone are built from the same colour argument |
| Horses.Horse.Render | MerryGoRound/horse.js:20-24 | render appends the head's draws, then the body's, and changes nothing else |
| Horses.HeadBeforeBody | MerryGoRound/horse.js:20-24 | a horse's trace is the cone's strip and two fans, then the cube's 36-vertex TRIANGLES draw |
| Horses.HeadIndicesFitBytes | MerryGoRound/horse.js:16 | with 30 sectors the largest index is 123, so every index survives the byte buffer |
| MerryGoRounds.ArmHorses | MerryGoRound/MerryGoRound.js:43-50 | four horse transforms translate * (rotate(90, axis_i) * scale), and four grey horses with 30-sector heads |
| MerryGoRounds.ArmPoles | MerryGoRound/MerryGoRound.js:53-57 | four pole transforms translate_i * poleScale, and four untextured 12-sector cylinders, pole i in horse colour i |
| MerryGoRounds.MerryGoRound.constructor | MerryGoRound/MerryGoRound.js:10-60 | the 25-sector grey foundation cone, the textured grey centre cylinder, the grey textured sphere with its vertex positions, the five fixed local transforms and the four arms |
| MerryGoRounds.WorldTransform | MerryGoRound/MerryGoRound.js:64-72 | the world transform is translation * rotateY(time), the translation applied only for an array of three numbers |
| MerryGoRounds.PositionTranslation | MerryGoRound/MerryGoRound.js:65-70 | the translation moves by exactly the position when it is an array of three numbers and is the identity otherwise, so the ride then only turns |
| MerryGoRounds.MerryGoRound.RenderPart | MerryGoRound/MerryGoRound.js:78-82 | one part render uploads world * local and its normal matrix, then appends the part's draws |
| MerryGoRounds.MerryGoRound.RenderShared | MerryGoRound/MerryGoRound.js:77-110 | base cone, rim cylinder, roof cone, centre cylinder and sphere are rendered in that order |
| MerryGoRounds.MerryGoRound.RenderPoles | MerryGoRound/MerryGoRound.js:112-119 | the four poles follow, each with world * polesXform[i] |
| MerryGoRounds.MerryGoRound.RenderHorses | MerryGoRound/MerryGoRound.js:121-131 | the four horses follow, each with world * (bob_i(time) * horseXform[i]) |
| MerryGoRounds.MerryGoRound.Render | MerryGoRound/MerryGoRound.js:62-133 | one render appends exactly the 13 part traces in order for the world transform of (time, position) |
| MerryGoRounds.RenderOrder | MerryGoRound/MerryGoRound.js:82-130 | 13 part renders: foundation, rim, roof, centre, sphere, poles 0..3, horses 0..3 |
| MerryGoRounds.ArmsAreQuarterTurns | MerryGoRound/MerryGoRound.js:36-40 | each arm offset and horse axis is the previous one turned a quarter about y, cyclically; all offsets have x^2 + z^2 = 17, horse at y = 2.5 above its pole at y = 0 |
| MerryGoRounds.SharedTransforms | MerryGoRound/MerryGoRound.js:24-28 | base, rim and roof transforms are exact translate * scale products with the scale on the diagonal and the offset in the last column; the centre is only scaled, the sphere only lifted |
| MerryGoRounds.PoleTransform | MerryGoRound/MerryGoRound.js:55 | each pole is scaled to (0.1, 5, 0.1) and moved to its arm's offset |
| MerryGoRounds.BobQuarterApart | MerryGoRound/MerryGoRound.js:123 | horse i + 1 is at the height horse i reaches 90 time units later |
| Textures.FillAll | MerryGoRound/AmusementParkDriver.js:193-199 | the first nested loop sets every one of the 4096 bytes to its channel of the given colour |
| Textures.PaintRun | MerryGoRound/AmusementParkDriver.js:372-383 | twelve writes set the colour channels of four pixels to blue and touch no other byte |
| Textures.PaintBlock | MerryGoRound/AmusementParkDriver.js:372-422 | one loop body paints the colour channels of a 4 x 4 block blue and touches nothing outside it |
| Textures.PaintBlockRow | MerryGoRound/AmusementParkDriver.js:371-423 | the inner block loop paints every block 8 columns apart in a band of four rows, nothing else |
| Textures.PaintFirstBlocks | MerryGoRound/AmusementParkDriver.js:370-423 | after the first block loop a pixel is blue exactly when its row and column are both in the first half of their period of 8 |
| Textures.PaintSecondBlocks | MerryGoRound/AmusementParkDriver.js:426-479 | after the second block loop a pixel is blue exactly when its row and column are in the same half of their period |
| Textures.FillArrayCheckered | MerryGoRound/AmusementParkDriver.js:353-481 | 4096 bytes; pixel (r, c) is (50, 50, 255, 255) when (r mod 8 < 4) = (c mod 8 < 4) and (255, 50, 50, 255) otherwise |
| Textures.CheckerAlternates | MerryGoRound/AmusementParkDriver.js:360-479 | neighbouring 4 x 4 squares differ across rows and columns; squares 8 apart, and diagonal neighbours, agree |
| Textures.PutColour | MerryGoRound/AmusementParkDriver.js:219-221 | three writes set one pixel's colour channels, stay below offset 3787 and keep alpha, the grey bottom rows and the byte values |
| Textures.PaintLetterBoxes | MerryGoRound/AmusementParkDriver.js:201-212 | the white M, G and R boxes keep every alpha at 255, rows 30-31 grey, and every byte in {0, 100, 255} |
| Textures.PaintVerticalStrokes | MerryGoRound/AmusementParkDriver.js:219-230 | the long vertical strokes keep the same three facts |
| Textures.PaintShortStrokes | MerryGoRound/AmusementParkDriver.js:232-256 | the short vertical strokes keep the same three facts |
| Textures.PaintHorizontalStrokes | MerryGoRound/AmusementParkDriver.js:261-281 | the horizontal strokes keep the same three facts |
| Textures.PaintArrowShaft | MerryGoRound/AmusementParkDriver.js:285-290 | the arrow shaft keeps the same three facts |
| Textures.PutHeadPixels | MerryGoRound/AmusementParkDriver.js:295-300 | one pair of arrow-head pixels keeps the same three facts |
| Textures.PaintArrowHead | MerryGoRound/AmusementParkDriver.js:292-343 | the arrow head keeps the same three facts |
| Textures.FillArrayMGR | MerryGoRound/AmusementParkDriver.js:186-345 | 4096 bytes, every write in bounds; every pixel opaque (alpha 255), rows 30 and 31 grey (100, 100, 100, 255), every byte 0, 100 or 255 |
| AmusementPark.KeyStep | MerryGoRound/AmusementParkDriver.js:130-176 | the program is quit after a key exactly when it was before or the key is Q; no key but R changes lookUP |
| AmusementPark.Park.constructor | MerryGoRound/AmusementParkDriver.js:14-95 | after `init` and its closing render: the clock one step past 0, not quit, the first frame on the GL trace, one frame requested, the initial camera, the merry-go-round, the sign, the checkerboard texture and the sign texture with its proved properties |
| AmusementPark.Park.MoveCamera | MerryGoRound/AmusementParkDriver.js:130-176 | a key press changes the controls as KeyStep says and leaves the clock and the frame count alone |
| AmusementPark.Park.Render | MerryGoRound/AmusementParkDriver.js:97-124 | the clock advances by 0.8 even after quitting; the controls do not change; the frame clears, then draws only while not quit; another frame is requested exactly when not quit |
| AmusementPark.Park.DrawFrame | MerryGoRound/AmusementParkDriver.js:106-122 | uploads cameraXform * lookAt(eye, eye + at, up), the identity transformation and normal matrix, then the scene |
| AmusementPark.Park.DrawScene | MerryGoRound/AmusementParkDriver.js:121-122 | the sign is drawn before the merry-go-round, which stands at (6, 0, 6) |
| AmusementPark.ForwardThenBack | MerryGoRound/AmusementParkDriver.js:133-140 | W then S restores the controls exactly; W and S change only lookEYE |
| AmusementPark.BackThenForward | MerryGoRound/AmusementParkDriver.js:133-140 | S then W restores the controls exactly |
| AmusementPark.ForwardStaysLevel | MerryGoRound/AmusementParkDriver.js:135 | W moves the eye by 0.1 lookAT in x and z and never vertically |
| AmusementPark.OtherKeysIgnored | MerryGoRound/AmusementParkDriver.js:173-174 | any key other than W, S, A, D, Q and R changes no state |
| AmusementPark.ResetRestores | MerryGoRound/AmusementParkDriver.js:166-172 | R restores lookEYE, lookAT, lookUP and cameraXform to their initial values from any state, leaves exit alone, and is idempotent |
| AmusementPark.QuitIsFinal | MerryGoRound/AmusementParkDriver.js:162-165 | once quit, no sequence of keys un-quits the program |
| AmusementPark.QuitExactlyOnQ | MerryGoRound/AmusementParkDriver.js:130-176 | after a run of keys the program is quit if and only if it was quit before or one of the keys was Q |
| AmusementPark.QuitFrameOnlyClears | MerryGoRound/AmusementParkDriver.js:102-122 | a quit frame is only the clear; a running frame is the clear, the camera upload, the identity uploads, the sign, then the merry-go-round |
| AmusementPark.LeftThenRight | MerryGoRound/AmusementParkDriver.js:141-161 | A then D composes rotateY(2) * rotateY(-2) onto cameraXform but moves lookAT by -2 sin(2 degrees) in z, so D does not undo A |

## Left out

- WebGL plumbing is not modelled. This covers buffer creation, binding and `bufferData`, attribute pointers and shader variable lookups. Each render is modelled by its draw calls and its transformation uploads only.
- Shader setup, the viewport, the clear colour, the projection upload and `enable(DEPTH_TEST)` in `init` are left out. They are one-time GL state with no logic.
- Texture upload is left out: `createTexture`, `texImage2D`, mipmaps and texture parameters. The park keeps the two painted images as byte sequences.
- Floating point is not modelled. Every number is an exact real, so "W then S restores the eye" holds exactly here but only approximately in the browser.
- Library functions are parameters, not computed. This covers `Math.sin/cos/atan/PI` and MV.js `radians`, `normalize`, `rotate`, `rotateY`, `normalMatrix` and `lookAt`, whose code is not part of this model. The lemmas that need a property of them, such as `LeftThenRight` with cosine even and sine odd, take it as a precondition.
- `Math.random` is a parameter giving the k-th random colour. The model captures only that the fallback branch is taken, not the values.
- cylinder.js is not part of this model. A `Cylinder` keeps its constructor arguments, and its `render` appends the draws the host library supplies for them.
- `Cones.Cone.constructor` requires at least one sector. The source divides by `nSectors` (`i / nSectors`, `360 / nSectors`), and a cone with 0 sectors would produce NaN coordinates, which exact reals cannot represent.
- `requestAnimFrame` scheduling is modelled only as a count of requested frames.
- Browser concerns are left out: `window.onload`, the keydown listener, `alert`, and `WebGLUtils.setupWebGL` failing.
- The globals `eye` and `originalEye` are never read, and the model leaves them out.
- `MerryGoRound.render` uses the globals `gl` and `program` rather than its own fields. The model passes the one context explicitly.
- Textures.FillArrayMGR: the contract does not state the exact pixel colours of the letters and the arrow. It states that every write stays in bounds and that every pixel stays opaque. It also states that rows 30 and 31 stay grey and that every byte is 0, 100 or 255.
- Textures.PaintLetterBoxes: states only the three facts above, not which pixels of the M, G and R boxes turn white.
- Textures.PaintVerticalStrokes: states only the three facts above, not which pixels of the long strokes turn green, blue or red.
- Textures.PaintShortStrokes: states only the three facts above, not which pixels of the short strokes take which colour.
- Textures.PaintHorizontalStrokes: states only the three facts above, not which pixels of the horizontal strokes take which colour.
- Textures.PaintArrowShaft: states only the three facts above, not which pixels of the shaft turn white.
- Textures.PutHeadPixels: states only the three facts above, not which two pixels turn white.
- Textures.PaintArrowHead: states only the three facts above, not which pixels of the arrow head turn white.
- The texture unit selector values (`texindex` 1.0 and 2.0) are modelled as numbers only. Their meaning in the fragment shader is not part of this model.
