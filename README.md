# 3d_figures.js in Dafny

`3d_figures.js` is a WebGL page that builds three solids (a dodecahedron, a
pentagonal pyramid and an octahedron) and animates them. Each builder fills
a literal vertex list, grows a per-vertex colour list with nested loops that
repeat each face colour once per vertex of the face, fills a literal
triangle index list and returns an object. That object holds the index
count, its model-view matrix, a timestamp and an `update` closure. Every
animation frame, `run` draws all objects, then calls every object's
`update`. The dodecahedron's update turns it about two axes. The pyramid's
turns it about one. The octahedron's turns it, then moves it up or down by
a flag that flips when the matrix's vertical translation passes ±3.1.

The model has four modules:

- `Geometry` (`geometry.dfy`):
  - symbolic vertex coordinates;
  - the coordinate function `rotateX`;
  - RGBA colour lists and the colour of a vertex;
  - meshes, their triangles and the well-formedness the draw call relies
    on (strides 3 and 4, `nIndices` equal to the index count, every index
    a vertex, whole triangles);
  - the per-group colouring of the first n vertices, which every colour
    loop keeps as its invariant;
  - the fan generator the dodecahedron's index list follows.
- `Scene` (`scene.dfy`):
  - the per-object animation state;
  - the update rule as a pure step function `Step`, and the rotations a
    transform has received, in order (`Rotations`);
  - a run of updates, `Replay`;
  - the class `SceneObject`, whose method `Update` changes the timestamp,
    the transform and the bounce flag in place, as the closures do.
- `Solids` (`solids.dfy`):
  - the three builders, each with its literal lists;
  - each colour loop as a method with loop invariants;
  - lemmas fixing every triangle of each literal index list and the colour
    group of its corners;
  - a `Create…` method returning a fresh `SceneObject`.
- `Frame` (`frame.dfy`): `draw` and one step of `run`, recorded as a trace
  of `Drawn` and `Updated` events.

Outside inputs become parameters:

- the clock `Date.now()` is the `now` argument of the constructor, of
  `Update` and of the frame's ticks;
- element 13 of the model-view matrix, which only the gl-matrix arithmetic
  could compute, is the `height` argument of `Update`.

The literal vertex and index lists keep the source's values in the
source's order. They are written as concatenations of one face (or one
triangle) at a time.

A model-view matrix is the history of what was applied to it (`Identity`,
`Translated`, `Rotated` with its angle in turns). The rotation angle is
`2π · fract`, with `fract = deltat / 5000`, so the angle in turns is exactly
`fract`.

The pyramid has a single apex `(0, 3, 0)`. Its pentagon is fanned from
vertex 0 as `(0,1,2)`, `(0,2,3)`, `(0,3,4)`, and each side triangle has its
own three vertices.

The dodecahedron's vertex list has 60 entries, five per face (180 floats).

## Model

| member | source | states |
|---|---|---|
| Geometry.RotateX | 3d_figures.js:76-78 | a quarter turn about x: x is kept, and the new (y, z) has the old one's length, is perpendicular to it and is turned from y towards z; together these fix the result for every input |
| Geometry.RotateXTwice | 3d_figures.js:76-78 | two quarter turns about x negate y and z and keep x |
| Geometry.RotateXIsRotation | 3d_figures.js:76-78 | rotateX keeps the x coordinate and the squared length of the triple |
| Geometry.RotateXTimesAdd | 3d_figures.js:76-78 | applying rotateX m times, then n times, is applying it m + n times |
| Geometry.RotateXFour | 3d_figures.js:76-78 | four applications of rotateX give back the original triple |
| Geometry.RotateXPeriod | 3d_figures.js:76-78 | n applications of rotateX equal n mod 4 applications |
| Geometry.AppendColor | 3d_figures.js:297 | concatenating one RGBA colour adds four floats, gives the next vertex that colour and keeps all earlier vertex colours |
| Geometry.ColoredByAppend | 3d_figures.js:295-298 | if the first n vertices have the colours of their groups, appending the colour of vertex n's group extends that to n + 1 vertices |
| Geometry.FanTriangleInFace | 3d_figures.js:313-420 | every corner of the fans (5f,5f+1,5f+2), (5f,5f+2,5f+4), (5f,5f+3,5f+4) lies in face f, vertices 5f to 5f+4 |
| Geometry.FansTriangles | 3d_figures.js:312-421 | the fans of n faces hold 9n indices and triangle t is fan triangle t mod 3 of face t / 3 |
| Geometry.FansBounds | 3d_figures.js:312-421 | every index in the fans of n faces is between 0 and 5n − 1 |
| Geometry.FansLayout | 3d_figures.js:312-421 | the fans of n faces hold 9n indices; triangle t is fan triangle t mod 3 of face t / 3, so its corners lie in face t / 3; every index is below 5n |
| Scene.Fraction | 3d_figures.js:449-451 | `fract` times the 5000 ms period is exactly the elapsed time `deltat` |
| Scene.BounceDirection | 3d_figures.js:842-848 | the flag is false when the height is above 3.1, true when it is below −3.1, and kept otherwise |
| Scene.Step | 3d_figures.js:447-467 | an update (this one and lines 632-645, 828-863) sets the timestamp to `now`; the bounce rule sets the flag by the height checks and the spinning rules keep it |
| Scene.Replay | 3d_figures.js:448-450 | replaying no updates leaves the state alone; otherwise the timestamp ends at the last update's `now` |
| Scene.RotationsOfRotatedBy | 3d_figures.js:454-466 | a run of rotate calls adds exactly its turns, in order, to the transform's rotation history |
| Scene.StepRotations | 3d_figures.js:447-467 | an update (this one and lines 632-645, 828-863) appends exactly one rotation per axis of its rule, in the order of the rotate calls, each by (now − old timestamp) / 5000 of a full turn |
| Scene.SpinStep | 3d_figures.js:447-467 | the spinning updates (this one and the pyramid's at lines 632-645) only rotate: the new transform is the old one turned about each axis in order by the elapsed fraction, with no translation |
| Scene.StepTurns | 3d_figures.js:448-452 | the turns an update adds sum to the elapsed fraction once per axis |
| Scene.TurnedPerAxis | 3d_figures.js:447-467 | the turns an update adds are the number of its rotation axes times the per-rotation fraction: two axes for the dodecahedron, one for the others |
| Scene.FractionSplit | 3d_figures.js:449-451 | the fractions of two consecutive stretches of time add up to the fraction of the whole stretch |
| Scene.FullPeriodIsOneTurn | 3d_figures.js:9 | when 5000 ms have passed, one update appends exactly one full turn about each of its rule's axes, in order, so the total turn grows by the number of axes |
| Scene.ReplayElapsed | 3d_figures.js:448-451 | over any non-empty run of updates the timestamp ends at the last `now` and the total turn is (last `now` − first timestamp) / 5000 per axis, however the time was split into frames |
| Scene.BounceDirectionRule | 3d_figures.js:842-848 | the two threshold checks never both fire; the flag ends false above 3.1, true below −3.1 and unchanged otherwise |
| Scene.BounceStep | 3d_figures.js:850-862 | the bounce update rotates first, then translates by (0, ±fract·10, 0) with + exactly when the new flag is up; if time moved forward the step is upwards if and only if the flag is up |
| Scene.SpinIgnoresHeight | 3d_figures.js:447-467 | the spinning updates (dodecahedron, and the pyramid at lines 632-645) never read the matrix height and never change the flag |
| Scene.DirectionPersists | 3d_figures.js:826 | the flag survives, across calls, every run of bounce updates that never sees a height beyond ±3.1 |
| Scene.DirectionFollowsLastExtreme | 3d_figures.js:842-848 | after a run of bounce updates the flag is up exactly when the last height beyond ±3.1 was below −3.1 |
| Scene.SceneObject.constructor | 3d_figures.js:429-445 | a new object holds its mesh and update rule, its transform is the identity translated to its place, its timestamp is the creation time and its flag starts up (line 826) |
| Scene.SceneObject.Update | 3d_figures.js:828-863 | an update leaves the object in the state `Step` gives: timestamp `now`, and the flag false above 3.1, true below −3.1, otherwise kept; the flag is untouched by the spinning rules (lines 447-467, 632-645) |
| Solids.DodecahedronVerts | 3d_figures.js:89-270 | the literal vertex list, five vertices per face in the source's order: 180 floats |
| Solids.DodecahedronFaceColors | 3d_figures.js:278-291 | the literal list of 12 face colours |
| Solids.DodecahedronIndices | 3d_figures.js:312-421 | the literal index list: 108 indices |
| Solids.DodecahedronFace | 3d_figures.js:295-298 | the loop colours vertex v with colour v / 5: for v ≥ 0 the face f has 5f ≤ v < 5f + 5, and the 60 vertices fall in faces 0 to 11 |
| Solids.DodecahedronVertexCount | 3d_figures.js:89-270 | the 180 vertex floats make 60 vertices |
| Solids.DodecahedronColors | 3d_figures.js:293-299 | the colour loop yields 4 floats per vertex (240), and vertex v has the colour of face v / 5 |
| Solids.DodecahedronIndicesAreFans | 3d_figures.js:312-421 | the literal index list is exactly the three-triangle fan of each of the 12 faces in order |
| Solids.DodecahedronIndexLayout | 3d_figures.js:312-421 | 108 indices, all below 60; triangle t is fan triangle t mod 3 of face t / 3, and all three of its corners lie on face t / 3 |
| Solids.DodecahedronMeshSound | 3d_figures.js:429-439 | with the loop's colours and nIndices 108 the mesh is well formed and every triangle is a single face colour |
| Solids.CreateDodecahedron | 3d_figures.js:80-470 | a fresh object with the literal lists, nIndices 108, a well-formed single-colour-triangle mesh, face colours per vertex, the two-axis rule and the start state |
| Solids.PyramidVerts | 3d_figures.js:479-545 | the literal vertex list, the pentagon then the five sides: 60 floats |
| Solids.PyramidFaceColors | 3d_figures.js:553-560 | the literal list of 6 face colours |
| Solids.PyramidIndices | 3d_figures.js:585-610 | the literal index list: 24 indices |
| Solids.PyramidGroupStart | 3d_figures.js:564-572 | group i starts after the vertices the loop colours for colours 0 .. i − 1 (5 for the pentagon, 3 for each side), which is vertex 3i + 2 for i > 0 |
| Solids.PyramidFace | 3d_figures.js:562-572 | each of the 20 vertices lies in a group 0 to 5, between that group's start and the next group's start |
| Solids.PyramidVertexCount | 3d_figures.js:479-545 | the 60 vertex floats make 20 vertices |
| Solids.PyramidIndexBounds | 3d_figures.js:585-610 | 24 indices, equal to nIndices, all below 20 |
| Solids.PyramidGroups | 3d_figures.js:562-572 | colour group 0 is vertices 0 to 4 and group i is vertices 3i+2 to 3i+4; the six groups cover exactly the 20 vertices |
| Solids.PyramidColors | 3d_figures.js:562-572 | the loop repeats colour 0 five times and colours 1 to 5 three times: 4 floats per vertex (80), and vertex v has the colour of its group |
| Solids.PyramidIndexLayout | 3d_figures.js:585-610 | 24 indices; triangle t < 3 is the pentagon triangle (0, t+1, t+2) and triangle t ≥ 3 is the side (3t−4, 3t−3, 3t−2) |
| Solids.PyramidTrianglesInGroup | 3d_figures.js:586-609 | every corner of a pentagon triangle is in group 0, and every corner of side triangle i is in group i + 1 |
| Solids.PyramidMeshSound | 3d_figures.js:618-628 | with the loop's colours and nIndices 24 the mesh is well formed and every triangle is a single colour |
| Solids.CreatePyramid | 3d_figures.js:472-648 | a fresh object with the literal lists, nIndices 24, a well-formed single-colour-triangle mesh, group colours per vertex, the one-axis rule and the start state |
| Solids.OctahedronVerts | 3d_figures.js:657-737 | the literal vertex list, three vertices per face: 72 floats |
| Solids.OctahedronFaceColors | 3d_figures.js:745-754 | the literal list of 8 face colours |
| Solids.OctahedronIndices | 3d_figures.js:775-800 | the literal index list: 24 indices |
| Solids.OctahedronFace | 3d_figures.js:756-762 | the loop colours vertex v with colour v / 3: for v ≥ 0 the face f has 3f ≤ v < 3f + 3, and the 24 vertices fall in faces 0 to 7 |
| Solids.OctahedronVertexCount | 3d_figures.js:657-737 | the 72 vertex floats make 24 vertices |
| Solids.OctahedronColors | 3d_figures.js:756-762 | the loop yields 8 × 3 vertex colours (96 floats), and vertex v has the colour of face v / 3 |
| Solids.OctahedronIndexLayout | 3d_figures.js:775-800 | 24 indices and index k is k: the list is exactly 0, 1, …, 23 |
| Solids.OctahedronTrianglesInFace | 3d_figures.js:775-800 | triangle t is (3t, 3t+1, 3t+2), so its three corners lie on face t |
| Solids.OctahedronMeshSound | 3d_figures.js:808-818 | with the loop's colours and nIndices 24 the mesh is well formed and every triangle is a single face colour |
| Solids.CreateOctahedron | 3d_figures.js:650-866 | a fresh object with the literal lists, nIndices 24, a well-formed single-colour-triangle mesh, face colours per vertex, the spin-and-bounce rule and the start state with the flag up |
| Frame.UpdatePhaseLayout | 3d_figures.js:986 | the update phase over n objects is n events, event i being the update of object i |
| Frame.FrameOrdering | 3d_figures.js:984-986 | in a frame of that shape every draw precedes every update and object i is updated exactly once, at position n + i |
| Frame.TicksFor | 3d_figures.js:986 | an object receives at most one tick per list entry, and none when it is not in the list |
| Frame.TicksForCount | 3d_figures.js:986 | an object receives exactly one tick per occurrence in the list, so an object listed twice is updated twice |
| Frame.TicksForDistinct | 3d_figures.js:986 | in a list without repetitions each object receives exactly the tick at its own position |
| Frame.FrameOfPhases | 3d_figures.js:984-986 | the draw phase followed by the update phase has the frame shape, and each phase can be read back from it |
| Frame.Draw | 3d_figures.js:927-977 | one draw per object in list order, each carrying the object's current transform, strides and nIndices |
| Frame.UpdateAll | 3d_figures.js:986 | one update per object in list order, recorded as the update phase; each object ends in the state its update rule gives after the ticks it received (`TicksFor`), which is one update with its own tick when no object occurs twice |
| Frame.RunFrame | 3d_figures.js:979-987 | all n draws, with the transforms from before the frame, come first, then one update per list entry in order; afterwards every object is in the state its update rule gives after the ticks it received, which is one update with its own tick when no object occurs twice |

## Left out

- WebGL context creation, `alert` and viewport (lines 40-61), buffer creation and upload, shader compile and link, attribute and uniform lookup (lines 868-925): calls into the host GPU API.
- The projection matrix (`initGL`, lines 63-74, built with `mat4.perspective` and `mat4.translate`) and its upload in `draw` (line 962): gl-matrix floating-point arithmetic, and the same for every object.
- The GPU calls inside `draw` (clear, depth test, program, buffer binding, uniform upload): only what each draw call receives is recorded.
- The gl-matrix `mat4` library (`create`, `perspective`, `translate`, `rotate`): it is not part of this model and works in floating point. A transform is the symbolic history of these calls.
- Element 13 of the model-view matrix is an input to `Update`, not computed. So no claim is made that the octahedron's height stays within ±3.1 plus one step: `mat4.translate` moves along the rotated y axis.
- Vertex coordinate values (golden ratio, `Math.cos`, `Math.sin`): kept as symbolic `Coord` values; only their number and order are used.
- Scene.Fraction: `fract` is an exact rational, not a rounded double, and the angle is kept in turns, not radians.
- `Date.now()` is a parameter. The model allows any integers, including a clock that goes backwards.
- The `requestAnimationFrame` recursion of `run`: `RunFrame` is one frame step. The host's scheduling is not modelled.
- The undeclared globals `i` and `obj` shared by `draw` and `run` are loop-local variables here.
- The caller of `run` is not in the file, so the list of objects it is given is any list. The model covers a list that repeats an object: that object is updated once per entry.
- The `primtype` field (always `gl.TRIANGLES`) and the buffer handles are not recorded in draw events.
- `translationUp` is a closure variable of the octahedron builder (line 826). Here it is a field of every `SceneObject`, and only the bouncing rule reads or writes it.
- That the 60 dodecahedron vertices are 20 distinct points, each repeated on three faces, is not proved: coordinates are symbolic.
- Every `rotateX` property is about the pure function. The source returns a new array and never calls `rotateX`.
