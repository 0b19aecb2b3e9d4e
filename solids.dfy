/** The three solids built by createDodecahedron, createPyramid and
    createOctahedron: their literal vertex and index lists, the loops that
    repeat each face colour once per vertex of the face, and the objects
    that pair the finished mesh with an update rule. */
module Solids {
  import opened Geometry
  import opened Scene

  // =====================================================================
  // Dodecahedron: 12 pentagonal faces, each with its own 5 vertices.

  /** The 60 vertices (180 floats), five per face, face after face; the
      list is written one face (fifteen floats) at a time. */
  function DodecahedronVerts(): (verts: seq<Coord>)
    ensures |verts| == 180
  {
      // face 0
      [ Whole(0), Phi(false), InvPhi(true),
        Whole(1), Whole(-1), Whole(1),
        InvPhi(true), Whole(0), Phi(true),
        Whole(-1), Whole(-1), Whole(1),
        InvPhi(false), Whole(0), Phi(true) ] +
      // face 1
      [ Whole(0), Phi(true), InvPhi(true),
        Whole(1), Whole(1), Whole(1),
        InvPhi(true), Whole(0), Phi(true),
        Whole(-1), Whole(1), Whole(1),
        InvPhi(false), Whole(0), Phi(true) ] +
      // face 2
      [ InvPhi(true), Whole(0), Phi(true),
        Whole(1), Whole(1), Whole(1),
        Phi(true), InvPhi(true), Whole(0),
        Whole(1), Whole(-1), Whole(1),
        Phi(true), InvPhi(false), Whole(0) ] +
      // face 3
      [ InvPhi(false), Whole(0), Phi(true),
        Whole(-1), Whole(1), Whole(1),
        Phi(false), InvPhi(true), Whole(0),
        Whole(-1), Whole(-1), Whole(1),
        Phi(false), InvPhi(false), Whole(0) ] +
      // face 4
      [ Phi(true), InvPhi(false), Whole(0),
        Whole(1), Whole(-1), Whole(1),
        Whole(0), Phi(false), InvPhi(true),
        Whole(1), Whole(-1), Whole(-1),
        Whole(0), Phi(false), InvPhi(false) ] +
      // face 5
      [ Phi(false), InvPhi(false), Whole(0),
        Whole(-1), Whole(-1), Whole(1),
        Whole(0), Phi(false), InvPhi(true),
        Whole(-1), Whole(-1), Whole(-1),
        Whole(0), Phi(false), InvPhi(false) ] +
      // face 6
      [ Phi(false), InvPhi(true), Whole(0),
        Whole(-1), Whole(1), Whole(1),
        Whole(0), Phi(true), InvPhi(true),
        Whole(-1), Whole(1), Whole(-1),
        Whole(0), Phi(true), InvPhi(false) ] +
      // face 7
      [ Phi(true), InvPhi(true), Whole(0),
        Whole(1), Whole(1), Whole(1),
        Whole(0), Phi(true), InvPhi(true),
        Whole(1), Whole(1), Whole(-1),
        Whole(0), Phi(true), InvPhi(false) ] +
      // face 8
      [ InvPhi(true), Whole(0), Phi(false),
        Whole(1), Whole(1), Whole(-1),
        Phi(true), InvPhi(true), Whole(0),
        Whole(1), Whole(-1), Whole(-1),
        Phi(true), InvPhi(false), Whole(0) ] +
      // face 9
      [ InvPhi(false), Whole(0), Phi(false),
        Whole(-1), Whole(1), Whole(-1),
        Phi(false), InvPhi(true), Whole(0),
        Whole(-1), Whole(-1), Whole(-1),
        Phi(false), InvPhi(false), Whole(0) ] +
      // face 10
      [ Whole(0), Phi(true), InvPhi(false),
        Whole(1), Whole(1), Whole(-1),
        InvPhi(true), Whole(0), Phi(false),
        Whole(-1), Whole(1), Whole(-1),
        InvPhi(false), Whole(0), Phi(false) ] +
      // face 11
      [ Whole(0), Phi(false), InvPhi(false),
        Whole(1), Whole(-1), Whole(-1),
        InvPhi(true), Whole(0), Phi(false),
        Whole(-1), Whole(-1), Whole(-1),
        InvPhi(false), Whole(0), Phi(false) ]
  }

  /** One colour per face. */
  function DodecahedronFaceColors(): (colors: seq<Rgba>)
    ensures |colors| == 12
  {
    [
      [1.0, 0.0, 0.0, 1.0],
      [0.0, 1.0, 0.0, 1.0],
      [0.0, 0.0, 1.0, 1.0],
      [1.0, 1.0, 0.0, 1.0],
      [1.0, 0.0, 1.0, 1.0],
      [0.0, 1.0, 1.0, 1.0],
      [0.5, 0.0, 0.0, 1.0],
      [0.0, 0.5, 0.0, 1.0],
      [0.0, 0.0, 0.5, 1.0],
      [0.5, 0.5, 0.0, 1.0],
      [0.5, 0.0, 0.5, 1.0],
      [0.0, 0.5, 1.0, 1.0]
    ]
  }

  /** The 108 indices, written nine (one face's fan) at a time. */
  function DodecahedronIndices(): (indices: seq<int>)
    ensures |indices| == 108
  {
    [0, 1, 2, 0, 2, 4, 0, 3, 4] +
    [5, 6, 7, 5, 7, 9, 5, 8, 9] +
    [10, 11, 12, 10, 12, 14, 10, 13, 14] +
    [15, 16, 17, 15, 17, 19, 15, 18, 19] +
    [20, 21, 22, 20, 22, 24, 20, 23, 24] +
    [25, 26, 27, 25, 27, 29, 25, 28, 29] +
    [30, 31, 32, 30, 32, 34, 30, 33, 34] +
    [35, 36, 37, 35, 37, 39, 35, 38, 39] +
    [40, 41, 42, 40, 42, 44, 40, 43, 44] +
    [45, 46, 47, 45, 47, 49, 45, 48, 49] +
    [50, 51, 52, 50, 52, 54, 50, 53, 54] +
    [55, 56, 57, 55, 57, 59, 55, 58, 59]
  }

  /** The 180 floats make 60 vertices. */
  lemma DodecahedronVertexCount()
    ensures VertexCount(DodecahedronVerts()) == 60
  {
  }

  /** The face, and so the colour group, vertex v belongs to. */
  function DodecahedronFace(v: int): (face: int)
    ensures 0 <= v ==> 5 * face <= v < 5 * face + 5
    ensures 0 <= v < 60 ==> 0 <= face < 12
  {
    v / 5
  }

  /** The colour loop: each face colour is appended once for each of the
      face's five vertices, so vertex v gets the colour of face v / 5. */
  method DodecahedronColors() returns (vertexColors: seq<real>)
    ensures |vertexColors| == 4 * VertexCount(DodecahedronVerts())
    ensures forall v: nat :: v < VertexCount(DodecahedronVerts()) ==>
      VertexColor(vertexColors, v) == DodecahedronFaceColors()[DodecahedronFace(v)]
  {
    var faceColors := DodecahedronFaceColors();
    vertexColors := [];
    for f := 0 to |faceColors|
      invariant ColoredBy(vertexColors, 5 * f, faceColors, DodecahedronFace)
    {
      var color := faceColors[f];
      for j := 0 to 5
        invariant ColoredBy(vertexColors, 5 * f + j, faceColors, DodecahedronFace)
      {
        assert DodecahedronFace(5 * f + j) == f;
        ColoredByAppend(vertexColors, 5 * f + j, faceColors, DodecahedronFace);
        vertexColors := vertexColors + color;
      }
    }
    DodecahedronVertexCount();
  }

  /** The literal index list is the face-by-face fan list Fans(12). */
  lemma DodecahedronIndicesAreFans()
    ensures DodecahedronIndices() == Fans(12)
  {
    assert FanOf(0) == [0, 1, 2, 0, 2, 4, 0, 3, 4];
    assert FanOf(1) == [5, 6, 7, 5, 7, 9, 5, 8, 9];
    assert FanOf(2) == [10, 11, 12, 10, 12, 14, 10, 13, 14];
    assert FanOf(3) == [15, 16, 17, 15, 17, 19, 15, 18, 19];
    assert FanOf(4) == [20, 21, 22, 20, 22, 24, 20, 23, 24];
    assert FanOf(5) == [25, 26, 27, 25, 27, 29, 25, 28, 29];
    assert FanOf(6) == [30, 31, 32, 30, 32, 34, 30, 33, 34];
    assert FanOf(7) == [35, 36, 37, 35, 37, 39, 35, 38, 39];
    assert FanOf(8) == [40, 41, 42, 40, 42, 44, 40, 43, 44];
    assert FanOf(9) == [45, 46, 47, 45, 47, 49, 45, 48, 49];
    assert FanOf(10) == [50, 51, 52, 50, 52, 54, 50, 53, 54];
    assert FanOf(11) == [55, 56, 57, 55, 57, 59, 55, 58, 59];
    assert Fans(1) == FanOf(0);
  }

  /** The index list is the fan (0,1,2), (0,2,4), (0,3,4) over each face's
      five vertices in turn: 108 indices, all below 60, and
      the three corners of every triangle lie on one face. */
  lemma DodecahedronIndexLayout()
    ensures |DodecahedronIndices()| == 108
    ensures forall k :: 0 <= k < |DodecahedronIndices()| ==> 0 <= DodecahedronIndices()[k] < 60
    ensures forall t: nat :: t < 36 ==> Triangle(DodecahedronIndices(), t) == FanTriangle(t / 3, t % 3)
    ensures forall t: nat :: t < 36 ==>
      var tri := Triangle(DodecahedronIndices(), t);
      DodecahedronFace(tri.a) == DodecahedronFace(tri.b) == DodecahedronFace(tri.c) == t / 3
  {
    DodecahedronIndicesAreFans();
    FansLayout(12);
    forall t: nat | t < 36
      ensures var tri := Triangle(DodecahedronIndices(), t);
        DodecahedronFace(tri.a) == DodecahedronFace(tri.b) == DodecahedronFace(tri.c) == t / 3
    {
      var tri := Triangle(Fans(12), t);
      assert tri.a / 5 == t / 3 && tri.b / 5 == t / 3 && tri.c / 5 == t / 3;
    }
  }

  /** The mesh made of the literal lists and the loop's colours is well
      formed, and each of its triangles is drawn in one face colour. */
  lemma DodecahedronMeshSound(colors: seq<real>)
    requires |colors| == 4 * VertexCount(DodecahedronVerts())
    requires forall v: nat :: v < VertexCount(DodecahedronVerts()) ==>
      VertexColor(colors, v) == DodecahedronFaceColors()[DodecahedronFace(v)]
    ensures WellFormed(Mesh(DodecahedronVerts(), colors, DodecahedronIndices(), 3, 4, 108))
    ensures TrianglesOneColor(Mesh(DodecahedronVerts(), colors, DodecahedronIndices(), 3, 4, 108))
  {
    DodecahedronIndexLayout();
    var m := Mesh(DodecahedronVerts(), colors, DodecahedronIndices(), 3, 4, 108);
    assert WellFormed(m);
    forall t: nat | t < |m.indices| / 3
      ensures var tri := Triangle(m.indices, t);
        VertexColor(m.colors, tri.a) == VertexColor(m.colors, tri.b) == VertexColor(m.colors, tri.c)
    {
      var tri := Triangle(m.indices, t);
      assert 0 <= tri.a < 60 && 0 <= tri.b < 60 && 0 <= tri.c < 60;
    }
  }

  /** createDodecahedron: the literal geometry, the loop's colours, 108
      indices to draw, two rotation axes, placed at `translation` and time
      stamped with the creation time `now`. */
  method CreateDodecahedron(translation: Vec3, rotationAxis1: Vec3, rotationAxis2: Vec3, now: int)
    returns (dodecahedron: SceneObject)
    ensures fresh(dodecahedron)
    ensures dodecahedron.mesh.verts == DodecahedronVerts() && dodecahedron.mesh.indices == DodecahedronIndices()
    ensures dodecahedron.mesh.nIndices == 108
    ensures WellFormed(dodecahedron.mesh) && TrianglesOneColor(dodecahedron.mesh)
    ensures forall v: nat :: v < VertexCount(DodecahedronVerts()) ==>
      VertexColor(dodecahedron.mesh.colors, v) == DodecahedronFaceColors()[DodecahedronFace(v)]
    ensures dodecahedron.motion == SpinTwice(rotationAxis1, rotationAxis2)
    ensures dodecahedron.Current() == State(now, Translated(Identity, translation), true)
  {
    var verts := DodecahedronVerts();
    var vertexColors := DodecahedronColors();
    var indices := DodecahedronIndices();
    DodecahedronMeshSound(vertexColors);
    var mesh := Mesh(verts, vertexColors, indices, 3, 4, 108);
    dodecahedron := new SceneObject(mesh, SpinTwice(rotationAxis1, rotationAxis2), translation, now);
  }

  // =====================================================================
  // Pyramid: a pentagon of 5 vertices and five side triangles with their
  // own 3 vertices each.

  /** The 20 vertices (60 floats): the pentagon, then the five sides, each
      side being the apex (0, 3, 0) and two neighbouring pentagon corners. */
  function PyramidVerts(): (verts: seq<Coord>)
    ensures |verts| == 60
  {
      // pentagon
      [ Whole(1), Whole(0), Whole(0),
        CosFifths(1), Whole(0), SinFifths(1),
        CosFifths(2), Whole(0), SinFifths(2),
        CosFifths(3), Whole(0), SinFifths(3),
        CosFifths(4), Whole(0), SinFifths(4) ] +
      // side 0
      [ Whole(0), Whole(3), Whole(0),
        Whole(1), Whole(0), Whole(0),
        CosFifths(1), Whole(0), SinFifths(1) ] +
      // side 1
      [ Whole(0), Whole(3), Whole(0),
        CosFifths(1), Whole(0), SinFifths(1),
        CosFifths(2), Whole(0), SinFifths(2) ] +
      // side 2
      [ Whole(0), Whole(3), Whole(0),
        CosFifths(2), Whole(0), SinFifths(2),
        CosFifths(3), Whole(0), SinFifths(3) ] +
      // side 3
      [ Whole(0), Whole(3), Whole(0),
        CosFifths(3), Whole(0), SinFifths(3),
        CosFifths(4), Whole(0), SinFifths(4) ] +
      // side 4
      [ Whole(0), Whole(3), Whole(0),
        CosFifths(4), Whole(0), SinFifths(4),
        Whole(1), Whole(0), Whole(0) ]
  }

  /** One colour for the pentagon, one for each side. */
  function PyramidFaceColors(): (colors: seq<Rgba>)
    ensures |colors| == 6
  {
    [
      [1.0, 0.0, 0.0, 1.0],
      [0.0, 1.0, 0.0, 1.0],
      [0.0, 0.0, 1.0, 1.0],
      [1.0, 1.0, 0.0, 1.0],
      [1.0, 0.0, 1.0, 1.0],
      [0.0, 1.0, 1.0, 1.0]
    ]
  }

  /** The 24 indices: three pentagon triangles, then the five sides; the
      list is written one triangle at a time. */
  function PyramidIndices(): (indices: seq<int>)
    ensures |indices| == 24
  {
    [0, 1, 2] + [0, 2, 3] + [0, 3, 4] +
    [5, 6, 7] + [8, 9, 10] + [11, 12, 13] + [14, 15, 16] + [17, 18, 19]
  }

  lemma PyramidVertexCount()
    ensures VertexCount(PyramidVerts()) == 20
  {
  }

  /** The colour group of vertex v: 0 for the pentagon, 1 + i for side i. */
  function PyramidFace(v: int): (group: int)
    ensures 0 <= v < 20 ==>
      0 <= group < 6 && PyramidGroupStart(group) <= v < PyramidGroupStart(group + 1)
  {
    if v < 5 then 0 else (v - 5) / 3 + 1
  }

  /** How often the colour loop repeats colour i: five times for the
      pentagon, three times for each side. */
  function PyramidRepetitions(i: int): nat {
    if i == 0 then 5 else 3
  }

  /** The first vertex of colour group i: the vertices the loop has
      coloured before it reaches colour i. */
  function PyramidGroupStart(i: nat): (start: int)
    ensures i > 0 ==> start == 3 * i + 2
  {
    if i == 0 then 0 else PyramidGroupStart(i - 1) + PyramidRepetitions(i - 1)
  }

  /** Colour group 0 is vertices 0 .. 4 and group i in 1 .. 5 is vertices
      3i+2 .. 3i+4: five vertices for the pentagon, three for each side,
      twenty in all. */
  lemma PyramidGroups()
    ensures forall v: nat :: v < 20 ==> 0 <= PyramidFace(v) < |PyramidFaceColors()|
    ensures forall v: nat, i: nat :: i < |PyramidFaceColors()| ==>
      (PyramidFace(v) == i <==> PyramidGroupStart(i) <= v < PyramidGroupStart(i + 1))
    ensures PyramidGroupStart(|PyramidFaceColors()|) == VertexCount(PyramidVerts())
  {
    PyramidVertexCount();
  }

  /** The colour loop: colour 0 five times, each other colour three times,
      so vertex v gets the colour of group PyramidFace(v). */
  method PyramidColors() returns (vertexColors: seq<real>)
    ensures |vertexColors| == 4 * VertexCount(PyramidVerts())
    ensures forall v: nat :: v < VertexCount(PyramidVerts()) ==>
      VertexColor(vertexColors, v) == PyramidFaceColors()[PyramidFace(v)]
  {
    var faceColors := PyramidFaceColors();
    vertexColors := [];
    for i := 0 to |faceColors|
      invariant ColoredBy(vertexColors, PyramidGroupStart(i), faceColors, PyramidFace)
    {
      var repetitions := 3;
      if i == 0 {
        repetitions := 5;
      }
      assert repetitions == PyramidRepetitions(i);
      for j := 0 to repetitions
        invariant ColoredBy(vertexColors, PyramidGroupStart(i) + j, faceColors, PyramidFace)
      {
        assert PyramidFace(PyramidGroupStart(i) + j) == i;
        ColoredByAppend(vertexColors, PyramidGroupStart(i) + j, faceColors, PyramidFace);
        vertexColors := vertexColors + faceColors[i];
      }
    }
    PyramidVertexCount();
  }

  /** 24 indices, all below 20. */
  lemma PyramidIndexBounds()
    ensures |PyramidIndices()| == 24
    ensures forall k :: 0 <= k < |PyramidIndices()| ==> 0 <= PyramidIndices()[k] < 20
  {
  }

  /** The pentagon triangles come first, as (0, t+1, t+2); side triangle
      i = t - 3 follows as the three vertices 5+3i .. 7+3i. */
  lemma PyramidIndexLayout()
    ensures |PyramidIndices()| == 24
    ensures forall t: nat :: t < 3 ==> Triangle(PyramidIndices(), t) == Triple(0, t + 1, t + 2)
    ensures forall t: nat :: 3 <= t < 8 ==> Triangle(PyramidIndices(), t) == Triple(3 * t - 4, 3 * t - 3, 3 * t - 2)
  {
  }

  /** The three corners of pyramid triangle t share colour group 0 for the
      pentagon triangles and group t - 2 for the sides. */
  lemma PyramidTrianglesInGroup()
    ensures |PyramidIndices()| == 24
    ensures forall t: nat :: t < 8 ==>
      var tri := Triangle(PyramidIndices(), t);
      PyramidFace(tri.a) == PyramidFace(tri.b) == PyramidFace(tri.c) == if t < 3 then 0 else t - 2
  {
    PyramidIndexLayout();
    forall t: nat | t < 8
      ensures var tri := Triangle(PyramidIndices(), t);
        PyramidFace(tri.a) == PyramidFace(tri.b) == PyramidFace(tri.c) == if t < 3 then 0 else t - 2
    {
      if t >= 3 {
        var i := t - 3;
        assert Triangle(PyramidIndices(), t) == Triple(5 + 3 * i, 6 + 3 * i, 7 + 3 * i);
        assert (3 * i) / 3 == i && (3 * i + 1) / 3 == i && (3 * i + 2) / 3 == i;
      }
    }
  }

  /** The pyramid mesh is well formed and each triangle is one colour. */
  lemma PyramidMeshSound(colors: seq<real>)
    requires |colors| == 4 * VertexCount(PyramidVerts())
    requires forall v: nat :: v < VertexCount(PyramidVerts()) ==>
      VertexColor(colors, v) == PyramidFaceColors()[PyramidFace(v)]
    ensures WellFormed(Mesh(PyramidVerts(), colors, PyramidIndices(), 3, 4, 24))
    ensures TrianglesOneColor(Mesh(PyramidVerts(), colors, PyramidIndices(), 3, 4, 24))
  {
    PyramidIndexBounds();
    PyramidTrianglesInGroup();
    PyramidVertexCount();
    var m := Mesh(PyramidVerts(), colors, PyramidIndices(), 3, 4, 24);
    assert WellFormed(m);
    forall t: nat | t < |m.indices| / 3
      ensures var tri := Triangle(m.indices, t);
        VertexColor(m.colors, tri.a) == VertexColor(m.colors, tri.b) == VertexColor(m.colors, tri.c)
    {
      var tri := Triangle(m.indices, t);
      assert 0 <= tri.a < 20 && 0 <= tri.b < 20 && 0 <= tri.c < 20;
    }
  }

  /** createPyramid: the literal geometry, the loop's colours, 24 indices to
      draw, one rotation axis, placed at `translation` and time stamped with
      the creation time `now`. */
  method CreatePyramid(translation: Vec3, rotationAxis: Vec3, now: int) returns (pyramid: SceneObject)
    ensures fresh(pyramid)
    ensures pyramid.mesh.verts == PyramidVerts() && pyramid.mesh.indices == PyramidIndices()
    ensures pyramid.mesh.nIndices == 24
    ensures WellFormed(pyramid.mesh) && TrianglesOneColor(pyramid.mesh)
    ensures forall v: nat :: v < VertexCount(PyramidVerts()) ==>
      VertexColor(pyramid.mesh.colors, v) == PyramidFaceColors()[PyramidFace(v)]
    ensures pyramid.motion == Spin(rotationAxis)
    ensures pyramid.Current() == State(now, Translated(Identity, translation), true)
  {
    var verts := PyramidVerts();
    var vertexColors := PyramidColors();
    var indices := PyramidIndices();
    PyramidMeshSound(vertexColors);
    var mesh := Mesh(verts, vertexColors, indices, 3, 4, 24);
    pyramid := new SceneObject(mesh, Spin(rotationAxis), translation, now);
  }

  // =====================================================================
  // Octahedron: 8 triangular faces with their own 3 vertices each.

  /** The 24 vertices (72 floats), three per face, face after face; the
      list is written one face (nine floats) at a time. */
  function OctahedronVerts(): (verts: seq<Coord>)
    ensures |verts| == 72
  {
      // face 0
      [ Whole(0), Whole(1), Whole(0),
        Whole(1), Whole(0), Whole(1),
        Whole(-1), Whole(0), Whole(1) ] +
      // face 1
      [ Whole(0), Whole(1), Whole(0),
        Whole(1), Whole(0), Whole(1),
        Whole(1), Whole(0), Whole(-1) ] +
      // face 2
      [ Whole(0), Whole(1), Whole(0),
        Whole(-1), Whole(0), Whole(-1),
        Whole(-1), Whole(0), Whole(1) ] +
      // face 3
      [ Whole(0), Whole(1), Whole(0),
        Whole(-1), Whole(0), Whole(-1),
        Whole(1), Whole(0), Whole(-1) ] +
      // face 4
      [ Whole(0), Whole(-1), Whole(0),
        Whole(1), Whole(0), Whole(1),
        Whole(-1), Whole(0), Whole(1) ] +
      // face 5
      [ Whole(0), Whole(-1), Whole(0),
        Whole(1), Whole(0), Whole(1),
        Whole(1), Whole(0), Whole(-1) ] +
      // face 6
      [ Whole(0), Whole(-1), Whole(0),
        Whole(-1), Whole(0), Whole(-1),
        Whole(-1), Whole(0), Whole(1) ] +
      // face 7
      [ Whole(0), Whole(-1), Whole(0),
        Whole(-1), Whole(0), Whole(-1),
        Whole(1), Whole(0), Whole(-1) ]
  }

  /** One colour per face. */
  function OctahedronFaceColors(): (colors: seq<Rgba>)
    ensures |colors| == 8
  {
    [
      [1.0, 0.0, 0.0, 1.0],
      [0.5, 0.0, 0.5, 1.0],
      [0.0, 1.0, 0.0, 1.0],
      [0.0, 0.5, 0.5, 1.0],
      [0.0, 0.0, 1.0, 1.0],
      [1.0, 1.0, 0.0, 1.0],
      [1.0, 0.0, 1.0, 1.0],
      [0.0, 1.0, 1.0, 1.0]
    ]
  }

  /** The 24 indices 0, 1, ..., 23. */
  function OctahedronIndices(): (indices: seq<int>)
    ensures |indices| == 24
  {
    [0, 1, 2] + [3, 4, 5] + [6, 7, 8] + [9, 10, 11] +
    [12, 13, 14] + [15, 16, 17] + [18, 19, 20] + [21, 22, 23]
  }

  lemma OctahedronVertexCount()
    ensures VertexCount(OctahedronVerts()) == 24
  {
  }

  /** The face, and so the colour group, vertex v belongs to. */
  function OctahedronFace(v: int): (face: int)
    ensures 0 <= v ==> 3 * face <= v < 3 * face + 3
    ensures 0 <= v < 24 ==> 0 <= face < 8
  {
    v / 3
  }

  /** The colour loop: each face colour three times, so vertex v gets the
      colour of face v / 3. */
  method OctahedronColors() returns (vertexColors: seq<real>)
    ensures |vertexColors| == 4 * VertexCount(OctahedronVerts())
    ensures forall v: nat :: v < VertexCount(OctahedronVerts()) ==>
      VertexColor(vertexColors, v) == OctahedronFaceColors()[OctahedronFace(v)]
  {
    var faceColors := OctahedronFaceColors();
    vertexColors := [];
    for i := 0 to |faceColors|
      invariant ColoredBy(vertexColors, 3 * i, faceColors, OctahedronFace)
    {
      for j := 0 to 3
        invariant ColoredBy(vertexColors, 3 * i + j, faceColors, OctahedronFace)
      {
        assert OctahedronFace(3 * i + j) == i;
        ColoredByAppend(vertexColors, 3 * i + j, faceColors, OctahedronFace);
        vertexColors := vertexColors + faceColors[i];
      }
    }
    OctahedronVertexCount();
  }

  /** 24 indices, equal to nIndices, and index k is k itself: the list is
      exactly 0, 1, ..., 23. */
  lemma OctahedronIndexLayout()
    ensures |OctahedronIndices()| == 24
    ensures forall k :: 0 <= k < |OctahedronIndices()| ==> OctahedronIndices()[k] == k
  {
  }

  /** Triangle t is (3t, 3t+1, 3t+2), whose corners all lie in face t. */
  lemma OctahedronTrianglesInFace()
    ensures |OctahedronIndices()| == 24
    ensures forall t: nat :: t < 8 ==>
      var tri := Triangle(OctahedronIndices(), t);
      OctahedronFace(tri.a) == OctahedronFace(tri.b) == OctahedronFace(tri.c) == t
  {
    OctahedronIndexLayout();
    forall t: nat | t < 8
      ensures var tri := Triangle(OctahedronIndices(), t);
        OctahedronFace(tri.a) == OctahedronFace(tri.b) == OctahedronFace(tri.c) == t
    {
      assert Triangle(OctahedronIndices(), t) == Triple(3 * t, 3 * t + 1, 3 * t + 2);
      assert (3 * t) / 3 == t && (3 * t + 1) / 3 == t && (3 * t + 2) / 3 == t;
    }
  }

  /** The octahedron mesh is well formed and each triangle is one colour. */
  lemma OctahedronMeshSound(colors: seq<real>)
    requires |colors| == 4 * VertexCount(OctahedronVerts())
    requires forall v: nat :: v < VertexCount(OctahedronVerts()) ==>
      VertexColor(colors, v) == OctahedronFaceColors()[OctahedronFace(v)]
    ensures WellFormed(Mesh(OctahedronVerts(), colors, OctahedronIndices(), 3, 4, 24))
    ensures TrianglesOneColor(Mesh(OctahedronVerts(), colors, OctahedronIndices(), 3, 4, 24))
  {
    OctahedronIndexLayout();
    OctahedronTrianglesInFace();
    OctahedronVertexCount();
    var m := Mesh(OctahedronVerts(), colors, OctahedronIndices(), 3, 4, 24);
    assert WellFormed(m);
    forall t: nat | t < |m.indices| / 3
      ensures var tri := Triangle(m.indices, t);
        VertexColor(m.colors, tri.a) == VertexColor(m.colors, tri.b) == VertexColor(m.colors, tri.c)
    {
      var tri := Triangle(m.indices, t);
      assert 0 <= tri.a < 24 && 0 <= tri.b < 24 && 0 <= tri.c < 24;
    }
  }

  /** createOctahedron: the literal geometry, the loop's colours, 24 indices
      to draw, one rotation axis and the bounce, placed at `translation`,
      time stamped with `now` and starting upwards. */
  method CreateOctahedron(translation: Vec3, rotationAxis: Vec3, now: int) returns (octahedron: SceneObject)
    ensures fresh(octahedron)
    ensures octahedron.mesh.verts == OctahedronVerts() && octahedron.mesh.indices == OctahedronIndices()
    ensures octahedron.mesh.nIndices == 24
    ensures WellFormed(octahedron.mesh) && TrianglesOneColor(octahedron.mesh)
    ensures forall v: nat :: v < VertexCount(OctahedronVerts()) ==>
      VertexColor(octahedron.mesh.colors, v) == OctahedronFaceColors()[OctahedronFace(v)]
    ensures octahedron.motion == SpinAndBounce(rotationAxis)
    ensures octahedron.Current() == State(now, Translated(Identity, translation), true)
  {
    var verts := OctahedronVerts();
    var vertexColors := OctahedronColors();
    var indices := OctahedronIndices();
    OctahedronMeshSound(vertexColors);
    var mesh := Mesh(verts, vertexColors, indices, 3, 4, 24);
    octahedron := new SceneObject(mesh, SpinAndBounce(rotationAxis), translation, now);
  }
}
