/** Value-level building blocks shared by the three solids of 3d_figures.js:
    symbolic vertex coordinates, the coordinate rotation rotateX, per-vertex
    RGBA colour lists and triangle index lists. */
module Geometry {

  /** A vertex coordinate as it is written in the source. Only counts and
      indices matter to the model, so coordinates stay symbolic:
      Whole(n) is an integer literal, Phi/InvPhi are the golden ratio and its
      inverse (with a sign), CosFifths(k)/SinFifths(k) are cos and sin of
      2*pi*k/5. */
  datatype Coord =
    | Whole(n: int)
    | Phi(positive: bool)
    | InvPhi(positive: bool)
    | CosFifths(k: nat)
    | SinFifths(k: nat)

  /** A coordinate triple (a translation, a rotation axis, a point). */
  datatype Vec3 = Vec3(x: real, y: real, z: real)

  // ---------------------------------------------------------------------
  // rotateX

  /** The quarter turn about the x axis: x is kept and the (y, z) part
      turns a right angle, from y towards z, keeping its length. */
  function RotateX(coords: Vec3): (r: Vec3)
    ensures r.x == coords.x
    ensures r.y * coords.y + r.z * coords.z == 0.0
    ensures coords.y * r.z - coords.z * r.y == coords.y * coords.y + coords.z * coords.z
    ensures r.y * r.y + r.z * r.z == coords.y * coords.y + coords.z * coords.z
  {
    Vec3(coords.x, -coords.z, coords.y)
  }

  /** rotateX applied n times in a row. */
  function RotateXTimes(n: nat, coords: Vec3): Vec3 {
    if n == 0 then coords else RotateXTimes(n - 1, RotateX(coords))
  }

  /** Two quarter turns are the half turn (x, y, z) -> (x, -y, -z). */
  lemma RotateXTwice(coords: Vec3)
    ensures RotateX(RotateX(coords)) == Vec3(coords.x, -coords.y, -coords.z)
  {
  }

  /** rotateX keeps the x coordinate and the squared length. */
  lemma RotateXIsRotation(coords: Vec3)
    ensures RotateX(coords).x == coords.x
    ensures var r := RotateX(coords);
      r.x * r.x + r.y * r.y + r.z * r.z == coords.x * coords.x + coords.y * coords.y + coords.z * coords.z
  {
  }

  /** Applying rotateX m times and then n times is applying it m + n times. */
  lemma {:induction false} RotateXTimesAdd(m: nat, n: nat, coords: Vec3)
    ensures RotateXTimes(m + n, coords) == RotateXTimes(n, RotateXTimes(m, coords))
  {
    if m > 0 {
      RotateXTimesAdd(m - 1, n, RotateX(coords));
    }
  }

  /** Four quarter turns give back the original triple. */
  lemma RotateXFour(coords: Vec3)
    ensures RotateXTimes(4, coords) == coords
  {
    var r1 := RotateX(coords);
    var r2 := RotateX(r1);
    var r3 := RotateX(r2);
    assert RotateXTimes(1, r3) == RotateX(r3);
    assert RotateXTimes(4, coords) == RotateXTimes(3, r1) == RotateXTimes(2, r2) == RotateXTimes(1, r3);
    RotateXTwice(coords);
    RotateXTwice(r2);
  }

  /** rotateX has period four: only n mod 4 matters. */
  lemma {:induction false} RotateXPeriod(n: nat, coords: Vec3)
    ensures RotateXTimes(n, coords) == RotateXTimes(n % 4, coords)
  {
    if n >= 4 {
      RotateXTimesAdd(4, n - 4, coords);
      RotateXFour(coords);
      RotateXPeriod(n - 4, coords);
    }
  }

  // ---------------------------------------------------------------------
  // Colours

  /** One face colour: the four floats r, g, b, a. */
  type Rgba = c: seq<real> | |c| == 4 witness [0.0, 0.0, 0.0, 1.0]

  /** The RGBA quadruple of vertex v in a flat colour list. */
  function VertexColor(colors: seq<real>, v: nat): seq<real>
    requires 4 * v + 4 <= |colors|
  {
    colors[4 * v .. 4 * v + 4]
  }

  /** Appending a colour leaves the colours of earlier vertices alone and
      gives the next vertex exactly that colour. */
  lemma AppendColor(colors: seq<real>, color: Rgba)
    requires |colors| % 4 == 0
    ensures |colors + color| == |colors| + 4
    ensures forall v: nat :: 4 * v + 4 <= |colors| ==> VertexColor(colors + color, v) == VertexColor(colors, v)
    ensures VertexColor(colors + color, |colors| / 4) == color
  {
    forall v: nat | 4 * v + 4 <= |colors|
      ensures VertexColor(colors + color, v) == VertexColor(colors, v)
    {
      assert (colors + color)[4 * v .. 4 * v + 4] == colors[4 * v .. 4 * v + 4];
    }
    assert (colors + color)[|colors| .. |colors| + 4] == color;
  }

  /** The first n vertices are coloured by `group`: four floats each, and
      vertex v has colour faceColors[group(v)]. */
  predicate ColoredBy(colors: seq<real>, n: nat, faceColors: seq<Rgba>, group: int -> int) {
    && |colors| == 4 * n
    && forall v: nat :: v < n ==>
      0 <= group(v) < |faceColors| && VertexColor(colors, v) == faceColors[group(v)]
  }

  /** Appending the colour of vertex n's group colours one more vertex. */
  lemma ColoredByAppend(colors: seq<real>, n: nat, faceColors: seq<Rgba>, group: int -> int)
    requires ColoredBy(colors, n, faceColors, group)
    requires 0 <= group(n) < |faceColors|
    ensures ColoredBy(colors + faceColors[group(n)], n + 1, faceColors, group)
  {
    AppendColor(colors, faceColors[group(n)]);
  }

  // ---------------------------------------------------------------------
  // Meshes and their triangles

  /** The per-shape data a builder hands to the GPU: vertex floats, colour
      floats, the triangle index list and the declared sizes. */
  datatype Mesh = Mesh(
    verts: seq<Coord>,
    colors: seq<real>,
    indices: seq<int>,
    vertSize: nat,
    colorSize: nat,
    nIndices: int)

  /** Number of vertices: three floats each. */
  function VertexCount(verts: seq<Coord>): nat {
    |verts| / 3
  }

  /** The three vertex indices of triangle t. */
  datatype Triple = Triple(a: int, b: int, c: int)

  function Triangle(indices: seq<int>, t: nat): Triple
    requires 3 * t + 3 <= |indices|
  {
    Triple(indices[3 * t], indices[3 * t + 1], indices[3 * t + 2])
  }

  /** The layout the draw call relies on: strides 3 and 4, whole vertices,
      four colour floats per vertex, nIndices equal to the index list length,
      whole triangles and every index a valid vertex. */
  predicate WellFormed(m: Mesh) {
    && m.vertSize == 3
    && m.colorSize == 4
    && |m.verts| % 3 == 0
    && |m.colors| == 4 * VertexCount(m.verts)
    && m.nIndices == |m.indices|
    && |m.indices| % 3 == 0
    && (forall k :: 0 <= k < |m.indices| ==> 0 <= m.indices[k] < VertexCount(m.verts))
  }

  /** Every triangle of a well-formed mesh has one colour at all three corners. */
  predicate TrianglesOneColor(m: Mesh)
    requires WellFormed(m)
  {
    forall t: nat :: t < |m.indices| / 3 ==>
      var tri := Triangle(m.indices, t);
      VertexColor(m.colors, tri.a) == VertexColor(m.colors, tri.b) == VertexColor(m.colors, tri.c)
  }

  // ---------------------------------------------------------------------
  // Index list generators

  /** The three-triangle fan over the five vertices 5f .. 5f+4 of face f:
      (0,1,2), (0,2,4), (0,3,4) relative to 5f. */
  function FanOf(f: int): seq<int> {
    var b := 5 * f;
    [b, b + 1, b + 2, b, b + 2, b + 4, b, b + 3, b + 4]
  }

  /** The fans of faces 0 .. n-1, one after the other. */
  function Fans(n: nat): seq<int> {
    if n == 0 then [] else Fans(n - 1) + FanOf(n - 1)
  }

  /** Triangle j (0, 1 or 2) of the fan over face f. */
  function FanTriangle(f: int, j: int): Triple {
    var b := 5 * f;
    if j == 0 then Triple(b, b + 1, b + 2)
    else if j == 1 then Triple(b, b + 2, b + 4)
    else Triple(b, b + 3, b + 4)
  }

  /** The corners of a fan triangle of face f all lie in face f. */
  lemma FanTriangleInFace(f: nat, j: int)
    ensures var tri := FanTriangle(f, j);
      tri.a / 5 == f && tri.b / 5 == f && tri.c / 5 == f
  {
  }

  /** Fans(n) holds 9n indices, and triangle t is fan triangle t % 3 of
      face t / 3. */
  lemma {:induction false} FansTriangles(n: nat)
    ensures |Fans(n)| == 9 * n
    ensures forall t: nat :: t < 3 * n ==> Triangle(Fans(n), t) == FanTriangle(t / 3, t % 3)
  {
    if n > 0 {
      FansTriangles(n - 1);
      var prev, last := Fans(n - 1), FanOf(n - 1);
      forall t: nat | t < 3 * n
        ensures Triangle(Fans(n), t) == FanTriangle(t / 3, t % 3)
      {
        if t < 3 * (n - 1) {
          assert Triangle(Fans(n), t) == Triangle(prev, t);
        } else {
          var j := t - 3 * (n - 1);
          assert t / 3 == n - 1 && t % 3 == j;
          assert Triangle(Fans(n), t) == Triple(last[3 * j], last[3 * j + 1], last[3 * j + 2]);
        }
      }
    }
  }

  /** Every index of Fans(n) lies in 0 .. 5n-1. */
  lemma {:induction false} FansBounds(n: nat)
    ensures forall k :: 0 <= k < |Fans(n)| ==> 0 <= Fans(n)[k] < 5 * n
  {
    if n > 0 {
      FansBounds(n - 1);
      var prev, last := Fans(n - 1), FanOf(n - 1);
      forall k | 0 <= k < |Fans(n)|
        ensures 0 <= Fans(n)[k] < 5 * n
      {
        if k >= |prev| {
          assert Fans(n)[k] == last[k - |prev|];
        }
      }
    }
  }

  /** Fans(n) holds 9n indices, triangle t is fan triangle t % 3 of face t / 3,
      so its corners lie in face t / 3, and every index lies in 0 .. 5n-1. */
  lemma FansLayout(n: nat)
    ensures |Fans(n)| == 9 * n
    ensures forall t: nat :: t < 3 * n ==> Triangle(Fans(n), t) == FanTriangle(t / 3, t % 3)
    ensures forall t: nat :: t < 3 * n ==>
      var tri := Triangle(Fans(n), t);
      tri.a / 5 == t / 3 && tri.b / 5 == t / 3 && tri.c / 5 == t / 3
    ensures forall k :: 0 <= k < |Fans(n)| ==> 0 <= Fans(n)[k] < 5 * n
  {
    FansTriangles(n);
    FansBounds(n);
    forall t: nat | t < 3 * n {
      FanTriangleInFace(t / 3, t % 3);
    }
  }
}
