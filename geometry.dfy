/** The unit-cube mesh the skybox is drawn with: a table of 24 vertex
    positions (four per face, no vertex shared between faces) and a table of
    36 triangle-list indices into it. Both are compile-time constants, so
    everything proved here is a fact about two fixed tables. */
module Geometry {

  /** The element type of the index buffer: an unsigned 16-bit integer. */
  type U16 = x: int | 0 <= x < 0x1_0000

  /** A vertex position `[x, y, z]`. Every coordinate in the table is
      exactly -1.0 or +1.0, which a 32-bit float holds exactly, so integers
      stand for them without loss and the cross products below are exact. */
  type Vec3 = v: seq<int> | |v| == 3 witness [0, 0, 0]

  /** The mesh's vertex record: a position and nothing else (the shader
      derives the sampling direction from it). */
  datatype Vertex = Vertex(position: Vec3)

  const CubeVertices: seq<Vertex> := [
    Vertex([-1, -1,  1]), Vertex([ 1, -1,  1]), Vertex([ 1,  1,  1]), Vertex([-1,  1,  1]),
    Vertex([ 1, -1,  1]), Vertex([ 1, -1, -1]), Vertex([ 1,  1, -1]), Vertex([ 1,  1,  1]),
    Vertex([-1, -1, -1]), Vertex([-1,  1, -1]), Vertex([ 1,  1, -1]), Vertex([ 1, -1, -1]),
    Vertex([-1, -1,  1]), Vertex([-1,  1,  1]), Vertex([-1,  1, -1]), Vertex([-1, -1, -1]),
    Vertex([-1, -1,  1]), Vertex([-1, -1, -1]), Vertex([ 1, -1, -1]), Vertex([ 1, -1,  1]),
    Vertex([-1,  1,  1]), Vertex([ 1,  1,  1]), Vertex([ 1,  1, -1]), Vertex([-1,  1, -1])
  ]

  const CubeIndices: seq<U16> := [
    0, 2, 1, 0, 3, 2, 4, 6, 5, 4, 7, 6, 8, 10, 9, 8, 11, 10, 12, 14, 13, 12, 15, 14, 16, 18, 17,
    16, 19, 18, 20, 22, 21, 20, 23, 22
  ]

  /** Number of faces of the cube; vertices 4k..4k+3 and indices 6k..6k+5
      belong to face k. */
  const FaceCount := 6

  datatype Axis = X | Y | Z {
    /** The position of this axis's coordinate in a `Vec3`. */
    function Index(): (i: nat)
      ensures i < 3
    {
      match this
      case X => 0
      case Y => 1
      case Z => 2
    }
  }

  function Coord(v: Vec3, a: Axis): int {
    v[a.Index()]
  }

  /** The unit vector along an axis. */
  function AxisVector(a: Axis): (u: Vec3)
    ensures forall b :: Coord(u, b) == if b == a then 1 else 0
  {
    match a
    case X => [1, 0, 0]
    case Y => [0, 1, 0]
    case Z => [0, 0, 1]
  }

  /** An axis-aligned plane `Coord(v, axis) == side`. */
  datatype Plane = Plane(axis: Axis, side: int)

  /** The plane each face's vertex group lies in, read off the vertex table
      face by face: z = +1, x = +1, z = -1, x = -1, y = -1, y = +1. */
  function FacePlane(k: nat): (p: Plane)
    requires k < FaceCount
    ensures p.side == 1 || p.side == -1
  {
    [Plane(Z, 1), Plane(X, 1), Plane(Z, -1), Plane(X, -1), Plane(Y, -1), Plane(Y, 1)][k]
  }

  /** The corner order in which each face's quad is split into two
      triangles: (0, 2, 1) and (0, 3, 2). */
  const QuadPattern: seq<nat> := [0, 2, 1, 0, 3, 2]

  /** The two triangles of face k, as they appear in the index table:
      (4k, 4k+2, 4k+1) and (4k, 4k+3, 4k+2). */
  function FaceIndices(k: nat): (s: seq<int>)
    ensures |s| == 6
    ensures forall j :: 0 <= j < |s| ==> s[j] == 4 * k + QuadPattern[j]
  {
    [4 * k, 4 * k + 2, 4 * k + 1, 4 * k, 4 * k + 3, 4 * k + 2]
  }

  predicate IsUnitCoord(c: int) {
    c == 1 || c == -1
  }

  /** Every coordinate of `v` is -1 or +1: `v` is a corner of [-1, 1]^3. */
  predicate IsCubeCorner(v: Vec3) {
    IsUnitCoord(v[0]) && IsUnitCoord(v[1]) && IsUnitCoord(v[2])
  }

  function Sub(a: Vec3, b: Vec3): Vec3 {
    [a[0] - b[0], a[1] - b[1], a[2] - b[2]]
  }

  function Cross(a: Vec3, b: Vec3): Vec3 {
    [a[1] * b[2] - a[2] * b[1], a[2] * b[0] - a[0] * b[2], a[0] * b[1] - a[1] * b[0]]
  }

  function Dot(a: Vec3, b: Vec3): int {
    a[0] * b[0] + a[1] * b[1] + a[2] * b[2]
  }

  function Scale(s: int, a: Vec3): Vec3 {
    [s * a[0], s * a[1], s * a[2]]
  }

  /** Entry i of the index table is entry i % 6 of face i / 6's pattern. */
  lemma IndexEntry(i: nat)
    requires i < |CubeIndices|
    ensures CubeIndices[i] == FaceIndices(i / 6)[i % 6]
  {
    var k, j := i / 6, i % 6;
    assert k == 0 || k == 1 || k == 2 || k == 3 || k == 4 || k == 5;
    assert j == 0 || j == 1 || j == 2 || j == 3 || j == 4 || j == 5;
  }

  /** The face structure of the index table: slice 6k..6k+5 holds exactly
      face k's two triangles. */
  lemma IndexFaceStructure()
    ensures |CubeIndices| == 6 * FaceCount
    ensures forall k :: 0 <= k < FaceCount ==> CubeIndices[6 * k .. 6 * k + 6] == FaceIndices(k)
  {
    forall k | 0 <= k < FaceCount
      ensures CubeIndices[6 * k .. 6 * k + 6] == FaceIndices(k)
    {
      forall j | 0 <= j < 6
        ensures CubeIndices[6 * k .. 6 * k + 6][j] == FaceIndices(k)[j]
      {
        assert (6 * k + j) / 6 == k && (6 * k + j) % 6 == j;
        IndexEntry(6 * k + j);
      }
    }
  }

  /** Every index names a vertex of the face its triangle belongs to, hence
      no triangle reaches into a neighbouring face's vertices. */
  lemma IndexWithinOwnFace()
    ensures forall i :: 0 <= i < |CubeIndices| ==> CubeIndices[i] / 4 == i / 6
  {
    forall i | 0 <= i < |CubeIndices|
      ensures CubeIndices[i] / 4 == i / 6
    {
      IndexEntry(i);
    }
  }

  /** The index table is a valid triangle list over the vertex table:
      36 entries, 12 triangles, every entry below 24. */
  lemma IndicesInRange()
    ensures |CubeVertices| == 24 && |CubeIndices| == 36
    ensures |CubeIndices| % 3 == 0 && |CubeIndices| / 3 == 12
    ensures forall i :: 0 <= i < |CubeIndices| ==> CubeIndices[i] < |CubeVertices|
  {
    IndexWithinOwnFace();
  }

  /** Every vertex is a corner of the cube [-1, 1]^3. */
  lemma VerticesAreCubeCorners()
    ensures forall i :: 0 <= i < |CubeVertices| ==> IsCubeCorner(CubeVertices[i].position)
  {
    forall i | 0 <= i < |CubeVertices|
      ensures IsCubeCorner(CubeVertices[i].position)
    {
      var k, j := i / 4, i % 4;
      assert k == 0 || k == 1 || k == 2 || k == 3 || k == 4 || k == 5;
      assert j == 0 || j == 1 || j == 2 || j == 3;
    }
  }

  /** Face k's square lies in face k's plane: its origin is on the plane and
      both edges are parallel to it. */
  lemma FaceSquareOnPlane(k: nat)
    requires k < FaceCount
    ensures Coord(FaceSquare(k).origin, FacePlane(k).axis) == FacePlane(k).side
    ensures Coord(FaceSquare(k).e1, FacePlane(k).axis) == 0
    ensures Coord(FaceSquare(k).e2, FacePlane(k).axis) == 0
  {
    assert k == 0 || k == 1 || k == 2 || k == 3 || k == 4 || k == 5;
  }

  /** A square whose origin is on an axis plane and whose edges are parallel
      to it has all four corners on that plane. */
  lemma SquareCornersOnPlane(s: Square, p: Plane, j: nat)
    requires j < 4
    requires Coord(s.origin, p.axis) == p.side
    requires Coord(s.e1, p.axis) == 0 && Coord(s.e2, p.axis) == 0
    ensures Coord(s.Corner(j), p.axis) == p.side
  {
  }

  /** The four vertices of group k lie in face k's plane. */
  lemma VerticesOnFacePlanes()
    ensures forall i :: 0 <= i < |CubeVertices| ==>
      Coord(CubeVertices[i].position, FacePlane(i / 4).axis) == FacePlane(i / 4).side
  {
    forall i | 0 <= i < |CubeVertices|
      ensures Coord(CubeVertices[i].position, FacePlane(i / 4).axis) == FacePlane(i / 4).side
    {
      VertexEntry(i);
      FaceSquareOnPlane(i / 4);
      SquareCornersOnPlane(FaceSquare(i / 4), FacePlane(i / 4), i % 4);
    }
  }

  /** Vertex j (0, 1 or 2) of triangle t, looked up through the index table. */
  function TriangleVertex(t: nat, j: nat): Vec3
    requires t < 12 && j < 3
  {
    IndicesInRange();
    CubeVertices[CubeIndices[3 * t + j]].position
  }

  /** The winding normal (b - a) x (c - a) of a triangle (a, b, c). */
  function WindingNormal(a: Vec3, b: Vec3, c: Vec3): Vec3 {
    Cross(Sub(b, a), Sub(c, a))
  }

  /** The winding normal of triangle t of the index table. */
  function Normal(t: nat): Vec3
    requires t < 12
  {
    WindingNormal(TriangleVertex(t, 0), TriangleVertex(t, 1), TriangleVertex(t, 2))
  }

  /** The inward normal of face k, scaled by 4 (twice the area of a
      triangle with legs of length 2). */
  function InwardNormal(k: nat): Vec3
    requires k < FaceCount
  {
    Scale(-4 * FacePlane(k).side, AxisVector(FacePlane(k).axis))
  }

  /** A point on face k's plane has dot product -4 with the face's inward
      normal: the normal points from the plane towards the origin. */
  lemma InwardNormalDot(k: nat, v: Vec3)
    requires k < FaceCount
    requires Coord(v, FacePlane(k).axis) == FacePlane(k).side
    ensures Dot(InwardNormal(k), v) == -4
  {
    assert k == 0 || k == 1 || k == 2 || k == 3 || k == 4 || k == 5;
  }

  function Add(a: Vec3, b: Vec3): Vec3 {
    [a[0] + b[0], a[1] + b[1], a[2] + b[2]]
  }

  /** A square given by one corner and its two edge vectors; its corners,
      in order around the boundary, are origin, origin + e1,
      origin + e1 + e2 and origin + e2. */
  datatype Square = Square(origin: Vec3, e1: Vec3, e2: Vec3) {
    function Corner(j: nat): Vec3
      requires j < 4
    {
      [origin, Add(origin, e1), Add(origin, Add(e1, e2)), Add(origin, e2)][j]
    }
  }

  /** The square each vertex group of the table traces out. */
  function FaceSquare(k: nat): Square
    requires k < FaceCount
  {
    [ Square([-1, -1,  1], [ 2, 0,  0], [0, 2,  0]),
      Square([ 1, -1,  1], [ 0, 0, -2], [0, 2,  0]),
      Square([-1, -1, -1], [ 0, 2,  0], [2, 0,  0]),
      Square([-1, -1,  1], [ 0, 2,  0], [0, 0, -2]),
      Square([-1, -1,  1], [ 0, 0, -2], [2, 0,  0]),
      Square([-1,  1,  1], [ 2, 0,  0], [0, 0, -2]) ][k]
  }

  /** Vertices 4k..4k+3 are the corners of face k's square, in boundary
      order. */
  lemma VertexEntry(i: nat)
    requires i < |CubeVertices|
    ensures CubeVertices[i].position == FaceSquare(i / 4).Corner(i % 4)
  {
    var k, j := i / 4, i % 4;
    assert k == 0 || k == 1 || k == 2 || k == 3 || k == 4 || k == 5;
    assert j == 0 || j == 1 || j == 2 || j == 3;
  }

  /** Splitting a square along the diagonal from corner 0 to corner 2 into
      the triangles (0, 2, 1) and (0, 3, 2) gives both the winding normal
      e2 x e1. */
  lemma SquareTriangleNormals(s: Square)
    ensures WindingNormal(s.Corner(0), s.Corner(2), s.Corner(1)) == Cross(s.e2, s.e1)
    ensures WindingNormal(s.Corner(0), s.Corner(3), s.Corner(2)) == Cross(s.e2, s.e1)
  {
    var u, w := s.e1, s.e2;
    var d := Add(u, w);
    assert Sub(s.Corner(2), s.Corner(0)) == d;
    assert Sub(s.Corner(1), s.Corner(0)) == u;
    assert Sub(s.Corner(3), s.Corner(0)) == w;
    assert d[1] * u[2] - d[2] * u[1] == w[1] * u[2] - w[2] * u[1];
    assert d[2] * u[0] - d[0] * u[2] == w[2] * u[0] - w[0] * u[2];
    assert d[0] * u[1] - d[1] * u[0] == w[0] * u[1] - w[1] * u[0];
    assert w[1] * d[2] - w[2] * d[1] == w[1] * u[2] - w[2] * u[1];
    assert w[2] * d[0] - w[0] * d[2] == w[2] * u[0] - w[0] * u[2];
    assert w[0] * d[1] - w[1] * d[0] == w[0] * u[1] - w[1] * u[0];
  }

  /** The winding normal of face k's square is its inward normal. */
  lemma FaceSquareInward(k: nat)
    requires k < FaceCount
    ensures Cross(FaceSquare(k).e2, FaceSquare(k).e1) == InwardNormal(k)
  {
    assert k == 0 || k == 1 || k == 2 || k == 3 || k == 4 || k == 5;
  }

  /** Vertex j of triangle t is corner QuadPattern[3h + j] of the square of
      face k, where t = 2k + h. */
  lemma TriangleVertexOnSquare(t: nat, j: nat)
    requires t < 12 && j < 3
    ensures TriangleVertex(t, j) == FaceSquare(t / 2).Corner(QuadPattern[3 * (t % 2) + j])
  {
    var k, h := t / 2, t % 2;
    var i := 3 * t + j;
    assert i / 6 == k && i % 6 == 3 * h + j;
    IndexEntry(i);
    var m := QuadPattern[3 * h + j];
    assert (4 * k + m) / 4 == k && (4 * k + m) % 4 == m;
    VertexEntry(4 * k + m);
  }

  /** Triangle t's winding normal is that of the square of its face. */
  lemma TriangleNormal(t: nat)
    requires t < 12
    ensures Normal(t) == Cross(FaceSquare(t / 2).e2, FaceSquare(t / 2).e1)
  {
    var s := FaceSquare(t / 2);
    TriangleVertexOnSquare(t, 0);
    TriangleVertexOnSquare(t, 1);
    TriangleVertexOnSquare(t, 2);
    SquareTriangleNormals(s);
    if t % 2 == 0 {
      assert TriangleVertex(t, 0) == s.Corner(0) && TriangleVertex(t, 1) == s.Corner(2) && TriangleVertex(t, 2) == s.Corner(1);
    } else {
      assert TriangleVertex(t, 0) == s.Corner(0) && TriangleVertex(t, 1) == s.Corner(3) && TriangleVertex(t, 2) == s.Corner(2);
    }
  }

  /** Each triangle's winding normal is four times the inward unit normal of
      its face: it is perpendicular to the face plane and points to the
      side of the plane the origin is on. */
  lemma TriangleInward(t: nat)
    requires t < 12
    ensures Normal(t) == InwardNormal(t / 2)
  {
    TriangleNormal(t);
    FaceSquareInward(t / 2);
  }

  lemma NormalsPointInward()
    ensures forall t :: 0 <= t < 12 ==> Normal(t) == InwardNormal(t / 2)
  {
    forall t | 0 <= t < 12
      ensures Normal(t) == InwardNormal(t / 2)
    {
      TriangleInward(t);
    }
  }

  /** Triangle t's winding normal is nonzero and points from its first corner
      towards the centre of the cube. */
  lemma TriangleFacesOrigin(t: nat)
    requires t < 12
    ensures Normal(t) != [0, 0, 0] && Dot(Normal(t), TriangleVertex(t, 0)) < 0
  {
    var k := t / 2;
    var p := FacePlane(k);
    TriangleInward(t);
    TriangleVertexOnSquare(t, 0);
    FaceSquareOnPlane(k);
    InwardNormalDot(k, TriangleVertex(t, 0));
    assert Coord(InwardNormal(k), p.axis) == -4 * p.side;
  }

  /** The cube is wound consistently and inward: every triangle's winding
      normal is nonzero and has negative dot product with its first corner,
      so it points towards the centre of the cube. */
  lemma WindingFacesOrigin()
    ensures forall t :: 0 <= t < 12 ==>
      Normal(t) != [0, 0, 0] && Dot(Normal(t), TriangleVertex(t, 0)) < 0
  {
    forall t | 0 <= t < 12
      ensures Normal(t) != [0, 0, 0] && Dot(Normal(t), TriangleVertex(t, 0)) < 0
    {
      TriangleFacesOrigin(t);
    }
  }

  /** The two triangles of a face have the same winding normal. */
  lemma FaceTrianglesShareNormal()
    ensures forall s, t :: 0 <= s < 12 && 0 <= t < 12 && s / 2 == t / 2 ==> Normal(s) == Normal(t)
  {
    NormalsPointInward();
  }
}
