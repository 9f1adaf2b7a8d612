/**
  The unit cube of src/Main.cpp (CreateCube): a fixed table of eight corners at
  +-0.5 and 36 indices, two triangles for each of the six faces in the order
  front, right, back, left, bottom, top.
 */
module Cube {
  import opened Geometry

  /** The corner table, front face (z = 0.5) first, then the back face (z = -0.5). */
  function CubeVertices(): seq<Vec3> {
    [Vec3(-0.5, -0.5, 0.5), Vec3(0.5, -0.5, 0.5), Vec3(0.5, 0.5, 0.5), Vec3(-0.5, 0.5, 0.5),
     Vec3(-0.5, -0.5, -0.5), Vec3(0.5, -0.5, -0.5), Vec3(0.5, 0.5, -0.5), Vec3(-0.5, 0.5, -0.5)]
  }

  datatype Face = Front | Right | Back | Left | Bottom | Top

  /** One face's two triangles, as its six table entries. */
  function FaceIndices(f: Face): seq<nat> {
    match f
    case Front => [0, 1, 2, 2, 3, 0]
    case Right => [1, 5, 6, 6, 2, 1]
    case Back => [7, 6, 5, 5, 4, 7]
    case Left => [4, 0, 3, 3, 7, 4]
    case Bottom => [4, 5, 1, 1, 0, 4]
    case Top => [3, 2, 6, 6, 7, 3]
  }

  /** The index table: the faces in the order front, right, back, left, bottom, top. */
  function CubeIndices(): seq<nat> {
    FaceIndices(Front) + FaceIndices(Right) + FaceIndices(Back) +
    FaceIndices(Left) + FaceIndices(Bottom) + FaceIndices(Top)
  }

  /** CreateCube: eight corners with every coordinate +-0.5, and 36 indices, all
      naming one of the eight corners, forming 12 triangles. */
  function CreateCube(): (m: Mesh<Vec3>)
    ensures |m.vertices| == 8 && |Flatten(m.vertices)| == 24 && |m.indices| == 36 == 3 * 12
    ensures forall c :: 0 <= c < 8 ==> OnCube(m.vertices[c])
    ensures forall k :: 0 <= k < 36 ==> m.indices[k] < 8
    ensures IndicesInRange(m)
  {
    CornersNamed();
    Mesh(CubeVertices(), CubeIndices())
  }

  predicate Half(a: real) {
    a == 0.5 || a == -0.5
  }

  /** A corner of the axis-aligned cube of side 1 centred on the origin. */
  predicate OnCube(v: Vec3) {
    Half(v.x) && Half(v.y) && Half(v.z)
  }

  /** Where each face's six indices start in the table. */
  function FaceStart(f: Face): nat {
    match f
    case Front => 0
    case Right => 6
    case Back => 12
    case Left => 18
    case Bottom => 24
    case Top => 30
  }

  /** The plane of each face: the coordinate it fixes and the value it fixes it at. */
  predicate OnFace(f: Face, v: Vec3) {
    match f
    case Front => v.z == 0.5
    case Right => v.x == 0.5
    case Back => v.z == -0.5
    case Left => v.x == -0.5
    case Bottom => v.y == -0.5
    case Top => v.y == 0.5
  }

  /** Every table entry names one of the eight corners. */
  lemma CornersNamed()
    ensures |CubeIndices()| == 36
    ensures forall k :: 0 <= k < 36 ==> CubeIndices()[k] < 8
  {
  }

  /** Each face's six entries sit at its place in the table. */
  lemma FaceTableLayout(f: Face)
    ensures FaceStart(f) + 6 <= |CubeIndices()|
    ensures CubeIndices()[FaceStart(f)..FaceStart(f) + 6] == FaceIndices(f)
  {
    var F := FaceIndices;
    var (before, after) := match f
      case Front => ([], F(Right) + F(Back) + F(Left) + F(Bottom) + F(Top))
      case Right => (F(Front), F(Back) + F(Left) + F(Bottom) + F(Top))
      case Back => (F(Front) + F(Right), F(Left) + F(Bottom) + F(Top))
      case Left => (F(Front) + F(Right) + F(Back), F(Bottom) + F(Top))
      case Bottom => (F(Front) + F(Right) + F(Back) + F(Left), F(Top))
      case Top => (F(Front) + F(Right) + F(Back) + F(Left) + F(Bottom), []);
    assert CubeIndices() == before + F(f) + after;
    assert |before| == FaceStart(f);
    assert (before + F(f) + after)[|before|..|before| + 6] == F(f);
  }

  /** Each face's two triangles use exactly the corners on that face's plane:
      every entry names a corner on the plane, and every corner on the plane is named. */
  lemma FacesUseTheirCorners(f: Face)
    ensures forall k :: 0 <= k < 6 ==> FaceIndices(f)[k] < 8 && OnFace(f, CubeVertices()[FaceIndices(f)[k]])
    ensures forall c :: 0 <= c < 8 && OnFace(f, CubeVertices()[c]) ==> c in FaceIndices(f)
  {
  }

  /** The three corners of triangle t. */
  function Triangle(t: nat): (Vec3, Vec3, Vec3)
    requires t < 12
  {
    CornersNamed();
    var vs := CubeVertices();
    var ix := CubeIndices();
    (vs[ix[3 * t]], vs[ix[3 * t + 1]], vs[ix[3 * t + 2]])
  }

  /** The dot product of the triangle's normal (b - a) x (c - a) with the corner a:
      positive when the normal points away from the cube's centre, that is when
      the triangle is wound counter-clockwise as seen from outside. */
  function Outwardness(a: Vec3, b: Vec3, c: Vec3): real {
    var u := Vec3(b.x - a.x, b.y - a.y, b.z - a.z);
    var v := Vec3(c.x - a.x, c.y - a.y, c.z - a.z);
    a.x * (u.y * v.z - u.z * v.y) + a.y * (u.z * v.x - u.x * v.z) + a.z * (u.x * v.y - u.y * v.x)
  }

  predicate FacesOutward(t: nat)
    requires t < 12
  {
    var (a, b, c) := Triangle(t);
    Outwardness(a, b, c) > 0.0
  }

  /** Every one of the twelve triangles is wound to face outward. */
  lemma TriangleFacesOutward(t: nat)
    requires t < 12
    ensures FacesOutward(t)
  {
    if t < 6 {
      FrontRightBackOutward(t);
    } else {
      LeftBottomTopOutward(t);
    }
  }

  lemma FrontRightBackOutward(t: nat)
    requires t < 6
    ensures FacesOutward(t)
  {
    var vs := CubeVertices();
    if t == 0 {
      assert Triangle(0) == (vs[0], vs[1], vs[2]);
    } else if t == 1 {
      assert Triangle(1) == (vs[2], vs[3], vs[0]);
    } else if t == 2 {
      assert Triangle(2) == (vs[1], vs[5], vs[6]);
    } else if t == 3 {
      assert Triangle(3) == (vs[6], vs[2], vs[1]);
    } else if t == 4 {
      assert Triangle(4) == (vs[7], vs[6], vs[5]);
    } else {
      assert Triangle(5) == (vs[5], vs[4], vs[7]);
    }
  }

  lemma LeftBottomTopOutward(t: nat)
    requires 6 <= t < 12
    ensures FacesOutward(t)
  {
    var vs := CubeVertices();
    if t == 6 {
      assert Triangle(6) == (vs[4], vs[0], vs[3]);
    } else if t == 7 {
      assert Triangle(7) == (vs[3], vs[7], vs[4]);
    } else if t == 8 {
      assert Triangle(8) == (vs[4], vs[5], vs[1]);
    } else if t == 9 {
      assert Triangle(9) == (vs[1], vs[0], vs[4]);
    } else if t == 10 {
      assert Triangle(10) == (vs[3], vs[2], vs[6]);
    } else {
      assert Triangle(11) == (vs[6], vs[7], vs[3]);
    }
  }
}
