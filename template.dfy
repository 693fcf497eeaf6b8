/** The unit cube every leaf of the sponge is a copy of: six faces of four
    corners at +-0.5, each face with one outward normal, in the fixed order
    -Z, +Z, +X, -X, +Y, -Y. */
module CubeTemplate {
  import opened Geometry

  /** Corner q of face p, as a homogeneous point. */
  function Corner(p: nat, q: nat): Vec4
    requires p < 6 && q < 4
  {
    match p
    case 0 => // -Z
      (match q
      case 0 => Vec4(-0.5, -0.5, -0.5, 1.0)
      case 1 => Vec4( 0.5, -0.5, -0.5, 1.0)
      case 2 => Vec4( 0.5,  0.5, -0.5, 1.0)
      case _ => Vec4(-0.5,  0.5, -0.5, 1.0))
    case 1 => // +Z
      (match q
      case 0 => Vec4(-0.5, -0.5,  0.5, 1.0)
      case 1 => Vec4( 0.5, -0.5,  0.5, 1.0)
      case 2 => Vec4( 0.5,  0.5,  0.5, 1.0)
      case _ => Vec4(-0.5,  0.5,  0.5, 1.0))
    case 2 => // +X
      (match q
      case 0 => Vec4( 0.5, -0.5, -0.5, 1.0)
      case 1 => Vec4( 0.5, -0.5,  0.5, 1.0)
      case 2 => Vec4( 0.5,  0.5,  0.5, 1.0)
      case _ => Vec4( 0.5,  0.5, -0.5, 1.0))
    case 3 => // -X
      (match q
      case 0 => Vec4(-0.5, -0.5, -0.5, 1.0)
      case 1 => Vec4(-0.5, -0.5,  0.5, 1.0)
      case 2 => Vec4(-0.5,  0.5,  0.5, 1.0)
      case _ => Vec4(-0.5,  0.5, -0.5, 1.0))
    case 4 => // +Y
      (match q
      case 0 => Vec4(-0.5,  0.5, -0.5, 1.0)
      case 1 => Vec4( 0.5,  0.5, -0.5, 1.0)
      case 2 => Vec4( 0.5,  0.5,  0.5, 1.0)
      case _ => Vec4(-0.5,  0.5,  0.5, 1.0))
    case _ => // -Y
      (match q
      case 0 => Vec4(-0.5, -0.5, -0.5, 1.0)
      case 1 => Vec4( 0.5, -0.5, -0.5, 1.0)
      case 2 => Vec4( 0.5, -0.5,  0.5, 1.0)
      case _ => Vec4(-0.5, -0.5,  0.5, 1.0))
  }

  /** The normal stored with every corner of face p. */
  function FaceNormal(p: nat): Vec3
    requires p < 6
  {
    match p
    case 0 => Vec3( 0.0,  0.0, -1.0)  // -Z
    case 1 => Vec3( 0.0,  0.0,  1.0)  // +Z
    case 2 => Vec3( 1.0,  0.0,  0.0)  // +X
    case 3 => Vec3(-1.0,  0.0,  0.0)  // -X
    case 4 => Vec3( 0.0,  1.0,  0.0)  // +Y
    case _ => Vec3( 0.0, -1.0,  0.0)  // -Y
  }

  /** Component e (x, y, z, w for e = 0, 1, 2, 3) of a homogeneous vector. */
  function Coord(v: Vec4, e: nat): real
    requires e < 4
  {
    if e == 0 then v.x else if e == 1 then v.y else if e == 2 then v.z else v.w
  }

  /** A normal as a homogeneous direction (w = 0). */
  function Direction(n: Vec3): Vec4
  {
    Vec4(n.x, n.y, n.z, 0.0)
  }

  /** The 24 corners, face by face, flattened to 96 reals: points (w = 1)
      whose coordinates are all +-0.5, the corners of the unit cube. */
  function StartingPos(): (r: seq<real>)
    ensures |r| == 96
    ensures forall i | 0 <= i < 96 && i % 4 == 3 :: r[i] == 1.0
    ensures forall i | 0 <= i < 96 && i % 4 < 3 :: r[i] == 0.5 || r[i] == -0.5
  {
    seq(96, i requires 0 <= i < 96 => Coord(Corner(i / 16, (i % 16) / 4), i % 4))
  }

  /** The 24 corner normals, face by face, flattened to 96 reals:
      directions (w = 0) along one axis of length 1, and wherever a normal is
      not zero the corner it is stored with sits at half of it, so it points
      away from the cube's centre. */
  function StartingNormals(): (r: seq<real>)
    ensures |r| == 96
    ensures forall i | 0 <= i < 96 && i % 4 == 3 :: r[i] == 0.0
    ensures forall i | 0 <= i < 96 && i % 4 < 3 :: r[i] == 0.0 || r[i] == 1.0 || r[i] == -1.0
    ensures forall i | 0 <= i < 96 && i % 4 < 3 && r[i] != 0.0 :: StartingPos()[i] == 0.5 * r[i]
    ensures forall v | 0 <= v < 24 :: OneAxis(r[4 * v], r[4 * v + 1], r[4 * v + 2])
  {
    seq(96, i requires 0 <= i < 96 => Coord(Direction(FaceNormal(i / 16)), i % 4))
  }

  /** Exactly one of x, y, z is not zero: with components in {0, 1, -1}, a
      vector of length 1 along one axis. */
  predicate OneAxis(x: real, y: real, z: real)
  {
    (x != 0.0 && y == 0.0 && z == 0.0) ||
    (x == 0.0 && y != 0.0 && z == 0.0) ||
    (x == 0.0 && y == 0.0 && z != 0.0)
  }

  /** Entry 16p + 4q + e of the flat templates is component e of corner q of
      face p, and of that corner's normal. */
  lemma TemplateAt(p: nat, q: nat, e: nat)
    requires p < 6 && q < 4 && e < 4
    ensures StartingPos()[16 * p + 4 * q + e] == Coord(Corner(p, q), e)
    ensures StartingNormals()[16 * p + 4 * q + e] == Coord(Direction(FaceNormal(p)), e)
  {
    var i := 16 * p + 4 * q + e;
    assert i / 16 == p && (i % 16) / 4 == q && i % 4 == e;
  }

  /** The four floats at 16 p + 4 q of the position template are corner q
      of face p. */
  lemma TemplateCorner(p: nat, q: nat)
    requires p < 6 && q < 4
    ensures |StartingPos()| == 96
    ensures Vec4(StartingPos()[16 * p + 4 * q], StartingPos()[16 * p + 4 * q + 1],
                 StartingPos()[16 * p + 4 * q + 2], StartingPos()[16 * p + 4 * q + 3]) == Corner(p, q)
  {
    var c, b := Corner(p, q), 16 * p + 4 * q;
    TemplateAt(p, q, 0);
    assert StartingPos()[b] == c.x;
    TemplateAt(p, q, 1);
    assert StartingPos()[b + 1] == c.y;
    TemplateAt(p, q, 2);
    assert StartingPos()[b + 2] == c.z;
    TemplateAt(p, q, 3);
    assert StartingPos()[b + 3] == c.w;
  }

  /** The two triangles of face p over the face's vertices 0 .. 3: the
      winding alternates with the parity of the face. */
  function Pattern(p: nat): seq<nat>
  {
    if p % 2 == 1 then [0, 1, 2, 2, 3, 0] else [2, 1, 0, 0, 3, 2]
  }

  /** The six vertex indices face p pushes when its first vertex is o. */
  function Winding(p: nat, o: int): seq<int>
  {
    seq(6, r requires 0 <= r < 6 => o + Pattern(p)[r])
  }

  /** Every index of a face's winding names one of the face's own four
      vertices, the same one whatever the base offset. */
  lemma WindingShifts(p: nat, o: int, r: nat)
    requires r < 6
    ensures |Winding(p, o)| == 6
    ensures Pattern(p)[r] < 4
    ensures Winding(p, o)[r] == o + Pattern(p)[r]
  {
  }

  /** Odd faces push (o, o + 1, o + 2, o + 2, o + 3, o). */
  lemma WindingOdd(p: nat, o: int)
    requires p % 2 == 1
    ensures Winding(p, o) == [o, o + 1, o + 2, o + 2, o + 3, o]
  {
    var w := Winding(p, o);
    forall r | 0 <= r < 6
      ensures w[r] == o + Pattern(p)[r]
    {
      WindingShifts(p, o, r);
    }
  }

  /** Even faces push (o + 2, o + 1, o, o, o + 3, o + 2). */
  lemma WindingEven(p: nat, o: int)
    requires p % 2 == 0
    ensures Winding(p, o) == [o + 2, o + 1, o, o, o + 3, o + 2]
  {
    var w := Winding(p, o);
    forall r | 0 <= r < 6
      ensures w[r] == o + Pattern(p)[r]
    {
      WindingShifts(p, o, r);
    }
  }

  /** Corner k (0, 1 or 2) of triangle tri (0 or 1) of face p, in the order
      the face's winding lists it. */
  function TriangleCorner(p: nat, tri: nat, k: nat): Vec4
    requires p < 6 && tri < 2 && k < 3
  {
    Corner(p, Pattern(p)[3 * tri + k])
  }

  /** Both triangles of every face are wound counter-clockwise seen from
      outside the cube: the geometric normal of each is exactly the face's
      outward normal. */
  lemma TemplateFacesOut(p: nat, tri: nat)
    requires p < 6 && tri < 2
    ensures TriangleNormal(TriangleCorner(p, tri, 0), TriangleCorner(p, tri, 1),
                           TriangleCorner(p, tri, 2)) == FaceNormal(p)
  {
    if p == 0 {
      BackFaceOut(tri);
    } else if p == 1 {
      FrontFaceOut(tri);
    } else if p == 2 {
      RightFaceOut(tri);
    } else if p == 3 {
      LeftFaceOut(tri);
    } else if p == 4 {
      TopFaceOut(tri);
    } else {
      assert p == 5;
      BottomFaceOut(tri);
    }
  }

  /** TemplateFacesOut for face 0 (-Z). */
  lemma BackFaceOut(tri: nat)
    requires tri < 2
    ensures TriangleNormal(TriangleCorner(0, tri, 0), TriangleCorner(0, tri, 1),
                           TriangleCorner(0, tri, 2)) == FaceNormal(0)
  {
    var a, b, c := TriangleCorner(0, tri, 0), TriangleCorner(0, tri, 1), TriangleCorner(0, tri, 2);
    if tri == 0 {
      assert a == Vec4(0.5, 0.5, -0.5, 1.0) && b == Vec4(0.5, -0.5, -0.5, 1.0) && c == Vec4(-0.5, -0.5, -0.5, 1.0);
      assert Edge(a, b) == Vec3(0.0, -1.0, 0.0) && Edge(a, c) == Vec3(-1.0, -1.0, 0.0);
    } else {
      assert a == Vec4(-0.5, -0.5, -0.5, 1.0) && b == Vec4(-0.5, 0.5, -0.5, 1.0) && c == Vec4(0.5, 0.5, -0.5, 1.0);
      assert Edge(a, b) == Vec3(0.0, 1.0, 0.0) && Edge(a, c) == Vec3(1.0, 1.0, 0.0);
    }
  }

  /** TemplateFacesOut for face 1 (+Z). */
  lemma FrontFaceOut(tri: nat)
    requires tri < 2
    ensures TriangleNormal(TriangleCorner(1, tri, 0), TriangleCorner(1, tri, 1),
                           TriangleCorner(1, tri, 2)) == FaceNormal(1)
  {
    var a, b, c := TriangleCorner(1, tri, 0), TriangleCorner(1, tri, 1), TriangleCorner(1, tri, 2);
    if tri == 0 {
      assert a == Vec4(-0.5, -0.5, 0.5, 1.0) && b == Vec4(0.5, -0.5, 0.5, 1.0) && c == Vec4(0.5, 0.5, 0.5, 1.0);
      assert Edge(a, b) == Vec3(1.0, 0.0, 0.0) && Edge(a, c) == Vec3(1.0, 1.0, 0.0);
    } else {
      assert a == Vec4(0.5, 0.5, 0.5, 1.0) && b == Vec4(-0.5, 0.5, 0.5, 1.0) && c == Vec4(-0.5, -0.5, 0.5, 1.0);
      assert Edge(a, b) == Vec3(-1.0, 0.0, 0.0) && Edge(a, c) == Vec3(-1.0, -1.0, 0.0);
    }
  }

  /** TemplateFacesOut for face 2 (+X). */
  lemma RightFaceOut(tri: nat)
    requires tri < 2
    ensures TriangleNormal(TriangleCorner(2, tri, 0), TriangleCorner(2, tri, 1),
                           TriangleCorner(2, tri, 2)) == FaceNormal(2)
  {
    var a, b, c := TriangleCorner(2, tri, 0), TriangleCorner(2, tri, 1), TriangleCorner(2, tri, 2);
    if tri == 0 {
      assert a == Vec4(0.5, 0.5, 0.5, 1.0) && b == Vec4(0.5, -0.5, 0.5, 1.0) && c == Vec4(0.5, -0.5, -0.5, 1.0);
      assert Edge(a, b) == Vec3(0.0, -1.0, 0.0) && Edge(a, c) == Vec3(0.0, -1.0, -1.0);
    } else {
      assert a == Vec4(0.5, -0.5, -0.5, 1.0) && b == Vec4(0.5, 0.5, -0.5, 1.0) && c == Vec4(0.5, 0.5, 0.5, 1.0);
      assert Edge(a, b) == Vec3(0.0, 1.0, 0.0) && Edge(a, c) == Vec3(0.0, 1.0, 1.0);
    }
  }

  /** TemplateFacesOut for face 3 (-X). */
  lemma LeftFaceOut(tri: nat)
    requires tri < 2
    ensures TriangleNormal(TriangleCorner(3, tri, 0), TriangleCorner(3, tri, 1),
                           TriangleCorner(3, tri, 2)) == FaceNormal(3)
  {
    var a, b, c := TriangleCorner(3, tri, 0), TriangleCorner(3, tri, 1), TriangleCorner(3, tri, 2);
    if tri == 0 {
      assert a == Vec4(-0.5, -0.5, -0.5, 1.0) && b == Vec4(-0.5, -0.5, 0.5, 1.0) && c == Vec4(-0.5, 0.5, 0.5, 1.0);
      assert Edge(a, b) == Vec3(0.0, 0.0, 1.0) && Edge(a, c) == Vec3(0.0, 1.0, 1.0);
    } else {
      assert a == Vec4(-0.5, 0.5, 0.5, 1.0) && b == Vec4(-0.5, 0.5, -0.5, 1.0) && c == Vec4(-0.5, -0.5, -0.5, 1.0);
      assert Edge(a, b) == Vec3(0.0, 0.0, -1.0) && Edge(a, c) == Vec3(0.0, -1.0, -1.0);
    }
  }

  /** TemplateFacesOut for face 4 (+Y). */
  lemma TopFaceOut(tri: nat)
    requires tri < 2
    ensures TriangleNormal(TriangleCorner(4, tri, 0), TriangleCorner(4, tri, 1),
                           TriangleCorner(4, tri, 2)) == FaceNormal(4)
  {
    var a, b, c := TriangleCorner(4, tri, 0), TriangleCorner(4, tri, 1), TriangleCorner(4, tri, 2);
    if tri == 0 {
      assert a == Vec4(0.5, 0.5, 0.5, 1.0) && b == Vec4(0.5, 0.5, -0.5, 1.0) && c == Vec4(-0.5, 0.5, -0.5, 1.0);
      assert Edge(a, b) == Vec3(0.0, 0.0, -1.0) && Edge(a, c) == Vec3(-1.0, 0.0, -1.0);
    } else {
      assert a == Vec4(-0.5, 0.5, -0.5, 1.0) && b == Vec4(-0.5, 0.5, 0.5, 1.0) && c == Vec4(0.5, 0.5, 0.5, 1.0);
      assert Edge(a, b) == Vec3(0.0, 0.0, 1.0) && Edge(a, c) == Vec3(1.0, 0.0, 1.0);
    }
  }

  /** TemplateFacesOut for face 5 (-Y). */
  lemma BottomFaceOut(tri: nat)
    requires tri < 2
    ensures TriangleNormal(TriangleCorner(5, tri, 0), TriangleCorner(5, tri, 1),
                           TriangleCorner(5, tri, 2)) == FaceNormal(5)
  {
    var a, b, c := TriangleCorner(5, tri, 0), TriangleCorner(5, tri, 1), TriangleCorner(5, tri, 2);
    if tri == 0 {
      assert a == Vec4(-0.5, -0.5, -0.5, 1.0) && b == Vec4(0.5, -0.5, -0.5, 1.0) && c == Vec4(0.5, -0.5, 0.5, 1.0);
      assert Edge(a, b) == Vec3(1.0, 0.0, 0.0) && Edge(a, c) == Vec3(1.0, 0.0, 1.0);
    } else {
      assert a == Vec4(0.5, -0.5, 0.5, 1.0) && b == Vec4(-0.5, -0.5, 0.5, 1.0) && c == Vec4(-0.5, -0.5, -0.5, 1.0);
      assert Edge(a, b) == Vec3(-1.0, 0.0, 0.0) && Edge(a, c) == Vec3(-1.0, 0.0, -1.0);
    }
  }

  /** Every face normal has unit length. */
  lemma FaceNormalUnit(p: nat)
    requires p < 6
    ensures Dot(FaceNormal(p), FaceNormal(p)) == 1.0
  {
  }

  /** Every corner is a point (w = 1) on the plane of its face: at distance
      0.5 from the centre in the direction of the face's normal, which
      therefore points outwards. */
  lemma CornerOnFace(p: nat, q: nat)
    requires p < 6 && q < 4
    ensures Corner(p, q).w == 1.0
    ensures Dot(Vec3(Corner(p, q).x, Corner(p, q).y, Corner(p, q).z), FaceNormal(p)) == 0.5
  {
  }
}
