/** Every triangle setLevel emits is front-facing from outside its cube: wound
    counter-clockwise about the normal stored with each of its vertices, so a
    renderer that culls clockwise triangles keeps exactly the outer side of
    every face. */
module SpongeOrientation {
  import opened Geometry
  import opened CubeTemplate
  import opened SpongeGeneration
  import opened SpongeLeaves
  import opened SpongeProperties

  /** Vertex v of a position buffer: floats 4 v .. 4 v + 3. */
  function VertexAt(positions: seq<real>, v: int): Vec4
    requires 0 <= v && 4 * v + 4 <= |positions|
  {
    Vec4(positions[4 * v], positions[4 * v + 1], positions[4 * v + 2], positions[4 * v + 3])
  }

  /** The normal stored with vertex v: floats 4 v .. 4 v + 2 of a normal buffer. */
  function NormalAt(normals: seq<real>, v: int): Vec3
    requires 0 <= v && 4 * v + 4 <= |normals|
  {
    Vec3(normals[4 * v], normals[4 * v + 1], normals[4 * v + 2])
  }

  /** v names a vertex that both the position and the normal buffer hold. */
  predicate IsVertex(m: Mesh, v: int)
  {
    0 <= v && 4 * v + 4 <= |m.positions| && 4 * v + 4 <= |m.normals|
  }

  /** Triangle j of m (indices 3 j .. 3 j + 2) faces out. */
  predicate FacesOut(m: Mesh, j: nat)
  {
    3 * j + 3 <= |m.indices| && TriangleOut(m, m.indices[3 * j], m.indices[3 * j + 1], m.indices[3 * j + 2])
  }

  /** The triangle (a, b, c) names three vertices, and its geometric normal
      has a positive component along the stored normal of each of them. */
  predicate TriangleOut(m: Mesh, a: int, b: int, c: int)
  {
    && IsVertex(m, a) && IsVertex(m, b) && IsVertex(m, c)
    && var n := TriangleNormal(VertexAt(m.positions, a), VertexAt(m.positions, b), VertexAt(m.positions, c));
       && Dot(n, NormalAt(m.normals, a)) > 0.0
       && Dot(n, NormalAt(m.normals, b)) > 0.0
       && Dot(n, NormalAt(m.normals, c)) > 0.0
  }

  /** Vertices 24 c .. 24 c + 23 of m are the corners of the unit cube placed
      by t, face by face, each stored with its face's normal. */
  predicate VerticesAt(m: Mesh, c: nat, t: Transform)
  {
    && 96 * c + 96 <= |m.positions| && 96 * c + 96 <= |m.normals|
    && forall p, q | 0 <= p < 6 && 0 <= q < 4 ::
         && VertexAt(m.positions, 24 * c + 4 * p + q) == Apply(t, Corner(p, q))
         && NormalAt(m.normals, 24 * c + 4 * p + q) == FaceNormal(p)
  }

  /** Indices 36 c .. 36 c + 35 of m wind each face of cube c over that
      face's four vertices. */
  predicate IndicesAt(m: Mesh, c: nat)
  {
    && 36 * c + 36 <= |m.indices|
    && forall p, r | 0 <= p < 6 && 0 <= r < 6 :: m.indices[36 * c + 6 * p + r] == 24 * c + 4 * p + Pattern(p)[r]
  }

  /** Cube c of m is the unit cube placed by t, as EmitCube writes it. */
  predicate CubeAt(m: Mesh, c: nat, t: Transform)
  {
    VerticesAt(m, c, t) && IndicesAt(m, c)
  }

  /** After setLevel(level), every triangle of the index buffer faces out of
      its cube, along the normals stored with its vertices. */
  lemma SpongeFacesOut(level: nat)
    ensures |Sponge(level).indices| % 3 == 0
    ensures forall j | 0 <= j < |Sponge(level).indices| / 3 :: FacesOut(Sponge(level), j)
  {
    SpongeIsLeaves(level);
    LeavesPositive(level);
    EmittedFacesOut(Leaves(Identity, level));
  }

  /** Cubes emitted onto empty buffers by transforms of positive scale have
      every triangle facing out. */
  lemma EmittedFacesOut(ts: seq<Transform>)
    requires forall u | u in ts :: u.s > 0.0
    ensures |EmitCubes(EmptyMesh, ts).indices| % 3 == 0
    ensures forall j | 0 <= j < |EmitCubes(EmptyMesh, ts).indices| / 3 :: FacesOut(EmitCubes(EmptyMesh, ts), j)
  {
    var m := EmitCubes(EmptyMesh, ts);
    EmitCubesGrows(EmptyMesh, ts);
    forall c | 0 <= c < |ts|
      ensures CubeAt(m, c, ts[c]) && ts[c].s > 0.0
    {
      EmittedVertices(ts, c);
      EmittedIndices(ts, c);
      assert ts[c] in ts;
    }
    CubesFacesOut(m, ts);
  }

  /** A mesh made of cubes, each placed by a transform of positive scale, has
      every triangle facing out. */
  lemma CubesFacesOut(m: Mesh, ts: seq<Transform>)
    requires |m.indices| == 36 * |ts|
    requires forall c | 0 <= c < |ts| :: CubeAt(m, c, ts[c]) && ts[c].s > 0.0
    ensures |m.indices| % 3 == 0
    ensures forall j | 0 <= j < |m.indices| / 3 :: FacesOut(m, j)
  {
    TriangleCount(|ts|);
    forall j | 0 <= j < |m.indices| / 3
      ensures FacesOut(m, j)
    {
      var c, p, tri := TriangleOfCube(j, |ts|);
      CubeTriangleFacesOut(m, c, ts[c], p, tri, j);
    }
  }

  /** 36 n indices make 12 n whole triangles. */
  lemma TriangleCount(n: nat)
    ensures (36 * n) % 3 == 0 && (36 * n) / 3 == 12 * n
  {
  }

  /** Triangle j of a mesh of n cubes is triangle tri of face p of cube c. */
  lemma TriangleOfCube(j: nat, n: nat) returns (c: nat, p: nat, tri: nat)
    requires j < 12 * n
    ensures j == 12 * c + 2 * p + tri && c < n && p < 6 && tri < 2
  {
    c := j / 12;
    var r := j % 12;
    p, tri := r / 2, r % 2;
    assert j == 12 * c + r && r == 2 * p + tri;
  }

  /** The c-th transform handed to EmitCubes places the vertices of cube c. */
  lemma EmittedVertices(ts: seq<Transform>, c: nat)
    requires c < |ts|
    ensures VerticesAt(EmitCubes(EmptyMesh, ts), c, ts[c])
  {
    EmptyEmitPositionsAt(ts, c);
    EmptyEmitNormalsAt(ts, c);
    PlacedVertices(EmitCubes(EmptyMesh, ts), c, ts[c]);
  }

  /** EmitCubes winds the faces of its c-th cube as IndicesAt says. */
  lemma EmittedIndices(ts: seq<Transform>, c: nat)
    requires c < |ts|
    ensures IndicesAt(EmitCubes(EmptyMesh, ts), c)
  {
    EmptyEmitIndicesAt(ts, c);
    PlacedIndices(EmitCubes(EmptyMesh, ts), c);
  }

  /** Buffers holding CubePositions(t) and the normal template at cube c hold
      the placed corners and their face normals there. */
  lemma PlacedVertices(m: Mesh, c: nat, t: Transform)
    requires 96 * c + 96 <= |m.positions| && m.positions[96 * c .. 96 * c + 96] == CubePositions(t)
    requires 96 * c + 96 <= |m.normals| && m.normals[96 * c .. 96 * c + 96] == StartingNormals()
    ensures VerticesAt(m, c, t)
  {
    forall p, q | 0 <= p < 6 && 0 <= q < 4
      ensures VertexAt(m.positions, 24 * c + 4 * p + q) == Apply(t, Corner(p, q))
      ensures NormalAt(m.normals, 24 * c + 4 * p + q) == FaceNormal(p)
    {
      CubePosition(m.positions, 96 * c, t, p, q, 24 * c + 4 * p + q);
      CubeNormal(m.normals, 96 * c, p, q, 24 * c + 4 * p + q);
    }
  }

  /** An index buffer holding CubeIndices(24 c) at cube c winds its faces as
      IndicesAt says. */
  lemma PlacedIndices(m: Mesh, c: nat)
    requires 36 * c + 36 <= |m.indices| && m.indices[36 * c .. 36 * c + 36] == CubeIndices(24 * c)
    ensures IndicesAt(m, c)
  {
    forall p, r | 0 <= p < 6 && 0 <= r < 6
      ensures m.indices[36 * c + 6 * p + r] == 24 * c + 4 * p + Pattern(p)[r]
    {
      FaceIndex(m.indices, 36 * c, 24 * c, p, r);
    }
  }

  /** Every leaf cube of the identity-placed sponge has positive scale,
      1 / 3^level. */
  lemma LeavesPositive(level: nat)
    ensures AllScaled(Leaves(Identity, level), Pow(3, level) as real, 1.0)
    ensures forall u | u in Leaves(Identity, level) :: u.s > 0.0
  {
    LeafScale(Identity, level);
    ScaledPositiveAll(Leaves(Identity, level), Pow(3, level) as real);
  }

  /** Transforms whose scale times a non-negative k is 1 all have positive
      scale. */
  lemma ScaledPositiveAll(ts: seq<Transform>, k: real)
    requires k >= 0.0 && AllScaled(ts, k, 1.0)
    ensures forall u | u in ts :: u.s > 0.0
  {
    forall u | u in ts
      ensures u.s > 0.0
    {
      PositiveFactor(u.s, k);
    }
  }

  /** x k = 1 with k non-negative forces x positive. */
  lemma PositiveFactor(x: real, k: real)
    requires k >= 0.0 && x * k == 1.0
    ensures x > 0.0
  {
    if x <= 0.0 {
      NonPositiveProduct(x, k);
      assert false;
    }
  }

  /** A non-positive real times a non-negative one is non-positive. */
  lemma NonPositiveProduct(x: real, k: real)
    requires x <= 0.0 && k >= 0.0
    ensures x * k <= 0.0
  {
  }

  /** Triangle tri of face p of cube c (triangle j = 12 c + 2 p + tri of the
      mesh) faces out, when the cube is placed by a transform of positive
      scale. */
  lemma CubeTriangleFacesOut(m: Mesh, c: nat, t: Transform, p: nat, tri: nat, j: nat)
    requires CubeAt(m, c, t) && t.s > 0.0 && p < 6 && tri < 2 && j == 12 * c + 2 * p + tri
    ensures FacesOut(m, j)
  {
    var v0 := CubeTriangleVertex(m, c, t, p, tri, 0, 3 * j);
    var v1 := CubeTriangleVertex(m, c, t, p, tri, 1, 3 * j + 1);
    var v2 := CubeTriangleVertex(m, c, t, p, tri, 2, 3 * j + 2);
    PlacedTriangleFacesOut(m, t, p, tri, v0, v1, v2);
  }

  /** Corner k of triangle tri of face p of cube c: the vertex its index (at
      i = 36 c + 6 p + 3 tri + k) names, holding that template corner placed
      by t and face p's normal. */
  lemma CubeTriangleVertex(m: Mesh, c: nat, t: Transform, p: nat, tri: nat, k: nat, i: nat) returns (v: int)
    requires CubeAt(m, c, t) && p < 6 && tri < 2 && k < 3 && i == 36 * c + 6 * p + 3 * tri + k
    ensures i < |m.indices| && m.indices[i] == v
    ensures IsVertex(m, v)
    ensures VertexAt(m.positions, v) == Apply(t, TriangleCorner(p, tri, k))
    ensures NormalAt(m.normals, v) == FaceNormal(p)
  {
    v := TriangleIndex(m, c, p, tri, k, i);
    TriangleVertex(m, c, t, p, tri, k, v);
  }

  /** Index i = 36 c + 6 p + 3 tri + k names vertex 24 c + 4 p + q, where q
      is the template corner the winding puts there. */
  lemma TriangleIndex(m: Mesh, c: nat, p: nat, tri: nat, k: nat, i: nat) returns (v: int)
    requires IndicesAt(m, c) && p < 6 && tri < 2 && k < 3 && i == 36 * c + 6 * p + 3 * tri + k
    ensures i < |m.indices| && m.indices[i] == v == 24 * c + 4 * p + Pattern(p)[3 * tri + k]
  {
    assert m.indices[36 * c + 6 * p + (3 * tri + k)] == 24 * c + 4 * p + Pattern(p)[3 * tri + k];
    v := m.indices[i];
  }

  /** Vertex 24 c + 4 p + q, for the template corner q of that triangle,
      holds the corner placed by t and face p's normal. */
  lemma TriangleVertex(m: Mesh, c: nat, t: Transform, p: nat, tri: nat, k: nat, v: int)
    requires VerticesAt(m, c, t) && p < 6 && tri < 2 && k < 3 && v == 24 * c + 4 * p + Pattern(p)[3 * tri + k]
    ensures IsVertex(m, v)
    ensures VertexAt(m.positions, v) == Apply(t, TriangleCorner(p, tri, k))
    ensures NormalAt(m.normals, v) == FaceNormal(p)
  {
    var q := Pattern(p)[3 * tri + k];
    assert q < 4;
    assert Corner(p, q) == TriangleCorner(p, tri, k);
  }

  /** Three vertices holding the corners of a template triangle placed by a
      transform of positive scale, each with its face's normal, make a
      triangle that faces out. */
  lemma PlacedTriangleFacesOut(m: Mesh, t: Transform, p: nat, tri: nat, v0: int, v1: int, v2: int)
    requires t.s > 0.0 && p < 6 && tri < 2
    requires IsVertex(m, v0) && IsVertex(m, v1) && IsVertex(m, v2)
    requires VertexAt(m.positions, v0) == Apply(t, TriangleCorner(p, tri, 0))
    requires VertexAt(m.positions, v1) == Apply(t, TriangleCorner(p, tri, 1))
    requires VertexAt(m.positions, v2) == Apply(t, TriangleCorner(p, tri, 2))
    requires NormalAt(m.normals, v0) == FaceNormal(p)
    requires NormalAt(m.normals, v1) == FaceNormal(p)
    requires NormalAt(m.normals, v2) == FaceNormal(p)
    ensures TriangleOut(m, v0, v1, v2)
  {
    PlacedTriangleOut(t, p, tri);
  }

  /** Index r of face p of a cube whose indices sit at base and whose first
      vertex is o: vertex o + 4 p + Pattern(p)[r]. */
  lemma FaceIndex(s: seq<int>, base: nat, o: int, p: nat, r: nat)
    requires base + 36 <= |s| && s[base .. base + 36] == CubeIndices(o) && p < 6 && r < 6
    ensures s[base + 6 * p + r] == o + 4 * p + Pattern(p)[r]
  {
    FaceSlot(s, base, o, p);
    WindingShifts(p, o + 4 * p, r);
    assert s[base + 6 * p + r] == s[base + 6 * p .. base + 6 * p + 6][r];
  }

  /** Vertex v, when its floats are floats 16 p + 4 q .. + 3 of a placed cube
      held at base, is corner q of face p placed by t. */
  lemma CubePosition(s: seq<real>, base: nat, t: Transform, p: nat, q: nat, v: nat)
    requires base + 96 <= |s| && s[base .. base + 96] == CubePositions(t) && p < 6 && q < 4
    requires 4 * v == base + 16 * p + 4 * q
    ensures 4 * v + 4 <= |s|
    ensures VertexAt(s, v) == Apply(t, Corner(p, q))
  {
    CornerSlot(s, base, t, p, q);
    var w := Flat(Apply(t, Corner(p, q)));
    assert s[4 * v .. 4 * v + 4] == w;
    assert s[4 * v] == w[0] && s[4 * v + 1] == w[1] && s[4 * v + 2] == w[2] && s[4 * v + 3] == w[3];
  }

  /** Vertex v, when its floats are floats 16 p + 4 q .. + 3 of the normal
      template held at base, carries face p's normal. */
  lemma CubeNormal(s: seq<real>, base: nat, p: nat, q: nat, v: nat)
    requires base + 96 <= |s| && s[base .. base + 96] == StartingNormals() && p < 6 && q < 4
    requires 4 * v == base + 16 * p + 4 * q
    ensures 4 * v + 4 <= |s|
    ensures NormalAt(s, v) == FaceNormal(p)
  {
    TemplateNormal(p, q);
    var b := 16 * p + 4 * q;
    var w := StartingNormals()[b .. b + 4];
    SubSlice(s, base, StartingNormals(), b, w);
    assert s[4 * v .. 4 * v + 4] == w;
    assert s[4 * v] == w[0] && s[4 * v + 1] == w[1] && s[4 * v + 2] == w[2];
  }

  /** Floats 16 p + 4 q .. + 2 of the normal template are face p's normal. */
  lemma TemplateNormal(p: nat, q: nat)
    requires p < 6 && q < 4
    ensures StartingNormals()[16 * p + 4 * q] == FaceNormal(p).x
    ensures StartingNormals()[16 * p + 4 * q + 1] == FaceNormal(p).y
    ensures StartingNormals()[16 * p + 4 * q + 2] == FaceNormal(p).z
  {
    TemplateAt(p, q, 0);
    TemplateAt(p, q, 1);
    TemplateAt(p, q, 2);
  }

  /** A triangle of the template placed by a transform of positive scale
      still faces along its face's normal. */
  lemma PlacedTriangleOut(t: Transform, p: nat, tri: nat)
    requires t.s > 0.0 && p < 6 && tri < 2
    ensures Dot(TriangleNormal(Apply(t, TriangleCorner(p, tri, 0)), Apply(t, TriangleCorner(p, tri, 1)),
                               Apply(t, TriangleCorner(p, tri, 2))), FaceNormal(p)) > 0.0
  {
    var a, b, c := TriangleCorner(p, tri, 0), TriangleCorner(p, tri, 1), TriangleCorner(p, tri, 2);
    CornerOnFace(p, Pattern(p)[3 * tri]);
    CornerOnFace(p, Pattern(p)[3 * tri + 1]);
    CornerOnFace(p, Pattern(p)[3 * tri + 2]);
    TemplateFacesOut(p, tri);
    FaceNormalUnit(p);
    TriangleNormalApply(t, a, b, c, FaceNormal(p));
  }
}
