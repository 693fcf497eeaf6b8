/** What generateSponge appends to the three buffers, as functions of the
    buffers before the call: the face loop of the level-0 branch and the
    27-turn offset loop of the recursive branch. */
module SpongeGeneration {
  import opened Geometry
  import opened CubeTemplate
  import opened Offsets

  /** The three parallel buffers: 4 floats per vertex position, 4 floats per
      vertex normal, 3 vertex numbers per triangle. */
  datatype Mesh = Mesh(positions: seq<real>, normals: seq<real>, indices: seq<int>)

  const EmptyMesh: Mesh := Mesh([], [], [])

  /** The four components of a homogeneous vector, as pushed to a buffer. */
  function Flat(v: Vec4): seq<real>
  {
    [v.x, v.y, v.z, v.w]
  }

  /** The 16 floats of face p of the unit cube placed by transform t. */
  function FacePositions(t: Transform, p: nat): seq<real>
    requires p < 6
  {
    Flat(Apply(t, Corner(p, 0))) + Flat(Apply(t, Corner(p, 1))) +
    Flat(Apply(t, Corner(p, 2))) + Flat(Apply(t, Corner(p, 3)))
  }

  /** The position floats of the first n faces of the cube placed by t:
      what the first n turns of the face loop push to positions. */
  function FacesPositions(t: Transform, n: nat): (r: seq<real>)
    requires n <= 6
  {
    if n == 0 then [] else FacesPositions(t, n - 1) + FacePositions(t, n - 1)
  }

  /** The indices the first n turns of the face loop push when the cube's
      first vertex is o: face p's winding over its own four vertices
      o + 4 p .. o + 4 p + 3. */
  function FacesIndices(o: int, n: nat): seq<int>
    requires n <= 6
  {
    if n == 0 then [] else FacesIndices(o, n - 1) + Winding(n - 1, o + 4 * (n - 1))
  }

  /** The 96 position floats of the cube placed by t. */
  function CubePositions(t: Transform): seq<real>
  {
    FacesPositions(t, 6)
  }

  /** The 36 indices of a cube whose first vertex is o. */
  function CubeIndices(o: int): seq<int>
  {
    FacesIndices(o, 6)
  }

  /** The level-0 branch: the face loop appends the cube's positions, the
      whole normal template (face p gets the template's slice for face p,
      whatever the transform) and the cube's indices, numbered from the
      vertex count before the call. */
  function EmitCube(m: Mesh, t: Transform): Mesh
  {
    Mesh(m.positions + CubePositions(t), m.normals + StartingNormals(),
         m.indices + CubeIndices(|m.positions| / 4))
  }

  /** generateSponge(t, level) run on buffers m. */
  function Generate(m: Mesh, t: Transform, level: nat): Mesh
    decreases level, 1
  {
    if level == 0 then EmitCube(m, t) else VisitAll(m, t, level, Visits())
  }

  /** The recursive branch run over the offsets os in turn: a skipped offset
      leaves the buffers alone, a kept one recurses one level down. */
  function VisitAll(m: Mesh, t: Transform, level: nat, os: seq<Offset>): Mesh
    requires level >= 1
    decreases level, 0, |os|
  {
    if os == [] then m
    else
      var prev := VisitAll(m, t, level, os[..|os| - 1]);
      var o := os[|os| - 1];
      if Skipped(o) then prev else Generate(prev, ChildTransform(t, o), level - 1)
  }

  /** The buffers after the first n of the 27 turns of the offset loops. */
  function VisitedFirst(m: Mesh, t: Transform, level: nat, n: nat): Mesh
    requires level >= 1 && n <= 27
  {
    VisitAll(m, t, level, Visits()[..n])
  }

  /** One turn of the offset loops, at (i, j, k), is turn
      9 (i + 1) + 3 (j + 1) + (k + 1): it either skips its offset or recurses
      one level down on it. */
  lemma VisitTurn(m: Mesh, t: Transform, level: nat, i: int, j: int, k: int, n: nat)
    requires level >= 1 && InGrid(Offset(i, j, k))
    requires n == 9 * (i + 1) + 3 * (j + 1) + (k + 1)
    ensures n < 27
    ensures
      var prev := VisitedFirst(m, t, level, n);
      VisitedFirst(m, t, level, n + 1) ==
        if Skipped(Offset(i, j, k)) then prev else Generate(prev, ChildTransform(t, Offset(i, j, k)), level - 1)
  {
    VisitAt(i, j, k);
    var os := Visits()[..n + 1];
    assert os[..|os| - 1] == Visits()[..n];
    assert os[|os| - 1] == Offset(i, j, k);
  }

  /** The offset loops start from the buffers as they are and, after all
      27 turns, have run the whole recursive branch. */
  lemma VisitAllEnds(m: Mesh, t: Transform, level: nat)
    requires level >= 1
    ensures VisitedFirst(m, t, level, 0) == m
    ensures VisitedFirst(m, t, level, 27) == Generate(m, t, level)
  {
    VisitAt(1, 1, 1);
    assert Visits()[..27] == Visits();
  }

  /** setLevel(level): generation from empty buffers and the identity. */
  function Sponge(level: nat): Mesh
  {
    Generate(EmptyMesh, Identity, level)
  }

  /** The buffers the renderer can draw: positions and normals in step, whole
      vertices, whole triangles, and every index naming an existing vertex. */
  predicate WellFormed(m: Mesh)
  {
    && |m.positions| == |m.normals|
    && |m.positions| % 4 == 0
    && |m.indices| % 3 == 0
    && forall x :: x in m.indices ==> 0 <= x < |m.positions| / 4
  }

  /** Component e of corner q of face p sits at 4 q + e in the face's floats. */
  lemma FacePositionsAt(t: Transform, p: nat, q: nat, e: nat)
    requires p < 6 && q < 4 && e < 4
    ensures |FacePositions(t, p)| == 16
    ensures FacePositions(t, p)[4 * q + e] == Coord(Apply(t, Corner(p, q)), e)
  {
    var v := Apply(t, Corner(p, q));
    var s := FacePositions(t, p);
    assert s[4 * q .. 4 * q + 4] == Flat(v);
  }

  lemma {:induction false} FacesPositionsLength(t: Transform, n: nat)
    requires n <= 6
    ensures |FacesPositions(t, n)| == 16 * n
  {
    if n > 0 {
      FacesPositionsLength(t, n - 1);
      FacePositionsAt(t, n - 1, 0, 0);
    }
  }

  /** Component e of corner q of face p of the cube placed by t sits at
      16 p + 4 q + e in the cube's position floats. */
  lemma {:induction false} FacesPositionsAt(t: Transform, n: nat, p: nat, q: nat, e: nat)
    requires p < n <= 6 && q < 4 && e < 4
    ensures |FacesPositions(t, n)| == 16 * n
    ensures FacesPositions(t, n)[16 * p + 4 * q + e] == Coord(Apply(t, Corner(p, q)), e)
  {
    FacesPositionsLength(t, n);
    FacesPositionsLength(t, n - 1);
    var prev, face := FacesPositions(t, n - 1), FacePositions(t, n - 1);
    var i := 16 * p + 4 * q + e;
    assert FacesPositions(t, n) == prev + face;
    if p < n - 1 {
      FacesPositionsAt(t, n - 1, p, q, e);
      assert (prev + face)[i] == prev[i];
    } else {
      FacePositionsAt(t, p, q, e);
      assert (prev + face)[i] == face[4 * q + e];
    }
  }

  /** Vertex 4 p + q of the cube placed by t (floats 16 p + 4 q .. + 3) is
      corner q of face p under t. */
  lemma CubeCorner(t: Transform, p: nat, q: nat)
    requires p < 6 && q < 4
    ensures |CubePositions(t)| == 96
    ensures CubePositions(t)[16 * p + 4 * q .. 16 * p + 4 * q + 4] == Flat(Apply(t, Corner(p, q)))
  {
    FacesPositionsLength(t, 6);
    var v := Apply(t, Corner(p, q));
    var corner := CubePositions(t)[16 * p + 4 * q .. 16 * p + 4 * q + 4];
    forall e | 0 <= e < 4
      ensures corner[e] == Flat(v)[e]
    {
      FacesPositionsAt(t, 6, p, q, e);
    }
  }

  lemma {:induction false} FacesIndicesLength(o: int, n: nat)
    requires n <= 6
    ensures |FacesIndices(o, n)| == 6 * n
  {
    if n > 0 {
      FacesIndicesLength(o, n - 1);
      WindingShifts(n - 1, o + 4 * (n - 1), 0);
    }
  }

  /** The winding pattern is fixed: index r of face p of a cube whose first
      vertex is o is vertex o + 4 p + w, w being entry r of the face's
      pattern over vertices 0 .. 3, which alternates with the face's parity. */
  lemma {:induction false} FacesIndicesAt(o: int, n: nat, p: nat, r: nat)
    requires p < n <= 6 && r < 6
    ensures |FacesIndices(o, n)| == 6 * n
    ensures FacesIndices(o, n)[6 * p + r] == o + 4 * p + Pattern(p)[r]
  {
    FacesIndicesLength(o, n);
    FacesIndicesLength(o, n - 1);
    var prev, face := FacesIndices(o, n - 1), Winding(n - 1, o + 4 * (n - 1));
    var i := 6 * p + r;
    assert FacesIndices(o, n) == prev + face;
    if p < n - 1 {
      FacesIndicesAt(o, n - 1, p, r);
      assert i < |prev|;
      assert (prev + face)[i] == prev[i];
    } else {
      assert p == n - 1 && i == |prev| + r;
      WindingShifts(p, o + 4 * p, r);
      assert (prev + face)[i] == face[r];
    }
  }

  /** Face p of a cube whose first vertex is o owns indices 6 p .. 6 p + 5:
      the face's winding over its own vertices o + 4 p .. o + 4 p + 3. */
  lemma CubeFaceIndices(o: int, p: nat)
    requires p < 6
    ensures |CubeIndices(o)| == 36
    ensures CubeIndices(o)[6 * p .. 6 * p + 6] == Winding(p, o + 4 * p)
  {
    FacesIndicesLength(o, 6);
    var face := CubeIndices(o)[6 * p .. 6 * p + 6];
    forall r | 0 <= r < 6
      ensures face[r] == Winding(p, o + 4 * p)[r]
    {
      FacesIndicesAt(o, 6, p, r);
      WindingShifts(p, o + 4 * p, r);
    }
    WindingShifts(p, o + 4 * p, 0);
  }

  /** Every index of a cube lies among the cube's own 24 vertices. */
  lemma CubeIndicesInRange(o: int)
    ensures |CubeIndices(o)| == 36
    ensures forall x :: x in CubeIndices(o) ==> o <= x < o + 24
  {
    FacesIndicesLength(o, 6);
    forall x | x in CubeIndices(o)
      ensures o <= x < o + 24
    {
      var n :| 0 <= n < 36 && CubeIndices(o)[n] == x;
      FacesIndicesAt(o, 6, n / 6, n % 6);
      WindingShifts(n / 6, o, n % 6);
    }
  }

  /** The buffers m after the first n turns of the face loop placing the
      cube by t: n faces of positions, the first 16 n template normals, and
      the windings of n faces numbered from m's vertex count. */
  function FacesPushed(m: Mesh, t: Transform, n: nat): Mesh
    requires n <= 6
  {
    Mesh(m.positions + FacesPositions(t, n), m.normals + StartingNormals()[..16 * n],
         m.indices + FacesIndices(|m.positions| / 4, n))
  }

  /** One turn of the face loop: face p's floats, its slice of the normal
      template and its winding over the vertex count reached so far extend
      the first p faces to the first p + 1. */
  lemma PushFaceStep(m: Mesh, t: Transform, p: nat, before: Mesh)
    requires p < 6 && before == FacesPushed(m, t, p)
    ensures FacesPushed(m, t, p + 1) ==
      Mesh(before.positions + FacePositions(t, p),
           before.normals + StartingNormals()[p * 16 .. p * 16 + 16],
           before.indices + Winding(p, |before.positions| / 4))
  {
    var o := |m.positions| / 4;
    FacesPositionsLength(t, p);
    VertexCountGrows(|m.positions|, 4 * p);
    PushFacePositions(m.positions, t, p, before.positions);
    PushFaceNormals(m.normals, p, before.normals);
    PushFaceIndices(m.indices, o, p, before.indices);
  }

  /** One turn of the face loop on positions: face p's floats extend the
      first p faces to the first p + 1. */
  lemma PushFacePositions(start: seq<real>, t: Transform, p: nat, before: seq<real>)
    requires p < 6 && before == start + FacesPositions(t, p)
    ensures before + FacePositions(t, p) == start + FacesPositions(t, p + 1)
  {
  }

  /** One turn of the face loop on normals: face p's slice of the template
      extends the template prefix by 16 floats. */
  lemma PushFaceNormals(start: seq<real>, p: nat, before: seq<real>)
    requires p < 6 && before == start + StartingNormals()[..16 * p]
    ensures before + StartingNormals()[p * 16 .. p * 16 + 16] == start + StartingNormals()[..16 * (p + 1)]
  {
    var n := StartingNormals();
    assert n[..16 * (p + 1)] == n[..16 * p] + n[p * 16 .. p * 16 + 16];
  }

  /** One turn of the face loop on indices: face p's winding over its own
      four vertices extends the indices of the first p faces. */
  lemma PushFaceIndices(start: seq<int>, o: int, p: nat, before: seq<int>)
    requires p < 6 && before == start + FacesIndices(o, p)
    ensures before + Winding(p, o + 4 * p) == start + FacesIndices(o, p + 1)
  {
  }

  /** The face loop starts from the buffers as they are and, after six
      turns, has appended exactly one cube. */
  lemma FacesPushedEnds(m: Mesh, t: Transform)
    ensures FacesPushed(m, t, 0) == m
    ensures FacesPushed(m, t, 6) == EmitCube(m, t)
  {
    assert m.positions + [] == m.positions;
    assert m.indices + [] == m.indices;
    assert StartingNormals()[..0] == [];
    assert m.normals + [] == m.normals;
    assert StartingNormals()[..96] == StartingNormals();
  }

  /** One cube appends 96 position floats, 96 normal floats and 36 indices,
      and keeps the buffers well formed: the new indices name the 24 vertices
      it has just pushed. */
  lemma EmitCubeAppends(m: Mesh, t: Transform)
    ensures |EmitCube(m, t).positions| == |m.positions| + 96
    ensures |EmitCube(m, t).normals| == |m.normals| + 96
    ensures |EmitCube(m, t).indices| == |m.indices| + 36
    ensures WellFormed(m) ==> WellFormed(EmitCube(m, t))
  {
    FacesPositionsLength(t, 6);
    CubeIndicesInRange(|m.positions| / 4);
    var m' := EmitCube(m, t);
    if WellFormed(m) {
      var o := |m.positions| / 4;
      VertexCountGrows(|m.positions|, 24);
      assert |m'.positions| / 4 == o + 24;
      forall x | x in m'.indices
        ensures 0 <= x < |m'.positions| / 4
      {
        if x !in m.indices {
          assert x in CubeIndices(o);
        }
      }
    }
  }

  /** Appending whole vertices (4 floats each) adds exactly that many vertices. */
  lemma VertexCountGrows(len: nat, k: nat)
    ensures (len + 4 * k) / 4 == len / 4 + k
  {
  }
}
