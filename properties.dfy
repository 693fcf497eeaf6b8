/** What setLevel(level) leaves in the buffers, stated over the sponge's
    leaf cubes: sizes, well-formedness, the per-cube layout of positions,
    normals and indices, and the shape of the leaves themselves. */
module SpongeProperties {
  import opened Geometry
  import opened CubeTemplate
  import opened Offsets
  import opened SpongeGeneration
  import opened SpongeLeaves

  function Pow(b: nat, e: nat): nat
  {
    if e == 0 then 1 else b * Pow(b, e - 1)
  }

  /** A level-`level` sponge is made of 20^level unit cubes. */
  lemma {:induction false} LeavesCount(t: Transform, level: nat)
    ensures |Leaves(t, level)| == Pow(20, level)
    decreases level, 1
  {
    if level > 0 {
      KeptOffsetsExactly(Offset(0, 0, 0));
      LeavesOverCount(t, level, KeptOffsets());
    }
  }

  lemma {:induction false} LeavesOverCount(t: Transform, level: nat, os: seq<Offset>)
    requires level >= 1
    ensures |LeavesOver(t, level, os)| == |os| * Pow(20, level - 1)
    decreases level, 0, |os|
  {
    if os != [] {
      var k := Pow(20, level - 1);
      LeavesCount(ChildTransform(t, os[0]), level - 1);
      LeavesOverCount(t, level, os[1..]);
      assert |LeavesOver(t, level, os)| == k + (|os| - 1) * k;
      assert k + (|os| - 1) * k == |os| * k;
    }
  }

  /** generateSponge(t, level) on any buffers appends 20^level cubes: 96
      position floats, 96 normal floats and 36 indices each. */
  lemma GenerateSizes(m: Mesh, t: Transform, level: nat)
    ensures |Generate(m, t, level).positions| == |m.positions| + 96 * Pow(20, level)
    ensures |Generate(m, t, level).normals| == |m.normals| + 96 * Pow(20, level)
    ensures |Generate(m, t, level).indices| == |m.indices| + 36 * Pow(20, level)
  {
    GenerateEmitsLeaves(m, t, level);
    LeavesCount(t, level);
    EmitCubesGrows(m, Leaves(t, level));
  }

  /** generateSponge keeps well-formed buffers well formed. */
  lemma GenerateWellFormed(m: Mesh, t: Transform, level: nat)
    requires WellFormed(m)
    ensures WellFormed(Generate(m, t, level))
  {
    GenerateEmitsLeaves(m, t, level);
    EmitCubesWellFormed(m, Leaves(t, level));
  }

  /** setLevel(level) produces the leaf cubes of the identity-placed sponge. */
  lemma SpongeIsLeaves(level: nat)
    ensures Sponge(level) == EmitCubes(EmptyMesh, Leaves(Identity, level))
  {
    GenerateEmitsLeaves(EmptyMesh, Identity, level);
  }

  /** The buffers grow as 20^level: 96 position floats, 96 normal floats and
      36 indices per cube. */
  lemma SpongeSizes(level: nat)
    ensures |Sponge(level).positions| == 96 * Pow(20, level)
    ensures |Sponge(level).normals| == 96 * Pow(20, level)
    ensures |Sponge(level).indices| == 36 * Pow(20, level)
  {
    GenerateSizes(EmptyMesh, Identity, level);
  }

  /** Normals stay parallel to positions, vertices and triangles are whole,
      and every index names an emitted vertex. */
  lemma SpongeWellFormed(level: nat)
    ensures WellFormed(Sponge(level))
  {
    SpongeIsLeaves(level);
    EmitCubesWellFormed(EmptyMesh, Leaves(Identity, level));
  }

  /** Cube c owns normal floats 96 c .. 96 c + 95: the whole normal
      template, whatever the cube's transform. */
  lemma SpongeCubeNormals(level: nat, c: nat)
    requires c < Pow(20, level)
    ensures |Sponge(level).normals| == 96 * Pow(20, level)
    ensures Sponge(level).normals[96 * c .. 96 * c + 96] == StartingNormals()
  {
    SpongeIsLeaves(level);
    LeavesCount(Identity, level);
    EmptyEmitNormalsAt(Leaves(Identity, level), c);
  }

  /** The normals of the c-th cube emitted onto empty buffers. */
  lemma EmptyEmitNormalsAt(ts: seq<Transform>, c: nat)
    requires c < |ts|
    ensures |EmitCubes(EmptyMesh, ts).normals| == 96 * |ts|
    ensures EmitCubes(EmptyMesh, ts).normals[96 * c .. 96 * c + 96] == StartingNormals()
  {
    var m := EmptyMesh;
    EmitCubesNormalsAt(m, ts, c);
    assert |m.normals| + 96 * c == 96 * c;
  }

  /** The positions of the c-th cube emitted onto empty buffers. */
  lemma EmptyEmitPositionsAt(ts: seq<Transform>, c: nat)
    requires c < |ts|
    ensures |EmitCubes(EmptyMesh, ts).positions| == 96 * |ts|
    ensures EmitCubes(EmptyMesh, ts).positions[96 * c .. 96 * c + 96] == CubePositions(ts[c])
  {
    var m := EmptyMesh;
    EmitCubesPositionsAt(m, ts, c);
    assert |m.positions| + 96 * c == 96 * c;
  }

  /** The indices of the c-th cube emitted onto empty buffers. */
  lemma EmptyEmitIndicesAt(ts: seq<Transform>, c: nat)
    requires c < |ts|
    ensures |EmitCubes(EmptyMesh, ts).indices| == 36 * |ts|
    ensures EmitCubes(EmptyMesh, ts).indices[36 * c .. 36 * c + 36] == CubeIndices(24 * c)
  {
    var m := EmptyMesh;
    EmitCubesIndicesAt(m, ts, c);
    assert |m.indices| + 36 * c == 36 * c && |m.positions| / 4 + 24 * c == 24 * c;
  }

  /** Face p of cube c owns indices 36 c + 6 p .. 36 c + 6 p + 5: the face's
      fixed winding over the four vertices 24 c + 4 p .. 24 c + 4 p + 3 it
      has just pushed. */
  lemma SpongeFaceIndices(level: nat, c: nat, p: nat)
    requires c < Pow(20, level) && p < 6
    ensures |Sponge(level).indices| == 36 * Pow(20, level)
    ensures Sponge(level).indices[36 * c + 6 * p .. 36 * c + 6 * p + 6] == Winding(p, 24 * c + 4 * p)
  {
    SpongeIsLeaves(level);
    LeavesCount(Identity, level);
    EmptyEmitFaceIndices(Leaves(Identity, level), c, p);
  }

  /** Face p of the c-th cube emitted onto empty buffers. */
  lemma EmptyEmitFaceIndices(ts: seq<Transform>, c: nat, p: nat)
    requires c < |ts| && p < 6
    ensures |EmitCubes(EmptyMesh, ts).indices| == 36 * |ts|
    ensures EmitCubes(EmptyMesh, ts).indices[36 * c + 6 * p .. 36 * c + 6 * p + 6] == Winding(p, 24 * c + 4 * p)
  {
    EmitCubesFaceIndices(EmptyMesh, ts, c, p, 36 * c, 24 * c);
  }

  /** Face p of the c-th emitted cube, past the old indices (which end at
      base - 36 c) and the old vertices (which end at o - 24 c). */
  lemma EmitCubesFaceIndices(m: Mesh, ts: seq<Transform>, c: nat, p: nat, base: int, o: int)
    requires c < |ts| && p < 6
    requires base == |m.indices| + 36 * c && o == |m.positions| / 4 + 24 * c
    ensures |EmitCubes(m, ts).indices| == base - 36 * c + 36 * |ts|
    ensures 0 <= base + 6 * p <= base + 6 * p + 6 <= |EmitCubes(m, ts).indices|
    ensures EmitCubes(m, ts).indices[base + 6 * p .. base + 6 * p + 6] == Winding(p, o + 4 * p)
  {
    EmitCubesIndicesAt(m, ts, c);
    ScaledBelow(c, |ts|, 36);
    FaceSlot(EmitCubes(m, ts).indices, base, o, p);
  }

  /** Where a cube's 36 indices sit in an index buffer, face p's six sit
      6 p further on. */
  lemma FaceSlot(s: seq<int>, base: nat, o: int, p: nat)
    requires base + 36 <= |s| && s[base .. base + 36] == CubeIndices(o) && p < 6
    ensures s[base + 6 * p .. base + 6 * p + 6] == Winding(p, o + 4 * p)
  {
    var cube, w := CubeIndices(o), Winding(p, o + 4 * p);
    CubeFaceIndices(o, p);
    assert |w| == 6;
    SubSlice(s, base, cube, 6 * p, w);
  }

  /** Slot c of n slots of width k ends within the n slots. */
  lemma {:induction false} ScaledBelow(c: nat, n: nat, k: nat)
    requires c < n
    ensures k * c + k <= k * n
    decreases n - c
  {
    if c + 1 < n {
      ScaledBelow(c + 1, n, k);
    }
  }

  /** A run inside a run of s sits in s itself, shifted by the outer run's start. */
  lemma SubSlice<T>(s: seq<T>, a: nat, whole: seq<T>, b: nat, part: seq<T>)
    requires a + |whole| <= |s| && s[a .. a + |whole|] == whole
    requires b + |part| <= |whole| && whole[b .. b + |part|] == part
    ensures s[a + b .. a + b + |part|] == part
  {
    forall i | 0 <= i < |part|
      ensures s[a + b + i] == part[i]
    {
      assert whole[b + i] == s[a + b + i];
    }
  }

  /** Vertex 24 c + 4 p + q (position floats 96 c + 16 p + 4 q .. + 3) is
      corner q of face p of the unit cube, placed by cube c's transform. */
  lemma SpongeCorner(level: nat, c: nat, p: nat, q: nat)
    requires c < Pow(20, level) && p < 6 && q < 4
    ensures |Leaves(Identity, level)| == Pow(20, level)
    ensures |Sponge(level).positions| == 96 * Pow(20, level)
    ensures Sponge(level).positions[96 * c + 16 * p + 4 * q .. 96 * c + 16 * p + 4 * q + 4]
         == Flat(Apply(Leaves(Identity, level)[c], Corner(p, q)))
  {
    SpongeIsLeaves(level);
    LeavesCount(Identity, level);
    EmptyEmitCorner(Leaves(Identity, level), c, p, q);
  }

  /** Corner q of face p of the c-th cube emitted onto empty buffers. */
  lemma EmptyEmitCorner(ts: seq<Transform>, c: nat, p: nat, q: nat)
    requires c < |ts| && p < 6 && q < 4
    ensures |EmitCubes(EmptyMesh, ts).positions| == 96 * |ts|
    ensures EmitCubes(EmptyMesh, ts).positions[96 * c + 16 * p + 4 * q .. 96 * c + 16 * p + 4 * q + 4]
         == Flat(Apply(ts[c], Corner(p, q)))
  {
    EmitCubesCorner(EmptyMesh, ts, c, p, q, 96 * c);
  }

  /** Corner q of face p of the c-th emitted cube, past the old positions
      (which end at base - 96 c). */
  lemma EmitCubesCorner(m: Mesh, ts: seq<Transform>, c: nat, p: nat, q: nat, base: int)
    requires c < |ts| && p < 6 && q < 4
    requires base == |m.positions| + 96 * c
    ensures |EmitCubes(m, ts).positions| == base - 96 * c + 96 * |ts|
    ensures 0 <= base + 16 * p + 4 * q <= base + 16 * p + 4 * q + 4 <= |EmitCubes(m, ts).positions|
    ensures EmitCubes(m, ts).positions[base + 16 * p + 4 * q .. base + 16 * p + 4 * q + 4]
         == Flat(Apply(ts[c], Corner(p, q)))
  {
    EmitCubesPositionsAt(m, ts, c);
    ScaledBelow(c, |ts|, 96);
    CornerSlot(EmitCubes(m, ts).positions, base, ts[c], p, q);
  }

  /** Where a cube's 96 position floats sit in a position buffer, corner q
      of face p sits 16 p + 4 q further on. */
  lemma CornerSlot(s: seq<real>, base: nat, t: Transform, p: nat, q: nat)
    requires base + 96 <= |s| && s[base .. base + 96] == CubePositions(t) && p < 6 && q < 4
    ensures s[base + 16 * p + 4 * q .. base + 16 * p + 4 * q + 4] == Flat(Apply(t, Corner(p, q)))
  {
    var cube, v := CubePositions(t), Flat(Apply(t, Corner(p, q)));
    CubeCorner(t, p, q);
    assert |v| == 4;
    SubSlice(s, base, cube, 16 * p + 4 * q, v);
  }

  /** setLevel(0) draws the template cube itself: the identity places the
      unit cube where it is. */
  lemma SpongeLevelZero()
    ensures Sponge(0).positions == StartingPos()
    ensures Sponge(0).normals == StartingNormals()
    ensures |Sponge(0).indices| == 36
  {
    IdentityCube(Identity);
    FacesIndicesLength(0, 6);
    assert Sponge(0).positions == [] + CubePositions(Identity);
    assert Sponge(0).normals == [] + StartingNormals();
  }

  /** A transform with unit scale and no translation (the identity) places
      the cube exactly on the position template. */
  lemma IdentityCube(t: Transform)
    requires t.s == 1.0 && t.tx == 0.0 && t.ty == 0.0 && t.tz == 0.0
    ensures CubePositions(t) == StartingPos()
  {
    var cube := CubePositions(t);
    FacesPositionsLength(t, 6);
    forall i | 0 <= i < 96
      ensures cube[i] == StartingPos()[i]
    {
      var p, q, e := TemplateIndex(i);
      IdentityCubeAt(t, p, q, e);
    }
  }

  lemma IdentityCubeAt(t: Transform, p: nat, q: nat, e: nat)
    requires t.s == 1.0 && t.tx == 0.0 && t.ty == 0.0 && t.tz == 0.0
    requires p < 6 && q < 4 && e < 4
    ensures |CubePositions(t)| == 96
    ensures CubePositions(t)[16 * p + 4 * q + e] == StartingPos()[16 * p + 4 * q + e]
  {
    FacesPositionsAt(t, 6, p, q, e);
    TemplateAt(p, q, e);
    assert t == Identity;
    ApplyIdentity(Corner(p, q));
  }

  /** Every template float is component e of corner q of face p for some p, q, e. */
  lemma TemplateIndex(i: nat) returns (p: nat, q: nat, e: nat)
    requires i < 96
    ensures p < 6 && q < 4 && e < 4 && i == 16 * p + 4 * q + e
  {
    p, q, e := i / 16, (i % 16) / 4, i % 4;
  }

  /** Every transform of ts has scale s once multiplied by k. */
  ghost predicate AllScaled(ts: seq<Transform>, k: real, s: real)
  {
    forall u :: u in ts ==> u.s * k == s
  }

  /** Every leaf cube is its placing transform shrunk by 3 per level. */
  lemma {:induction false} LeafScale(t: Transform, level: nat)
    ensures AllScaled(Leaves(t, level), Pow(3, level) as real, t.s)
    decreases level, 1
  {
    if level == 0 {
      assert Leaves(t, level) == [t];
    } else {
      LeavesOverScale(t, level, KeptOffsets());
      LeavesUnfold(t, level);
    }
  }

  lemma LeavesUnfold(t: Transform, level: nat)
    requires level >= 1
    ensures Leaves(t, level) == LeavesOver(t, level, KeptOffsets())
  {
  }

  lemma {:induction false} LeavesOverScale(t: Transform, level: nat, os: seq<Offset>)
    requires level >= 1
    ensures AllScaled(LeavesOver(t, level, os), Pow(3, level) as real, t.s)
    decreases level, 0, |os|
  {
    if os != [] {
      var child := ChildTransform(t, os[0]);
      var k := Pow(3, level - 1) as real;
      var rest := LeavesOver(t, level, os[1..]);
      LeafScale(child, level - 1);
      LeavesOverScale(t, level, os[1..]);
      ChildScale(t, os[0]);
      assert Pow(3, level) as real == 3.0 * k;
      AllScaledTriple(Leaves(child, level - 1), k, child.s);
      assert 3.0 * child.s == t.s;
      AllScaledAppend(Leaves(child, level - 1), rest, 3.0 * k, t.s);
      assert LeavesOver(t, level, os) == Leaves(child, level - 1) + rest;
    }
  }

  lemma AllScaledTriple(ts: seq<Transform>, k: real, s: real)
    requires AllScaled(ts, k, s)
    ensures AllScaled(ts, 3.0 * k, 3.0 * s)
  {
    forall u | u in ts
      ensures u.s * (3.0 * k) == 3.0 * s
    {
      assert u.s * (3.0 * k) == 3.0 * (u.s * k);
    }
  }

  lemma AllScaledAppend(a: seq<Transform>, b: seq<Transform>, k: real, s: real)
    requires AllScaled(a, k, s) && AllScaled(b, k, s)
    ensures AllScaled(a + b, k, s)
  {
  }
}
