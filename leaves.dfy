/** An independent description of the sponge: the list of transforms of its
    level-0 cubes, and the buffers obtained by emitting those cubes one
    after another. The recursive generator is proved to produce exactly this. */
module SpongeLeaves {
  import opened Geometry
  import opened CubeTemplate
  import opened Offsets
  import opened SpongeGeneration

  /** The transforms of the unit cubes a level-`level` sponge placed by t is
      made of, in the order the generator emits them: depth first, the kept
      offsets of every level in loop order. */
  function Leaves(t: Transform, level: nat): seq<Transform>
    decreases level, 1
  {
    if level == 0 then [t] else LeavesOver(t, level, KeptOffsets())
  }

  /** The leaves of the sub-cubes os of the cube placed by t. */
  function LeavesOver(t: Transform, level: nat, os: seq<Offset>): seq<Transform>
    requires level >= 1
    decreases level, 0, |os|
  {
    if os == [] then [] else Leaves(ChildTransform(t, os[0]), level - 1) + LeavesOver(t, level, os[1..])
  }

  /** The buffers after emitting the cubes ts, in order, onto m. */
  function EmitCubes(m: Mesh, ts: seq<Transform>): Mesh
    decreases |ts|
  {
    if ts == [] then m else EmitCubes(EmitCube(m, ts[0]), ts[1..])
  }

  lemma {:induction false} LeavesOverAppend(t: Transform, level: nat, a: seq<Offset>, b: seq<Offset>)
    requires level >= 1
    ensures LeavesOver(t, level, a + b) == LeavesOver(t, level, a) + LeavesOver(t, level, b)
    decreases |a|
  {
    if a == [] {
      assert a + b == b;
    } else {
      assert (a + b)[1..] == a[1..] + b;
      LeavesOverAppend(t, level, a[1..], b);
    }
  }

  lemma {:induction false} EmitCubesAppend(m: Mesh, a: seq<Transform>, b: seq<Transform>)
    ensures EmitCubes(m, a + b) == EmitCubes(EmitCubes(m, a), b)
    decreases |a|
  {
    if a == [] {
      assert a + b == b;
    } else {
      assert (a + b)[1..] == a[1..] + b;
      EmitCubesAppend(EmitCube(m, a[0]), a[1..], b);
    }
  }

  lemma {:induction false} VisitAllAppend(m: Mesh, t: Transform, level: nat, a: seq<Offset>, b: seq<Offset>)
    requires level >= 1
    ensures VisitAll(m, t, level, a + b) == VisitAll(VisitAll(m, t, level, a), t, level, b)
    decreases |b|
  {
    if b == [] {
      assert a + b == a;
    } else {
      var b' := b[..|b| - 1];
      assert (a + b)[..|a + b| - 1] == a + b';
      assert (a + b)[|a + b| - 1] == b[|b| - 1];
      VisitAllAppend(m, t, level, a, b');
    }
  }

  /** The recursive generator emits exactly the leaf cubes, in order. */
  lemma {:induction false} GenerateEmitsLeaves(m: Mesh, t: Transform, level: nat)
    ensures Generate(m, t, level) == EmitCubes(m, Leaves(t, level))
    decreases level, 3
  {
    if level == 0 {
      assert EmitCubes(m, [t]) == EmitCubes(EmitCube(m, t), []);
    } else {
      var m1 := VisitAll(m, t, level, Plane(-1));
      var m2 := VisitAll(m1, t, level, Plane(0));
      VisitAllAppend(m, t, level, Plane(-1), Plane(0));
      VisitAllAppend(m, t, level, Plane(-1) + Plane(0), Plane(1));
      VisitPlane(m, t, level, -1);
      VisitPlane(m1, t, level, 0);
      VisitPlane(m2, t, level, 1);
      var l1, l2, l3 := LeavesOver(t, level, KeptPlane(-1)), LeavesOver(t, level, KeptPlane(0)),
                        LeavesOver(t, level, KeptPlane(1));
      LeavesOverAppend(t, level, KeptPlane(-1), KeptPlane(0));
      LeavesOverAppend(t, level, KeptPlane(-1) + KeptPlane(0), KeptPlane(1));
      EmitCubesAppend(m, l1, l2);
      EmitCubesAppend(m, l1 + l2, l3);
    }
  }

  /** One run of the middle loop emits the leaves of the plane's kept offsets. */
  lemma {:induction false} VisitPlane(m: Mesh, t: Transform, level: nat, i: int)
    requires level >= 1
    ensures VisitAll(m, t, level, Plane(i)) == EmitCubes(m, LeavesOver(t, level, KeptPlane(i)))
    decreases level, 2
  {
    var m1 := VisitAll(m, t, level, Row(i, -1));
    var m2 := VisitAll(m1, t, level, Row(i, 0));
    VisitAllAppend(m, t, level, Row(i, -1), Row(i, 0));
    VisitAllAppend(m, t, level, Row(i, -1) + Row(i, 0), Row(i, 1));
    VisitRow(m, t, level, i, -1);
    VisitRow(m1, t, level, i, 0);
    VisitRow(m2, t, level, i, 1);
    var l1, l2, l3 := LeavesOver(t, level, KeptRow(i, -1)), LeavesOver(t, level, KeptRow(i, 0)),
                      LeavesOver(t, level, KeptRow(i, 1));
    LeavesOverAppend(t, level, KeptRow(i, -1), KeptRow(i, 0));
    LeavesOverAppend(t, level, KeptRow(i, -1) + KeptRow(i, 0), KeptRow(i, 1));
    EmitCubesAppend(m, l1, l2);
    EmitCubesAppend(m, l1 + l2, l3);
  }

  /** One run of the innermost loop emits the leaves of the row's kept offsets. */
  lemma {:induction false} VisitRow(m: Mesh, t: Transform, level: nat, i: int, j: int)
    requires level >= 1
    ensures VisitAll(m, t, level, Row(i, j)) == EmitCubes(m, LeavesOver(t, level, KeptRow(i, j)))
    decreases level, 1
  {
    var a, b, c := Offset(i, j, -1), Offset(i, j, 0), Offset(i, j, 1);
    assert Row(i, j) == [a] + [b] + [c];
    var m1 := VisitAll(m, t, level, [a]);
    var m2 := VisitAll(m1, t, level, [b]);
    VisitAllAppend(m, t, level, [a], [b]);
    VisitAllAppend(m, t, level, [a] + [b], [c]);
    VisitOne(m, t, level, a);
    VisitOne(m1, t, level, b);
    VisitOne(m2, t, level, c);
    var l1, l2, l3 := LeavesOver(t, level, Keep(a)), LeavesOver(t, level, Keep(b)), LeavesOver(t, level, Keep(c));
    LeavesOverAppend(t, level, Keep(a), Keep(b));
    LeavesOverAppend(t, level, Keep(a) + Keep(b), Keep(c));
    EmitCubesAppend(m, l1, l2);
    EmitCubesAppend(m, l1 + l2, l3);
  }

  /** One turn of the innermost loop: a skipped offset emits nothing, a kept
      one emits the leaves of its sub-cube. */
  lemma {:induction false} VisitOne(m: Mesh, t: Transform, level: nat, o: Offset)
    requires level >= 1
    ensures VisitAll(m, t, level, [o]) == EmitCubes(m, LeavesOver(t, level, Keep(o)))
    decreases level, 0
  {
    assert [o][..0] == [];
    if !Skipped(o) {
      GenerateEmitsLeaves(m, ChildTransform(t, o), level - 1);
      LeavesOverOne(t, level, o);
    }
  }

  /** The leaves over a single offset are those of its sub-cube. */
  lemma LeavesOverOne(t: Transform, level: nat, o: Offset)
    requires level >= 1
    ensures LeavesOver(t, level, [o]) == Leaves(ChildTransform(t, o), level - 1)
  {
    var child := Leaves(ChildTransform(t, o), level - 1);
    assert LeavesOver(t, level, [o]) == child + LeavesOver(t, level, []);
    assert child + [] == child;
  }

  /** Emitting cubes only appends: each cube adds 96 position floats, 96
      normal floats and 36 indices, and what was there before stays. */
  lemma {:induction false} EmitCubesGrows(m: Mesh, ts: seq<Transform>)
    ensures |EmitCubes(m, ts).positions| == |m.positions| + 96 * |ts|
    ensures |EmitCubes(m, ts).normals| == |m.normals| + 96 * |ts|
    ensures |EmitCubes(m, ts).indices| == |m.indices| + 36 * |ts|
    ensures EmitCubes(m, ts).positions[..|m.positions|] == m.positions
    ensures EmitCubes(m, ts).normals[..|m.normals|] == m.normals
    ensures EmitCubes(m, ts).indices[..|m.indices|] == m.indices
    decreases |ts|
  {
    if ts != [] {
      var m' := EmitCube(m, ts[0]);
      var q := EmitCubes(m', ts[1..]);
      EmitCubeAppends(m, ts[0]);
      EmitCubesGrows(m', ts[1..]);
      assert q.positions[..|m.positions|] == q.positions[..|m'.positions|][..|m.positions|];
      assert q.normals[..|m.normals|] == q.normals[..|m'.normals|][..|m.normals|];
      assert q.indices[..|m.indices|] == q.indices[..|m'.indices|][..|m.indices|];
    }
  }

  /** Emitting cubes keeps the buffers well formed. */
  lemma {:induction false} EmitCubesWellFormed(m: Mesh, ts: seq<Transform>)
    requires WellFormed(m)
    ensures WellFormed(EmitCubes(m, ts))
    decreases |ts|
  {
    if ts != [] {
      EmitCubeAppends(m, ts[0]);
      EmitCubesWellFormed(EmitCube(m, ts[0]), ts[1..]);
    }
  }

  /** Cube c of the list owns position floats 96 c .. 96 c + 95 past the old
      end: the cube's corners under its own transform. */
  lemma {:induction false} EmitCubesPositionsAt(m: Mesh, ts: seq<Transform>, c: nat)
    requires c < |ts|
    ensures |EmitCubes(m, ts).positions| == |m.positions| + 96 * |ts|
    ensures EmitCubes(m, ts).positions[|m.positions| + 96 * c .. |m.positions| + 96 * c + 96] == CubePositions(ts[c])
    decreases |ts|
  {
    var m' := EmitCube(m, ts[0]);
    EmitCubesGrows(m, ts);
    EmitCubeAppends(m, ts[0]);
    if c == 0 {
      EmitCubesFirstPositions(m, ts);
    } else {
      EmitCubesPositionsAt(m', ts[1..], c - 1);
      assert |m'.positions| + 96 * (c - 1) == |m.positions| + 96 * c;
    }
  }

  /** The first cube's 96 position floats follow the old ones directly. */
  lemma EmitCubesFirstPositions(m: Mesh, ts: seq<Transform>)
    requires ts != []
    ensures |EmitCubes(m, ts).positions| >= |m.positions| + 96
    ensures EmitCubes(m, ts).positions[|m.positions| .. |m.positions| + 96] == CubePositions(ts[0])
  {
    var m' := EmitCube(m, ts[0]);
    var q := EmitCubes(m', ts[1..]);
    var n := |m.positions|;
    EmitCubeAppends(m, ts[0]);
    EmitCubesGrows(m', ts[1..]);
    assert m'.positions[n .. n + 96] == CubePositions(ts[0]);
    assert q.positions[n .. n + 96] == q.positions[..|m'.positions|][n .. n + 96];
  }

  /** Cube c of the list owns normal floats 96 c .. 96 c + 95 past the old
      end: the whole normal template, whatever its transform. */
  lemma {:induction false} EmitCubesNormalsAt(m: Mesh, ts: seq<Transform>, c: nat)
    requires c < |ts|
    ensures |EmitCubes(m, ts).normals| == |m.normals| + 96 * |ts|
    ensures EmitCubes(m, ts).normals[|m.normals| + 96 * c .. |m.normals| + 96 * c + 96] == StartingNormals()
    decreases |ts|
  {
    var m' := EmitCube(m, ts[0]);
    EmitCubesGrows(m, ts);
    EmitCubeAppends(m, ts[0]);
    if c == 0 {
      EmitCubesFirstNormals(m, ts);
    } else {
      EmitCubesNormalsAt(m', ts[1..], c - 1);
      assert |m'.normals| + 96 * (c - 1) == |m.normals| + 96 * c;
    }
  }

  /** The first cube's 96 normal floats follow the old ones directly. */
  lemma EmitCubesFirstNormals(m: Mesh, ts: seq<Transform>)
    requires ts != []
    ensures |EmitCubes(m, ts).normals| >= |m.normals| + 96
    ensures EmitCubes(m, ts).normals[|m.normals| .. |m.normals| + 96] == StartingNormals()
  {
    var m' := EmitCube(m, ts[0]);
    var q := EmitCubes(m', ts[1..]);
    var n := |m.normals|;
    EmitCubeAppends(m, ts[0]);
    EmitCubesGrows(m', ts[1..]);
    assert m'.normals[n .. n + 96] == StartingNormals();
    assert q.normals[n .. n + 96] == q.normals[..|m'.normals|][n .. n + 96];
  }

  /** Cube c of the list owns indices 36 c .. 36 c + 35 past the old end,
      numbered from its first vertex: the old vertex count plus 24 c. */
  lemma {:induction false} EmitCubesIndicesAt(m: Mesh, ts: seq<Transform>, c: nat)
    requires c < |ts|
    ensures |EmitCubes(m, ts).indices| == |m.indices| + 36 * |ts|
    ensures EmitCubes(m, ts).indices[|m.indices| + 36 * c .. |m.indices| + 36 * c + 36]
         == CubeIndices(|m.positions| / 4 + 24 * c)
    decreases |ts|
  {
    var m' := EmitCube(m, ts[0]);
    EmitCubesGrows(m, ts);
    EmitCubeAppends(m, ts[0]);
    if c == 0 {
      EmitCubesFirstIndices(m, ts);
    } else {
      EmitCubesIndicesAt(m', ts[1..], c - 1);
      VertexCountGrows(|m.positions|, 24);
      assert |m'.indices| + 36 * (c - 1) == |m.indices| + 36 * c;
      assert |m'.positions| / 4 + 24 * (c - 1) == |m.positions| / 4 + 24 * c;
    }
  }

  /** The first cube's 36 indices follow the old ones directly. */
  lemma EmitCubesFirstIndices(m: Mesh, ts: seq<Transform>)
    requires ts != []
    ensures |EmitCubes(m, ts).indices| >= |m.indices| + 36
    ensures EmitCubes(m, ts).indices[|m.indices| .. |m.indices| + 36] == CubeIndices(|m.positions| / 4)
  {
    var m' := EmitCube(m, ts[0]);
    var q := EmitCubes(m', ts[1..]);
    var n := |m.indices|;
    EmitCubeAppends(m, ts[0]);
    EmitCubesGrows(m', ts[1..]);
    assert m'.indices[n .. n + 36] == CubeIndices(|m.positions| / 4);
    assert q.indices[n .. n + 36] == q.indices[..|m'.indices|][n .. n + 36];
  }
}
