/** The MengerSponge object: three growing buffers, the current level and
    the dirty flag the renderer polls, with setLevel, generateSponge,
    isDirty, setClean and the flat buffer views. */
module Menger {
  import opened Geometry
  import opened CubeTemplate
  import opened Offsets
  import opened SpongeGeneration
  import opened SpongeProperties

  class MengerSponge {
    var positions: seq<real>
    var normals: seq<real>
    var indices: seq<int>
    var level: nat
    var dirty: bool

    /** The three buffers as one value. */
    function Buffers(): Mesh
      reads this
    {
      Mesh(positions, normals, indices)
    }

    /** The buffers hold exactly the sponge of the current level. */
    ghost predicate Valid()
      reads this
    {
      Buffers() == Sponge(level)
    }

    /** A new sponge is generated at the given level and is dirty. */
    constructor(level: nat)
      ensures this.level == level && IsDirty()
      ensures Buffers() == Sponge(level) && Valid()
    {
      positions, normals, indices := [], [], [];
      this.level := 0;
      dirty := true;
      new;
      SetLevel(level);
    }

    /** Whether the buffers changed since the renderer last took them. */
    predicate IsDirty()
      reads this
    {
      dirty
    }

    /** The renderer has taken the buffers: only the flag changes. */
    method SetClean()
      modifies this`dirty
      ensures !IsDirty()
      ensures Buffers() == old(Buffers()) && level == old(level)
    {
      dirty := false;
    }

    /** Regenerate from scratch: whatever the old buffers held, they now hold
        the level-`level` sponge and nothing else, and the flag is raised. */
    method SetLevel(level: nat)
      modifies this
      ensures this.level == level && IsDirty()
      ensures Buffers() == Sponge(level) && Valid()
    {
      this.level := level;
      positions := [];
      normals := [];
      indices := [];
      dirty := true;
      assert Buffers() == EmptyMesh;
      GenerateSponge(Identity, level);
    }

    /** Append the sponge of the given level placed by transform. */
    method GenerateSponge(transform: Transform, level: nat)
      modifies this`positions, this`normals, this`indices
      ensures Buffers() == Generate(old(Buffers()), transform, level)
      decreases level, 1
    {
      if level == 0 {
        PushCube(transform);
        return;
      }
      ghost var m0 := Buffers();
      ghost var n := 0;
      VisitAllEnds(m0, transform, level);
      for i := -1 to 2
        invariant n == 9 * (i + 1) && Buffers() == VisitedFirst(m0, transform, level, n)
      {
        for j := -1 to 2
          invariant n == 9 * (i + 1) + 3 * (j + 1) && Buffers() == VisitedFirst(m0, transform, level, n)
        {
          for k := -1 to 2
            invariant n == 9 * (i + 1) + 3 * (j + 1) + (k + 1)
            invariant Buffers() == VisitedFirst(m0, transform, level, n)
          {
            VisitTurn(m0, transform, level, i, j, k, n);
            VisitOffset(transform, level, i, j, k);
            n := n + 1;
          }
        }
      }
    }

    /** One turn of the i/j/k loops: an offset with two or more zero
        coordinates is skipped, any other one recurses one level down with
        the transform times a translation by offset / 3 times a scale by 1 / 3. */
    method VisitOffset(transform: Transform, level: nat, i: int, j: int, k: int)
      requires level >= 1
      modifies this`positions, this`normals, this`indices
      ensures Buffers() == if Skipped(Offset(i, j, k)) then old(Buffers())
                           else Generate(old(Buffers()), ChildTransform(transform, Offset(i, j, k)), level - 1)
      decreases level, 0
    {
      var newScale := NewScale;
      var count := (if i == 0 then 1 else 0) + (if j == 0 then 1 else 0) + (if k == 0 then 1 else 0);
      if count >= 2 {
        return;
      }
      var scaleX := i as real * newScale;
      var scaleY := j as real * newScale;
      var scaleZ := k as real * newScale;
      var translation := Translation(scaleX, scaleY, scaleZ);
      var newTransform := Compose(transform, translation);
      newTransform := Compose(newTransform, Scaling(newScale));
      GenerateSponge(newTransform, level - 1);
    }

    /** The level-0 branch of generateSponge: the face loop pushes the six
        faces of the unit cube placed by transform. */
    method PushCube(transform: Transform)
      modifies this`positions, this`normals, this`indices
      ensures Buffers() == EmitCube(old(Buffers()), transform)
    {
      ghost var m0 := Buffers();
      FacesPushedEnds(m0, transform);
      for p := 0 to 6
        invariant Buffers() == FacesPushed(m0, transform, p)
      {
        PushFaceStep(m0, transform, p, Buffers());
        PushFace(transform, p);
      }
    }

    /** One turn of the face loop: face p's four corners placed by transform,
        its 16 template normals, and its two triangles over the four new
        vertices, wound by the face's parity. */
    method PushFace(transform: Transform, p: nat)
      requires p < 6
      modifies this`positions, this`normals, this`indices
      ensures positions == old(positions) + FacePositions(transform, p)
      ensures normals == old(normals) + StartingNormals()[p * 16 .. p * 16 + 16]
      ensures indices == old(indices) + Winding(p, |old(positions)| / 4)
    {
      var vecOff := p * 16;
      assert vecOff / 16 == p;
      var v1 := ReadVertex(vecOff, 0);
      var v2 := ReadVertex(vecOff, 1);
      var v3 := ReadVertex(vecOff, 2);
      var v4 := ReadVertex(vecOff, 3);

      var t1 := Apply(transform, v1);
      var t2 := Apply(transform, v2);
      var t3 := Apply(transform, v3);
      var t4 := Apply(transform, v4);

      var offset := |positions| / 4;
      positions := positions + [t1.x, t1.y, t1.z, t1.w] + [t2.x, t2.y, t2.z, t2.w]
                             + [t3.x, t3.y, t3.z, t3.w] + [t4.x, t4.y, t4.z, t4.w];

      normals := normals + StartingNormals()[p * 16 .. p * 16 + 16];

      if p % 2 == 1 {
        WindingOdd(p, offset);
        indices := indices + [offset, offset + 1, offset + 2, offset + 2, offset + 3, offset];
      } else {
        WindingEven(p, offset);
        indices := indices + [offset + 2, offset + 1, offset, offset, offset + 3, offset + 2];
      }
    }

    /** One `new Vec4(...)` of the face loop: the four template floats from
        vecOff + 4 q on, vecOff = 16 p being face p's first float; they are
        corner q of face p. */
    method ReadVertex(vecOff: nat, q: nat) returns (v: Vec4)
      requires vecOff % 16 == 0 && vecOff < 96 && q < 4
      ensures v == Corner(vecOff / 16, q)
    {
      var start := StartingPos();
      var off := vecOff + 4 * q;
      TemplateCorner(vecOff / 16, q);
      v := Vec4(start[off], start[off + 1], start[off + 2], start[off + 3]);
    }

    /** positionsFlat: a copy of the position buffer, in order; on a valid
        sponge it holds 96 floats per cube, 20^level cubes. */
    function PositionsFlat(): (r: seq<real>)
      reads this
      ensures r == positions
      ensures Valid() ==> |r| == 96 * Pow(20, level) && |r| % 4 == 0
    {
      SpongeSizes(level);
      positions
    }

    /** normalsFlat: a copy of the normal buffer, in order; on a valid sponge
        it runs parallel to the positions, one normal per vertex. */
    function NormalsFlat(): (r: seq<real>)
      reads this
      ensures r == normals
      ensures Valid() ==> |r| == |positions| == 96 * Pow(20, level)
    {
      SpongeSizes(level);
      normals
    }

    /** indicesFlat: a copy of the index buffer, in order; on a valid sponge
        it holds 12 triangles per cube and every index names a vertex of the
        position buffer, so all of them fit the unsigned array. */
    function IndicesFlat(): (r: seq<int>)
      reads this
      ensures r == indices
      ensures Valid() ==> |r| == 36 * Pow(20, level) && |r| % 3 == 0
      ensures Valid() ==> forall x :: x in r ==> 0 <= x < |positions| / 4
    {
      SpongeSizes(level);
      SpongeWellFormed(level);
      indices
    }
  }
}
