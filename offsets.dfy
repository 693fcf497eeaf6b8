/** The 3 x 3 x 3 grid of sub-cubes a cube is cut into, the order in which the
    generator's i/j/k loops visit them, the ones it keeps, and the transform
    it hands to each kept sub-cube. */
module Offsets {
  import opened Geometry

  /** A sub-cube position (i, j, k), each coordinate in {-1, 0, 1}. */
  datatype Offset = Offset(i: int, j: int, k: int)

  predicate InGrid(o: Offset)
  {
    -1 <= o.i <= 1 && -1 <= o.j <= 1 && -1 <= o.k <= 1
  }

  /** One run of the innermost loop: k = -1, 0, 1. */
  function Row(i: int, j: int): seq<Offset>
  {
    [Offset(i, j, -1), Offset(i, j, 0), Offset(i, j, 1)]
  }

  /** One run of the middle loop: j = -1, 0, 1. */
  function Plane(i: int): seq<Offset>
  {
    Row(i, -1) + Row(i, 0) + Row(i, 1)
  }

  /** All 27 offsets in the order the loops visit them: i outermost, k innermost. */
  function Visits(): seq<Offset>
  {
    Plane(-1) + Plane(0) + Plane(1)
  }

  /** The loops visit every grid offset exactly once, (i, j, k) at turn
      9 (i + 1) + 3 (j + 1) + (k + 1). */
  lemma VisitAt(i: int, j: int, k: int)
    requires InGrid(Offset(i, j, k))
    ensures |Visits()| == 27
    ensures 9 * (i + 1) + 3 * (j + 1) + (k + 1) < 27
    ensures Visits()[9 * (i + 1) + 3 * (j + 1) + (k + 1)] == Offset(i, j, k)
  {
    var n := 3 * (j + 1) + (k + 1);
    assert Plane(i)[n] == Offset(i, j, k);
  }

  /** How many coordinates of the offset are zero. */
  function ZeroCount(o: Offset): nat
  {
    (if o.i == 0 then 1 else 0) + (if o.j == 0 then 1 else 0) + (if o.k == 0 then 1 else 0)
  }

  /** Two or more zero coordinates: the centre of a face or of the whole
      cube, the seven sub-cubes a Menger sponge removes. */
  predicate Skipped(o: Offset)
  {
    ZeroCount(o) >= 2
  }

  /** Offset o if the generator keeps it, nothing if it skips it. */
  function Keep(o: Offset): seq<Offset>
  {
    if Skipped(o) then [] else [o]
  }

  /** The kept offsets of one run of the innermost loop. */
  function KeptRow(i: int, j: int): seq<Offset>
  {
    Keep(Offset(i, j, -1)) + Keep(Offset(i, j, 0)) + Keep(Offset(i, j, 1))
  }

  /** The kept offsets of one run of the middle loop. */
  function KeptPlane(i: int): seq<Offset>
  {
    KeptRow(i, -1) + KeptRow(i, 0) + KeptRow(i, 1)
  }

  /** The sub-cubes the generator recurses into, in the order it does so. */
  function KeptOffsets(): seq<Offset>
  {
    KeptPlane(-1) + KeptPlane(0) + KeptPlane(1)
  }

  /** The twenty kept offsets, the eight corners and the twelve edge
      midpoints of the grid, in lexicographic (i, j, k) order. */
  lemma KeptOffsetsInOrder()
    ensures KeptOffsets() ==
      [Offset(-1, -1, -1), Offset(-1, -1, 0), Offset(-1, -1, 1), Offset(-1, 0, -1), Offset(-1, 0, 1),
       Offset(-1, 1, -1), Offset(-1, 1, 0), Offset(-1, 1, 1), Offset(0, -1, -1), Offset(0, -1, 1),
       Offset(0, 1, -1), Offset(0, 1, 1), Offset(1, -1, -1), Offset(1, -1, 0), Offset(1, -1, 1),
       Offset(1, 0, -1), Offset(1, 0, 1), Offset(1, 1, -1), Offset(1, 1, 0), Offset(1, 1, 1)]
  {
  }

  /** Exactly 20 of the 27 sub-cubes are kept: an offset is kept if and only
      if it lies in the grid and has at most one zero coordinate. */
  lemma KeptOffsetsExactly(o: Offset)
    ensures |KeptOffsets()| == 20
    ensures o in KeptOffsets() <==> InGrid(o) && ZeroCount(o) <= 1
  {
    KeptOffsetsInOrder();
  }

  /** The scale factor from a cube to each of its sub-cubes. */
  const NewScale: real := 1.0 / 3.0

  /** The transform the generator recurses with for offset o: the parent
      transform, times a translation by o / 3, times a uniform scale by 1 / 3. */
  function ChildTransform(t: Transform, o: Offset): Transform
  {
    var translation := Translation(o.i as real * NewScale, o.j as real * NewScale, o.k as real * NewScale);
    Compose(Compose(t, translation), Scaling(NewScale))
  }

  /** Each level of recursion shrinks the scale to a third. */
  lemma ChildScale(t: Transform, o: Offset)
    ensures ChildTransform(t, o).s == t.s / 3.0
  {
  }

  /** Sub-cube o of the unit cube: a third of its size, centred at o / 3. */
  function Cell(o: Offset): Transform
  {
    Transform(NewScale, o.i as real * NewScale, o.j as real * NewScale, o.k as real * NewScale)
  }

  /** The child transform is the parent transform followed by the cell map. */
  lemma ChildIsCell(t: Transform, o: Offset)
    ensures ChildTransform(t, o) == Compose(t, Cell(o))
  {
    var translation := Translation(o.i as real * NewScale, o.j as real * NewScale, o.k as real * NewScale);
    ComposeAssociative(t, translation, Scaling(NewScale));
    assert Compose(translation, Scaling(NewScale)) == Cell(o);
  }

  lemma CellApply(o: Offset, v: Vec4)
    ensures Apply(Cell(o), v) == Vec4((v.x + o.i as real * v.w) / 3.0, (v.y + o.j as real * v.w) / 3.0,
                                      (v.z + o.k as real * v.w) / 3.0, v.w)
  {
    var i, j, k := o.i as real, o.j as real, o.k as real;
    assert NewScale * v.x + i * NewScale * v.w == (v.x + i * v.w) / 3.0;
    assert NewScale * v.y + j * NewScale * v.w == (v.y + j * v.w) / 3.0;
    assert NewScale * v.z + k * NewScale * v.w == (v.z + k * v.w) / 3.0;
  }

  /** A child transform places the unit cube at sub-cube o of the parent's
      cube: a point p lands where the parent puts (p + o) / 3. */
  lemma ChildCell(t: Transform, o: Offset, v: Vec4)
    ensures Apply(ChildTransform(t, o), v) ==
            Apply(t, Vec4((v.x + o.i as real * v.w) / 3.0, (v.y + o.j as real * v.w) / 3.0,
                          (v.z + o.k as real * v.w) / 3.0, v.w))
  {
    ChildIsCell(t, o);
    ApplyCompose(t, Cell(o), v);
    CellApply(o, v);
  }
}
