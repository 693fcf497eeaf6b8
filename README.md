# Menger sponge mesh generator — a Dafny model

This project models the `MengerSponge` class of `src/menger/MengerSponge.ts`.
The class builds the triangle mesh of a level-`L` Menger sponge into three
growing buffers that a WebGL renderer draws:

- `positions`: 4 floats per vertex;
- `normals`: 4 floats per vertex;
- `indices`: 3 vertex numbers per triangle.

It also keeps a `dirty` flag, which the renderer polls and clears.

The model is a Dafny `class MengerSponge` (module `Menger`). It has the same
five fields (`positions`, `normals`, `indices`, `level`, `dirty`). Its
methods are:

- `SetLevel` stores the level, empties the buffers, raises the flag and
  generates from the identity.
- `GenerateSponge` is recursive. At level 0 it runs the face loop
  (`PushCube`, one turn per face in `PushFace`, each template corner read by
  `ReadVertex`). At a higher level it runs the i/j/k loops over the 27
  offsets (`VisitOffset` for one turn: skip, or recurse with the child
  transform).
- `IsDirty` and `SetClean` give and clear the flag.
- `PositionsFlat`, `NormalsFlat` and `IndicesFlat` are the flat views.

The two private template methods `startingPos` and `startingNormals` hold no
state. They are the functions `StartingPos` and `StartingNormals` of module
`CubeTemplate`. `uMatrix` is not modelled (see "Left out").

Every method is proved against specification functions on values
(module `SpongeGeneration`):

- `EmitCube`: what the face loop appends;
- `Generate`: what `generateSponge(t, level)` does to buffers `m`;
- `Sponge(level) = Generate(empty, identity, level)`: what `setLevel` leaves.

`Generate` is then proved equal to an independent description (module
`SpongeLeaves`): the list `Leaves(t, level)` of the sponge's unit cubes,
emitted one after another. Everything the source promises about the
buffers is proved from that description (module `SpongeProperties`):

- sizes 96·20^L, 96·20^L and 36·20^L;
- normals parallel to positions;
- every index naming an emitted vertex;
- the per-cube layout of positions, normals and face windings;
- the level-0 mesh being the template itself;
- every leaf being shrunk by 3 per level.

Module `SpongeOrientation` proves that every triangle of the mesh faces
outwards: the normal of each triangle, taken in the order its three indices
are stored, points the same way as the normal stored with each of its
vertices. This is what back-face culling relies on. The proof checks the
two triangles of each template face, then shows that a positive uniform
scale and a translation keep that direction.

The transforms the generator builds are only uniform scale plus translation.
They are modelled exactly over `real` as `Transform(s, tx, ty, tz)`, with
matrix product and matrix–vector product (module `Geometry`). The cube
template, with its 24 corners, 6 face normals and parity winding, is in
module `CubeTemplate`. The 3×3×3 offset grid, the 20 kept offsets and the
child transform are in module `Offsets`.

`setLevel` has no check on its argument and no maximum level. A negative or
fractional level never reaches the `level === 0` base case. The model takes
the level as a `nat`.

## Model

| member | source | states |
|---|---|---|
| Menger.MengerSponge.constructor | src/menger/MengerSponge.ts:19-27 | a new sponge holds exactly the level-`level` sponge, with that level, and is dirty |
| Menger.MengerSponge.SetClean | src/menger/MengerSponge.ts:32-38 | afterwards `IsDirty()` is false; the buffers and the level are unchanged, and only the flag may change |
| Menger.MengerSponge.SetLevel | src/menger/MengerSponge.ts:40-49 | afterwards level = L, the flag is raised, and the buffers are exactly `Sponge(L)`: they do not depend on what they held before, so two calls with the same L give identical buffers |
| Menger.MengerSponge.GenerateSponge | src/menger/MengerSponge.ts:84-133 | the recursive generator appends exactly `Generate(old buffers, transform, level)` and changes nothing but the three buffers |
| Menger.MengerSponge.VisitOffset | src/menger/MengerSponge.ts:118-130 | an offset with two or more zero coordinates leaves the buffers alone; any other recurses one level down with transform · translate(offset/3) · scale(1/3) |
| Menger.MengerSponge.PushCube | src/menger/MengerSponge.ts:85-112 | the face loop appends exactly one cube, `EmitCube(old buffers, transform)` |
| Menger.MengerSponge.PushFace | src/menger/MengerSponge.ts:86-110 | one face turn appends face p's four transformed corners, the template normals `[16p, 16p+16)`, and the parity winding over the vertex count before the push |
| Menger.MengerSponge.ReadVertex | src/menger/MengerSponge.ts:88-91 | the four template floats at vecOff + 4q are corner q of face vecOff/16 |
| Menger.MengerSponge.PositionsFlat | src/menger/MengerSponge.ts:136-139 | returns the position buffer unchanged and in order; on a valid sponge it holds 96·20^level floats, whole vertices |
| Menger.MengerSponge.NormalsFlat | src/menger/MengerSponge.ts:152-155 | returns the normal buffer unchanged and in order; on a valid sponge it is as long as the position buffer, 96·20^level floats |
| Menger.MengerSponge.IndicesFlat | src/menger/MengerSponge.ts:144-147 | returns the index buffer unchanged and in order; on a valid sponge it holds 36·20^level entries, whole triangles, each in [0, vertex count) |
| Geometry.ApplyCompose | src/menger/MengerSponge.ts:93-96 | applying a product of transforms applies the right factor first, then the left |
| Geometry.ComposeAssociative | src/menger/MengerSponge.ts:126-128 | the order in which the chain of parent, translation and scale matrices is multiplied out does not matter |
| Geometry.ApplyIdentity | src/menger/MengerSponge.ts:47-48 | the identity transform leaves every vector unchanged |
| Geometry.EdgeApply | src/menger/MengerSponge.ts:93-96 | the transformed corners of a triangle edge differ by the edge scaled by the transform's scale; the translation drops out |
| Geometry.CrossScaleX | src/menger/MengerSponge.ts:93-96 | scaling the two factors of a cross product by j and k scales its first coordinate by j·k (a triangle's normal, under a transform of scale s, by s²) |
| Geometry.CrossScaleY | src/menger/MengerSponge.ts:93-96 | the same for the second coordinate |
| Geometry.CrossScaleZ | src/menger/MengerSponge.ts:93-96 | the same for the third coordinate |
| Geometry.TriangleNormalApply | src/menger/MengerSponge.ts:93-96 | a transform of positive scale keeps a triangle's normal on the same side of any fixed direction |
| CubeTemplate.TemplateAt | src/menger/MengerSponge.ts:51-82 | entry 16p + 4q + e of the two templates is component e of corner q of face p and of face p's normal (w = 0) |
| CubeTemplate.StartingPos | src/menger/MengerSponge.ts:51-66 | the 96 position floats, 4 per corner, 4 corners per face, faces in the order −Z, +Z, +X, −X, +Y, −Y: every corner is a point (w = 1) with all three coordinates ±0.5, a corner of the unit cube |
| CubeTemplate.StartingNormals | src/menger/MengerSponge.ts:67-82 | the 96 normal floats, one normal per corner in the same order: each is a direction (w = 0) with exactly one non-zero component, that one ±1, so of length 1 along one axis, and on that axis the corner it goes with sits at +0.5 times it, so it points out of the cube |
| CubeTemplate.TemplateCorner | src/menger/MengerSponge.ts:88-91 | the four floats from 16p + 4q on are corner q of face p |
| CubeTemplate.CornerOnFace | src/menger/MengerSponge.ts:51-82 | every template corner is a point (w = 1) on its face's plane, at distance 0.5 along the face's normal, so the normals point outwards |
| CubeTemplate.WindingShifts | src/menger/MengerSponge.ts:105-109 | each of a face's six indices is the base offset plus a number below 4 that does not depend on the base |
| CubeTemplate.WindingOdd | src/menger/MengerSponge.ts:105-106 | odd faces push (o, o+1, o+2, o+2, o+3, o) |
| CubeTemplate.WindingEven | src/menger/MengerSponge.ts:107-108 | even faces push (o+2, o+1, o, o, o+3, o+2) |
| CubeTemplate.TemplateFacesOut | src/menger/MengerSponge.ts:51-82 | on every face, the two triangles of its winding, read in index order over the template corners, have the face's stored normal as their cross-product normal: counter-clockwise seen from outside |
| CubeTemplate.FaceNormalUnit | src/menger/MengerSponge.ts:67-82 | every stored face normal has length 1 |
| Offsets.VisitAt | src/menger/MengerSponge.ts:115-117 | the i/j/k loops visit the 27 grid offsets once each, (i, j, k) at turn 9(i+1) + 3(j+1) + (k+1) |
| Offsets.KeptOffsetsInOrder | src/menger/MengerSponge.ts:115-121 | the recursion visits the eight corners and twelve edge midpoints of the grid, in lexicographic order |
| Offsets.KeptOffsetsExactly | src/menger/MengerSponge.ts:118-121 | exactly 20 offsets are kept: an offset is kept if and only if it is in the grid and has at most one zero coordinate |
| Offsets.ChildScale | src/menger/MengerSponge.ts:114-128 | each recursion step divides the scale by 3 |
| Offsets.ChildIsCell | src/menger/MengerSponge.ts:122-128 | the child transform is the parent transform times the map of the unit cube onto sub-cube `offset` |
| Offsets.ChildCell | src/menger/MengerSponge.ts:122-128 | a child transform maps a point p where the parent maps (p + offset) / 3 |
| SpongeGeneration.VisitTurn | src/menger/MengerSponge.ts:115-131 | turn n + 1 of the offset loops either keeps the buffers of turn n (skipped offset) or appends the child sponge of the visited offset |
| SpongeGeneration.VisitAllEnds | src/menger/MengerSponge.ts:114-133 | the offset loops start from the buffers as they are and, after 27 turns, have run the whole recursive branch |
| SpongeGeneration.PushFaceStep | src/menger/MengerSponge.ts:86-110 | one face turn extends the buffers of the first p faces to those of the first p + 1 faces |
| SpongeGeneration.FacesPushedEnds | src/menger/MengerSponge.ts:86-112 | the face loop starts from the buffers as they are and, after six turns, has appended exactly one cube |
| SpongeGeneration.FacesPositionsAt | src/menger/MengerSponge.ts:86-103 | face p's corner q component e sits at 16p + 4q + e in the cube's position floats |
| SpongeGeneration.CubeCorner | src/menger/MengerSponge.ts:86-103 | the cube's position floats 16p + 4q .. +3 are corner q of face p under the cube's transform |
| SpongeGeneration.FacesIndicesAt | src/menger/MengerSponge.ts:98-109 | index 6p + r of a cube is the base plus 4p plus entry r of face p's winding pattern |
| SpongeGeneration.CubeFaceIndices | src/menger/MengerSponge.ts:98-109 | a cube's indices 6p .. 6p+5 are face p's winding over its own four vertices o + 4p .. o + 4p + 3 |
| SpongeGeneration.CubeIndicesInRange | src/menger/MengerSponge.ts:98-109 | every index a cube appends lies in [o, o + 24): the 24 vertices it has just pushed |
| SpongeGeneration.EmitCubeAppends | src/menger/MengerSponge.ts:86-111 | one cube appends 96 position floats, 96 normal floats and 36 indices and keeps the buffers well formed |
| SpongeLeaves.GenerateEmitsLeaves | src/menger/MengerSponge.ts:84-133 | the recursive generator emits exactly the leaf cubes `Leaves(t, level)`, one after another, in depth-first loop order |
| SpongeLeaves.VisitPlane | src/menger/MengerSponge.ts:115-131 | one run of the middle loop emits the leaves of the plane's kept offsets |
| SpongeLeaves.VisitRow | src/menger/MengerSponge.ts:116-131 | one run of the innermost loop emits the leaves of the row's kept offsets |
| SpongeLeaves.VisitOne | src/menger/MengerSponge.ts:117-130 | a skipped offset emits nothing; a kept one emits the leaves of its sub-cube |
| SpongeLeaves.EmitCubesGrows | src/menger/MengerSponge.ts:86-111 | emitting cubes only appends: 96, 96 and 36 entries per cube, with the old contents kept as a prefix |
| SpongeLeaves.EmitCubesWellFormed | src/menger/MengerSponge.ts:86-111 | emitting cubes keeps the buffers well formed |
| SpongeLeaves.EmitCubesPositionsAt | src/menger/MengerSponge.ts:93-103 | cube c owns position floats 96c .. 96c+95 past the old end, and they are its transformed corners |
| SpongeLeaves.EmitCubesNormalsAt | src/menger/MengerSponge.ts:104 | cube c owns normal floats 96c .. 96c+95 past the old end, and they are the whole normal template |
| SpongeLeaves.EmitCubesIndicesAt | src/menger/MengerSponge.ts:98-109 | cube c owns indices 36c .. 36c+35 past the old end, numbered from its first vertex (old vertex count + 24c) |
| SpongeProperties.LeavesCount | src/menger/MengerSponge.ts:114-131 | a level-L sponge is made of 20^L unit cubes |
| SpongeProperties.GenerateSizes | src/menger/MengerSponge.ts:84-133 | generateSponge(t, L) on any buffers appends 96·20^L position floats, 96·20^L normal floats and 36·20^L indices |
| SpongeProperties.GenerateWellFormed | src/menger/MengerSponge.ts:84-133 | generateSponge keeps well-formed buffers well formed |
| SpongeProperties.SpongeIsLeaves | src/menger/MengerSponge.ts:40-49 | setLevel(L) leaves the leaf cubes of the identity-placed level-L sponge |
| SpongeProperties.SpongeSizes | src/menger/MengerSponge.ts:40-49 | after setLevel(L), positions and normals hold 96·20^L floats and indices 36·20^L entries |
| SpongeProperties.SpongeWellFormed | src/menger/MengerSponge.ts:40-49 | after setLevel(L), normals are parallel to positions, vertices and triangles are whole, and every index names an emitted vertex |
| SpongeProperties.SpongeCubeNormals | src/menger/MengerSponge.ts:104 | after setLevel(L), cube c's 96 normal floats are the whole template, whatever the cube's transform |
| SpongeProperties.SpongeFaceIndices | src/menger/MengerSponge.ts:98-109 | after setLevel(L), indices 36c + 6p .. +5 are face p's winding over vertices 24c + 4p .. 24c + 4p + 3 |
| SpongeProperties.SpongeCorner | src/menger/MengerSponge.ts:88-103 | after setLevel(L), vertex 24c + 4p + q is corner q of face p placed by leaf c's transform |
| SpongeProperties.SpongeLevelZero | src/menger/MengerSponge.ts:47-48 | setLevel(0) draws the template itself: positions equal startingPos, normals equal startingNormals, 36 indices |
| SpongeProperties.IdentityCube | src/menger/MengerSponge.ts:93-96 | a transform with unit scale and no translation places the cube exactly on the position template |
| SpongeProperties.LeafScale | src/menger/MengerSponge.ts:114-128 | every leaf cube of a level-L sponge placed by t has scale t.s / 3^L |
| SpongeOrientation.SpongeFacesOut | src/menger/MengerSponge.ts:40-49 | after setLevel(L), the index buffer holds whole triangles and every one of them faces outwards, along the normals stored with its three vertices |
| SpongeOrientation.EmittedFacesOut | src/menger/MengerSponge.ts:86-111 | cubes emitted onto empty buffers by transforms of positive scale have every triangle facing outwards |
| SpongeOrientation.CubesFacesOut | src/menger/MengerSponge.ts:86-111 | a mesh whose 36·n indices wind n cubes, each placed by a transform of positive scale, has every triangle facing outwards |
| SpongeOrientation.CubeTriangleFacesOut | src/menger/MengerSponge.ts:98-109 | triangle 12 c + 2 p + tri of the mesh, triangle tri of face p of cube c, faces outwards |
| SpongeOrientation.PlacedTriangleOut | src/menger/MengerSponge.ts:93-109 | a template triangle placed by a transform of positive scale has a normal on the same side as its face's stored normal |
| SpongeOrientation.LeavesPositive | src/menger/MengerSponge.ts:114-128 | every leaf cube of the identity-placed sponge has positive scale, 1/3^L |

## Left out

- `src/menger/Gui.ts`: camera, mouse and keyboard handling, which is UI code and depends on a `Camera` class that is not part of this model. For keys Digit1–Digit4 it sets the sponge's public field `dirty` to true directly and then calls `setLevel(0..3)` (Gui.ts:213-231). `setLevel` raises the flag itself, so the direct write changes nothing; the call is modelled by `SetLevel`, and a Dafny client can write the public field `dirty` in the same way.
- `src/menger/Shaders.ts` (GLSL source strings) and `static/index.js` (canvas and window events): GPU code and DOM input/output.
- The TSM library's `Mat4` and `Vec4` are not part of this model. Transforms are modelled as the exact matrices of a uniform scale plus a translation. TSM's `multiply` and `scale` are taken to multiply on the right (`this · m`), which is what the code's "translate, then scale" order relies on. All transform arithmetic (TSM's `multiply`, `scale` and `multiplyVec4`, computed in floating point) is modelled as exact over `real`; floating-point rounding, including that of the 1/3 factors, is not modelled.
- `uMatrix`: returns a constant identity matrix and has no logic.
- Menger.MengerSponge.PositionsFlat: `new Float32Array(...)` rounds to 32-bit floats and copies the array. The model returns the sequence itself, so rounding is not modelled, and aliasing cannot arise because Dafny sequences are values.
- Menger.MengerSponge.NormalsFlat: the 32-bit float conversion is not modelled, as for positions.
- Menger.MengerSponge.SetLevel, Menger.MengerSponge.GenerateSponge: a JavaScript array holds at most 2^32 − 1 elements, and `push` throws a `RangeError` once the length would pass that. The position and normal buffers hold 96·20^level floats, so from level 6 on (about 6.1·10^9 floats) the source throws part-way through generation. The model's sequences are unbounded, so `SetLevel(6)` and above return the full buffers there.
- Menger.MengerSponge.IndicesFlat: `new Uint32Array(...)` would wrap indices of 2^32 or more, but such an index needs more than 4·2^32 position floats, which the array limit above already rules out. Indices are unbounded integers here. The contract proves every index is non-negative and below the vertex count, which is 24·20^level.
- Menger.MengerSponge.SetLevel: the level is a `nat`. With a negative or fractional level the source recurses until the JavaScript stack overflows and a `RangeError` is thrown; by then `setLevel` has already stored the level, emptied the three buffers and raised `dirty` (MengerSponge.ts:42-46). The model does not cover those inputs.
- Menger.MengerSponge.PushFace: the source reads `startingPos()` 16 times per face and calls `push` four times. The model reads the template once per corner (`ReadVertex`) and appends the four corners in one update. The result is the same.
- Menger.MengerSponge.PushFace: the source computes the first new vertex number as `this.positions.length / 4` (MengerSponge.ts:98), a floating-point division, while the model divides with floor (also in `SpongeGeneration.EmitCube`). The two agree whenever the position buffer holds whole vertices, which every state `setLevel` reaches does (`SpongeWellFormed`); `GenerateSponge`, `PushCube`, `PushFace` and `Generate` are stated for arbitrary buffers, and on a buffer whose length is not a multiple of 4 the source would push fractional indices, which the model does not reproduce.
- Menger.MengerSponge.IsDirty has no contract of its own. It returns the `dirty` field, and the flag's lifecycle is stated by the constructor, `SetLevel` and `SetClean`.
- SpongeOrientation.SpongeFacesOut: "facing outwards" is stated against the normals stored with the vertices, and those are proved to point out of each unit cube (`StartingNormals`, `CornerOnFace`). It is not stated against the sponge as a whole: faces of neighbouring cubes that touch inside the sponge are emitted too, as in the source.
