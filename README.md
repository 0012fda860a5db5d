# Marching-cubes host component, modelled in Dafny

This project models the CPU side of `Master_MarchingCubes`, the Unity
component that drives a GPU marching-cubes surface extractor. It covers:

- **The dirty check.** Each frame `Update` compares five inspector settings
  (`gridSize`, `areaSize`, `isoLevel`, `useSetNoise`, `drawDebugSpheres`) with
  shadow copies. It regenerates only when one of them moved, and then copies
  them into the shadows.
- **Generation.**
  - The 3D noise texture is rebuilt only when its shape must change.
  - It is filled procedurally, or from the literal digit string `gridValues`.
    C# strings index UTF-16 code units, so the model keeps the string as a
    sequence of code units (`Utf16String`). A character outside the Basic
    Multilingual Plane takes two positions.
  - An append buffer is sized for five triangles per grid cell.
  - The triangles the kernel appended are assembled into a mesh.
- **Mesh assembly.** The triangles are flattened into vertex, normal and index
  arrays. A dictionary keyed by exact vertex position sums the triangles'
  normals. A second pass gives every vertex the normalised sum at its
  position, so vertices at the same position share one smooth normal.
- **Sizing.** Thread-group counts and buffer capacities as functions of the
  float `gridSize`, with Unity's and C#'s rounding and truncation written out.

Modules, one per concern:

| file | module | what it holds |
|---|---|---|
| `vectors.dfy` | `Vectors` | `Vector3` as exact reals; Unity's approximate `==` |
| `unity_math.dfy` | `UnityMath` | `CeilToInt`, `(int)` truncation, `RoundToInt` (ties to even) |
| `sizing.dfy` | `Sizing` | thread groups, cell count, triangle capacity, texture shape |
| `literal_grid.dfy` | `LiteralGrid` | `StringArrayToFloat` and `char.GetNumericValue` |
| `mesh_assembly.dfy` | `MeshAssembly` | `AddOrSum`, the two loops of `AssignMeshToMeshObject`, their specification |
| `render_texture.dfy` | `Textures` | the 3D render texture handle and `InitRenderTexture3D` |
| `marching_cubes.dfy` | `MarchingCubesHost` | the component class: `Awake`, `Update`, `GenerateMesh`, the dispatch steps |

The mesh assembly is imperative, as in the component. The two loops fill
arrays and thread a dictionary through `AddOrSum`. Each loop is proved
against specification functions of the triangles. The first loop is proved
against `Vertices`, `FlatNormals`, `Identity` and `AccumulatedNormals`, the
second against `SmoothedNormals`. All of them are recursive except
`Identity`, which is a sequence comprehension. The lemmas then relate those
functions to the declarative description `IsAssembledMesh`. The dictionary
is a `map` value, which `AddOrSum` returns updated.

Some things the component depends on are outside this model. Each becomes a
parameter (`MarchingCubesHost.Collaborators`):

- the triangles the marching-cubes kernel appends, since the compute shaders
  are not part of this model;
- `Vector3.normalized`, as an arbitrary function;
- the Unicode numeric value of UTF-16 code units outside ASCII.

Two behaviours of the code are worth knowing before reading the model:

- The literal decoder allocates `RoundToInt((gx+1)(gy+1)(gz+1))` values
  (line 290). That is one more per axis than the `(int)gridSize` points of
  the noise texture (line 130).
- Nothing checks the grid before the first allocation. An allocation with an
  invalid size throws part way through `GenerateMesh`, after the noise
  texture has been rebuilt. The model reproduces this. `GenerateMesh`
  reports `completed == false` and keeps the effects of the steps before the
  throw. `Update` then leaves the shadows as they were.
- The shadows start at their C# defaults: zero vectors, `0` and `false`
  (lines 36-54 and 88-90). The first frame therefore generates only when some
  setting differs from those defaults. Settings equal to the defaults within
  Unity's epsilon do not generate on the first frame. Any settings that can
  generate a mesh do differ from them (`FirstFrameGenerates`).

## Model

All source paths below are `Assets/Marching_cubes/Scripts/MarchingCubes/Master_MarchingCubes.cs`.

| member | source | states |
|---|---|---|
| Vectors.OperatorEqualsIsReflexive | Assets/Marching_cubes/Scripts/MarchingCubes/Master_MarchingCubes.cs:94-95 | a vector compared with an exact copy of itself is never `!=` under Unity's approximate operator |
| Vectors.OperatorEqualsIsCoarser | Assets/Marching_cubes/Scripts/MarchingCubes/Master_MarchingCubes.cs:94-95 | Unity's `==` holds between two vectors that are not exactly equal (half an epsilon apart) |
| Vectors.OperatorEqualsIsSymmetric | Assets/Marching_cubes/Scripts/MarchingCubes/Master_MarchingCubes.cs:94-95 | Unity's vector `==` gives the same answer with its operands swapped |
| UnityMath.CeilToInt | Assets/Marching_cubes/Scripts/MarchingCubes/Master_MarchingCubes.cs:126-128 | the result is the least integer not below the argument |
| UnityMath.TruncToInt | Assets/Marching_cubes/Scripts/MarchingCubes/Master_MarchingCubes.cs:130 | the `(int)` cast rounds toward zero: below the argument for non-negatives, above it for negatives, within one |
| UnityMath.RoundToInt | Assets/Marching_cubes/Scripts/MarchingCubes/Master_MarchingCubes.cs:290 | the result is within one half of the argument, and even on a tie |
| UnityMath.ConversionsOfIntegral | Assets/Marching_cubes/Scripts/MarchingCubes/Master_MarchingCubes.cs:126-130 | on a whole number, ceiling, truncation and rounding all give that number |
| Sizing.NoiseThreadGroups | Assets/Marching_cubes/Scripts/MarchingCubes/Master_MarchingCubes.cs:126-128 | the groups are the fewest 8-wide groups covering the extent: `8(g-1) < extent <= 8g` |
| Sizing.NoiseThreadGroupsOfIntegral | Assets/Marching_cubes/Scripts/MarchingCubes/Master_MarchingCubes.cs:126-128 | for a whole extent `n` the count is `(n + 7) / 8` |
| Sizing.CellThreadGroups | Assets/Marching_cubes/Scripts/MarchingCubes/Master_MarchingCubes.cs:181-185 | one group per cell and axis: the least integer not below `extent - 1` |
| Sizing.CellCount | Assets/Marching_cubes/Scripts/MarchingCubes/Master_MarchingCubes.cs:193 | there is a cell exactly when the product of `gridSize - Vector3.one` is at least 1 |
| Sizing.TriangleBufferCount | Assets/Marching_cubes/Scripts/MarchingCubes/Master_MarchingCubes.cs:193 | the buffer is non-empty exactly when there is a cell, and holds a multiple of five triangles |
| Sizing.GridDebugPointCount | Assets/Marching_cubes/Scripts/MarchingCubes/Master_MarchingCubes.cs:164 | there is a debug point exactly when the product of the grid sizes is at least 1 |
| Sizing.TextureShape | Assets/Marching_cubes/Scripts/MarchingCubes/Master_MarchingCubes.cs:130 | each dimension truncates its grid size, and is positive exactly when that size is at least 1 |
| Sizing.CellCountOfIntegral | Assets/Marching_cubes/Scripts/MarchingCubes/Master_MarchingCubes.cs:181-193 | on a whole grid the cell count is `(nx-1)(ny-1)(nz-1)` |
| Sizing.GridPointCountOfIntegral | Assets/Marching_cubes/Scripts/MarchingCubes/Master_MarchingCubes.cs:164 | on a whole grid the debug point buffer has `nx*ny*nz` entries |
| Sizing.SizesOfIntegralGrid | Assets/Marching_cubes/Scripts/MarchingCubes/Master_MarchingCubes.cs:130-193 | on a whole grid: triangle capacity `5(nx-1)(ny-1)(nz-1)`, `nx*ny*nz` debug points, texture shape `(nx, ny, nz)` |
| Sizing.CapacityOfProperGrid | Assets/Marching_cubes/Scripts/MarchingCubes/Master_MarchingCubes.cs:193-196 | with two or more points per axis there is room for at least one cell's five triangles and at least eight debug points |
| LiteralGrid.LiteralPointCountOfIntegral | Assets/Marching_cubes/Scripts/MarchingCubes/Master_MarchingCubes.cs:290 | on a whole grid the literal value count is `(nx+1)(ny+1)(nz+1)` |
| LiteralGrid.StringArrayToFloat | Assets/Marching_cubes/Scripts/MarchingCubes/Master_MarchingCubes.cs:289-300 | fails exactly when the count is negative; otherwise the array holds one value per point, the numeric value of character `i` where the string reaches, `1` past its end |
| LiteralGrid.LiteralValues | Assets/Marching_cubes/Scripts/MarchingCubes/Master_MarchingCubes.cs:293-294 | `count` values, value `i` being the numeric value of character `i` or the fallback `1` |
| LiteralGrid.DigitStringValues | Assets/Marching_cubes/Scripts/MarchingCubes/Master_MarchingCubes.cs:294 | a string of decimal digits gives values in `[0, 9]`, each point within the string taking its digit's value |
| LiteralGrid.ShortSourceFallsBack | Assets/Marching_cubes/Scripts/MarchingCubes/Master_MarchingCubes.cs:290-294 | `"11"` with `gridSize` (1,1,1), where the decoder's `(g+1)^3` count is 8, gives eight ones: two digits and six fallbacks |
| LiteralGrid.OneCellGridFallsBack | Assets/Marching_cubes/Scripts/MarchingCubes/Master_MarchingCubes.cs:290-294 | `"11"` on the one-cell grid, `gridSize` (2,2,2), gives 27 ones: two digits and 25 fallbacks |
| LiteralGrid.Utf16 | Assets/Marching_cubes/Scripts/MarchingCubes/Master_MarchingCubes.cs:294 | the C# string holds at least as many code units as the text has characters, and exactly one per character, equal to it, when every character lies in the Basic Multilingual Plane |
| LiteralGrid.DigitLiteralValues | Assets/Marching_cubes/Scripts/MarchingCubes/Master_MarchingCubes.cs:289-300 | any literal of decimal digits decodes to values in `[0, 9]`, each point within the literal taking its own digit |
| LiteralGrid.AstralCharacterDecodesTwice | Assets/Marching_cubes/Scripts/MarchingCubes/Master_MarchingCubes.cs:294 | a character outside the Basic Multilingual Plane takes two positions, each decoding to -1 |
| LiteralGrid.NumericValue | Assets/Marching_cubes/Scripts/MarchingCubes/Master_MarchingCubes.cs:294 | `char.GetNumericValue` of a code unit: among ASCII only digits are non-negative, a digit lies in 0..9, a surrogate half gives -1 |
| LiteralGrid.LiteralPointCount | Assets/Marching_cubes/Scripts/MarchingCubes/Master_MarchingCubes.cs:290 | the decoder's count is positive exactly when `(gx+1)(gy+1)(gz+1)` exceeds one half |
| MeshAssembly.AddOrSum | Assets/Marching_cubes/Scripts/MarchingCubes/Master_MarchingCubes.cs:319-324 | the key is present in the dictionary afterwards, whether it was inserted or summed |
| MeshAssembly.LookupOrDefault | Assets/Marching_cubes/Scripts/MarchingCubes/Master_MarchingCubes.cs:257-263 | `TryGetValue` with its default: a non-zero result comes from a stored entry |
| MeshAssembly.AddOrSumUpdatesOneKey | Assets/Marching_cubes/Scripts/MarchingCubes/Master_MarchingCubes.cs:319-324 | the key is present afterwards; a present key's value grows by `valueToAdd`, an absent key gets `valueToAdd`; every other key and value is unchanged, so the key set grows by at most the one key |
| MeshAssembly.LookupAfterAddOrSum | Assets/Marching_cubes/Scripts/MarchingCubes/Master_MarchingCubes.cs:319-324 | a `TryGetValue` lookup after `AddOrSum` gives the old lookup plus `valueToAdd` at the key and the old lookup elsewhere |
| MeshAssembly.LookupAfterAddTriangle | Assets/Marching_cubes/Scripts/MarchingCubes/Master_MarchingCubes.cs:247-249 | after one triangle's three `AddOrSum` calls, a lookup grows by `normal1` once for each corner at that position |
| MeshAssembly.PositionsAreCorners | Assets/Marching_cubes/Scripts/MarchingCubes/Master_MarchingCubes.cs:235-237 | the positions seen after `n` triangles are exactly the corners of those triangles |
| MeshAssembly.AddTriangleKeys | Assets/Marching_cubes/Scripts/MarchingCubes/Master_MarchingCubes.cs:247-249 | one triangle's additions add exactly its three corner positions to the key set |
| MeshAssembly.AccumulatedNormalsKeys | Assets/Marching_cubes/Scripts/MarchingCubes/Master_MarchingCubes.cs:232-250 | after `n` iterations of the first loop the dictionary's keys are exactly the corner positions seen |
| MeshAssembly.CornersAreKeys | Assets/Marching_cubes/Scripts/MarchingCubes/Master_MarchingCubes.cs:252-264 | every corner is a key of the finished dictionary, so no lookup of the second loop falls back to the default |
| MeshAssembly.LookupAgreesWithSum | Assets/Marching_cubes/Scripts/MarchingCubes/Master_MarchingCubes.cs:239-257 | the lookup of any position equals the reference sum of `normal1` over the corners at that position (zero if none) |
| MeshAssembly.AccumulatedNormalsAreSums | Assets/Marching_cubes/Scripts/MarchingCubes/Master_MarchingCubes.cs:239-250 | each key holds the sum of `normal1` over every corner at that exact position |
| MeshAssembly.SecondAndThirdNormalsIgnored | Assets/Marching_cubes/Scripts/MarchingCubes/Master_MarchingCubes.cs:239-241 | triangles that differ only in `normal2` and `normal3` give the same sums: only `normal1` is ever used |
| MeshAssembly.Vertices | Assets/Marching_cubes/Scripts/MarchingCubes/Master_MarchingCubes.cs:225-237 | the flattened vertices of `n` triangles number `3n` |
| MeshAssembly.VerticesAreCorners | Assets/Marching_cubes/Scripts/MarchingCubes/Master_MarchingCubes.cs:235-237 | vertex `3i+c` is corner `c` of triangle `i`, in the order `point1`, `point2`, `point3` |
| MeshAssembly.IdentityExtends | Assets/Marching_cubes/Scripts/MarchingCubes/Master_MarchingCubes.cs:243-245 | appending `index`, `index+1`, `index+2` to the identity list of length `index` gives the identity list of length `index+3` |
| MeshAssembly.SmoothedNormals | Assets/Marching_cubes/Scripts/MarchingCubes/Master_MarchingCubes.cs:252-265 | the second loop's normals for `i` triangles number `3i` |
| MeshAssembly.SmoothedNormalsAt | Assets/Marching_cubes/Scripts/MarchingCubes/Master_MarchingCubes.cs:257-264 | normal `k` is the normalised dictionary lookup of vertex `k` |
| MeshAssembly.NormalsFollowPositions | Assets/Marching_cubes/Scripts/MarchingCubes/Master_MarchingCubes.cs:252-265 | after both loops every vertex's normal is the normalised sum of `normal1` at its exact position |
| MeshAssembly.AssembledFromLoops | Assets/Marching_cubes/Scripts/MarchingCubes/Master_MarchingCubes.cs:221-272 | the arrays the two loops produce form the assembled mesh: lengths `3N`, corners in order, identity indices, smoothed normals |
| MeshAssembly.SharedPositionsShareNormals | Assets/Marching_cubes/Scripts/MarchingCubes/Master_MarchingCubes.cs:252-265 | in an assembled mesh two vertices at the same exact position carry the same normal |
| MeshAssembly.StoreTriangle | Assets/Marching_cubes/Scripts/MarchingCubes/Master_MarchingCubes.cs:233-249 | writes the three corners, three copies of `normal1` and three indices at `index`, touches no other slot, and returns the dictionary with the three corners added |
| MeshAssembly.SmoothTriangle | Assets/Marching_cubes/Scripts/MarchingCubes/Master_MarchingCubes.cs:253-264 | replaces the three normals at `index` by the normalised lookups of their vertices and changes nothing else |
| MeshAssembly.FlattenAndAccumulate | Assets/Marching_cubes/Scripts/MarchingCubes/Master_MarchingCubes.cs:229-250 | the first loop leaves the vertices flattened in corner order, every normal its triangle's `normal1`, the indices `0..3N-1`, and the dictionary of per-position sums |
| MeshAssembly.FlatNormals | Assets/Marching_cubes/Scripts/MarchingCubes/Master_MarchingCubes.cs:239-241 | the first loop's normals for `n` triangles number `3n` |
| MeshAssembly.FlatNormalsAreFirstNormals | Assets/Marching_cubes/Scripts/MarchingCubes/Master_MarchingCubes.cs:239-241 | after the first loop all three normals of triangle `i` are its `normal1` |
| MeshAssembly.SmoothNormals | Assets/Marching_cubes/Scripts/MarchingCubes/Master_MarchingCubes.cs:252-265 | the second loop leaves every normal equal to the normalised lookup of its vertex, vertices untouched |
| MeshAssembly.AssignMeshToMeshObject | Assets/Marching_cubes/Scripts/MarchingCubes/Master_MarchingCubes.cs:221-272 | the mesh is named "Marching Cubes Mesh" and is the assembled mesh of the triangles; vertices at the same position share their normal |
| Textures.RenderTexture3D.constructor | Assets/Marching_cubes/Scripts/MarchingCubes/Master_MarchingCubes.cs:308-315 | a new texture has the requested width, height and volume depth and is live |
| Textures.RenderTexture3D.Release | Assets/Marching_cubes/Scripts/MarchingCubes/Master_MarchingCubes.cs:305 | the texture is released |
| Textures.HasShape | Assets/Marching_cubes/Scripts/MarchingCubes/Master_MarchingCubes.cs:303 | only an existing texture has a shape |
| Textures.InitRenderTexture3D | Assets/Marching_cubes/Scripts/MarchingCubes/Master_MarchingCubes.cs:302-317 | a texture of the requested shape is kept untouched; otherwise the result is a fresh live texture of that shape and any old texture is released |
| MarchingCubesHost.Changed | Assets/Marching_cubes/Scripts/MarchingCubes/Master_MarchingCubes.cs:94-98 | the dirty check is false for settings equal to their shadow, and true whenever `isoLevel` or a flag differs |
| MarchingCubesHost.Generates | Assets/Marching_cubes/Scripts/MarchingCubes/Master_MarchingCubes.cs:137-196 | generation completes exactly when the float products behind its allocations are large enough: `(gx-1)(gy-1)(gz-1) >= 1`, `(gx+1)(gy+1)(gz+1) > 0.5` with `useSetNoise`, `gx*gy*gz >= 1` with `drawDebugSpheres` |
| MarchingCubesHost.TextureFits | Assets/Marching_cubes/Scripts/MarchingCubes/Master_MarchingCubes.cs:303 | a fitting texture exists, and each non-negative grid size lies in `[dimension, dimension + 1)` |
| MarchingCubesHost.KeptFill | Assets/Marching_cubes/Scripts/MarchingCubes/Master_MarchingCubes.cs:303-316 | the texture before the noise step holds its old noise or nothing, and nothing when there was no texture |
| MarchingCubesHost.NearZeroGridHasNoCells | Assets/Marching_cubes/Scripts/MarchingCubes/Master_MarchingCubes.cs:193 | a grid Unity's `==` finds equal to `Vector3.zero` has a negative cell product, so no triangle buffer can be allocated for it |
| MarchingCubesHost.FirstFrameGenerates | Assets/Marching_cubes/Scripts/MarchingCubes/Master_MarchingCubes.cs:93 | every setting that can generate differs from the default shadows, so a new component generates on its first `Update` |
| MarchingCubesHost.ChangedIsSymmetric | Assets/Marching_cubes/Scripts/MarchingCubes/Master_MarchingCubes.cs:94-98 | the dirty check does not depend on which side is the shadow |
| MarchingCubesHost.NearGridSizeIsUnchanged | Assets/Marching_cubes/Scripts/MarchingCubes/Master_MarchingCubes.cs:94 | a `gridSize` edit that Unity's `==` finds equal to the shadow does not trigger generation |
| MarchingCubesHost.SubEpsilonEditIsIgnored | Assets/Marching_cubes/Scripts/MarchingCubes/Master_MarchingCubes.cs:94 | a half-epsilon edit of `gridSize` changes the settings but not the dirty check |
| MarchingCubesHost.FillFor | Assets/Marching_cubes/Scripts/MarchingCubes/Master_MarchingCubes.cs:132-151 | procedural noise when `useSetNoise` is off; otherwise the decoded literal values, point by point, when there is at least one; otherwise the previous fill |
| MarchingCubesHost.ProperGridGenerates | Assets/Marching_cubes/Scripts/MarchingCubes/Master_MarchingCubes.cs:110-121 | on a whole grid with two or more points per axis generation completes, whatever the flags |
| MarchingCubesHost.FlatGridFails | Assets/Marching_cubes/Scripts/MarchingCubes/Master_MarchingCubes.cs:193-196 | a whole grid with one point along some axis has no cells, so generation never completes |
| MarchingCubesHost.MasterMarchingCubes.constructor | Assets/Marching_cubes/Scripts/MarchingCubes/Master_MarchingCubes.cs:33-56 | the inspector values are set; shadows, texture, mesh and noise fill are at their defaults |
| MarchingCubesHost.MasterMarchingCubes.Awake | Assets/Marching_cubes/Scripts/MarchingCubes/Master_MarchingCubes.cs:88-90 | the grid-size shadow becomes zero and nothing else changes |
| MarchingCubesHost.MasterMarchingCubes.Update | Assets/Marching_cubes/Scripts/MarchingCubes/Master_MarchingCubes.cs:92-108 | `GenerateMesh` runs once exactly when some setting differs from its shadow; if it completes the shadows take the settings, the mesh filter holds the assembled mesh and the check is false afterwards; if it throws the shadows and the mesh stay and the check stays true; either way the texture has the grid's shape, is kept when it already had it, and holds the fill of the noise step; with no change nothing changes |
| MarchingCubesHost.MasterMarchingCubes.CopyShadows | Assets/Marching_cubes/Scripts/MarchingCubes/Master_MarchingCubes.cs:102-106 | every shadow equals its setting afterwards and the dirty check is false |
| MarchingCubesHost.MasterMarchingCubes.GenerateMesh | Assets/Marching_cubes/Scripts/MarchingCubes/Master_MarchingCubes.cs:110-121 | completes exactly when no allocation throws; the texture always has the grid's shape and is kept when it already had it; the noise fill follows the flags, and a new texture left unfilled by a throw holds nothing; on completion the mesh filter holds the assembled mesh of the kernel's triangles, otherwise its old mesh |
| MarchingCubesHost.MasterMarchingCubes.DispatchNoiseShader | Assets/Marching_cubes/Scripts/MarchingCubes/Master_MarchingCubes.cs:123-152 | the texture has the grid's truncated shape; a texture of that shape is kept with its contents, and one of another shape is released and replaced by an unfilled new one; completes unless the literal values are missing or empty, and then holds procedural noise or the decoded values |
| MarchingCubesHost.MasterMarchingCubes.DispatchMarchingCubeShader | Assets/Marching_cubes/Scripts/MarchingCubes/Master_MarchingCubes.cs:179-219 | completes exactly when the triangle capacity is positive, and then the mesh filter holds the assembled mesh of the kernel's triangles |

## Left out

- GPU work is not modelled: compute dispatches, `SetTexture`, `SetVector`, `SetData`, `GetData`, `CopyCount` and buffer `Release` (lines 132-151, 158-176, 187-218). The marching-cubes kernel, the noise kernels and the triangulation table are compute shaders that are not part of this model. Their output, the triangles read back, is a parameter.
- `ShowGridSpheres` and the destruction of old spheres (lines 113-114, 274-287) are scene-object instantiation and material choice. The model only decides whether the grid-debug step throws.
- `MeshAssembly.AssignMeshToMeshObject`: Unity's 16-bit mesh index limit is not modelled. A new `Mesh` accepts at most 65535 vertices. With more than 21845 triangles, the setters at lines 267-269 reject the arrays, and the mesh filter does not hold the assembled mesh. The model claims the assembled mesh for any number of triangles.
- `MarchingCubesHost.MasterMarchingCubes.GenerateMesh`: the same limit is why it can claim the assembled mesh for any kernel output.
- `Debug.Log` of the triangle count (line 210) is I/O.
- `Vector3.normalized` is an arbitrary function parameter. Only "equal keys give equal results" is used about it.
- Float rounding is not modelled. Vectors and `isoLevel` are exact reals, so there is no single-precision rounding, no NaN and no signed zero. With a NaN `isoLevel`, the component would regenerate on every frame; the model cannot express that.
- Integer widths are not modelled. The `int` counts and the `uint` triangle count are unbounded integers, so an overflow of `(int)(cells) * 5` or of an array length is not captured.
- `MarchingCubesHost.MasterMarchingCubes.DispatchMarchingCubeShader`: the model does not bound the number of triangles read back by the buffer capacity. The count comes from the GPU counter.
- Unity's other validation is not modelled: zero thread groups, a non-positive texture size, or a buffer beyond the device's limits. Only the allocations the code makes with a computed size are checked: a negative `float[]` length, and an empty `ComputeBuffer`.
- The mesh assembly loops have their bodies written as the helper methods `StoreTriangle` and `SmoothTriangle`. The two loops are the methods `FlattenAndAccumulate` and `SmoothNormals`. The effect on the arrays is the same as the single method in the source.
- `Master_MarchingSquares.cs`, `Master.cs`, `Master2D.cs` and `Geometry.cs` are not part of this model. They are rendering plumbing: a frame timer, scene queries, buffer uploads and blits.
