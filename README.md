# Mountain terrain synthesis, modelled in Dafny

This project models the terrain-synthesis core of the Mountain generator.

- **Seeded simplex noise.** A `SimplexNoise` engine is built from a seed. It fills a permutation `p` with 0..255, shuffles it, expands it into the 512-entry `perm` and `permMod12` tables, and hashes lattice corners through them into the `grad3` gradient table.
- **The ridge transform and ridged multifractal.** `ridge` and `ridgedMF` sum octaves of noise, each weighted by the previous octave's ridge value.
- **The `mountain` object's `elevate` pipeline.**
  - It lays out an `(s+1)×(s+1)` grid of vertices with texture coordinates, heights from `ridgedMF`, a radial falloff and mirrored negative heights.
  - It emits two triangles per quad.
  - It accumulates face normals into vertex normals and normalises them.
  - It unwelds the indexed mesh into one vertex and one normal per index, which the object keeps.
- **`updateConfig`**, which replaces the configuration and re-elevates.

Modules, one per concern:

- `Geometry`: vectors, cross and dot products.
- `Settings`: the `config` record and its defaults.
- `Noise`: `SimplexNoise.h`.
- `Ridged`: `ridge` and `ridgedMF`.
- `Layout`: the grid addressing and the index loop.
- `Terrain`: the grid loop.
- `Normals`: `computeNormals`.
- `Mountain`: flattening, the whole pipeline and the `mountain` class.

Floating-point values are reals. `std::sqrt` is a parameter `sqrt: real -> real` that is assumed nowhere except where a lemma says so through `IsSqrtAt`. The value `sqrt(3.0)` in `noise2D`'s skew factors is a parameter `sqrt3`.

The random generator behind the shuffle is a sequence of 256 draws in [0, 255]. `Elevate` takes it as a map `rng` from seed to draws.

Imperative code keeps its form:

- the constructor's three loops;
- the grid, index, accumulation, normalisation and flatten loops;
- the octave loop.

Each of these is a method with loop invariants, proved against a function that states what it computes. The properties are lemmas about those functions.

Three behaviours of the code are easy to misread:

- The octave loop compares an `int` counter with the float `octaves`, so it runs ⌈octaves⌉ times rather than a truncated count (`Ridged.OctaveCount`).
- Nothing rejects `subdivisions < 1`. For `subdivisions <= -1` the grid loop never runs, so nothing is divided and the mesh is empty. For `subdivisions == 0` the single grid vertex divides the extents by zero, a float division that yields inf or NaN rather than a trap, and the index loop is empty, so the stored mesh is empty as well. The model requires `subdivisions >= 1` and non-zero extents (`Settings.ValidGrid`).
- `fastFloor` returns `x - 1` for negative integral `x` (`Noise.FastFloorVersusFloor`).

## Model

| member | source | states |
|---|---|---|
| Geometry.CrossPerpendicular | src/mountain.cpp:90-93 | the cross product is orthogonal to both of its operands |
| Noise.Identity | src/SimplexNoise.h:27-30 | the fill gives n entries with entry k equal to k |
| Noise.FillIdentity | src/SimplexNoise.h:27-30 | after the loop every slot of the array holds its own index |
| Noise.SwapPartner | src/SimplexNoise.h:34 | for every draw in [0,255] the swap partner r = i + draw % (256-i) lies in [i, 255] |
| Noise.Swap | src/SimplexNoise.h:35 | `std::swap` exchanges entries i and r and leaves every other entry alone |
| Noise.SwapIsPermutation | src/SimplexNoise.h:35 | a swap leaves the multiset of entries unchanged |
| Noise.Shuffled | src/SimplexNoise.h:33-36 | the table after n steps of the shuffle loop, always 256 entries; ShuffledIsPermutation proves it a permutation of the input |
| Noise.ShuffledIsPermutation | src/SimplexNoise.h:33-36 | whatever the draws, any number of shuffle steps only rearranges the input |
| Noise.ShuffleInPlace | src/SimplexNoise.h:33-36 | the in-place shuffle loop leaves exactly the 256-step shuffle of the old contents |
| Noise.PermutationFacts | src/SimplexNoise.h:26-36 | a permutation of 0..255 has 256 distinct byte entries and contains every byte |
| Noise.Low8 | src/SimplexNoise.h:42 | `i & 255` is a byte congruent to i modulo 256, negative i included |
| Noise.Expand | src/SimplexNoise.h:39-44 | the perm and permMod12 tables the third constructor loop fills; ExpandValid states their shape |
| Noise.ExpandValid | src/SimplexNoise.h:39-44 | expanding a permutation gives 512-entry tables of bytes, with permMod12 = perm % 12 and perm[i] = perm[i+256] = p[i] for i < 256 |
| Noise.ExpandInto | src/SimplexNoise.h:39-44 | the expansion loop leaves perm and permMod12 equal to the expansion of p |
| Noise.SimplexNoise.constructor | src/SimplexNoise.h:20-45 | the tables are valid and p is the 256-step shuffle of 0..255 by the draws |
| Noise.SimplexNoise.Tables | src/SimplexNoise.h:228-231 | the tables the samplers read are fit for hashing and are the expansion of p |
| Noise.Trunc | src/SimplexNoise.h:235 | the `(int)x` conversion toward zero: for x >= 0 the result is in [0, x] within one below x, for x < 0 it is in [x, 0] within one above x |
| Noise.FastFloor | src/SimplexNoise.h:234-236 | the result r satisfies r <= x <= r + 1 |
| Noise.FastFloorVersusFloor | src/SimplexNoise.h:234-236 | fastFloor is the mathematical floor except at negative integers, where it is one less |
| Noise.Grad3Shape | src/SimplexNoise.h:240-244 | each of the 12 gradients has components in {-1,0,1} and squared length 2 |
| Noise.GradIndex2 | src/SimplexNoise.h:91-105 | every 2D hash index is < 512, and gi = permMod12[...]*3 is a multiple of 3 with gi+2 < 36 |
| Noise.GradIndex3 | src/SimplexNoise.h:193-217 | every nested 3D hash index is < 512, and gi is a multiple of 3 with gi+2 < 36 |
| Noise.Weight | src/SimplexNoise.h:92-93 | t squared twice is never negative |
| Noise.WeightedTerm | src/SimplexNoise.h:92-93 | the corner term is bounded by t^4 times the bound on the gradient dot product, and is zero unless t > 0 |
| Noise.GradDot2 | src/SimplexNoise.h:93 | a gradient dot product in 2D is at most abs(x) + abs(y) in magnitude |
| Noise.GradDot3 | src/SimplexNoise.h:195 | a gradient dot product in 3D is at most abs(x) + abs(y) + abs(z) in magnitude |
| Noise.Corner2 | src/SimplexNoise.h:70-76 | exactly one of (i1, j1) is 1, and i1 is 1 iff x0 > y0 |
| Noise.F2 | src/SimplexNoise.h:51 | the 2D skewing factor 0.5 * (sqrt(3) - 1), with sqrt(3) supplied as a parameter; Locate2 states the cell it skews into |
| Noise.G2 | src/SimplexNoise.h:52 | the 2D unskewing factor (3 - sqrt(3)) / 6; Locate2 states the offsets it unskews to |
| Noise.Locate2 | src/SimplexNoise.h:58-82 | the skewed cell (i, j) brackets the skewed input, the corner choice is that of Corner2, and the first corner's offset is the input minus the unskewed cell origin (i - t, j - t) with t = (i + j) * G2 |
| Noise.CornerTerm2 | src/SimplexNoise.h:89-107 | a corner whose t is negative contributes exactly 0; a non-zero term has t > 0 and is bounded by the corner's weight |
| Noise.Noise2D | src/SimplexNoise.h:48-112 | the sample is bounded by 70 times the sum of the three corners' bounds, so it is 0 when no corner is within its radius |
| Noise.Corner3 | src/SimplexNoise.h:140-170 | in every branch i1+j1+k1 = 1 and i2+j2+k2 = 2, the first offset is componentwise <= the second, and the step is taken along the largest coordinate first |
| Noise.Locate3 | src/SimplexNoise.h:125-182 | the skewed cell (i, j, k) brackets the skewed input, the first corner's offset is the input minus the unskewed cell origin (i - t, j - t, k - t) with t = (i + j + k) * G3, and the simplex offsets are Corner3's ranking of that offset (sums 1 and 2, the second containing the first) |
| Noise.CornerTerm3 | src/SimplexNoise.h:190-220 | a corner whose t is negative contributes exactly 0; a non-zero term has t > 0 and is bounded by the corner's weight |
| Noise.Noise3D | src/SimplexNoise.h:115-224 | the sample is bounded by 32 times the sum of the four corners' bounds |
| Ridged.Ridge | src/mountain.cpp:18-31 | the ridge is below 0.5 exactly when offset - abs(h) is below 0.5 |
| Ridged.RidgeMonotone | src/mountain.cpp:18-31 | the ridge does not increase as abs(h) grows, across both cubic branches |
| Ridged.RidgeOnUnitInterval | src/mountain.cpp:18-31 | for k = offset - abs(h) in [0,1] the ridge is in [0,1], maps 0, 0.5 and 1 to themselves, and stays within 3*abs(k - 0.5) of 0.5 |
| Ridged.OctaveCount | src/mountain.cpp:40 | the loop runs 0 times for octaves <= 0 and otherwise the least integer count >= octaves |
| Ridged.OctaveStep | src/mountain.cpp:41-47 | one loop iteration moves sum, prev, amp and freq from their octave-k values to their octave-(k+1) values |
| Ridged.RidgedMF | src/mountain.cpp:33-51 | the loop returns the recursive sum of ridge_k * amp_k * ridge_(k-1) over OctaveCount(octaves) octaves, and 0 when octaves <= 0 |
| Ridged.Freq | src/mountain.cpp:38-46 | the loop's `freq` at octave k, frequency * lacunarity^k; RidgedMF's loop invariant keeps `freq` equal to it |
| Ridged.Amp | src/mountain.cpp:36-47 | the loop's `amp` at octave k, 0.5 * gain^k; RidgedMF's loop invariant keeps `amp` equal to it, and AmpTotalClosedForm sums these |
| Ridged.OctaveSample | src/mountain.cpp:41 | the sample `noise2D(x * freq, y * freq)` of octave k; OctaveRidgeOnUnitInterval bounds the ridge taken of it |
| Ridged.OctaveRidge | src/mountain.cpp:41-42 | n = ridge(h, ridgeOffset) of octave k; OctaveRidgeOnUnitInterval puts it in [0,1] |
| Ridged.PrevRidge | src/mountain.cpp:37-45 | `prev` at octave k: 1 before the first octave, then the previous octave's ridge; PrevRidgeOnUnitInterval puts it in [0,1] |
| Ridged.Contribution | src/mountain.cpp:44 | the term n * amp * prev added per octave; ContributionBounded puts it in [0, amp] |
| Ridged.AmpTotalClosedForm | src/mountain.cpp:36-47 | the amplitudes 0.5, 0.5*gain, ... sum to (0.5 - amp_n) / (1 - gain) |
| Ridged.AmpNonNegative | src/mountain.cpp:36-47 | with gain >= 0 no amplitude is negative |
| Ridged.ContributionBounded | src/mountain.cpp:44 | a term n * amp * prev with n and prev in [0,1] lies in [0, amp] |
| Ridged.OctaveRidgeOnUnitInterval | src/mountain.cpp:41-42 | when every sample keeps offset - abs(h) in [0,1], each octave's ridge is in [0,1] |
| Ridged.PrevRidgeOnUnitInterval | src/mountain.cpp:37-45 | prev, which starts at 1 and then holds the previous ridge, stays in [0,1] |
| Ridged.OctaveTermBounded | src/mountain.cpp:44-45 | each octave adds between 0 and its amplitude |
| Ridged.AmpTotalBounded | src/mountain.cpp:36-47 | for gain in [0,1) the amplitudes sum to at most 0.5 / (1 - gain) |
| Ridged.RidgedSum | src/mountain.cpp:40-48 | the sum after n octaves, the value RidgedMF is proved to return; RidgedSumBounded bounds it |
| Ridged.RidgedSumBounded | src/mountain.cpp:33-51 | the ridged sum lies between 0 and the sum of the amplitudes |
| Layout.GridIndex | src/mountain.cpp:136 | row*(s+1)+col lies in [0, (s+1)^2) and gives back row and col as quotient and remainder |
| Layout.GridIndexOnto | src/mountain.cpp:126-136 | every slot of the (s+1)^2 array is the index of exactly the vertex (idx / (s+1), idx % (s+1)) |
| Layout.QuadTriangles | src/mountain.cpp:178-192 | quad (row, col) contributes (i0, i0+1, i0+s+1) and (i0+1, i0+s+2, i0+s+1), all below (s+1)^2 |
| Layout.Quads | src/mountain.cpp:176-194 | the first n quads give 6n indices, each below (s+1)^2 |
| Layout.QuadsSlice | src/mountain.cpp:176-194 | the six indices of quad q sit at positions 6q..6q+5 of the list |
| Layout.VertexCount | src/mountain.cpp:127-131 | the (s+1)^2 entries the vertex, normal and texcoord vectors are resized to; GridIndexOnto shows every slot is a grid vertex |
| Layout.IndexList | src/mountain.cpp:173-194 | the index list the second loop leaves; IndexListShape gives its length and bounds, EveryVertexReferenced shows it covers the grid, and BuildIndices proves the loop produces it |
| Layout.GridIndexRowMajor | src/mountain.cpp:180-183 | slot row*(s+1)+col holds vertex (row, col), its right neighbour is the next slot, and the vertex below is s+1 slots on |
| Layout.IndexListShape | src/mountain.cpp:173-194 | the list has exactly 6 s^2 entries, each below (s+1)^2, and quad (row, col) sits at 6(row*s + col) |
| Layout.QuadCornersReferenced | src/mountain.cpp:178-192 | all four corners of every quad appear in the index list |
| Layout.EveryVertexReferenced | src/mountain.cpp:176-194 | for s >= 1 every grid vertex is used by some triangle |
| Layout.QuadsStep | src/mountain.cpp:177-193 | pushing quad row*s + col extends the list by that quad's six indices |
| Layout.PushQuad | src/mountain.cpp:178-192 | the six push_back calls append exactly the quad's two triangles |
| Layout.PushRow | src/mountain.cpp:177-193 | the inner loop appends row `row`'s quads in column order |
| Layout.BuildIndices | src/mountain.cpp:173-194 | the nested loops produce exactly the index list |
| Layout.OneQuad | src/mountain.cpp:176-194 | a single subdivision gives the index list [0, 1, 2, 1, 3, 2] |
| Terrain.PosX | src/mountain.cpp:138 | the world x of column col, col * (width/s) - width/2; SamplePointInUnitSquare shows the sample x taken from it is col/s |
| Terrain.PosZ | src/mountain.cpp:139 | the world z of row row, row * (height/s) - height/2; SamplePointInUnitSquare shows the sample y taken from it is 1 - row/s |
| Terrain.SampleX | src/mountain.cpp:141 | the noise x of column col, (posX + width/2) / width; SamplePointInUnitSquare proves it equal to col/s and in [0,1] |
| Terrain.SampleY | src/mountain.cpp:142 | the noise y of row row, (-posZ + height/2) / height; SamplePointInUnitSquare proves it equal to 1 - row/s and in [0,1] |
| Terrain.TexCoord | src/mountain.cpp:160-163 | the UV (col/s, row/s) of vertex (row, col); TexCoordInUnitSquare puts it in [0,1]^2 |
| Terrain.DistanceSquared | src/mountain.cpp:55-57 | dx*dx + dy*dy of the absolute axis gaps, the argument getDistance passes to sqrt |
| Terrain.SamplePointInUnitSquare | src/mountain.cpp:138-142 | vertex (row, col) samples the noise at (col/s, 1 - row/s), inside the unit square whatever the extents |
| Terrain.TexCoordInUnitSquare | src/mountain.cpp:160-163 | texture coordinates lie in [0,1]; u equals the sample x and v equals 1 - sample y |
| Terrain.GetDistance | src/mountain.cpp:53-58 | getDistance as the root of the squared distance; DistanceSymmetric and DistanceAtLeastAxis state its properties |
| Terrain.DistanceSymmetric | src/mountain.cpp:53-58 | getDistance does not depend on the order of the two points |
| Terrain.DistanceAtLeastAxis | src/mountain.cpp:53-58 | with an exact square root, the distance is at least the gap along either axis |
| Terrain.Falloff | src/mountain.cpp:146-150 | the falloff lies in [0,1], is 1 iff the distance is <= 0, is 0 iff the distance is >= 0.5, and is 1 - 2d in between |
| Terrain.FalloffAntitone | src/mountain.cpp:147-150 | the falloff does not increase with distance |
| Terrain.StoredHeight | src/mountain.cpp:154-156 | the stored y is non-negative, equals plus or minus finalHeight, and is 0 iff finalHeight is 0 |
| Terrain.BorderIsFlat | src/mountain.cpp:141-156 | with an exact square root, every vertex on the grid's border has height 0 |
| Terrain.HeightBounded | src/mountain.cpp:144-156 | when every ridge is in [0,1] and gain >= 0, each vertex's y is between 0 and 15 times the sum of the amplitudes |
| Terrain.FinalHeight | src/mountain.cpp:152 | h * falloff * 15; NoFalloffNoHeight and BorderIsFlat show it is 0 where the falloff is 0 |
| Terrain.GridHeight | src/mountain.cpp:138-152 | the height of vertex (row, col) before mirroring: the ridged sum at its sample point, shaped by the falloff; HeightBounded bounds it |
| Terrain.GridVertex | src/mountain.cpp:138-158 | vertex (row, col): (posX, mirrored height, posZ); ComputeVertex proves the loop body builds it, GridAboveGround and BorderIsFlat state its height |
| Terrain.GridVertices | src/mountain.cpp:127-165 | the (s+1)^2 vertices the grid loop leaves in `verts`; GridSlot locates each, BuildGrid proves the loop leaves exactly these |
| Terrain.GridTexCoords | src/mountain.cpp:130-165 | the (s+1)^2 UVs the grid loop leaves in `texcoords`; GridSlot locates each, BuildGrid proves the loop leaves exactly these |
| Terrain.GridSlot | src/mountain.cpp:133-163 | slot row*(s+1)+col of the finished arrays holds vertex (row, col) and its texture coordinate |
| Terrain.GridAboveGround | src/mountain.cpp:154-156 | no vertex of the grid has a negative y |
| Terrain.ComputeVertex | src/mountain.cpp:136-163 | the loop body produces vertex (row, col) and its texture coordinate |
| Terrain.GridPoint | src/mountain.cpp:138-142 | the world position and the sample point are those of column col and row row |
| Terrain.ShapeHeight | src/mountain.cpp:147-152 | the clamped falloff times the height times 15 is the height shaped by Falloff |
| Terrain.Mirror | src/mountain.cpp:154-156 | the two guarded stores leave the mirrored height |
| Terrain.StoreVertex | src/mountain.cpp:136-163 | one iteration writes slot row*(s+1)+col and no other |
| Terrain.FillRow | src/mountain.cpp:134-164 | after the inner loop every slot up to the end of row `row` holds its vertex and texture coordinate, and every later slot is unchanged |
| Terrain.BuildGrid | src/mountain.cpp:124-165 | the grid loop fills every one of the (s+1)^2 slots of fresh arrays with its vertex and texture coordinate |
| Normals.FaceNormal | src/mountain.cpp:82-93 | the cross product of the two edges leaving v0; FaceNormalPerpendicular proves it orthogonal to the triangle |
| Normals.FaceNormalPerpendicular | src/mountain.cpp:82-93 | a face normal is orthogonal to all three edges of its triangle |
| Normals.DegenerateFaceNormal | src/mountain.cpp:82-93 | a triangle with two equal corners contributes the zero vector |
| Normals.FaceNormals | src/mountain.cpp:72-93 | one face normal per triangle, the cross product of its edges, in index-list order |
| Normals.FaceNormalAt | src/mountain.cpp:73-93 | the loop's triangle at i = 3t has face normal t |
| Normals.AddAt | src/mountain.cpp:96-98 | accumulating into slot i changes slot i only |
| Normals.Zeros | src/mountain.cpp:66-70 | count zero vectors |
| Normals.TriangleNormal | src/mountain.cpp:72-93 | the face normal of triangle k, read from index-list entries 3k, 3k+1, 3k+2; FaceNormalAt ties it to the loop's i == 3k |
| Normals.Accumulated | src/mountain.cpp:66-99 | the normals vector after the reset loop and t accumulation passes, count entries; AccumulatedIsCornerSum equates it with the per-vertex corner sum |
| Normals.AccumulatedStep | src/mountain.cpp:72-99 | pass t adds triangle t's face normal at its three corners |
| Normals.PassMatchesCorners | src/mountain.cpp:96-98 | one pass keeps the accumulator equal to the sum over the corners seen so far |
| Normals.AccumulatedIsCornerSum | src/mountain.cpp:72-99 | after t passes each vertex holds the sum of the face normals of the triangles among the first t that reference it, once per reference |
| Normals.UnreferencedCornerSum | src/mountain.cpp:72-99 | a vertex that no triangle references accumulates the zero vector |
| Normals.Normalized | src/mountain.cpp:102-109 | vectors of length <= 1e-6 are left unchanged, so the zero vector stays zero |
| Normals.NormalizedIsUnit | src/mountain.cpp:103-108 | with an exact square root, a normalised vector has length 1 and points the way of the original |
| Normals.VertexNormals | src/mountain.cpp:60-110 | computeNormals leaves one normal per slot, so the length of the array is unchanged |
| Normals.VertexNormalIsNormalizedCornerSum | src/mountain.cpp:60-110 | each vertex normal is the normalised sum of the face normals around it, and is zero for a vertex no triangle uses |
| Normals.NormalizedAccumulation | src/mountain.cpp:102-109 | normalising each accumulated entry yields the vertex normals |
| Normals.ZeroNormals | src/mountain.cpp:66-70 | the reset loop zeroes every slot |
| Normals.AddToCorners | src/mountain.cpp:96-98 | the nine additions add the face normal at the three corners |
| Normals.AccumulateTriangle | src/mountain.cpp:73-98 | one iteration performs pass t of the accumulation |
| Normals.AccumulateFaceNormals | src/mountain.cpp:72-99 | the accumulation loop leaves the per-vertex sums of face normals |
| Normals.NormalizeAll | src/mountain.cpp:102-109 | the normalisation loop replaces every entry by its normalised value |
| Normals.ComputeNormals | src/mountain.cpp:60-110 | the three loops leave exactly the vertex normals of the indexed mesh |
| Mountain.Unweld | src/mountain.cpp:210-214 | unwelding gives one entry per index |
| Mountain.UnweldKeepsEntries | src/mountain.cpp:210-214 | every unwelded entry is an input entry, and when every slot is referenced every input entry appears |
| Mountain.UnweldKeepsFaces | src/mountain.cpp:210-214 | triangle k of the unwelded mesh, read as three consecutive vertices, has the face normal of triangle k of the indexed mesh |
| Mountain.Flatten | src/mountain.cpp:203-214 | three fresh arrays of length indices.size() with finalX[i] = X[indices[i]] |
| Mountain.IndexListValid | src/mountain.cpp:173-194 | the index list is whole triangles naming grid vertices, 6 s^2 entries long |
| Mountain.NoiseSampler | src/mountain.cpp:41 | the `noise.noise2D` ridgedMF calls, as Noise2D over the seeded tables; SeededGrid and BuildMesh sample through it |
| Mountain.SeededTables | src/mountain.cpp:117 | the noise engine seeded from the configuration has tables fit for hashing |
| Mountain.SeededGrid | src/mountain.cpp:117-165 | the grid of the seeded noise has (s+1)^2 vertices |
| Mountain.MeshVertices | src/mountain.cpp:203-222 | the stored mesh has 6 s^2 vertices |
| Mountain.MeshNormals | src/mountain.cpp:202-222 | the stored mesh has 6 s^2 normals |
| Mountain.GridFaceNormals | src/mountain.cpp:72-93 | the grid has 2 s^2 triangles |
| Mountain.MeshIsTheGrid | src/mountain.cpp:203-222 | every grid vertex appears in the stored mesh and every stored vertex is a grid vertex with y >= 0 |
| Mountain.MeshFace | src/mountain.cpp:210-222 | stored triangle k has the face normal of triangle k of the grid |
| Mountain.MeshNormal | src/mountain.cpp:202-222 | stored normal k is the normalised sum of the face normals around the grid vertex index k names |
| Mountain.SeededGridStage | src/mountain.cpp:117-165 | seeding the noise and running the grid loop gives the seeded grid and its texture coordinates |
| Mountain.BuildMesh | src/mountain.cpp:112-222 | elevate's pipeline yields exactly the stored mesh vertices and normals for the configuration |
| Mountain.Mountain.constructor | 453-skeleton/mountain.h:13-17 | a new object has the default configuration and no geometry; it does not elevate |
| Mountain.Mountain.Elevate | src/mountain.cpp:112-242 | elevate keeps the configuration, stores the mesh of that configuration, and sets `m_size` (src/mountain.cpp:236) to its vertex count, the count the draw call uses |
| Mountain.Mountain.UpdateConfig | src/mountain.cpp:244-248 | the object adopts the new configuration, holds its freshly elevated mesh and sets `m_size` to that mesh's vertex count |

## Left out

- Timing, logging and GPU upload in `elevate` are left out: the `std::chrono` clocks, the `std::cout` lines and the `m_gpu_geom.set*` calls, including the upload of the flattened texture coordinates. They are side effects with no logic.
- The random generator (`std::mt19937`, `uniform_int_distribution`, `std::random_device`) is foreign library code. Only the range of its 256 draws is modelled.
- `std::sqrt` is a parameter. Properties that need an exact root say so with `IsSqrtAt`.
- `sqrt(3.0)` is a parameter `sqrt3`, so the 2D skew factors are F2 = (sqrt3-1)/2 and G2 = (3-sqrt3)/6.
- IEEE float rounding and float-to-double widening are not modelled. All arithmetic is exact over reals, and the threshold 1e-6f is the real 0.000001.
- Noise.Noise2D, Noise.Noise3D: the [-1,1] range of the scaled output is not proved. Only the bound by the corner weights is, because the range depends on float constants and on the gradient geometry.
- The `grad4` table and the commented-out test `main` at the end of `SimplexNoise.h` are unused.
- Integer overflow of `int` and `unsigned int` is not modelled, for example `(subdivisions+1)^2` or the indices stored as `unsigned int`. Indices are unbounded integers.
- `subdivisions >= 1`, `width != 0` and `height != 0` are preconditions (`Settings.ValidGrid`). The code does not check them: `subdivisions <= 0` gives an empty stored mesh (after an inf/NaN float division when it is 0), and a zero extent gives inf/NaN sample points.
- Normals.ComputeNormals: `verts` is passed by non-const reference but never written, so it is read as a sequence.
- Mountain.Mountain.constructor: the texture, the name, `m_model`, `render` and the `size` member (which `elevate` never writes) are not modelled. `m_size` is modelled as `mSize`; the constructor leaves it uninitialised, as the source does, and states nothing about it.
- Mountain.Mountain.Elevate: `SimplexNoise` is passed to `ridgedMF` by value. The copy is not modelled because the tables are never written after construction.
- The render loop, the configuration loader and the camera are not part of this model.
