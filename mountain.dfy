/** The `mountain` object: `elevate` runs the whole pipeline (seeded
    noise, height grid, index list, vertex normals) and then unwelds the
    indexed mesh into one vertex per index, which is what the object keeps;
    `updateConfig` replaces the configuration and re-runs it. */
module Mountain {
  import opened Geometry
  import opened Settings
  import opened Noise
  import opened Layout
  import opened Terrain
  import opened Normals

  // ---------------------------------------------------------------------
  // Unwelding the indexed mesh
  // ---------------------------------------------------------------------

  /** `xs` read through the index list: entry k is the entry index k names. */
  function Unweld<T>(indices: seq<int>, xs: seq<T>): (ys: seq<T>)
    requires IndicesBelow(indices, |xs|)
    ensures |ys| == |indices|
  {
    seq(|indices|, k requires 0 <= k < |indices| => xs[indices[k]])
  }

  /** Unwelding only copies: every entry of the result is an entry of the
      input, and when every slot is referenced every input entry survives. */
  lemma UnweldKeepsEntries<T>(indices: seq<int>, xs: seq<T>)
    requires IndicesBelow(indices, |xs|)
    ensures forall k :: 0 <= k < |indices| ==> Unweld(indices, xs)[k] in xs
    ensures (forall v :: 0 <= v < |xs| ==> v in indices) ==>
      forall v :: 0 <= v < |xs| ==> xs[v] in Unweld(indices, xs)
  {
    var ys := Unweld(indices, xs);
    if forall v :: 0 <= v < |xs| ==> v in indices {
      forall v | 0 <= v < |xs|
        ensures xs[v] in ys
      {
        assert v in indices;
        var k :| 0 <= k < |indices| && indices[k] == v;
        assert ys[k] == xs[v];
      }
    }
  }

  /** Triangle k of the unwelded mesh, read as three consecutive vertices,
      has the face normal triangle k of the indexed mesh has. */
  lemma UnweldKeepsFaces(indices: seq<int>, xs: seq<Vec3>, count: int, k: int)
    requires ValidIndices(indices, |xs|, count) && 0 <= k && 3 * k + 2 < |indices|
    ensures var ys := Unweld(indices, xs);
      k < |FaceNormals(indices, xs, count)|
      && FaceNormal(ys[3 * k], ys[3 * k + 1], ys[3 * k + 2]) == FaceNormals(indices, xs, count)[k]
  {
  }

  /** The third loop of `elevate`: three arrays of one entry per index,
      each entry copied from the slot the index names. */
  method Flatten(indices: seq<int>, verts: array<Vec3>, normals: array<Vec3>, texcoords: array<Vec2>)
    returns (finalVerts: array<Vec3>, finalNormals: array<Vec3>, finalTexcoords: array<Vec2>)
    requires IndicesBelow(indices, verts.Length) && IndicesBelow(indices, normals.Length)
    requires IndicesBelow(indices, texcoords.Length)
    ensures fresh(finalVerts) && fresh(finalNormals) && fresh(finalTexcoords)
    ensures finalVerts[..] == Unweld(indices, verts[..])
    ensures finalNormals[..] == Unweld(indices, normals[..])
    ensures finalTexcoords[..] == Unweld(indices, texcoords[..])
  {
    finalVerts := new Vec3[|indices|];
    finalNormals := new Vec3[|indices|];
    finalTexcoords := new Vec2[|indices|];
    var i := 0;
    while i < |indices|
      invariant 0 <= i <= |indices|
      invariant forall k :: 0 <= k < i ==> finalVerts[k] == verts[indices[k]]
      invariant forall k :: 0 <= k < i ==> finalNormals[k] == normals[indices[k]]
      invariant forall k :: 0 <= k < i ==> finalTexcoords[k] == texcoords[indices[k]]
    {
      finalVerts[i] := verts[indices[i]];
      finalNormals[i] := normals[indices[i]];
      finalTexcoords[i] := texcoords[indices[i]];
      i := i + 1;
    }
    assert finalVerts[..] == Unweld(indices, verts[..]);
    assert finalNormals[..] == Unweld(indices, normals[..]);
    assert finalTexcoords[..] == Unweld(indices, texcoords[..]);
  }

  // ---------------------------------------------------------------------
  // The mesh `elevate` builds, as a function of the configuration
  // ---------------------------------------------------------------------

  /** The grid's index list names grid vertices only, is made of whole
      triangles, and holds two triangles per quad. */
  lemma IndexListValid(s: nat)
    requires s >= 1
    ensures ValidIndices(IndexList(s), VertexCount(s), VertexCount(s))
    ensures |IndexList(s)| == 6 * (s * s)
  {
    IndexListShape(s, 0, 0);
  }

  /** The tables of a `SimplexNoise` built from the given generator draws. */
  function SeededTables(draws: seq<int>): (tab: NoiseTables)
    requires IsByteDraws(draws)
    ensures ValidTables(tab)
  {
    ShuffledIsPermutation(Identity(256), draws, 256);
    ExpandValid(Shuffled(Identity(256), draws, 256));
    Expand(Shuffled(Identity(256), draws, 256))
  }

  /** The sampler `ridgedMF` queries: noise2D over the given tables. */
  function NoiseSampler(tab: NoiseTables, sqrt3: real): (real, real) -> real
    requires ValidTables(tab)
  {
    (x: real, y: real) => Noise2D(tab, x, y, sqrt3)
  }

  /** The welded grid for a configuration and the generator draws of its
      seed. */
  function SeededGrid(cfg: Config, draws: seq<int>, sqrt3: real, sqrt: real -> real): (vs: seq<Vec3>)
    requires ValidGrid(cfg) && IsByteDraws(draws)
    ensures |vs| == VertexCount(cfg.subdivisions)
  {
    GridVertices(cfg, NoiseSampler(SeededTables(draws), sqrt3), sqrt)
  }

  /** The vertices `elevate` stores: the grid unwelded through its index
      list. */
  function MeshVertices(cfg: Config, draws: seq<int>, sqrt3: real, sqrt: real -> real): (vs: seq<Vec3>)
    requires ValidGrid(cfg) && IsByteDraws(draws)
    ensures |vs| == 6 * (cfg.subdivisions * cfg.subdivisions)
  {
    IndexListValid(cfg.subdivisions);
    Unweld(IndexList(cfg.subdivisions), SeededGrid(cfg, draws, sqrt3, sqrt))
  }

  /** The normals `elevate` stores: the grid's vertex normals unwelded
      through the same list. */
  function MeshNormals(cfg: Config, draws: seq<int>, sqrt3: real, sqrt: real -> real): (ns: seq<Vec3>)
    requires ValidGrid(cfg) && IsByteDraws(draws)
    ensures |ns| == 6 * (cfg.subdivisions * cfg.subdivisions)
  {
    var s := cfg.subdivisions;
    IndexListValid(s);
    Unweld(IndexList(s), VertexNormals(IndexList(s), SeededGrid(cfg, draws, sqrt3, sqrt), VertexCount(s), sqrt))
  }

  /** The face normals of the grid's triangles, in index-list order: two
      per quad. */
  function GridFaceNormals(cfg: Config, draws: seq<int>, sqrt3: real, sqrt: real -> real): (fs: seq<Vec3>)
    requires ValidGrid(cfg) && IsByteDraws(draws)
    ensures |fs| == 2 * (cfg.subdivisions * cfg.subdivisions)
  {
    var s := cfg.subdivisions;
    IndexListValid(s);
    FaceNormals(IndexList(s), SeededGrid(cfg, draws, sqrt3, sqrt), VertexCount(s))
  }

  /** Every vertex of the grid appears in the stored mesh, and every stored
      vertex is a grid vertex, so none lies below the ground plane. */
  lemma MeshIsTheGrid(cfg: Config, draws: seq<int>, sqrt3: real, sqrt: real -> real)
    requires ValidGrid(cfg) && IsByteDraws(draws)
    ensures var grid, mesh := SeededGrid(cfg, draws, sqrt3, sqrt), MeshVertices(cfg, draws, sqrt3, sqrt);
      (forall v :: 0 <= v < |grid| ==> grid[v] in mesh)
      && (forall k :: 0 <= k < |mesh| ==> mesh[k] in grid && mesh[k].y >= 0.0)
  {
    var s := cfg.subdivisions;
    var grid := SeededGrid(cfg, draws, sqrt3, sqrt);
    IndexListValid(s);
    forall v | 0 <= v < |grid|
      ensures v in IndexList(s)
    {
      EveryVertexReferenced(s, v);
    }
    UnweldKeepsEntries(IndexList(s), grid);
    GridAboveGround(cfg, NoiseSampler(SeededTables(draws), sqrt3), sqrt);
  }

  /** Stored triangle k, read as three consecutive vertices, has the face
      normal of triangle k of the grid's index list. */
  lemma MeshFace(cfg: Config, draws: seq<int>, sqrt3: real, sqrt: real -> real, k: int)
    requires ValidGrid(cfg) && IsByteDraws(draws)
    requires 0 <= k < 2 * (cfg.subdivisions * cfg.subdivisions)
    ensures var mesh := MeshVertices(cfg, draws, sqrt3, sqrt);
      FaceNormal(mesh[3 * k], mesh[3 * k + 1], mesh[3 * k + 2]) == GridFaceNormals(cfg, draws, sqrt3, sqrt)[k]
  {
    var s, grid := cfg.subdivisions, SeededGrid(cfg, draws, sqrt3, sqrt);
    IndexListValid(s);
    UnweldKeepsFaces(IndexList(s), grid, VertexCount(s), k);
  }

  /** Stored normal k is the normalised sum of the face normals of the
      triangles around the grid vertex index k names. */
  lemma MeshNormal(cfg: Config, draws: seq<int>, sqrt3: real, sqrt: real -> real, k: int)
    requires ValidGrid(cfg) && IsByteDraws(draws)
    requires 0 <= k < 6 * (cfg.subdivisions * cfg.subdivisions)
    ensures var list := IndexList(cfg.subdivisions);
      MeshNormals(cfg, draws, sqrt3, sqrt)[k]
      == Normalized(CornerSum(list, GridFaceNormals(cfg, draws, sqrt3, sqrt), |list|, list[k]), sqrt)
  {
    var s, grid := cfg.subdivisions, SeededGrid(cfg, draws, sqrt3, sqrt);
    var list := IndexList(s);
    IndexListValid(s);
    VertexNormalIsNormalizedCornerSum(list, grid, VertexCount(s), sqrt, list[k]);
  }

  /** The noise engine `elevate` seeds and the grid loop it drives. */
  method SeededGridStage(cfg: Config, draws: seq<int>, sqrt3: real, sqrt: real -> real)
    returns (verts: array<Vec3>, texcoords: array<Vec2>)
    requires ValidGrid(cfg) && IsByteDraws(draws)
    ensures fresh(verts) && fresh(texcoords)
    ensures verts[..] == SeededGrid(cfg, draws, sqrt3, sqrt) && texcoords[..] == GridTexCoords(cfg)
  {
    var noise := new SimplexNoise(draws);
    var tab := noise.Tables();
    assert tab == SeededTables(draws);
    verts, texcoords := BuildGrid(cfg, NoiseSampler(tab, sqrt3), sqrt);
  }

  /** The body of `elevate` up to the copy into the CPU geometry: seed
      the noise, build the grid, the index list and the normals, then
      unweld. */
  method BuildMesh(cfg: Config, draws: seq<int>, sqrt3: real, sqrt: real -> real)
    returns (meshVerts: seq<Vec3>, meshNormals: seq<Vec3>)
    requires ValidGrid(cfg) && IsByteDraws(draws)
    ensures meshVerts == MeshVertices(cfg, draws, sqrt3, sqrt)
    ensures meshNormals == MeshNormals(cfg, draws, sqrt3, sqrt)
  {
    var s := cfg.subdivisions;
    var normals := new Vec3[(s + 1) * (s + 1)];
    var verts, texcoords := SeededGridStage(cfg, draws, sqrt3, sqrt);
    var grid := verts[..];
    var indices := BuildIndices(s);
    IndexListValid(s);
    assert normals.Length == VertexCount(s);
    ComputeNormals(indices, normals, grid, sqrt);
    ghost var vertexNormals := normals[..];
    assert vertexNormals == VertexNormals(IndexList(s), SeededGrid(cfg, draws, sqrt3, sqrt), VertexCount(s), sqrt);
    var finalVerts, finalNormals, finalTexcoords := Flatten(indices, verts, normals, texcoords);
    meshVerts := finalVerts[..];
    meshNormals := finalNormals[..];
    assert meshNormals == Unweld(IndexList(s), vertexNormals);
  }

  // ---------------------------------------------------------------------
  // The object
  // ---------------------------------------------------------------------

  /** The fields the pipeline touches: the configuration, the CPU-side
      geometry and `m_size`, the vertex count handed to the draw call. */
  class Mountain {
    var config: Config
    var cpuVerts: seq<Vec3>
    var cpuNormals: seq<Vec3>
    var mSize: int

    /** The constructor leaves the default configuration and no geometry;
        it does not elevate. */
    constructor ()
      ensures config == DefaultConfig && cpuVerts == [] && cpuNormals == []
    {
      config := DefaultConfig;
      cpuVerts := [];
      cpuNormals := [];
    }

    /** `elevate`. `rng` maps a seed to the 256 draws the noise
        constructor's shuffle makes; `sqrt3` and `sqrt` stand for
        `sqrt(3.0)` and `std::sqrt`. */
    method Elevate(rng: int -> seq<int>, sqrt3: real, sqrt: real -> real)
      requires ValidGrid(config) && IsByteDraws(rng(config.seed))
      modifies this
      ensures config == old(config)
      ensures cpuVerts == MeshVertices(config, rng(config.seed), sqrt3, sqrt)
      ensures cpuNormals == MeshNormals(config, rng(config.seed), sqrt3, sqrt)
      ensures mSize == |cpuVerts|
    {
      cpuVerts, cpuNormals := BuildMesh(config, rng(config.seed), sqrt3, sqrt);
      mSize := |cpuVerts|;
    }

    /** `updateConfig`: adopt the new configuration and re-elevate. */
    method UpdateConfig(newConfig: Config, rng: int -> seq<int>, sqrt3: real, sqrt: real -> real)
      requires ValidGrid(newConfig) && IsByteDraws(rng(newConfig.seed))
      modifies this
      ensures config == newConfig
      ensures cpuVerts == MeshVertices(newConfig, rng(newConfig.seed), sqrt3, sqrt)
      ensures cpuNormals == MeshNormals(newConfig, rng(newConfig.seed), sqrt3, sqrt)
      ensures mSize == |cpuVerts|
    {
      config := newConfig;
      Elevate(rng, sqrt3, sqrt);
    }
  }
}
