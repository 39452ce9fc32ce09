/** The first loop of `elevate`: the (s+1) x (s+1) vertex grid, its
    heights (ridged noise shaped by a radial falloff) and its texture
    coordinates. */
module Terrain {
  import opened Geometry
  import opened Settings
  import opened Ridged
  import opened Layout

  // ---------------------------------------------------------------------
  // Positions and sample points
  // ---------------------------------------------------------------------

  /** World x of column `col`: the grid spans [-width/2, width/2]. */
  function PosX(cfg: Config, col: int): real
    requires ValidGrid(cfg)
  {
    col as real * (cfg.width as real / cfg.subdivisions as real) - cfg.width as real / 2.0
  }

  /** World z of row `row`: the grid spans [-height/2, height/2]. */
  function PosZ(cfg: Config, row: int): real
    requires ValidGrid(cfg)
  {
    row as real * (cfg.height as real / cfg.subdivisions as real) - cfg.height as real / 2.0
  }

  /** The x coordinate at which the noise is sampled for column `col`. */
  function SampleX(cfg: Config, col: int): real
    requires ValidGrid(cfg)
  {
    (PosX(cfg, col) + cfg.width as real / 2.0) / cfg.width as real
  }

  /** The y coordinate at which the noise is sampled for row `row`; z is
      negated, so row 0 samples at the top of the unit square. */
  function SampleY(cfg: Config, row: int): real
    requires ValidGrid(cfg)
  {
    (-PosZ(cfg, row) + cfg.height as real / 2.0) / cfg.height as real
  }

  /** Shifting a scaled position by half the extent and dividing by the
      extent leaves k/s; taking it from the extent first leaves 1 - k/s. */
  lemma ScaleThenNormalize(k: real, s: real, w: real, pos: real)
    requires s != 0.0 && w != 0.0 && pos == k * (w / s) - w / 2.0
    ensures (pos + w / 2.0) / w == k / s
    ensures (-pos + w / 2.0) / w == 1.0 - k / s
  {
    var a := k * (w / s);
    var c := 1.0 - k / s;
    assert a == (k / s) * w;
    assert a / w == k / s;
    assert pos + w / 2.0 == a;
    assert -pos + w / 2.0 == c * w;
    CancelFactor(c, w);
  }

  lemma CancelFactor(c: real, w: real)
    requires w != 0.0
    ensures (c * w) / w == c
  {
  }

  /** k/s lies in [0,1] for 0 <= k <= s. */
  lemma UnitFraction(k: int, s: int)
    requires 0 <= k <= s && 1 <= s
    ensures 0.0 <= k as real / s as real <= 1.0
  {
  }

  /** The sample point of vertex (row, col) is (col/s, 1 - row/s), inside
      the unit square whatever the world extent. */
  lemma SamplePointInUnitSquare(cfg: Config, row: int, col: int)
    requires ValidGrid(cfg)
    requires 0 <= row <= cfg.subdivisions && 0 <= col <= cfg.subdivisions
    ensures var s := cfg.subdivisions as real;
      SampleX(cfg, col) == col as real / s && SampleY(cfg, row) == 1.0 - row as real / s
    ensures 0.0 <= SampleX(cfg, col) <= 1.0 && 0.0 <= SampleY(cfg, row) <= 1.0
  {
    var s, w, h := cfg.subdivisions as real, cfg.width as real, cfg.height as real;
    ScaleThenNormalize(col as real, s, w, PosX(cfg, col));
    ScaleThenNormalize(row as real, s, h, PosZ(cfg, row));
    UnitFraction(col, cfg.subdivisions);
    UnitFraction(row, cfg.subdivisions);
  }

  /** The texture coordinate of vertex (row, col): (col/s, row/s). */
  function TexCoord(cfg: Config, row: int, col: int): Vec2
    requires ValidGrid(cfg)
  {
    Vec2(col as real / cfg.subdivisions as real, row as real / cfg.subdivisions as real)
  }

  /** Texture coordinates lie in [0,1]; u follows the sample x and v runs
      against the sample y, so the texture is the noise image flipped
      vertically. */
  lemma TexCoordInUnitSquare(cfg: Config, row: int, col: int)
    requires ValidGrid(cfg)
    requires 0 <= row <= cfg.subdivisions && 0 <= col <= cfg.subdivisions
    ensures var uv := TexCoord(cfg, row, col);
      0.0 <= uv.u <= 1.0 && 0.0 <= uv.v <= 1.0
      && uv.u == SampleX(cfg, col) && uv.v == 1.0 - SampleY(cfg, row)
  {
    SamplePointInUnitSquare(cfg, row, col);
  }

  // ---------------------------------------------------------------------
  // Distance and falloff
  // ---------------------------------------------------------------------

  /** a * a, kept as a function so that equal operands give equal
      squares without the solver reasoning about products. */
  function Square(a: real): real {
    a * a
  }

  /** The argument `getDistance` passes to the square root. */
  function DistanceSquared(x1: real, y1: real, x2: real, y2: real): real {
    Square(Abs(x1 - x2)) + Square(Abs(y1 - y2))
  }

  /** `getDistance`: the Euclidean distance, with the square root supplied
      by the caller. */
  function GetDistance(x1: real, y1: real, x2: real, y2: real, sqrt: real -> real): real {
    sqrt(DistanceSquared(x1, y1, x2, y2))
  }

  /** The distance does not depend on the order of its end points. */
  lemma DistanceSymmetric(x1: real, y1: real, x2: real, y2: real, sqrt: real -> real)
    ensures GetDistance(x1, y1, x2, y2, sqrt) == GetDistance(x2, y2, x1, y1, sqrt)
  {
    assert Abs(x1 - x2) == Abs(x2 - x1) && Abs(y1 - y2) == Abs(y2 - y1);
  }

  /** Squaring is monotone on the non-negative reals, in both directions. */
  lemma SquareMonotone(a: real, b: real)
    requires 0.0 <= a && 0.0 <= b
    ensures a <= b <==> Square(a) <= Square(b)
  {
    if a <= b {
      Ridged.ProductMonotone(a, a, b);
      Ridged.ProductMonotone(b, a, b);
    } else {
      Ridged.ProductMonotone(b, b, a);
      Ridged.ProductMonotone(a, b, a);
      assert Square(b) < Square(a) by { Ridged.CubeStrict(b, a); }
    }
  }

  /** A point at least `r` away along one axis is at least `r` away. */
  lemma DistanceAtLeastAxis(x1: real, y1: real, x2: real, y2: real, sqrt: real -> real, r: real)
    requires IsSqrtAt(sqrt, DistanceSquared(x1, y1, x2, y2))
    requires 0.0 <= r && (Abs(x1 - x2) >= r || Abs(y1 - y2) >= r)
    ensures GetDistance(x1, y1, x2, y2, sqrt) >= r
  {
    var d := GetDistance(x1, y1, x2, y2, sqrt);
    var dx, dy := Abs(x1 - x2), Abs(y1 - y2);
    assert Square(d) == Square(dx) + Square(dy);
    SquareMonotone(r, dx);
    SquareMonotone(r, dy);
    assert Square(dx) >= 0.0 && Square(dy) >= 0.0 by {
      SquareMonotone(0.0, dx);
      SquareMonotone(0.0, dy);
    }
    SquareMonotone(r, d);
  }

  /** The radial falloff `min(1 - d/0.5, 1)`, clamped below at zero. It
      lies in [0,1], is 1 exactly when d <= 0 and 0 exactly when
      d >= 0.5. */
  function Falloff(d: real): (f: real)
    ensures 0.0 <= f <= 1.0
    ensures f == 1.0 <==> d <= 0.0
    ensures f == 0.0 <==> d >= 0.5
    ensures 0.0 <= d <= 0.5 ==> f == 1.0 - 2.0 * d
  {
    var f := Min(1.0 - d / 0.5, 1.0);
    if f < 0.0 then 0.0 else f
  }

  /** Farther from the centre is never higher. */
  lemma FalloffAntitone(d1: real, d2: real)
    requires d1 <= d2
    ensures Falloff(d2) <= Falloff(d1)
  {
  }

  // ---------------------------------------------------------------------
  // Heights and vertices
  // ---------------------------------------------------------------------

  /** `finalHeight`: the ridged height scaled by the falloff and by 15. */
  function FinalHeight(h: real, falloff: real): real {
    h * falloff * 15.0
  }

  /** The y the grid loop stores: the negated height when it is negative,
      the height otherwise, so never below zero and equal in magnitude. */
  function StoredHeight(finalHeight: real): (y: real)
    ensures y >= 0.0 && (y == finalHeight || y == -finalHeight)
    ensures y == 0.0 <==> finalHeight == 0.0
  {
    if finalHeight < 0.0 then -finalHeight else finalHeight
  }

  /** The height of vertex (row, col) before mirroring. */
  function GridHeight(cfg: Config, sample: (real, real) -> real, sqrt: real -> real, row: int, col: int): real
    requires ValidGrid(cfg)
  {
    var x, y := SampleX(cfg, col), SampleY(cfg, row);
    var h := RidgedSum(x, y, cfg, sample, OctaveCount(cfg.octaves));
    FinalHeight(h, Falloff(GetDistance(x, y, 0.5, 0.5, sqrt)))
  }

  /** Vertex (row, col) of the grid. */
  function GridVertex(cfg: Config, sample: (real, real) -> real, sqrt: real -> real, row: int, col: int): (v: Vec3)
    requires ValidGrid(cfg)
  {
    Vec3(PosX(cfg, col), StoredHeight(GridHeight(cfg, sample, sqrt, row, col)), PosZ(cfg, row))
  }

  /** The square root is exact at the squared distance from vertex
      (row, col)'s sample point to the centre of the unit square. */
  ghost predicate SqrtExactAtVertex(cfg: Config, sqrt: real -> real, row: int, col: int)
    requires ValidGrid(cfg)
  {
    IsSqrtAt(sqrt, DistanceSquared(SampleX(cfg, col), SampleY(cfg, row), 0.5, 0.5))
  }

  /** Every vertex on the border of the grid lies at height zero: its
      sample point is half a unit from the centre along one axis, where
      the falloff reaches zero. */
  lemma BorderIsFlat(cfg: Config, sample: (real, real) -> real, sqrt: real -> real, row: int, col: int)
    requires ValidGrid(cfg)
    requires 0 <= row <= cfg.subdivisions && 0 <= col <= cfg.subdivisions
    requires row == 0 || row == cfg.subdivisions || col == 0 || col == cfg.subdivisions
    requires SqrtExactAtVertex(cfg, sqrt, row, col)
    ensures GridVertex(cfg, sample, sqrt, row, col).y == 0.0
  {
    var x, y := SampleX(cfg, col), SampleY(cfg, row);
    BorderSampleOnEdge(cfg, row, col);
    DistanceAtLeastAxis(x, y, 0.5, 0.5, sqrt, 0.5);
    var h := RidgedSum(x, y, cfg, sample, OctaveCount(cfg.octaves));
    NoFalloffNoHeight(h);
    assert GridHeight(cfg, sample, sqrt, row, col) == FinalHeight(h, 0.0);
  }

  /** A border vertex samples the noise on the edge of the unit square,
      half a unit from its centre along one axis. */
  lemma BorderSampleOnEdge(cfg: Config, row: int, col: int)
    requires ValidGrid(cfg)
    requires 0 <= row <= cfg.subdivisions && 0 <= col <= cfg.subdivisions
    requires row == 0 || row == cfg.subdivisions || col == 0 || col == cfg.subdivisions
    ensures Abs(SampleX(cfg, col) - 0.5) == 0.5 || Abs(SampleY(cfg, row) - 0.5) == 0.5
  {
    SamplePointInUnitSquare(cfg, row, col);
    var s := cfg.subdivisions as real;
    if col == 0 || col == cfg.subdivisions {
      EdgeFraction(col as real, s);
    } else {
      EdgeFraction(row as real, s);
    }
  }

  /** k/s sits on 0 or 1 when k does on 0 or s. */
  lemma EdgeFraction(k: real, s: real)
    requires s > 0.0 && (k == 0.0 || k == s)
    ensures k / s == 0.0 || k / s == 1.0
  {
  }

  /** A zero falloff flattens any height. */
  lemma NoFalloffNoHeight(h: real)
    ensures FinalHeight(h, 0.0) == 0.0
  {
  }

  /** Every vertex lies between zero and 15 times the largest value the
      ridged sum can take, when every octave's ridge lies in [0,1] and the
      gain is not negative. */
  lemma HeightBounded(cfg: Config, sample: (real, real) -> real, sqrt: real -> real, row: int, col: int)
    requires ValidGrid(cfg) && cfg.gain >= 0.0
    requires RidgesOnUnitInterval(cfg, sample)
    ensures 0.0 <= GridVertex(cfg, sample, sqrt, row, col).y <= 15.0 * AmpTotal(cfg, OctaveCount(cfg.octaves))
  {
    var x, y := SampleX(cfg, col), SampleY(cfg, row);
    var n := OctaveCount(cfg.octaves);
    var h := RidgedSum(x, y, cfg, sample, n);
    var f := Falloff(GetDistance(x, y, 0.5, 0.5, sqrt));
    RidgedSumBounded(x, y, cfg, sample, n);
    ScaleByUnit(h, f);
    assert 0.0 <= h * f <= AmpTotal(cfg, n);
    assert GridHeight(cfg, sample, sqrt, row, col) == h * f * 15.0;
  }

  // ---------------------------------------------------------------------
  // The whole grid
  // ---------------------------------------------------------------------

  /** Vertex number `idx` of the grid, at row idx / (s+1), column
      idx % (s+1). */
  function VertexAt(cfg: Config, sample: (real, real) -> real, sqrt: real -> real, idx: int): Vec3
    requires ValidGrid(cfg) && 0 <= idx < VertexCount(cfg.subdivisions)
  {
    GridIndexOnto(cfg.subdivisions, idx);
    GridVertex(cfg, sample, sqrt, idx / (cfg.subdivisions + 1), idx % (cfg.subdivisions + 1))
  }

  /** Texture coordinate number `idx` of the grid. */
  function TexCoordAt(cfg: Config, idx: int): Vec2
    requires ValidGrid(cfg) && 0 <= idx < VertexCount(cfg.subdivisions)
  {
    GridIndexOnto(cfg.subdivisions, idx);
    TexCoord(cfg, idx / (cfg.subdivisions + 1), idx % (cfg.subdivisions + 1))
  }

  /** The `verts` array the grid loop leaves behind. */
  function GridVertices(cfg: Config, sample: (real, real) -> real, sqrt: real -> real): (vs: seq<Vec3>)
    requires ValidGrid(cfg)
    ensures |vs| == VertexCount(cfg.subdivisions)
  {
    seq(VertexCount(cfg.subdivisions), idx requires 0 <= idx < VertexCount(cfg.subdivisions) => VertexAt(cfg, sample, sqrt, idx))
  }

  /** The `texcoords` array the grid loop leaves behind. */
  function GridTexCoords(cfg: Config): (uvs: seq<Vec2>)
    requires ValidGrid(cfg)
    ensures |uvs| == VertexCount(cfg.subdivisions)
  {
    seq(VertexCount(cfg.subdivisions), idx requires 0 <= idx < VertexCount(cfg.subdivisions) => TexCoordAt(cfg, idx))
  }

  /** Slot row*(s+1)+col holds vertex (row, col) and its texture
      coordinate. */
  lemma GridSlot(cfg: Config, sample: (real, real) -> real, sqrt: real -> real, row: int, col: int)
    requires ValidGrid(cfg)
    requires 0 <= row <= cfg.subdivisions && 0 <= col <= cfg.subdivisions
    ensures var idx := GridIndex(cfg.subdivisions, row, col);
      GridVertices(cfg, sample, sqrt)[idx] == GridVertex(cfg, sample, sqrt, row, col)
      && GridTexCoords(cfg)[idx] == TexCoord(cfg, row, col)
  {
  }

  /** No vertex of the grid lies below zero. */
  lemma GridAboveGround(cfg: Config, sample: (real, real) -> real, sqrt: real -> real)
    requires ValidGrid(cfg)
    ensures forall idx :: 0 <= idx < VertexCount(cfg.subdivisions) ==> GridVertices(cfg, sample, sqrt)[idx].y >= 0.0
  {
  }

  // ---------------------------------------------------------------------
  // The grid loop
  // ---------------------------------------------------------------------

  /** The body of the grid loop for vertex (row, col). The vertex starts
      at zero, as `resize` leaves it, before the two mirroring tests.
      This is the statement-level form of `GridVertex` and `TexCoord`,
      which its postcondition ties it to. */
  method ComputeVertex(cfg: Config, sample: (real, real) -> real, sqrt: real -> real, row: int, col: int)
    returns (v: Vec3, uv: Vec2)
    requires ValidGrid(cfg)
    ensures v == GridVertex(cfg, sample, sqrt, row, col) && uv == TexCoord(cfg, row, col)
  {
    var posX, posZ, x, y := GridPoint(cfg, row, col);
    var h := RidgedMF(x, y, cfg, sample);
    var distance := GetDistance(x, y, 0.5, 0.5, sqrt);
    var finalHeight := ShapeHeight(h, distance);
    var vy := Mirror(finalHeight);
    v := Vec3(posX, vy, posZ);
    var s := cfg.subdivisions as real;
    uv := Vec2(col as real / s, row as real / s);
  }

  /** The world position of vertex (row, col) and the point at which the
      noise is sampled for it: the statement-level form of `PosX`, `PosZ`,
      `SampleX` and `SampleY`. */
  method GridPoint(cfg: Config, row: int, col: int) returns (posX: real, posZ: real, x: real, y: real)
    requires ValidGrid(cfg)
    ensures posX == PosX(cfg, col) && posZ == PosZ(cfg, row)
    ensures x == SampleX(cfg, col) && y == SampleY(cfg, row)
  {
    var width, height, s := cfg.width as real, cfg.height as real, cfg.subdivisions as real;
    posX := col as real * (width / s) - width / 2.0;
    posZ := row as real * (height / s) - height / 2.0;
    x := (posX + width / 2.0) / width;
    y := (-posZ + height / 2.0) / height;
  }

  /** The falloff clamp and the scaling of the grid loop: the
      statement-level form of `FinalHeight` applied to `Falloff`. */
  method ShapeHeight(h: real, distance: real) returns (finalHeight: real)
    ensures finalHeight == FinalHeight(h, Falloff(distance))
  {
    var falloff := Min(1.0 - distance / 0.5, 1.0);
    if falloff < 0.0 {
      falloff := 0.0;
    }
    finalHeight := h * falloff * 15.0;
  }

  /** The two guarded stores of the height into the vertex's y: the
      statement-level form of `StoredHeight`. */
  method Mirror(finalHeight: real) returns (vy: real)
    ensures vy == StoredHeight(finalHeight)
  {
    vy := 0.0;
    if finalHeight < 0.0 {
      vy := -finalHeight;
    }
    if finalHeight >= 0.0 {
      vy := finalHeight;
    }
  }

  /** Compute vertex (row, col) and store it, with its texture
      coordinate, in slot `index`, which is row*(s+1)+col. */
  method StoreVertex(cfg: Config, sample: (real, real) -> real, sqrt: real -> real, row: int, col: int,
                     verts: array<Vec3>, texcoords: array<Vec2>, index: int)
    requires ValidGrid(cfg) && 0 <= row <= cfg.subdivisions && 0 <= col <= cfg.subdivisions
    requires index == GridIndex(cfg.subdivisions, row, col)
    requires verts.Length == VertexCount(cfg.subdivisions) && texcoords.Length == VertexCount(cfg.subdivisions)
    modifies verts, texcoords
    ensures verts[..] == old(verts[..])[index := GridVertices(cfg, sample, sqrt)[index]]
    ensures texcoords[..] == old(texcoords[..])[index := GridTexCoords(cfg)[index]]
  {
    GridSlot(cfg, sample, sqrt, row, col);
    var v, uv := ComputeVertex(cfg, sample, sqrt, row, col);
    verts[index] := v;
    texcoords[index] := uv;
  }

  /** The inner grid loop for row `row`: fills slots start .. start+s,
      where start == row*(s+1). */
  method FillRow(cfg: Config, sample: (real, real) -> real, sqrt: real -> real, row: int,
                 verts: array<Vec3>, texcoords: array<Vec2>, ghost start: int)
    requires ValidGrid(cfg) && 0 <= row <= cfg.subdivisions
    requires start == row * (cfg.subdivisions + 1)
    requires verts.Length == VertexCount(cfg.subdivisions) && texcoords.Length == VertexCount(cfg.subdivisions)
    requires 0 <= start && start + cfg.subdivisions + 1 <= VertexCount(cfg.subdivisions)
    requires forall k :: 0 <= k < start ==> verts[k] == GridVertices(cfg, sample, sqrt)[k]
    requires forall k :: 0 <= k < start ==> texcoords[k] == GridTexCoords(cfg)[k]
    modifies verts, texcoords
    ensures forall k :: 0 <= k < start + cfg.subdivisions + 1 ==> verts[k] == GridVertices(cfg, sample, sqrt)[k]
    ensures forall k :: 0 <= k < start + cfg.subdivisions + 1 ==> texcoords[k] == GridTexCoords(cfg)[k]
    ensures forall k :: start + cfg.subdivisions + 1 <= k < verts.Length ==> verts[k] == old(verts[k])
    ensures forall k :: start + cfg.subdivisions + 1 <= k < texcoords.Length ==> texcoords[k] == old(texcoords[k])
  {
    var s := cfg.subdivisions;
    ghost var gv := GridVertices(cfg, sample, sqrt);
    ghost var gt := GridTexCoords(cfg);
    var col := 0;
    while col <= s
      invariant 0 <= col <= s + 1
      invariant forall k :: 0 <= k < start + col ==> verts[k] == gv[k]
      invariant forall k :: 0 <= k < start + col ==> texcoords[k] == gt[k]
      invariant forall k :: start + s + 1 <= k < verts.Length ==> verts[k] == old(verts[k])
      invariant forall k :: start + s + 1 <= k < texcoords.Length ==> texcoords[k] == old(texcoords[k])
    {
      var index := row * (s + 1) + col;
      GridIndexRowMajor(s, row, col);
      assert index == start + col;
      StoreVertex(cfg, sample, sqrt, row, col, verts, texcoords, index);
      col := col + 1;
    }
  }

  /** Row `row` occupies slots row*(s+1) .. row*(s+1)+s. */
  lemma RowSlots(s: nat, row: int)
    requires 0 <= row <= s
    ensures 0 <= row * (s + 1) && row * (s + 1) + s + 1 <= VertexCount(s)
    ensures row * (s + 1) + s + 1 == (row + 1) * (s + 1)
  {
    MulMonotone(row, s, s + 1);
    MulNonNegative(row, s + 1);
  }

  /** `elevate`'s first loop: allocate (s+1)^2 slots and fill each with
      its vertex and texture coordinate, row by row. */
  method BuildGrid(cfg: Config, sample: (real, real) -> real, sqrt: real -> real)
    returns (verts: array<Vec3>, texcoords: array<Vec2>)
    requires ValidGrid(cfg)
    ensures fresh(verts) && fresh(texcoords)
    ensures verts[..] == GridVertices(cfg, sample, sqrt) && texcoords[..] == GridTexCoords(cfg)
  {
    var s := cfg.subdivisions;
    verts := new Vec3[(s + 1) * (s + 1)];
    texcoords := new Vec2[(s + 1) * (s + 1)];
    ghost var gv, gt := GridVertices(cfg, sample, sqrt), GridTexCoords(cfg);
    var row := 0;
    ghost var start := 0;
    while row <= s
      invariant 0 <= row <= s + 1 && start == row * (s + 1) && 0 <= start <= VertexCount(s)
      invariant forall k :: 0 <= k < start ==> verts[k] == gv[k]
      invariant forall k :: 0 <= k < start ==> texcoords[k] == gt[k]
    {
      RowSlots(s, row);
      FillRow(cfg, sample, sqrt, row, verts, texcoords, start);
      row := row + 1;
      start := start + s + 1;
    }
    assert start == VertexCount(s);
    assert verts[..] == gv;
    assert texcoords[..] == gt;
  }
}
