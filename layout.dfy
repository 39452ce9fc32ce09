/** The integer layout of the terrain mesh: a (s+1) x (s+1) grid of
    vertices stored row by row in one array, and the index list that cuts
    every grid cell (quad) into two triangles. */
module Layout {

  // ---------------------------------------------------------------------
  // Integer arithmetic
  // ---------------------------------------------------------------------

  lemma MulMonotone(a: int, b: int, n: int)
    requires a <= b && n >= 0
    ensures a * n <= b * n
  {
    var d := b - a;
    assert b * n == a * n + d * n;
    MulNonNegative(d, n);
  }

  lemma {:induction false} MulNonNegative(d: int, n: int)
    requires d >= 0 && n >= 0
    ensures d * n >= 0
    decreases d
  {
    if d > 0 {
      MulNonNegative(d - 1, n);
      assert d * n == (d - 1) * n + n;
    }
  }

  /** Quotient and remainder are the unique pair with `idx == q * n + r`
      and `0 <= r < n`. */
  lemma DivModUnique(idx: int, n: int, q: int, r: int)
    requires n > 0 && 0 <= r < n && idx == q * n + r
    ensures idx / n == q && idx % n == r
  {
    var q', r' := idx / n, idx % n;
    assert idx == q' * n + r';
    assert (q' + 1) * n == q' * n + n && (q + 1) * n == q * n + n;
    if q' < q {
      MulMonotone(q' + 1, q, n);
    } else if q < q' {
      MulMonotone(q + 1, q', n);
    }
  }

  // ---------------------------------------------------------------------
  // Vertex slots
  // ---------------------------------------------------------------------

  /** The number of vertices of a grid with `s` subdivisions per side. */
  function VertexCount(s: nat): nat {
    (s + 1) * (s + 1)
  }

  /** `row * (subdivisions + 1) + col`: the slot of grid vertex
      (row, col). Slots are in range and the row and column come back out
      as quotient and remainder by the row length. */
  function GridIndex(s: nat, row: int, col: int): (idx: int)
    requires 0 <= row <= s && 0 <= col <= s
    ensures 0 <= idx < VertexCount(s)
    ensures idx / (s + 1) == row && idx % (s + 1) == col
  {
    var idx := row * (s + 1) + col;
    MulMonotone(row, s, s + 1);
    MulNonNegative(row, s + 1);
    assert s * (s + 1) + s < (s + 1) * (s + 1);
    DivModUnique(idx, s + 1, row, col);
    idx
  }

  /** Every slot is the slot of exactly one grid vertex: the one at row
      `idx / (s+1)` and column `idx % (s+1)`. */
  lemma GridIndexOnto(s: nat, idx: int)
    requires 0 <= idx < VertexCount(s)
    ensures 0 <= idx / (s + 1) <= s && 0 <= idx % (s + 1) <= s
    ensures GridIndex(s, idx / (s + 1), idx % (s + 1)) == idx
  {
    var q := idx / (s + 1);
    if q > s {
      MulMonotone(s + 1, q, s + 1);
    }
  }

  // ---------------------------------------------------------------------
  // The index list
  // ---------------------------------------------------------------------

  /** The six indices quad (row, col) pushes: triangle (i0, i1, i2) and
      triangle (i1, i3, i2), where i0, i1 are the quad's top-left and
      top-right corners and i2, i3 its bottom-left and bottom-right. All
      four are vertex slots, offset from i0 by 1, s+1 and s+2. */
  function QuadTriangles(s: nat, row: int, col: int): (t: seq<int>)
    requires 0 <= row < s && 0 <= col < s
    ensures |t| == 6
    ensures var i0 := GridIndex(s, row, col);
      t == [i0, i0 + 1, i0 + s + 1, i0 + 1, i0 + s + 2, i0 + s + 1]
    ensures forall k :: 0 <= k < 6 ==> 0 <= t[k] < VertexCount(s)
  {
    var i0 := GridIndex(s, row, col);
    var i1 := GridIndex(s, row, col + 1);
    var i2 := GridIndex(s, row + 1, col);
    var i3 := GridIndex(s, row + 1, col + 1);
    assert (row + 1) * (s + 1) == row * (s + 1) + s + 1;
    [i0, i1, i2, i1, i3, i2]
  }

  /** Quad number q (row-major order) lies at row q / s, column q % s. */
  lemma QuadPosition(s: nat, q: int)
    requires 0 <= q < s * s
    ensures 0 <= q / s < s && 0 <= q % s < s
  {
    if q / s >= s {
      MulMonotone(s, q / s, s);
    }
  }

  /** The indices of the first n quads in row-major order. */
  function Quads(s: nat, n: nat): (t: seq<int>)
    requires n <= s * s
    ensures |t| == 6 * n
    ensures forall k :: 0 <= k < |t| ==> 0 <= t[k] < VertexCount(s)
  {
    if n == 0 then []
    else
      QuadPosition(s, n - 1);
      Quads(s, n - 1) + QuadTriangles(s, (n - 1) / s, (n - 1) % s)
  }

  /** The index list: two triangles per quad, 6 s^2 indices in all. */
  function IndexList(s: nat): seq<int> {
    Quads(s, s * s)
  }

  /** Quad q's six indices sit at positions 6q .. 6q+5 of the list. */
  lemma {:induction false} QuadsSlice(s: nat, n: nat, q: nat)
    requires n <= s * s && q < n
    ensures 0 <= q / s < s && 0 <= q % s < s
    ensures Quads(s, n)[6 * q .. 6 * q + 6] == QuadTriangles(s, q / s, q % s)
  {
    QuadPosition(s, q);
    QuadPosition(s, n - 1);
    var prev, last := Quads(s, n - 1), QuadTriangles(s, (n - 1) / s, (n - 1) % s);
    assert Quads(s, n) == prev + last;
    var lo := 6 * q;
    if q < n - 1 {
      QuadsSlice(s, n - 1, q);
      assert (prev + last)[lo .. lo + 6] == prev[lo .. lo + 6];
    } else {
      assert (prev + last)[lo .. lo + 6] == last;
    }
  }

  /** The index list has 6 s^2 entries, each a vertex slot, and its
      slice for quad (row, col) is that quad's two triangles. */
  lemma IndexListShape(s: nat, row: int, col: int)
    requires 0 <= row < s && 0 <= col < s
    ensures |IndexList(s)| == 6 * (s * s)
    ensures forall k :: 0 <= k < |IndexList(s)| ==> 0 <= IndexList(s)[k] < VertexCount(s)
    ensures var q := row * s + col;
      0 <= q < s * s && IndexList(s)[6 * q .. 6 * q + 6] == QuadTriangles(s, row, col)
  {
    var q := row * s + col;
    MulMonotone(row, s - 1, s);
    MulNonNegative(row, s);
    assert (s - 1) * s + s == s * s;
    DivModUnique(q, s, row, col);
    QuadsSlice(s, s * s, q);
  }

  /** Each of the four corners of quad (row, col) is in the index list. */
  lemma QuadCornersReferenced(s: nat, row: int, col: int, dr: int, dc: int)
    requires 0 <= row < s && 0 <= col < s && 0 <= dr <= 1 && 0 <= dc <= 1
    ensures GridIndex(s, row + dr, col + dc) in IndexList(s)
  {
    IndexListShape(s, row, col);
    var lo := 6 * (row * s + col);
    var list := IndexList(s);
    var t := list[lo .. lo + 6];
    var i0 := GridIndex(s, row, col);
    assert (row + dr) * (s + 1) == row * (s + 1) + dr * (s + 1);
    var k := if dr == 0 && dc == 0 then 0
             else if dr == 0 then 1
             else if dc == 0 then 2
             else 4;
    assert t[k] == GridIndex(s, row + dr, col + dc);
    assert list[lo + k] == t[k];
  }

  /** With at least one subdivision every vertex is a corner of some
      triangle: the index list mentions every slot. */
  lemma EveryVertexReferenced(s: nat, idx: int)
    requires s >= 1 && 0 <= idx < VertexCount(s)
    ensures idx in IndexList(s)
  {
    GridIndexOnto(s, idx);
    var row, col := idx / (s + 1), idx % (s + 1);
    var r := if row == s then s - 1 else row;
    var c := if col == s then s - 1 else col;
    QuadCornersReferenced(s, r, c, row - r, col - c);
  }

  /** Appending quad (row, col) to the quads before it in row-major order
      gives the quads up to and including it. */
  lemma QuadsStep(s: nat, row: int, col: int, q: nat)
    requires 0 <= row < s && 0 <= col < s && q == row * s + col
    ensures q < s * s
    ensures Quads(s, q + 1) == Quads(s, q) + QuadTriangles(s, row, col)
  {
    MulMonotone(row, s - 1, s);
    assert (s - 1) * s + s == s * s;
    DivModUnique(q, s, row, col);
  }

  /** The grid is stored row-major: vertex (row, col) sits at the slot
      row*(s+1)+col both loops compute, its right neighbour in the next
      slot and the vertex below it one row of s+1 slots further on. */
  lemma GridIndexRowMajor(s: nat, row: int, col: int)
    requires 0 <= row <= s && 0 <= col <= s
    ensures GridIndex(s, row, col) == row * (s + 1) + col
    ensures col < s ==> GridIndex(s, row, col + 1) == GridIndex(s, row, col) + 1
    ensures row < s ==> GridIndex(s, row + 1, col) == GridIndex(s, row, col) + s + 1
  {
    assert (row + 1) * (s + 1) == row * (s + 1) + s + 1;
  }

  /** The body of `elevate`'s second loop: push the two triangles of quad
      (row, col). */
  method PushQuad(s: nat, row: int, col: int, indices: seq<int>) returns (indices': seq<int>)
    requires 0 <= row < s && 0 <= col < s
    ensures indices' == indices + QuadTriangles(s, row, col)
  {
    var i0 := row * (s + 1) + col;
    var i1 := row * (s + 1) + (col + 1);
    var i2 := (row + 1) * (s + 1) + col;
    var i3 := (row + 1) * (s + 1) + (col + 1);
    GridIndexRowMajor(s, row, col);
    assert (row + 1) * (s + 1) == row * (s + 1) + s + 1;
    indices' := indices + [i0, i1, i2];
    indices' := indices' + [i1, i3, i2];
    assert indices' == indices + [i0, i1, i2, i1, i3, i2];
  }

  /** The inner loop of `elevate`'s second loop: push the two triangles of
      every quad of row `row`, left to right. */
  method PushRow(s: nat, row: int, indices: seq<int>) returns (indices': seq<int>)
    requires 0 <= row < s && indices == Quads(s, row * s)
    ensures (row + 1) * s <= s * s && indices' == Quads(s, (row + 1) * s)
  {
    MulMonotone(row + 1, s, s);
    assert (row + 1) * s == row * s + s;
    indices' := indices;
    var col := 0;
    ghost var q := row * s;
    while col < s
      invariant 0 <= col <= s && q == row * s + col && q <= s * s
      invariant indices' == Quads(s, q)
    {
      indices' := PushQuad(s, row, col, indices');
      QuadsStep(s, row, col, q);
      col := col + 1;
      q := q + 1;
    }
    assert q == (row + 1) * s;
  }

  /** `elevate`'s second loop: for each row and column below `s`, push the
      two triangles of that quad. */
  method BuildIndices(s: nat) returns (indices: seq<int>)
    ensures indices == IndexList(s)
  {
    indices := [];
    var row := 0;
    while row < s
      invariant 0 <= row <= s && row * s <= s * s
      invariant indices == Quads(s, row * s)
    {
      indices := PushRow(s, row, indices);
      row := row + 1;
    }
  }

  /** With one subdivision the list is the single quad's two triangles. */
  lemma OneQuad()
    ensures IndexList(1) == [0, 1, 2, 1, 3, 2]
  {
    assert Quads(1, 1) == Quads(1, 0) + QuadTriangles(1, 0, 0);
  }
}
