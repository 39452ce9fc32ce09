/** Smooth vertex normals for an indexed triangle mesh: every vertex gets
    the sum of the (area-weighted, un-normalised) face normals of the
    triangles that use it, scaled to unit length unless it is tiny. */
module Normals {
  import opened Geometry

  // ---------------------------------------------------------------------
  // Face normals
  // ---------------------------------------------------------------------

  /** The face normal (v1 - v0) x (v2 - v0), pointing the way the winding
      v0, v1, v2 turns. */
  function FaceNormal(v0: Vec3, v1: Vec3, v2: Vec3): Vec3 {
    Cross(Sub(v1, v0), Sub(v2, v0))
  }

  /** The face normal is perpendicular to both edges that leave v0, and so
      to the third edge as well. */
  lemma FaceNormalPerpendicular(v0: Vec3, v1: Vec3, v2: Vec3)
    ensures var n := FaceNormal(v0, v1, v2);
      Dot(n, Sub(v1, v0)) == 0.0 && Dot(n, Sub(v2, v0)) == 0.0 && Dot(n, Sub(v2, v1)) == 0.0
  {
    CrossPerpendicular(Sub(v1, v0), Sub(v2, v0));
  }

  /** A triangle with two equal corners has no area and a zero normal. */
  lemma DegenerateFaceNormal(v0: Vec3, v1: Vec3, v2: Vec3)
    requires v0 == v1 || v1 == v2 || v0 == v2
    ensures FaceNormal(v0, v1, v2) == Zero3
  {
  }

  /** Every index names a vertex and a normal slot, and the list is made
      of whole triangles. */
  predicate ValidIndices(indices: seq<int>, vertexCount: int, normalCount: int) {
    |indices| % 3 == 0 && IndicesBelow(indices, vertexCount) && IndicesBelow(indices, normalCount)
  }

  /** The face normal of triangle k, whose corners are entries 3k, 3k+1
      and 3k+2 of the index list. */
  function TriangleNormal(indices: seq<int>, verts: seq<Vec3>, count: int, k: int): Vec3
    requires ValidIndices(indices, |verts|, count) && 0 <= k && 3 * k + 2 < |indices|
  {
    FaceNormal(verts[indices[3 * k]], verts[indices[3 * k + 1]], verts[indices[3 * k + 2]])
  }

  /** The face normals of all triangles, in index-list order. */
  function FaceNormals(indices: seq<int>, verts: seq<Vec3>, count: int): (fs: seq<Vec3>)
    requires ValidIndices(indices, |verts|, count)
    ensures 3 * |fs| == |indices|
    ensures forall k :: 0 <= k < |fs| ==> fs[k] == TriangleNormal(indices, verts, count, k)
  {
    seq(|indices| / 3, k requires 0 <= k < |indices| / 3 => TriangleNormal(indices, verts, count, k))
  }

  /** Triangle t's normal, for the loop that walks the list with i == 3t. */
  lemma FaceNormalAt(indices: seq<int>, verts: seq<Vec3>, count: int, t: int, i: int)
    requires ValidIndices(indices, |verts|, count) && i == 3 * t && 0 <= i && i + 3 <= |indices|
    ensures 0 <= t < |FaceNormals(indices, verts, count)|
    ensures FaceNormals(indices, verts, count)[t]
      == FaceNormal(verts[indices[i]], verts[indices[i + 1]], verts[indices[i + 2]])
  {
  }

  // ---------------------------------------------------------------------
  // Accumulation
  // ---------------------------------------------------------------------

  // The accumulation is stated for any sequence `fs` holding one normal
  // per triangle; `computeNormals` uses `FaceNormals`.

  /** Every index names one of `count` slots. */
  predicate IndicesBelow(indices: seq<int>, count: int) {
    forall j :: 0 <= j < |indices| ==> 0 <= indices[j] < count
  }

  /** `acc[i] += n`. */
  function AddAt(acc: seq<Vec3>, i: int, n: Vec3): (r: seq<Vec3>)
    requires 0 <= i < |acc|
    ensures |r| == |acc| && r[i] == Add(acc[i], n)
    ensures forall j :: 0 <= j < |acc| && j != i ==> r[j] == acc[j]
  {
    acc[i := Add(acc[i], n)]
  }

  /** `count` zero vectors. */
  function Zeros(count: nat): (z: seq<Vec3>)
    ensures |z| == count && forall j :: 0 <= j < count ==> z[j] == Zero3
  {
    seq(count, _ => Zero3)
  }

  /** The accumulator after the first t passes of the accumulation loop,
      starting from `count` zero vectors: pass k adds triangle k's normal
      `fs[k]` to its three corners, in the order i0, i1, i2. */
  function Accumulated(indices: seq<int>, fs: seq<Vec3>, count: nat, t: nat): (acc: seq<Vec3>)
    requires IndicesBelow(indices, count) && 3 * t <= |indices| && t <= |fs|
    ensures |acc| == count
  {
    if t == 0 then Zeros(count)
    else
      var k := t - 1;
      var acc := Accumulated(indices, fs, count, k);
      AddAt(AddAt(AddAt(acc, indices[3 * k], fs[k]), indices[3 * k + 1], fs[k]), indices[3 * k + 2], fs[k])
  }

  /** Pass t of the accumulation loop reads positions i, i+1 and i+2,
      where i == 3t. */
  lemma AccumulatedStep(indices: seq<int>, fs: seq<Vec3>, count: nat, t: nat, i: int)
    requires IndicesBelow(indices, count) && i == 3 * t && i + 3 <= |indices| && t < |fs|
    ensures Accumulated(indices, fs, count, t + 1)
      == AddAt(AddAt(AddAt(Accumulated(indices, fs, count, t), indices[i], fs[t]),
                     indices[i + 1], fs[t]), indices[i + 2], fs[t])
  {
  }

  /** The reference definition: the sum, over the first m positions of the
      index list that name vertex v, of the normal of the triangle that
      position belongs to. A triangle naming v twice counts twice. */
  function CornerSum(indices: seq<int>, fs: seq<Vec3>, m: nat, v: int): Vec3
    requires m <= |indices| <= 3 * |fs|
  {
    if m == 0 then Zero3
    else
      var rest := CornerSum(indices, fs, m - 1, v);
      if indices[m - 1] == v then Add(rest, fs[(m - 1) / 3]) else rest
  }

  /** Pass t adds triangle t-1's normal at v once for each of its corners
      that is v, exactly as the three positions 3t-3 .. 3t-1 of the corner
      sum do. */
  lemma PassMatchesCorners(indices: seq<int>, fs: seq<Vec3>, count: nat, t: nat, v: int)
    requires IndicesBelow(indices, count) && 1 <= t && 3 * t <= |indices| <= 3 * |fs| && 0 <= v < count
    requires Accumulated(indices, fs, count, t - 1)[v] == CornerSum(indices, fs, 3 * (t - 1), v)
    ensures Accumulated(indices, fs, count, t)[v] == CornerSum(indices, fs, 3 * t, v)
  {
    var k := t - 1;
    assert (3 * k) / 3 == k && (3 * k + 1) / 3 == k && (3 * k + 2) / 3 == k && 3 * k + 3 == 3 * t;
    var a0 := Accumulated(indices, fs, count, k);
    var a1 := AddAt(a0, indices[3 * k], fs[k]);
    var a2 := AddAt(a1, indices[3 * k + 1], fs[k]);
    assert a1[v] == CornerSum(indices, fs, 3 * k + 1, v);
    assert a2[v] == CornerSum(indices, fs, 3 * k + 2, v);
  }

  /** After t passes the accumulator holds, for every vertex, the sum of the
      normals of the first t triangles over their corners at that vertex. */
  lemma {:induction false} AccumulatedIsCornerSum(indices: seq<int>, fs: seq<Vec3>, count: nat, t: nat, v: int)
    requires IndicesBelow(indices, count) && 3 * t <= |indices| <= 3 * |fs| && 0 <= v < count
    ensures Accumulated(indices, fs, count, t)[v] == CornerSum(indices, fs, 3 * t, v)
  {
    if t > 0 {
      AccumulatedIsCornerSum(indices, fs, count, t - 1, v);
      PassMatchesCorners(indices, fs, count, t, v);
    }
  }

  /** A vertex no triangle names gets nothing added. */
  lemma {:induction false} UnreferencedCornerSum(indices: seq<int>, fs: seq<Vec3>, m: nat, v: int)
    requires m <= |indices| <= 3 * |fs|
    requires v !in indices
    ensures CornerSum(indices, fs, m, v) == Zero3
  {
    if m > 0 {
      UnreferencedCornerSum(indices, fs, m - 1, v);
      assert indices[m - 1] in indices;
    }
  }

  // ---------------------------------------------------------------------
  // Normalisation
  // ---------------------------------------------------------------------

  /** The 1e-6 threshold below which a vector is left as it is. */
  const Epsilon: real := 0.000001

  /** The vector's length as the caller's square root computes it. */
  function Length(v: Vec3, sqrt: real -> real): real {
    sqrt(Dot(v, v))
  }

  /** Divide each component by the length, unless the length is at most
      1e-6: a short vector is returned unchanged. */
  function Normalized(v: Vec3, sqrt: real -> real): (r: Vec3)
    ensures Length(v, sqrt) <= Epsilon ==> r == v
    ensures v == Zero3 ==> r == Zero3
  {
    var len := Length(v, sqrt);
    if len > Epsilon then Vec3(v.x / len, v.y / len, v.z / len) else v
  }

  /** With an exact square root, a vector longer than 1e-6 normalises to a
      unit vector pointing the same way: parallel to it, with a positive
      dot product equal to its length. */
  lemma NormalizedIsUnit(v: Vec3, sqrt: real -> real)
    requires IsSqrtAt(sqrt, Dot(v, v)) && Length(v, sqrt) > Epsilon
    ensures var r := Normalized(v, sqrt);
      Dot(r, r) == 1.0 && Dot(r, v) == Length(v, sqrt) && Cross(r, v) == Zero3
  {
    var l := Length(v, sqrt);
    var r := Normalized(v, sqrt);
    assert v == Vec3(r.x * l, r.y * l, r.z * l);
    ScaledSquare(r.x, v.x, l);
    ScaledSquare(r.y, v.y, l);
    ScaledSquare(r.z, v.z, l);
    assert Times(v.x, v.x) + Times(v.y, v.y) + Times(v.z, v.z) == Times(l, l);
    Distribute(Times(r.x, r.x), Times(r.y, r.y), Times(r.z, r.z), Times(l, l));
    assert Times(l, l) > 0.0;
    CancelPositive(Times(r.x, r.x) + Times(r.y, r.y) + Times(r.z, r.z), Times(l, l));
    Distribute(Times(r.x, r.x), Times(r.y, r.y), Times(r.z, r.z), l);
    ScaledCross(r.y, r.z, v.y, v.z, l);
    ScaledCross(r.z, r.x, v.z, v.x, l);
    ScaledCross(r.x, r.y, v.x, v.y, l);
  }

  // The algebra behind `NormalizedIsUnit`. Products the proof combines
  // linearly are named through `Times`, so that the solver matches them as
  // terms instead of multiplying them out.

  function Times(a: real, b: real): real {
    a * b
  }

  /** Components of v == l q: squares and mixed products scale by l. */
  lemma ScaledSquare(q: real, x: real, l: real)
    requires x == q * l
    ensures Times(x, x) == Times(Times(q, q), Times(l, l))
    ensures Times(q, x) == Times(Times(q, q), l)
  {
  }

  lemma ScaledCross(p: real, q: real, x: real, y: real, l: real)
    requires x == p * l && y == q * l
    ensures Times(p, y) == Times(q, x)
  {
  }

  lemma Distribute(a: real, b: real, c: real, m: real)
    ensures Times(a, m) + Times(b, m) + Times(c, m) == Times(a + b + c, m)
  {
  }

  /** s m == m with m > 0 forces s == 1. */
  lemma CancelPositive(s: real, m: real)
    requires m > 0.0 && Times(s, m) == m
    ensures s == 1.0
  {
    assert (s - 1.0) * m == 0.0;
  }

  // ---------------------------------------------------------------------
  // computeNormals
  // ---------------------------------------------------------------------

  /** What `computeNormals` leaves in a normals array of `count` entries:
      the accumulated sum over every triangle, normalised. */
  function VertexNormals(indices: seq<int>, verts: seq<Vec3>, count: nat, sqrt: real -> real): (ns: seq<Vec3>)
    requires ValidIndices(indices, |verts|, count)
    ensures |ns| == count
  {
    var acc := Accumulated(indices, FaceNormals(indices, verts, count), count, |indices| / 3);
    seq(count, k requires 0 <= k < count => Normalized(acc[k], sqrt))
  }

  /** Each vertex's normal is the normalised sum, over every corner at that
      vertex, of the face normal of the corner's triangle; a vertex no
      triangle uses keeps the zero vector. */
  lemma VertexNormalIsNormalizedCornerSum(indices: seq<int>, verts: seq<Vec3>, count: nat, sqrt: real -> real, v: int)
    requires ValidIndices(indices, |verts|, count) && 0 <= v < count
    ensures VertexNormals(indices, verts, count, sqrt)[v]
            == Normalized(CornerSum(indices, FaceNormals(indices, verts, count), |indices|, v), sqrt)
    ensures v !in indices ==> VertexNormals(indices, verts, count, sqrt)[v] == Zero3
  {
    var fs := FaceNormals(indices, verts, count);
    var acc := Accumulated(indices, fs, count, |indices| / 3);
    assert VertexNormals(indices, verts, count, sqrt)[v] == Normalized(acc[v], sqrt);
    AccumulatedIsCornerSum(indices, fs, count, |indices| / 3, v);
    assert 3 * (|indices| / 3) == |indices|;
    if v !in indices {
      UnreferencedCornerSum(indices, fs, |indices|, v);
    }
  }

  /** Normalising every entry of the final accumulator gives the vertex
      normals. */
  lemma NormalizedAccumulation(indices: seq<int>, verts: seq<Vec3>, sqrt: real -> real, acc: seq<Vec3>, out: seq<Vec3>)
    requires ValidIndices(indices, |verts|, |acc|)
    requires acc == Accumulated(indices, FaceNormals(indices, verts, |acc|), |acc|, |indices| / 3)
    requires |out| == |acc| && forall j :: 0 <= j < |out| ==> out[j] == Normalized(acc[j], sqrt)
    ensures out == VertexNormals(indices, verts, |acc|, sqrt)
  {
  }

  /** The reset loop: every normal becomes the zero vector. */
  method ZeroNormals(normals: array<Vec3>)
    modifies normals
    ensures normals[..] == Zeros(normals.Length)
  {
    var k := 0;
    while k < normals.Length
      invariant 0 <= k <= normals.Length
      invariant forall j :: 0 <= j < k ==> normals[j] == Zero3
    {
      normals[k] := Zero3;
      k := k + 1;
    }
  }

  /** One pass of the accumulation loop: add n to the normals at i0, i1
      and i2, in that order (a repeated corner gets n twice). */
  method AddToCorners(normals: array<Vec3>, i0: int, i1: int, i2: int, n: Vec3)
    requires 0 <= i0 < normals.Length && 0 <= i1 < normals.Length && 0 <= i2 < normals.Length
    modifies normals
    ensures normals[..] == AddAt(AddAt(AddAt(old(normals[..]), i0, n), i1, n), i2, n)
  {
    ghost var a0 := normals[..];
    normals[i0] := Add(normals[i0], n);
    ghost var a1 := normals[..];
    assert a1 == AddAt(a0, i0, n);
    normals[i1] := Add(normals[i1], n);
    ghost var a2 := normals[..];
    assert a2 == AddAt(a1, i1, n);
    normals[i2] := Add(normals[i2], n);
  }

  /** The body of the accumulation loop at position i == 3t: compute
      triangle t's face normal and add it to its three corners. */
  method AccumulateTriangle(indices: seq<int>, normals: array<Vec3>, verts: seq<Vec3>, i: int, ghost t: nat)
    requires ValidIndices(indices, |verts|, normals.Length)
    requires i == 3 * t && i + 3 <= |indices|
    requires normals[..] == Accumulated(indices, FaceNormals(indices, verts, normals.Length), normals.Length, t)
    modifies normals
    ensures normals[..] == Accumulated(indices, FaceNormals(indices, verts, normals.Length), normals.Length, t + 1)
  {
    var i0, i1, i2 := indices[i], indices[i + 1], indices[i + 2];
    var n := FaceNormal(verts[i0], verts[i1], verts[i2]);
    FaceNormalAt(indices, verts, normals.Length, t, i);
    AccumulatedStep(indices, FaceNormals(indices, verts, normals.Length), normals.Length, t, i);
    AddToCorners(normals, i0, i1, i2, n);
  }

  /** The accumulation loop: for each triangle, add its face normal to the
      normals of its three corners. */
  method AccumulateFaceNormals(indices: seq<int>, normals: array<Vec3>, verts: seq<Vec3>)
    requires ValidIndices(indices, |verts|, normals.Length)
    requires normals[..] == Zeros(normals.Length)
    modifies normals
    ensures normals[..] == Accumulated(indices, FaceNormals(indices, verts, normals.Length), normals.Length, |indices| / 3)
  {
    ghost var total := |indices| / 3;
    assert 3 * total == |indices|;
    ghost var fs := FaceNormals(indices, verts, normals.Length);
    var i := 0;
    ghost var t := 0;
    while i < |indices|
      invariant 0 <= t <= total && i == 3 * t
      invariant normals[..] == Accumulated(indices, fs, normals.Length, t)
    {
      AccumulateTriangle(indices, normals, verts, i, t);
      i := i + 3;
      t := t + 1;
    }
    assert t == total;
  }

  /** The normalisation loop: every normal longer than 1e-6 is scaled to
      unit length, the others are left alone. */
  method NormalizeAll(normals: array<Vec3>, sqrt: real -> real)
    modifies normals
    ensures forall j :: 0 <= j < normals.Length ==> normals[j] == Normalized(old(normals[j]), sqrt)
  {
    var k := 0;
    while k < normals.Length
      invariant 0 <= k <= normals.Length
      invariant forall j :: 0 <= j < k ==> normals[j] == Normalized(old(normals[j]), sqrt)
      invariant forall j :: k <= j < normals.Length ==> normals[j] == old(normals[j])
    {
      normals[k] := Normalized(normals[k], sqrt);
      k := k + 1;
    }
  }

  /** `computeNormals(indices, normals, verts)`: zero every normal, add
      each triangle's face normal to its three corners, then normalise
      every normal longer than 1e-6. */
  method ComputeNormals(indices: seq<int>, normals: array<Vec3>, verts: seq<Vec3>, sqrt: real -> real)
    requires ValidIndices(indices, |verts|, normals.Length)
    modifies normals
    ensures normals[..] == VertexNormals(indices, verts, normals.Length, sqrt)
  {
    ZeroNormals(normals);
    AccumulateFaceNormals(indices, normals, verts);
    ghost var acc := normals[..];
    NormalizeAll(normals, sqrt);
    NormalizedAccumulation(indices, verts, sqrt, acc, normals[..]);
  }
}
