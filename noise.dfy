/** The seeded simplex-noise engine: the permutation table built by a
    shuffle, its expansion into the doubled lookup tables, and the
    lattice hashing and simplex-corner selection of the 2D and 3D samplers.
    Floating-point values are modelled as reals. */
module Noise {
  import opened Geometry

  // ---------------------------------------------------------------------
  // The permutation `p` and its shuffle
  // ---------------------------------------------------------------------

  /** 0, 1, ..., n-1: the contents of `p` after the fill loop. */
  function Identity(n: nat): (s: seq<int>)
    ensures |s| == n && forall k :: 0 <= k < n ==> s[k] == k
  {
    seq(n, k => k)
  }

  /** `t` is a permutation of 0..255. */
  ghost predicate IsPermutation(t: seq<int>) {
    multiset(t) == multiset(Identity(256))
  }

  /** The 256 values `dist(rng)` returns during the shuffle: the random
      generator is outside the model, all it promises is the range of
      `uniform_int_distribution<>(0, 255)`. */
  predicate IsByteDraws(draws: seq<int>) {
    |draws| == 256 && forall k :: 0 <= k < |draws| ==> 0 <= draws[k] <= 255
  }

  /** The index that step `i` of the shuffle swaps with. */
  function SwapPartner(i: int, d: int): (r: int)
    requires 0 <= i < 256 && 0 <= d <= 255
    ensures i <= r <= 255
  {
    i + d % (256 - i)
  }

  /** `std::swap(s[i], s[r])`. */
  function Swap(s: seq<int>, i: int, r: int): (t: seq<int>)
    requires 0 <= i < |s| && 0 <= r < |s|
    ensures |t| == |s| && t[i] == s[r] && t[r] == s[i]
    ensures forall k :: 0 <= k < |s| && k != i && k != r ==> t[k] == s[k]
  {
    s[i := s[r]][r := s[i]]
  }

  /** A swap moves entries around and neither creates nor loses one. */
  lemma SwapIsPermutation(s: seq<int>, i: int, r: int)
    requires 0 <= i < |s| && 0 <= r < |s|
    ensures multiset(Swap(s, i, r)) == multiset(s)
  {
    var u := s[i := s[r]];
    assert multiset(u) == multiset(s) - multiset{s[i]} + multiset{s[r]};
    assert multiset(u[r := s[i]]) == multiset(u) - multiset{u[r]} + multiset{s[i]};
  }

  /** `s` after the first `n` steps of the shuffle loop. */
  function Shuffled(s: seq<int>, draws: seq<int>, n: nat): (t: seq<int>)
    requires |s| == 256 && IsByteDraws(draws) && n <= 256
    ensures |t| == 256
  {
    if n == 0 then s
    else Swap(Shuffled(s, draws, n - 1), n - 1, SwapPartner(n - 1, draws[n - 1]))
  }

  /** Whatever the draws, the shuffle only rearranges its input. */
  lemma {:induction false} ShuffledIsPermutation(s: seq<int>, draws: seq<int>, n: nat)
    requires |s| == 256 && IsByteDraws(draws) && n <= 256
    ensures multiset(Shuffled(s, draws, n)) == multiset(s)
  {
    if n > 0 {
      ShuffledIsPermutation(s, draws, n - 1);
      SwapIsPermutation(Shuffled(s, draws, n - 1), n - 1, SwapPartner(n - 1, draws[n - 1]));
    }
  }

  lemma {:induction false} IdentityMultiplicity(n: nat, v: int)
    ensures multiset(Identity(n))[v] == if 0 <= v < n then 1 else 0
  {
    if n > 0 {
      IdentityMultiplicity(n - 1, v);
      assert Identity(n) == Identity(n - 1) + [n - 1];
    }
  }

  lemma TwoOccurrences(t: seq<int>, a: int, b: int)
    requires 0 <= a < b < |t| && t[a] == t[b]
    ensures multiset(t)[t[a]] >= 2
  {
    assert t == t[..a] + [t[a]] + t[a + 1..b] + [t[b]] + t[b + 1..];
  }

  /** A permutation of 0..255 has 256 entries, each a byte, all distinct,
      and every byte among them. */
  lemma PermutationFacts(t: seq<int>)
    requires IsPermutation(t)
    ensures |t| == 256
    ensures forall k :: 0 <= k < |t| ==> 0 <= t[k] < 256
    ensures forall a, b :: 0 <= a < b < |t| ==> t[a] != t[b]
    ensures forall v :: 0 <= v < 256 ==> v in t
  {
    assert |t| == |multiset(t)| == |multiset(Identity(256))| == 256;
    forall k | 0 <= k < |t|
      ensures 0 <= t[k] < 256
    {
      assert t[k] in multiset(t);
      IdentityMultiplicity(256, t[k]);
    }
    forall a, b | 0 <= a < b < |t|
      ensures t[a] != t[b]
    {
      if t[a] == t[b] {
        TwoOccurrences(t, a, b);
        IdentityMultiplicity(256, t[a]);
      }
    }
    forall v | 0 <= v < 256
      ensures v in t
    {
      IdentityMultiplicity(256, v);
      assert v in multiset(t);
    }
  }

  // ---------------------------------------------------------------------
  // The expanded tables `perm` and `permMod12`
  // ---------------------------------------------------------------------

  /** `i & 255`: the low eight bits of a two's-complement integer, which is
      its Euclidean remainder modulo 256 (negative lattice coordinates
      included). */
  function Low8(i: int): (b: int)
    ensures 0 <= b < 256 && (i - b) % 256 == 0
  {
    i % 256
  }

  /** A value snapshot of the two lookup tables the samplers read. */
  datatype NoiseTables = NoiseTables(perm: seq<int>, permMod12: seq<int>)

  /** What every hash lookup relies on: 512 entries each, `perm` holding
      bytes and `permMod12` their remainders modulo 12. */
  predicate ValidTables(t: NoiseTables) {
    |t.perm| == 512 && |t.permMod12| == 512
    && (forall i :: 0 <= i < 512 ==> 0 <= t.perm[i] < 256)
    && (forall i :: 0 <= i < 512 ==> t.permMod12[i] == t.perm[i] % 12)
  }

  /** The tables the constructor's third loop fills from `p`. */
  function Expand(p: seq<int>): NoiseTables
    requires |p| == 256
  {
    NoiseTables(seq(512, i requires 0 <= i < 512 => p[Low8(i)]),
                seq(512, i requires 0 <= i < 512 => p[Low8(i)] % 12))
  }

  /** Expanding a permutation gives tables fit for hashing, whose first and
      second halves both repeat `p`. */
  lemma ExpandValid(p: seq<int>)
    requires IsPermutation(p)
    ensures |p| == 256 && ValidTables(Expand(p))
    ensures forall i :: 0 <= i < 256 ==> Expand(p).perm[i] == p[i] && Expand(p).perm[i + 256] == p[i]
  {
    PermutationFacts(p);
    var t := Expand(p);
    forall i | 0 <= i < 512
      ensures 0 <= t.perm[i] < 256 && t.permMod12[i] == t.perm[i] % 12
    {
      assert t.perm[i] == p[Low8(i)];
    }
    forall i | 0 <= i < 256
      ensures t.perm[i] == p[i] && t.perm[i + 256] == p[i]
    {
      assert Low8(i) == i && Low8(i + 256) == i;
    }
  }

  /** The fill loop: `p[i] = i` for every slot. */
  method FillIdentity(a: array<int>)
    modifies a
    ensures a[..] == Identity(a.Length)
  {
    var i := 0;
    while i < a.Length
      invariant 0 <= i <= a.Length
      invariant forall k :: 0 <= k < i ==> a[k] == k
    {
      a[i] := i;
      i := i + 1;
    }
  }

  /** The shuffle loop: step `i` swaps `a[i]` with `a[i + draws[i] % (256 - i)]`. */
  method ShuffleInPlace(a: array<int>, draws: seq<int>)
    requires a.Length == 256 && IsByteDraws(draws)
    modifies a
    ensures a[..] == Shuffled(old(a[..]), draws, 256)
  {
    ghost var start := a[..];
    var i := 0;
    while i < 256
      invariant 0 <= i <= 256
      invariant a[..] == Shuffled(start, draws, i)
    {
      ghost var before := a[..];
      var r := i + draws[i] % (256 - i);
      var tmp := a[i];
      a[i] := a[r];
      a[r] := tmp;
      assert a[..] == Swap(before, i, r);
      i := i + 1;
    }
  }

  /** The expansion loop: `perm[i] = p[i & 255]`, `permMod12[i] = perm[i] % 12`. */
  method ExpandInto(p: array<int>, perm: array<int>, permMod12: array<int>)
    requires p.Length == 256 && perm.Length == 512 && permMod12.Length == 512
    requires p != perm && p != permMod12 && perm != permMod12
    modifies perm, permMod12
    ensures NoiseTables(perm[..], permMod12[..]) == Expand(p[..])
  {
    var i := 0;
    while i < 512
      invariant 0 <= i <= 512
      invariant forall k :: 0 <= k < i ==> perm[k] == p[Low8(k)] && permMod12[k] == perm[k] % 12
    {
      perm[i] := p[Low8(i)];
      permMod12[i] := perm[i] % 12;
      i := i + 1;
    }
    assert perm[..] == Expand(p[..]).perm;
    assert permMod12[..] == Expand(p[..]).permMod12;
  }

  /** The noise engine. Its three tables are built once by the constructor
      and only read afterwards. */
  class SimplexNoise {
    const p: array<int>
    const perm: array<int>
    const permMod12: array<int>

    ghost predicate Valid()
      reads p, perm, permMod12
    {
      p.Length == 256 && IsPermutation(p[..])
      && perm.Length == 512 && permMod12.Length == 512
      && NoiseTables(perm[..], permMod12[..]) == Expand(p[..])
    }

    /** Fills `p` with 0..255, shuffles it with the given draws, then
        expands it into `perm` and `permMod12`. */
    constructor (draws: seq<int>)
      requires IsByteDraws(draws)
      ensures Valid()
      ensures p[..] == Shuffled(Identity(256), draws, 256)
    {
      p := new int[256];
      perm := new int[512];
      permMod12 := new int[512];
      new;
      FillIdentity(p);
      ShuffleInPlace(p, draws);
      ShuffledIsPermutation(Identity(256), draws, 256);
      ExpandInto(p, perm, permMod12);
    }

    /** The tables as values; they are those the expansion of `p` defines. */
    function Tables(): (t: NoiseTables)
      reads p, perm, permMod12
      requires Valid()
      ensures ValidTables(t) && t == Expand(p[..])
    {
      ExpandValid(p[..]);
      NoiseTables(perm[..], permMod12[..])
    }
  }

  // ---------------------------------------------------------------------
  // fastFloor, gradients, hashing
  // ---------------------------------------------------------------------

  /** `(int)x`: conversion toward zero, so the result never lies farther
      from zero than `x` and is less than one away from it. */
  function Trunc(x: real): (r: int)
    ensures 0.0 <= x ==> 0 <= r && r as real <= x < r as real + 1.0
    ensures x < 0.0 ==> r <= 0 && r as real - 1.0 < x <= r as real
  {
    if x >= 0.0 then x.Floor else -((-x).Floor)
  }

  /** `fastFloor`: truncation, minus one for every negative input. The
      result is the floor except at negative integers, where it is one
      less; either way the input lies in the closed unit cell above it. */
  function FastFloor(x: real): (r: int)
    ensures r as real <= x <= r as real + 1.0
  {
    if x >= 0.0 then Trunc(x) else Trunc(x) - 1
  }

  /** fastFloor agrees with the floor everywhere except at negative
      integers, where it returns x - 1. */
  lemma FastFloorVersusFloor(x: real)
    ensures x >= 0.0 || x.Floor as real != x ==> FastFloor(x) == x.Floor
    ensures x < 0.0 && x.Floor as real == x ==> FastFloor(x) == x.Floor - 1
  {
    if x < 0.0 {
      var f := (-x).Floor;
      if x.Floor as real != x {
        assert f as real < -x;
        assert -f - 1 == x.Floor;
      } else {
        assert f == -x.Floor;
      }
    }
  }

  /** The twelve gradient directions (midpoints of a cube's edges), three
      components each. */
  const Grad3: seq<real> := [
     1.0,  1.0,  0.0,  -1.0,  1.0,  0.0,   1.0, -1.0,  0.0,  -1.0, -1.0,  0.0,
     1.0,  0.0,  1.0,  -1.0,  0.0,  1.0,   1.0,  0.0, -1.0,  -1.0,  0.0, -1.0,
     0.0,  1.0,  1.0,   0.0, -1.0,  1.0,   0.0,  1.0, -1.0,   0.0, -1.0, -1.0
  ]

  /** Each gradient component is -1, 0 or 1, and each gradient has exactly
      two non-zero components. */
  lemma Grad3Shape(gi: int)
    requires 0 <= gi <= 33 && gi % 3 == 0
    ensures |Grad3| == 36
    ensures Grad3[gi] in {-1.0, 0.0, 1.0} && Grad3[gi + 1] in {-1.0, 0.0, 1.0} && Grad3[gi + 2] in {-1.0, 0.0, 1.0}
    ensures Grad3[gi] * Grad3[gi] + Grad3[gi + 1] * Grad3[gi + 1] + Grad3[gi + 2] * Grad3[gi + 2] == 2.0
  {
    var g := gi / 3;
    assert gi == 3 * g && 0 <= g < 12;
    if g == 0 {} else if g == 1 {} else if g == 2 {} else if g == 3 {}
    else if g == 4 {} else if g == 5 {} else if g == 6 {} else if g == 7 {}
    else if g == 8 {} else if g == 9 {} else if g == 10 {} else {}
  }

  /** `permMod12[ii + di + perm[jj + dj]] * 3`: the hash of a 2D lattice
      corner. Every index it reads is below 512 and the gradient it names
      lies wholly inside `grad3`. */
  function GradIndex2(t: NoiseTables, ii: int, jj: int, di: int, dj: int): (gi: int)
    requires ValidTables(t)
    requires 0 <= ii < 256 && 0 <= jj < 256 && 0 <= di <= 1 && 0 <= dj <= 1
    ensures 0 <= gi && gi + 2 < 36 && gi % 3 == 0
  {
    t.permMod12[ii + di + t.perm[jj + dj]] * 3
  }

  /** `permMod12[ii + di + perm[jj + dj + perm[kk + dk]]] * 3`: the hash of a
      3D lattice corner; the nested indices stay below 512 as well. */
  function GradIndex3(t: NoiseTables, ii: int, jj: int, kk: int, di: int, dj: int, dk: int): (gi: int)
    requires ValidTables(t)
    requires 0 <= ii < 256 && 0 <= jj < 256 && 0 <= kk < 256
    requires 0 <= di <= 1 && 0 <= dj <= 1 && 0 <= dk <= 1
    ensures 0 <= gi && gi + 2 < 36 && gi % 3 == 0
  {
    t.permMod12[ii + di + t.perm[jj + dj + t.perm[kk + dk]]] * 3
  }

  /** The radial weight `t^4` of a corner, zero once `t` is negative. */
  function Weight(t: real): (w: real)
    ensures w >= 0.0
  {
    if t < 0.0 then 0.0 else (t * t) * (t * t)
  }

  /** The most a corner with falloff term `t` and a gradient dot product
      of magnitude at most `m` can contribute: nothing once `t` is
      negative, never a negative amount. */
  function TermBound(t: real, m: real): (b: real)
    ensures t < 0.0 ==> b == 0.0
    ensures m >= 0.0 ==> b >= 0.0
  {
    Weight(t) * m
  }

  /** A corner's term: its falloff `t` squared twice (`t *= t; t * t`),
      times the gradient dot product. With a dot product of magnitude at
      most `bound`, the term is at most `TermBound(t, bound)` in magnitude,
      and it is non-zero only when `t > 0`. */
  function WeightedTerm(t: real, dot: real, ghost bound: real): (n: real)
    requires t >= 0.0 && Abs(dot) <= bound
    ensures Abs(n) <= TermBound(t, bound)
    ensures n != 0.0 ==> t > 0.0
  {
    var w := (t * t) * (t * t);
    assert w >= 0.0;
    assert Abs(w * dot) <= w * bound by {
      if dot < 0.0 {
        assert w * -dot <= w * bound;
      } else {
        assert w * dot <= w * bound;
      }
    }
    w * dot
  }

  /** `grad3[gi] * x + grad3[gi + 1] * y`: gradients have unit components,
      so the product is at most |x| + |y| in magnitude. */
  function GradDot2(gi: int, x: real, y: real): (d: real)
    requires 0 <= gi <= 33 && gi % 3 == 0
    ensures Abs(d) <= Abs(x) + Abs(y)
  {
    Grad3Shape(gi);
    var a, b := Grad3[gi], Grad3[gi + 1];
    assert Abs(a * x) <= Abs(x) by { assert a == -1.0 || a == 0.0 || a == 1.0; }
    assert Abs(b * y) <= Abs(y) by { assert b == -1.0 || b == 0.0 || b == 1.0; }
    a * x + b * y
  }

  /** `grad3[gi] * x + grad3[gi + 1] * y + grad3[gi + 2] * z`, at most
      |x| + |y| + |z| in magnitude. */
  function GradDot3(gi: int, x: real, y: real, z: real): (d: real)
    requires 0 <= gi <= 33 && gi % 3 == 0
    ensures Abs(d) <= Abs(x) + Abs(y) + Abs(z)
  {
    Grad3Shape(gi);
    var a, b, c := Grad3[gi], Grad3[gi + 1], Grad3[gi + 2];
    assert Abs(a * x) <= Abs(x) by { assert a == -1.0 || a == 0.0 || a == 1.0; }
    assert Abs(b * y) <= Abs(y) by { assert b == -1.0 || b == 0.0 || b == 1.0; }
    assert Abs(c * z) <= Abs(z) by { assert c == -1.0 || c == 0.0 || c == 1.0; }
    a * x + b * y + c * z
  }

  // ---------------------------------------------------------------------
  // 2D noise
  // ---------------------------------------------------------------------

  /** The 2D skewing factor `0.5 * (sqrt(3) - 1)`, with sqrt(3) as given. */
  function F2(sqrt3: real): real { 0.5 * (sqrt3 - 1.0) }

  /** The 2D unskewing factor `(3 - sqrt(3)) / 6`. */
  function G2(sqrt3: real): real { (3.0 - sqrt3) / 6.0 }

  /** The offset of the middle corner of the 2D simplex: toward x when the
      point lies below the diagonal, toward y otherwise. */
  function Corner2(x0: real, y0: real): (o: (int, int))
    ensures o.0 + o.1 == 1 && 0 <= o.0 && 0 <= o.1
    ensures o.0 == 1 <==> x0 > y0
  {
    if x0 > y0 then (1, 0) else (0, 1)
  }

  /** Where noise2D puts a point: its lattice cell `(i, j)`, the middle
      corner `(i1, j1)` and the point's offsets from the three corners. */
  datatype Cell2 = Cell2(i: int, j: int, i1: int, j1: int,
                         x0: real, y0: real, x1: real, y1: real, x2: real, y2: real)

  /** Skews the input, floors it to a cell, unskews the cell origin and picks
      the simplex. The skewed point lies in the closed cell, exactly one of
      `i1`, `j1` is 1, and the first corner's offset is the point minus the
      unskewed cell origin. */
  function Locate2(xin: real, yin: real, sqrt3: real): (c: Cell2)
    ensures var s := (xin + yin) * F2(sqrt3);
      c.i as real <= xin + s <= c.i as real + 1.0 && c.j as real <= yin + s <= c.j as real + 1.0
    ensures c.i1 + c.j1 == 1 && 0 <= c.i1 && 0 <= c.j1 && (c.i1 == 1 <==> c.x0 > c.y0)
    ensures var t := (c.i + c.j) as real * G2(sqrt3);
      c.x0 == xin - (c.i as real - t) && c.y0 == yin - (c.j as real - t)
  {
    var s := (xin + yin) * F2(sqrt3);
    var i := FastFloor(xin + s);
    var j := FastFloor(yin + s);
    var t := (i + j) as real * G2(sqrt3);
    var x0 := xin - (i as real - t);
    var y0 := yin - (j as real - t);
    var o := Corner2(x0, y0);
    Cell2(i, j, o.0, o.1,
          x0, y0,
          x0 - o.0 as real + G2(sqrt3), y0 - o.1 as real + G2(sqrt3),
          x0 - 1.0 + 2.0 * G2(sqrt3), y0 - 1.0 + 2.0 * G2(sqrt3))
  }

  /** The falloff term `0.5 - x^2 - y^2` of a 2D corner at offset (x, y). */
  function Falloff2(x: real, y: real): real {
    0.5 - x * x - y * y
  }

  /** The most a 2D corner at offset (x, y) can contribute. */
  function CornerBound2(x: real, y: real): real {
    TermBound(Falloff2(x, y), Abs(x) + Abs(y))
  }

  /** One corner's contribution in noise2D, for the corner at offset
      (x, y) whose hash is taken at (ii + di, jj + dj). A corner whose
      falloff term `0.5 - x^2 - y^2` is negative contributes exactly 0 (and
      never reads the tables); a non-zero contribution needs a strictly
      positive term; the gradient dot product is at most |x| + |y|. */
  function CornerTerm2(tab: NoiseTables, ii: int, jj: int, di: int, dj: int,
                       x: real, y: real): (n: real)
    requires ValidTables(tab)
    requires 0 <= ii < 256 && 0 <= jj < 256 && 0 <= di <= 1 && 0 <= dj <= 1
    ensures Falloff2(x, y) < 0.0 ==> n == 0.0
    ensures n != 0.0 ==> Falloff2(x, y) > 0.0
    ensures -CornerBound2(x, y) <= n <= CornerBound2(x, y)
  {
    var t := Falloff2(x, y);
    if t >= 0.0 then
      var gi := GradIndex2(tab, ii, jj, di, dj);
      WeightedTerm(t, GradDot2(gi, x, y), Abs(x) + Abs(y))
    else
      0.0
  }

  /** noise2D. The sum of the three corner terms, scaled by 70; each term is
      bounded by its corner's weight, so the value is 0 whenever all three
      corners lie outside their radius. */
  function Noise2D(tab: NoiseTables, xin: real, yin: real, sqrt3: real): (n: real)
    requires ValidTables(tab)
    ensures var c := Locate2(xin, yin, sqrt3);
      var bound := 70.0 * (CornerBound2(c.x0, c.y0) + CornerBound2(c.x1, c.y1) + CornerBound2(c.x2, c.y2));
      -bound <= n <= bound
  {
    var c := Locate2(xin, yin, sqrt3);
    var ii := Low8(c.i);
    var jj := Low8(c.j);
    var n0 := CornerTerm2(tab, ii, jj, 0, 0, c.x0, c.y0);
    var n1 := CornerTerm2(tab, ii, jj, c.i1, c.j1, c.x1, c.y1);
    var n2 := CornerTerm2(tab, ii, jj, 1, 1, c.x2, c.y2);
    70.0 * (n0 + n1 + n2)
  }

  // ---------------------------------------------------------------------
  // 3D noise
  // ---------------------------------------------------------------------

  /** The 3D skewing and unskewing factors. */
  const F3: real := 1.0 / 3.0
  const G3: real := 1.0 / 6.0

  /** The offsets of the second and third corners of a 3D simplex. */
  datatype Offsets3 = Offsets3(i1: int, j1: int, k1: int, i2: int, j2: int, k2: int)

  /** Picks the simplex of the cube holding the point: the second corner
      steps along the axis of the largest coordinate, the third corner along
      every axis but that of the smallest. So the first offset has one unit
      component, the second two, and the first lies below the second. */
  function Corner3(x0: real, y0: real, z0: real): (o: Offsets3)
    ensures o.i1 + o.j1 + o.k1 == 1 && o.i2 + o.j2 + o.k2 == 2
    ensures 0 <= o.i1 <= o.i2 <= 1 && 0 <= o.j1 <= o.j2 <= 1 && 0 <= o.k1 <= o.k2 <= 1
    ensures o.i1 == 1 ==> x0 >= y0 && x0 >= z0
    ensures o.j1 == 1 ==> y0 >= x0 && y0 >= z0
    ensures o.k1 == 1 ==> z0 >= x0 && z0 >= y0
    ensures o.i2 == 0 ==> x0 <= y0 && x0 <= z0
    ensures o.j2 == 0 ==> y0 <= x0 && y0 <= z0
    ensures o.k2 == 0 ==> z0 <= x0 && z0 <= y0
  {
    if x0 >= y0 then
      if y0 >= z0 then Offsets3(1, 0, 0, 1, 1, 0)
      else if x0 >= z0 then Offsets3(1, 0, 0, 1, 0, 1)
      else Offsets3(0, 0, 1, 1, 0, 1)
    else
      if y0 < z0 then Offsets3(0, 0, 1, 0, 1, 1)
      else if x0 < z0 then Offsets3(0, 1, 0, 0, 1, 1)
      else Offsets3(0, 1, 0, 1, 1, 0)
  }

  /** The offset of a point from one corner of its simplex. */
  datatype Offset3 = Offset3(x: real, y: real, z: real)

  /** Where noise3D puts a point: its lattice cell, the simplex offsets and
      the point's offsets from the four corners of its simplex. */
  datatype Cell3 = Cell3(i: int, j: int, k: int, o: Offsets3, p0: Offset3, p1: Offset3, p2: Offset3, p3: Offset3)

  /** Skews the input, floors it to a cell, unskews the cell origin and picks
      the simplex. The skewed point lies in the closed cell, the first
      corner's offset is the point minus the unskewed cell origin, and the
      simplex is the one Corner3 ranks for that offset. */
  function Locate3(xin: real, yin: real, zin: real): (c: Cell3)
    ensures var s := (xin + yin + zin) * F3;
      c.i as real <= xin + s <= c.i as real + 1.0
      && c.j as real <= yin + s <= c.j as real + 1.0
      && c.k as real <= zin + s <= c.k as real + 1.0
    ensures c.o.i1 + c.o.j1 + c.o.k1 == 1 && c.o.i2 + c.o.j2 + c.o.k2 == 2
    ensures 0 <= c.o.i1 <= c.o.i2 <= 1 && 0 <= c.o.j1 <= c.o.j2 <= 1 && 0 <= c.o.k1 <= c.o.k2 <= 1
    ensures var t := (c.i + c.j + c.k) as real * G3;
      c.p0 == Offset3(xin - (c.i as real - t), yin - (c.j as real - t), zin - (c.k as real - t))
    ensures c.o == Corner3(c.p0.x, c.p0.y, c.p0.z)
  {
    var s := (xin + yin + zin) * F3;
    var i := FastFloor(xin + s);
    var j := FastFloor(yin + s);
    var k := FastFloor(zin + s);
    var t := (i + j + k) as real * G3;
    var x0 := xin - (i as real - t);
    var y0 := yin - (j as real - t);
    var z0 := zin - (k as real - t);
    var o := Corner3(x0, y0, z0);
    Cell3(i, j, k, o,
          Offset3(x0, y0, z0),
          Offset3(x0 - o.i1 as real + G3, y0 - o.j1 as real + G3, z0 - o.k1 as real + G3),
          Offset3(x0 - o.i2 as real + 2.0 * G3, y0 - o.j2 as real + 2.0 * G3, z0 - o.k2 as real + 2.0 * G3),
          Offset3(x0 - 1.0 + 3.0 * G3, y0 - 1.0 + 3.0 * G3, z0 - 1.0 + 3.0 * G3))
  }

  /** The falloff term `0.6 - x^2 - y^2 - z^2` of a 3D corner. */
  function Falloff3(x: real, y: real, z: real): real {
    0.6 - x * x - y * y - z * z
  }

  /** The most a 3D corner at offset (x, y, z) can contribute. */
  function CornerBound3(x: real, y: real, z: real): real {
    TermBound(Falloff3(x, y, z), Abs(x) + Abs(y) + Abs(z))
  }

  /** One corner's contribution in noise3D, with the same guarantees as in
      2D for the falloff term `0.6 - x^2 - y^2 - z^2`. */
  function CornerTerm3(tab: NoiseTables, ii: int, jj: int, kk: int,
                       di: int, dj: int, dk: int, x: real, y: real, z: real): (n: real)
    requires ValidTables(tab)
    requires 0 <= ii < 256 && 0 <= jj < 256 && 0 <= kk < 256
    requires 0 <= di <= 1 && 0 <= dj <= 1 && 0 <= dk <= 1
    ensures Falloff3(x, y, z) < 0.0 ==> n == 0.0
    ensures n != 0.0 ==> Falloff3(x, y, z) > 0.0
    ensures -CornerBound3(x, y, z) <= n <= CornerBound3(x, y, z)
  {
    var t := Falloff3(x, y, z);
    if t < 0.0 then
      0.0
    else
      var gi := GradIndex3(tab, ii, jj, kk, di, dj, dk);
      WeightedTerm(t, GradDot3(gi, x, y, z), Abs(x) + Abs(y) + Abs(z))
  }

  /** noise3D. The sum of the four corner terms, scaled by 32, bounded by
      the corners' weights. */
  function Noise3D(tab: NoiseTables, xin: real, yin: real, zin: real): (n: real)
    requires ValidTables(tab)
    ensures var c := Locate3(xin, yin, zin);
      var bound := 32.0 * (CornerBound3(c.p0.x, c.p0.y, c.p0.z) + CornerBound3(c.p1.x, c.p1.y, c.p1.z)
                           + CornerBound3(c.p2.x, c.p2.y, c.p2.z) + CornerBound3(c.p3.x, c.p3.y, c.p3.z));
      -bound <= n <= bound
  {
    var c := Locate3(xin, yin, zin);
    var o := c.o;
    var ii, jj, kk := Low8(c.i), Low8(c.j), Low8(c.k);
    var n0 := CornerTerm3(tab, ii, jj, kk, 0, 0, 0, c.p0.x, c.p0.y, c.p0.z);
    var n1 := CornerTerm3(tab, ii, jj, kk, o.i1, o.j1, o.k1, c.p1.x, c.p1.y, c.p1.z);
    var n2 := CornerTerm3(tab, ii, jj, kk, o.i2, o.j2, o.k2, c.p2.x, c.p2.y, c.p2.z);
    var n3 := CornerTerm3(tab, ii, jj, kk, 1, 1, 1, c.p3.x, c.p3.y, c.p3.z);
    32.0 * (n0 + n1 + n2 + n3)
  }
}
