/** The ridge transform and the ridged multifractal that turns octaves of
    noise into one height. The noise sampler is a parameter: in the
    generator it is the seeded engine's noise2D. */
module Ridged {
  import opened Geometry
  import opened Settings

  // ---------------------------------------------------------------------
  // Cubes
  // ---------------------------------------------------------------------

  lemma ProductMonotone(a: real, b: real, c: real)
    requires 0.0 <= a && b <= c
    ensures a * b <= a * c
  {
    assert a * c - a * b == a * (c - b);
  }

  lemma SquareNonNegative(a: real)
    ensures a * a >= 0.0
  {
    if a < 0.0 {
      ProductMonotone(-a, a, 0.0);
    } else {
      ProductMonotone(a, 0.0, a);
    }
  }

  lemma CubeMonotone(a: real, b: real)
    requires a <= b
    ensures a * a * a <= b * b * b
  {
    var q := a * a + a * b + b * b;
    var c := a + b / 2.0;
    SquareNonNegative(c);
    SquareNonNegative(b);
    assert q == c * c + 3.0 * (b * b) / 4.0;
    assert b * b * b - a * a * a == (b - a) * q;
    ProductMonotone(b - a, 0.0, q);
  }

  lemma CubeStrict(a: real, b: real)
    requires a < b
    ensures a * a * a < b * b * b
  {
    var q := a * a + a * b + b * b;
    var c := a + b / 2.0;
    SquareNonNegative(c);
    SquareNonNegative(b);
    assert q == c * c + 3.0 * (b * b) / 4.0;
    if b == 0.0 {
      assert q == a * a;
      ProductMonotone(-a, 0.0, -a);
      assert (-a) * (-a) > 0.0;
    } else if b > 0.0 {
      ProductMonotone(b, 0.0, b);
      assert b * b > 0.0;
    } else {
      ProductMonotone(-b, 0.0, -b);
      assert (-b) * (-b) > 0.0;
    }
    assert q > 0.0;
    assert b * b * b - a * a * a == (b - a) * q;
    ProductMonotone(q, 0.0, b - a);
  }

  // ---------------------------------------------------------------------
  // ridge
  // ---------------------------------------------------------------------

  /** `ridge(h, offset)`: with k = offset - |h|, the cubic 4k^3 below
      k = 1/2 and (k - 1)(2k - 2)^2 + 1 from there on. The value is below
      1/2 exactly when the lower branch is taken, so the two branches never
      overlap in value. */
  function Ridge(h: real, offset: real): (r: real)
    ensures r < 0.5 <==> offset - Abs(h) < 0.5
  {
    var k := offset - Abs(h);
    if k < 0.5 then
      CubeStrict(k, 0.5);
      4.0 * k * k * k
    else
      var term := 2.0 * k - 2.0;
      CubeMonotone(-0.5, k - 1.0);
      assert (k - 1.0) * term * term == 4.0 * ((k - 1.0) * (k - 1.0) * (k - 1.0));
      (k - 1.0) * term * term + 1.0
  }

  /** The ridge is non-decreasing in k = offset - |h|: a sample of smaller
      magnitude never gives a lower ridge. */
  lemma RidgeMonotone(h1: real, h2: real, offset: real)
    requires Abs(h2) <= Abs(h1)
    ensures Ridge(h1, offset) <= Ridge(h2, offset)
  {
    var k1, k2 := offset - Abs(h1), offset - Abs(h2);
    if k2 < 0.5 {
      CubeMonotone(k1, k2);
    } else if k1 >= 0.5 {
      CubeMonotone(k1 - 1.0, k2 - 1.0);
      assert (k1 - 1.0) * (2.0 * k1 - 2.0) * (2.0 * k1 - 2.0) == 4.0 * ((k1 - 1.0) * (k1 - 1.0) * (k1 - 1.0));
      assert (k2 - 1.0) * (2.0 * k2 - 2.0) * (2.0 * k2 - 2.0) == 4.0 * ((k2 - 1.0) * (k2 - 1.0) * (k2 - 1.0));
    }
  }

  /** The lower branch 4k^3 on [0, 1/2): within [0, 1/2), and within
      3|k - 1/2| of 1/2. */
  lemma LowerBranchBounds(k: real)
    requires 0.0 <= k < 0.5
    ensures 0.0 <= 4.0 * k * k * k < 0.5
    ensures 0.5 - 4.0 * k * k * k <= 3.0 * (0.5 - k)
  {
    CubeMonotone(0.0, k);
    CubeStrict(k, 0.5);
    var s := (k - 0.5) * (k - 0.5);
    SquareNonNegative(k - 0.5);
    ProductMonotone(k + 1.0, 0.0, s);
    assert (k + 1.0) * s == k * k * k - 0.75 * k + 0.25;
  }

  /** The upper branch (k - 1)(2k - 2)^2 + 1 on [1/2, 1]: within [1/2, 1],
      and within 3|k - 1/2| of 1/2. */
  lemma UpperBranchBounds(k: real)
    requires 0.5 <= k <= 1.0
    ensures var r := (k - 1.0) * (2.0 * k - 2.0) * (2.0 * k - 2.0) + 1.0;
      0.5 <= r <= 1.0 && r - 0.5 <= 3.0 * (k - 0.5)
  {
    var m := k - 1.0;
    assert (k - 1.0) * (2.0 * k - 2.0) * (2.0 * k - 2.0) == 4.0 * (m * m * m);
    CubeMonotone(-0.5, m);
    CubeMonotone(m, 0.0);
    var q := m * m - 0.5 * m + 0.25;
    ProductMonotone(-m, -m, 0.5);
    assert m * m == (-m) * (-m);
    assert q <= 0.75;
    assert m * m * m + 0.125 == (m + 0.5) * q;
    ProductMonotone(m + 0.5, q, 0.75);
    assert m * m * m + 0.125 <= 0.75 * (m + 0.5);
  }

  /** On k in [0, 1] the ridge maps into [0, 1], fixing 0, 1/2 and 1, and
      the two branches meet at k = 1/2: the ridge is within 3|k - 1/2| of
      1/2. */
  lemma RidgeOnUnitInterval(h: real, offset: real)
    requires 0.0 <= offset - Abs(h) <= 1.0
    ensures var k, r := offset - Abs(h), Ridge(h, offset);
      0.0 <= r <= 1.0
      && (k == 0.0 ==> r == 0.0) && (k == 0.5 ==> r == 0.5) && (k == 1.0 ==> r == 1.0)
      && Abs(r - 0.5) <= 3.0 * Abs(k - 0.5)
  {
    var k := offset - Abs(h);
    if k < 0.5 {
      LowerBranchBounds(k);
    } else {
      UpperBranchBounds(k);
    }
  }

  // ---------------------------------------------------------------------
  // ridgedMF
  // ---------------------------------------------------------------------

  /** The number of times `for (int i = 0; i < octaves; i++)` runs with a
      float bound: the ceiling of `octaves` when it is positive, else 0. */
  function OctaveCount(octaves: real): (c: nat)
    ensures octaves <= 0.0 ==> c == 0
    ensures octaves > 0.0 ==> (c - 1) as real < octaves <= c as real
  {
    if octaves <= 0.0 then 0 else -((-octaves).Floor)
  }

  /** The sampling frequency of octave k: `frequency`, multiplied by
      `lacunarity` once per octave. */
  function Freq(cfg: Config, k: nat): real {
    if k == 0 then cfg.frequency else Freq(cfg, k - 1) * cfg.lacunarity
  }

  /** The amplitude of octave k: 1/2, multiplied by `gain` once per octave. */
  function Amp(cfg: Config, k: nat): real {
    if k == 0 then 0.5 else Amp(cfg, k - 1) * cfg.gain
  }

  /** The noise sample at (x, y) scaled by frequency f. */
  function SampleScaled(sample: (real, real) -> real, x: real, y: real, f: real): real {
    sample(x * f, y * f)
  }

  /** The noise sample h_k of octave k at (x, y). */
  function OctaveSample(x: real, y: real, cfg: Config, sample: (real, real) -> real, k: nat): real {
    SampleScaled(sample, x, y, Freq(cfg, k))
  }

  /** The ridge value n_k of octave k at (x, y). */
  function OctaveRidge(x: real, y: real, cfg: Config, sample: (real, real) -> real, k: nat): real {
    Ridge(OctaveSample(x, y, cfg, sample, k), cfg.ridgeOffset)
  }

  /** The weight n_{k-1} octave k is multiplied by, with n_{-1} = 1. */
  function PrevRidge(x: real, y: real, cfg: Config, sample: (real, real) -> real, k: nat): real {
    if k == 0 then 1.0 else OctaveRidge(x, y, cfg, sample, k - 1)
  }

  /** What one octave adds to the sum: its ridge n times its amplitude
      times the previous octave's ridge. */
  function Contribution(n: real, amp: real, prev: real): real {
    n * amp * prev
  }

  /** The sum over the first n octaves of n_k * amp_k * n_{k-1}. */
  function RidgedSum(x: real, y: real, cfg: Config, sample: (real, real) -> real, n: nat): real {
    if n == 0 then 0.0
    else RidgedSum(x, y, cfg, sample, n - 1)
         + Contribution(OctaveRidge(x, y, cfg, sample, n - 1), Amp(cfg, n - 1), PrevRidge(x, y, cfg, sample, n - 1))
  }

  /** One pass of the octave loop moves the running sum, amplitude,
      previous ridge and frequency from octave k to octave k + 1. */
  lemma OctaveStep(x: real, y: real, cfg: Config, sample: (real, real) -> real, k: nat,
                   sum: real, amp: real, prev: real, freq: real)
    requires sum == RidgedSum(x, y, cfg, sample, k)
    requires amp == Amp(cfg, k) && freq == Freq(cfg, k)
    requires prev == PrevRidge(x, y, cfg, sample, k)
    ensures var n := Ridge(SampleScaled(sample, x, y, freq), cfg.ridgeOffset);
      && sum + Contribution(n, amp, prev) == RidgedSum(x, y, cfg, sample, k + 1)
      && n == PrevRidge(x, y, cfg, sample, k + 1)
      && amp * cfg.gain == Amp(cfg, k + 1)
      && freq * cfg.lacunarity == Freq(cfg, k + 1)
  {
  }

  /** `ridgedMF(x, y, noise)`: the octave loop, each octave weighted by the
      previous octave's ridge. It runs once per integer below `octaves`, so
      it returns the ridged sum over the ceiling of `octaves` terms, and 0
      when `octaves` is not positive. */
  method RidgedMF(x: real, y: real, cfg: Config, sample: (real, real) -> real) returns (sum: real)
    ensures sum == RidgedSum(x, y, cfg, sample, OctaveCount(cfg.octaves))
    ensures cfg.octaves <= 0.0 ==> sum == 0.0
  {
    sum := 0.0;
    var amp := 0.5;
    var prev := 1.0;
    var freq := cfg.frequency;
    var i := 0;
    while (i as real) < cfg.octaves
      invariant 0 <= i <= OctaveCount(cfg.octaves)
      invariant sum == RidgedSum(x, y, cfg, sample, i)
      invariant amp == Amp(cfg, i) && freq == Freq(cfg, i)
      invariant prev == PrevRidge(x, y, cfg, sample, i)
    {
      var h := SampleScaled(sample, x, y, freq);
      var n := Ridge(h, cfg.ridgeOffset);
      OctaveStep(x, y, cfg, sample, i, sum, amp, prev, freq);
      sum := sum + Contribution(n, amp, prev);
      prev := n;
      freq := freq * cfg.lacunarity;
      amp := amp * cfg.gain;
      i := i + 1;
    }
  }

  /** The sum of the first n amplitudes. */
  function AmpTotal(cfg: Config, n: nat): real {
    if n == 0 then 0.0 else AmpTotal(cfg, n - 1) + Amp(cfg, n - 1)
  }

  /** The geometric series: (1 - gain) times the first n amplitudes is
      1/2 - amp_n. */
  lemma {:induction false} AmpTotalClosedForm(cfg: Config, n: nat)
    ensures AmpTotal(cfg, n) * (1.0 - cfg.gain) == 0.5 - Amp(cfg, n)
  {
    if n > 0 {
      AmpTotalClosedForm(cfg, n - 1);
    }
  }

  lemma {:induction false} AmpNonNegative(cfg: Config, n: nat)
    requires cfg.gain >= 0.0
    ensures Amp(cfg, n) >= 0.0
  {
    if n > 0 {
      AmpNonNegative(cfg, n - 1);
    }
  }

  /** Scaling a non-negative amount by a factor in [0, 1] keeps it between
      0 and itself. */
  lemma ScaleByUnit(a: real, r: real)
    requires 0.0 <= a && 0.0 <= r <= 1.0
    ensures 0.0 <= a * r <= a && 0.0 <= r * a <= a
  {
    ProductMonotone(a, 0.0, r);
    ProductMonotone(a, r, 1.0);
    assert r * a == a * r;
  }

  /** A contribution whose two ridges lie in [0, 1] and whose amplitude is
      non-negative is between 0 and the amplitude. */
  lemma ContributionBounded(r: real, a: real, p: real)
    requires 0.0 <= r <= 1.0 && 0.0 <= p <= 1.0 && a >= 0.0
    ensures 0.0 <= Contribution(r, a, p) <= a
  {
    ScaleByUnit(a, r);
    var ra := r * a;
    assert r * a * p == ra * p;
    ScaleByUnit(ra, p);
  }

  /** Every sample keeps k = offset - |h| in [0, 1] (noise in [-1, 1] with
      offset 1, say), so that every ridge lies in [0, 1]. */
  ghost predicate RidgesOnUnitInterval(cfg: Config, sample: (real, real) -> real) {
    forall a, b :: 0.0 <= cfg.ridgeOffset - Abs(sample(a, b)) <= 1.0
  }

  /** Every octave's ridge lies in [0, 1] when every sample keeps
      offset - |h| in [0, 1]. */
  lemma OctaveRidgeOnUnitInterval(x: real, y: real, cfg: Config, sample: (real, real) -> real, k: nat)
    requires RidgesOnUnitInterval(cfg, sample)
    ensures 0.0 <= OctaveRidge(x, y, cfg, sample, k) <= 1.0
  {
    RidgeOnUnitInterval(OctaveSample(x, y, cfg, sample, k), cfg.ridgeOffset);
  }

  /** The weight of octave k, the previous octave's ridge or 1, lies in
      [0, 1] as well. */
  lemma PrevRidgeOnUnitInterval(x: real, y: real, cfg: Config, sample: (real, real) -> real, k: nat)
    requires RidgesOnUnitInterval(cfg, sample)
    ensures 0.0 <= PrevRidge(x, y, cfg, sample, k) <= 1.0
  {
    if k > 0 {
      OctaveRidgeOnUnitInterval(x, y, cfg, sample, k - 1);
    }
  }

  /** Octave k adds between 0 and amp_k when every ridge lies in [0, 1]. */
  lemma OctaveTermBounded(x: real, y: real, cfg: Config, sample: (real, real) -> real, k: nat)
    requires cfg.gain >= 0.0
    requires RidgesOnUnitInterval(cfg, sample)
    ensures 0.0 <= Contribution(OctaveRidge(x, y, cfg, sample, k), Amp(cfg, k), PrevRidge(x, y, cfg, sample, k)) <= Amp(cfg, k)
  {
    OctaveRidgeOnUnitInterval(x, y, cfg, sample, k);
    PrevRidgeOnUnitInterval(x, y, cfg, sample, k);
    AmpNonNegative(cfg, k);
    ContributionBounded(OctaveRidge(x, y, cfg, sample, k), Amp(cfg, k), PrevRidge(x, y, cfg, sample, k));
  }

  /** The sum of the amplitudes of any number of octaves stays below
      1/(2(1 - gain)) when 0 <= gain < 1. */
  lemma AmpTotalBounded(cfg: Config, n: nat)
    requires 0.0 <= cfg.gain < 1.0
    ensures AmpTotal(cfg, n) <= 0.5 / (1.0 - cfg.gain)
  {
    AmpTotalClosedForm(cfg, n);
    AmpNonNegative(cfg, n);
    var t, d := AmpTotal(cfg, n), 1.0 - cfg.gain;
    assert t * d <= 0.5;
    assert t == (t * d) / d;
  }

  /** With ridge values in [0, 1] and a non-negative gain, the ridged sum
      lies between 0 and the sum of the amplitudes. */
  lemma {:induction false} RidgedSumBounded(x: real, y: real, cfg: Config, sample: (real, real) -> real, n: nat)
    requires cfg.gain >= 0.0
    requires RidgesOnUnitInterval(cfg, sample)
    ensures 0.0 <= RidgedSum(x, y, cfg, sample, n) <= AmpTotal(cfg, n)
  {
    if n > 0 {
      RidgedSumBounded(x, y, cfg, sample, n - 1);
      OctaveTermBounded(x, y, cfg, sample, n - 1);
    }
  }
}
