/** The tables and fractal sums of Willow/Noise/Noise.cs.

    The gradient-noise function itself (`inoise`, reached through `GetNoise`)
    and `Math.Pow` are not computed here: the fractal sums take them as
    parameters. Arithmetic is over exact reals and integers. */
module Noise {
  import opened Positions

  /** The 16 gradient directions of the 3D noise. */
  const Gradients: seq<Vector3> := [
    Position3(1.0, 1.0, 0.0), Position3(-1.0, 1.0, 0.0), Position3(1.0, -1.0, 0.0), Position3(-1.0, -1.0, 0.0),
    Position3(1.0, 0.0, 1.0), Position3(-1.0, 0.0, 1.0), Position3(1.0, 0.0, -1.0), Position3(-1.0, 0.0, -1.0),
    Position3(0.0, 1.0, 1.0), Position3(0.0, -1.0, 1.0), Position3(0.0, 1.0, -1.0), Position3(0.0, -1.0, -1.0),
    Position3(1.0, 1.0, 0.0), Position3(0.0, -1.0, 1.0), Position3(-1.0, 1.0, 0.0), Position3(0.0, -1.0, -1.0)]

  /** A value of one byte. */
  type Byte = n: int | 0 <= n < 256

  /** Ken Perlin's reference permutation of 0..255. */
  const Permutation: seq<Byte> := [
    151,160,137,91,90,15,
    131,13,201,95,96,53,194,233,7,225,140,36,103,30,69,142,8,99,37,240,21,10,23,
    190,6,148,247,120,234,75,0,26,197,62,94,252,219,203,117,35,11,32,57,177,33,
    88,237,149,56,87,174,20,125,136,171,168,68,175,74,165,71,134,139,48,27,166,
    77,146,158,231,83,111,229,122,60,211,133,230,220,105,92,41,55,46,245,40,244,
    102,143,54,65,25,63,161,1,216,80,73,209,76,132,187,208,89,18,169,200,196,
    135,130,116,188,159,86,164,100,109,198,173,186,3,64,52,217,226,250,124,123,
    5,202,38,147,118,126,255,82,85,212,207,206,59,227,47,16,58,17,182,189,28,42,
    223,183,170,213,119,248,152,2,44,154,163,70,221,153,101,155,167,43,172,9,
    129,22,39,253,19,98,108,110,79,113,224,232,178,185,112,104,218,246,97,228,
    251,34,242,193,238,210,144,12,191,179,162,241,81,51,145,235,249,14,239,107,
    49,192,214,31,181,199,106,157,184,84,204,176,115,121,50,45,127,4,150,254,
    138,236,205,93,222,114,67,29,24,72,243,141,128,195,78,66,215,61,156,180]

  /** A four-component vector (XNA `Vector4`). */
  datatype Vector4 = Vector4(X: real, Y: real, Z: real, W: real)

  /** The entry of the 256 x 256 permutation map built from table `P` for
      column `x` and row `y`: the hashes of the four corners AA, AB, BA and
      BB of the cell. */
  function PermEntry(P: seq<Byte>, x: int, y: int): (r: Vector4)
    requires |P| == 256 && 0 <= x < 256 && 0 <= y < 256
    ensures 0.0 <= r.X < 256.0 && 0.0 <= r.Y < 256.0 && 0.0 <= r.Z < 256.0 && 0.0 <= r.W < 256.0
  {
    var A := P[x % 256] + y;
    var AA := P[A % 256];
    var AB := P[(A + 1) % 256];
    var B := P[(x + 1) % 256] + y;
    var BA := P[B % 256];
    var BB := P[(B + 1) % 256];
    Vector4(AA as real, AB as real, BA as real, BB as real)
  }

  /** C#'s `(int)` conversion of a float: truncation toward zero. */
  function Truncate(r: real): int {
    if r >= 0.0 then r.Floor else -((-r).Floor)
  }

  /** `n & 255`: on two's-complement integers this is `n` modulo 256, taken
      non-negative, which is what Dafny's `%` gives. */
  function LowByte(n: int): (r: int)
    ensures 0 <= r < 256
    ensures 0 <= n < 256 ==> r == n
  {
    n % 256
  }

  /** The row-major index `perm` uses for a point: always inside the map. */
  function PermIndex(p: Vec2): (i: int)
    ensures 0 <= i < 65536
    ensures i % 256 == LowByte(Truncate(p.X)) && i / 256 == LowByte(Truncate(p.Y))
  {
    LowByte(Truncate(p.Y)) * 256 + LowByte(Truncate(p.X))
  }

  /** The quintic fade curve 6t^5 - 15t^4 + 10t^3. */
  function Fade(t: real): real {
    t * t * t * (t * (t * 6.0 - 15.0) + 10.0)
  }

  function FadeVector(t: Vector3): Vector3 {
    Position3(Fade(t.X), Fade(t.Y), Fade(t.Z))
  }

  /** Linear interpolation from `a` (t = 0) to `b` (t = 1). */
  function Lerp(t: real, a: real, b: real): real {
    a + t * (b - a)
  }

  /** The fade curve and the interpolation hit their end points exactly. */
  lemma EndPoints(a: real, b: real)
    ensures Fade(0.0) == 0.0 && Fade(1.0) == 1.0
    ensures Lerp(0.0, a, b) == a && Lerp(1.0, a, b) == b
  {
  }

  /** The tables of the noise class: the two constant tables and the
      gradient and permutation maps its static constructor builds from
      them. */
  class Tables {
    const gradients: seq<Vector3>
    const permutation: seq<Byte>
    var grads: array<Vector3>
    var perms: array<Vector4>

    ghost predicate GradientsBuilt()
      reads this, grads
    {
      && |gradients| == 16 && |permutation| == 256
      && grads.Length == 256
      && forall x :: 0 <= x < 256 ==> grads[x] == gradients[permutation[x] % 16]
    }

    ghost predicate PermutationsBuilt()
      reads this, perms
    {
      && |permutation| == 256
      && perms.Length == 65536
      && forall y, x {:trigger PermEntry(permutation, x, y)} :: 0 <= y < 256 && 0 <= x < 256 ==>
           perms[y * 256 + x] == PermEntry(permutation, x, y)
    }

    constructor ()
      ensures gradients == Gradients && permutation == Permutation
      ensures GradientsBuilt() && PermutationsBuilt()
    {
      gradients := Gradients;
      permutation := Permutation;
      grads := new Vector3[0];
      perms := new Vector4[0];
      new;
      CreateGradientMap();
      CreatePermutationMap();
    }

    /** Entry `x` is the gradient picked by the permutation value at `x`,
        modulo 16. */
    method CreateGradientMap()
      requires |gradients| == 16 && |permutation| == 256
      modifies this
      ensures GradientsBuilt() && fresh(grads)
      ensures perms == old(perms)
    {
      var g := new Vector3[256];
      var i := 0;
      for x := 0 to 256
        modifies g
        invariant i == x
        invariant forall k :: 0 <= k < x ==> g[k] == gradients[permutation[k] % 16]
      {
        var A := permutation[x] % 16;
        g[i] := gradients[A];
        i := i + 1;
      }
      grads := g;
    }

    /** Entry `y * 256 + x` holds the corner hashes for column `x` and row
        `y`, filled row by row. */
    method CreatePermutationMap()
      requires |permutation| == 256
      modifies this
      ensures PermutationsBuilt() && fresh(perms)
      ensures grads == old(grads)
    {
      var p := new Vector4[|permutation| * |permutation|];
      var i := 0;
      for y := 0 to 256
        modifies p
        invariant i == y * 256
        invariant forall yy, xx {:trigger PermEntry(permutation, xx, yy)} :: 0 <= yy < y && 0 <= xx < 256 ==>
          p[yy * 256 + xx] == PermEntry(permutation, xx, yy)
      {
        FillRow(permutation, p, y, i);
        i := i + 256;
      }
      perms := p;
    }

    /** `perm`: the corner hashes for the integer cell of `p`. */
    function Perm(p: Vec2): (r: Vector4)
      requires PermutationsBuilt()
      reads this, perms
      ensures r == PermEntry(permutation, LowByte(Truncate(p.X)), LowByte(Truncate(p.Y)))
    {
      var i := PermIndex(p);
      perms[i]
    }

    /** `grad`: the gradient picked by hash `x`, dotted with `p`. */
    function Grad(x: real, p: Vector3): (r: real)
      requires GradientsBuilt()
      reads this, grads
      ensures r == Dot(gradients[permutation[LowByte(Truncate(x))] % 16], p)
    {
      Dot(grads[LowByte(Truncate(x))], p)
    }
  }

  /** The inner loop of `CreatePermutationMap`: row `y` of the map built
      from `P`, which starts at index `i`. */
  method FillRow(P: seq<Byte>, p: array<Vector4>, y: int, i: int)
    requires |P| == 256 && 0 <= y < 256 && i == y * 256 && p.Length == 65536
    modifies p
    ensures forall xx {:trigger PermEntry(P, xx, y)} :: 0 <= xx < 256 ==> p[y * 256 + xx] == PermEntry(P, xx, y)
    ensures forall k :: 0 <= k < 65536 && !(i <= k < i + 256) ==> p[k] == old(p[k])
  {
    var j := i;
    for x := 0 to 256
      invariant j == i + x
      invariant forall xx {:trigger PermEntry(P, xx, y)} :: 0 <= xx < x ==> p[y * 256 + xx] == PermEntry(P, xx, y)
      invariant forall k :: 0 <= k < 65536 && !(i <= k < i + 256) ==> p[k] == old(p[k])
    {
      p[j] := PermEntry(P, x, y);
      j := j + 1;
    }
  }

  /** How many times `for (int i = 0; i < octaves; i++)` runs: the ceiling
      of `octaves`, and none when it is not positive. */
  function OctaveCount(octaves: real): (n: nat)
    ensures octaves <= 0.0 ==> n == 0
  {
    if octaves <= 0.0 then 0 else -((-octaves).Floor)
  }

  /** The loop test `i < octaves` is `i < OctaveCount(octaves)`. */
  lemma OctaveTest(i: nat, octaves: real)
    ensures (i as real) < octaves <==> i < OctaveCount(octaves)
  {
  }

  /** The state of `fBm` and `Turbulence` after some octaves. */
  datatype Sum = Sum(result: real, amplitude: real, amplitudeSum: real, x: real, y: real, z: real)

  function Abs(r: real): (a: real)
    ensures a >= 0.0 && (a == r || a == -r)
  {
    if r < 0.0 then -r else r
  }

  /** The sample an octave takes at its point: the noise (`GetNoise`), or its
      absolute value (`GetNoiseAbs`) for `Turbulence`. */
  function Sample(noise: (real, real, real) -> real, absolute: bool, s: Sum): real {
    if absolute then Abs(noise(s.x, s.y, s.z)) else noise(s.x, s.y, s.z)
  }

  /** One octave: the amplitude joins the sum and, times the sample, the
      result; the amplitude is scaled by `gain` and the point by
      `lacunarity`. */
  function Octave(s: Sum, sample: real, lacunarity: real, gain: real): Sum {
    Sum(s.result + s.amplitude * sample, s.amplitude * gain, s.amplitudeSum + s.amplitude,
        s.x * lacunarity, s.y * lacunarity, s.z * lacunarity)
  }

  /** The state after `k` octaves from the point (x, y, z). */
  function SumAfter(noise: (real, real, real) -> real, absolute: bool, x: real, y: real, z: real, k: nat,
                    lacunarity: real, gain: real): Sum
  {
    if k == 0 then Sum(0.0, 1.0, 0.0, x, y, z)
    else
      var s := SumAfter(noise, absolute, x, y, z, k - 1, lacunarity, gain);
      Octave(s, Sample(noise, absolute, s), lacunarity, gain)
  }

  /** A double division: a value, or the NaN or infinity of a zero divisor. */
  datatype Quotient = Value(v: real) | DividedByZero

  function Divide(a: real, b: real): (q: Quotient)
    ensures q.DividedByZero? <==> b == 0.0
    ensures q.Value? ==> q.v * b == a
  {
    if b == 0.0 then DividedByZero else Value(a / b)
  }

  /** Fractal Brownian motion: the octave sum divided by the sum of the
      amplitudes. */
  method FBm(noise: (real, real, real) -> real, x0: real, y0: real, z0: real, octaves: real,
             lacunarity: real, gain: real) returns (r: Quotient)
    ensures var s := SumAfter(noise, false, x0, y0, z0, OctaveCount(octaves), lacunarity, gain);
      r == Divide(s.result, s.amplitudeSum)
  {
    var s := Sum(0.0, 1.0, 0.0, x0, y0, z0);
    var i: nat := 0;
    OctaveTest(i, octaves);
    while (i as real) < octaves
      invariant i <= OctaveCount(octaves)
      invariant s == SumAfter(noise, false, x0, y0, z0, i, lacunarity, gain)
      decreases OctaveCount(octaves) - i
    {
      OctaveTest(i, octaves);
      s := Octave(s, noise(s.x, s.y, s.z), lacunarity, gain);
      i := i + 1;
    }
    OctaveTest(i, octaves);
    if s.amplitudeSum == 0.0 {
      r := DividedByZero;
    } else {
      r := Value(s.result / s.amplitudeSum);
    }
  }

  /** `fBm` with lacunarity 2 and gain 0.5. */
  method FBmStandard(noise: (real, real, real) -> real, x: real, y: real, z: real, octaves: real)
    returns (r: Quotient)
    ensures var s := SumAfter(noise, false, x, y, z, OctaveCount(octaves), 2.0, 0.5);
      r == Divide(s.result, s.amplitudeSum)
  {
    r := FBm(noise, x, y, z, octaves, 2.0, 0.5);
  }

  /** `Turbulence`: the same sum over the absolute value of the noise. */
  method Turbulence(noise: (real, real, real) -> real, x0: real, y0: real, z0: real, octaves: real,
                    lacunarity: real, gain: real) returns (r: Quotient)
    ensures var s := SumAfter(noise, true, x0, y0, z0, OctaveCount(octaves), lacunarity, gain);
      r == Divide(s.result, s.amplitudeSum)
  {
    var s := Sum(0.0, 1.0, 0.0, x0, y0, z0);
    var i: nat := 0;
    OctaveTest(i, octaves);
    while (i as real) < octaves
      invariant i <= OctaveCount(octaves)
      invariant s == SumAfter(noise, true, x0, y0, z0, i, lacunarity, gain)
      decreases OctaveCount(octaves) - i
    {
      OctaveTest(i, octaves);
      s := Octave(s, Abs(noise(s.x, s.y, s.z)), lacunarity, gain);
      i := i + 1;
    }
    OctaveTest(i, octaves);
    if s.amplitudeSum == 0.0 {
      r := DividedByZero;
    } else {
      r := Value(s.result / s.amplitudeSum);
    }
  }

  /** With no octave run the amplitude sum is 0 and the final division is
      by zero. */
  lemma NoOctavesDividesByZero(noise: (real, real, real) -> real, absolute: bool, x: real, y: real, z: real,
                               octaves: real, lacunarity: real, gain: real)
    requires octaves <= 0.0
    ensures var s := SumAfter(noise, absolute, x, y, z, OctaveCount(octaves), lacunarity, gain);
      Divide(s.result, s.amplitudeSum) == DividedByZero
  {
  }

  /** `g` to the power `k`. */
  function Power(g: real, k: nat): real {
    if k == 0 then 1.0 else Power(g, k - 1) * g
  }

  /** 1 + g + ... + g^(k-1). */
  function GeometricSum(g: real, k: nat): real {
    if k == 0 then 0.0 else GeometricSum(g, k - 1) + Power(g, k - 1)
  }

  /** After `k` octaves the amplitude is gain^k and the divisor is the sum of
      gain^i over the octaves run. */
  lemma {:induction false} AmplitudesAreGeometric(noise: (real, real, real) -> real, absolute: bool,
                                                  x: real, y: real, z: real, k: nat, lacunarity: real, gain: real)
    ensures var s := SumAfter(noise, absolute, x, y, z, k, lacunarity, gain);
      s.amplitude == Power(gain, k) && s.amplitudeSum == GeometricSum(gain, k)
  {
    if k > 0 {
      AmplitudesAreGeometric(noise, absolute, x, y, z, k - 1, lacunarity, gain);
      var s := SumAfter(noise, absolute, x, y, z, k - 1, lacunarity, gain);
      OctaveAmplitude(s, Sample(noise, absolute, s), lacunarity, gain, k);
    }
  }

  lemma OctaveAmplitude(s: Sum, sample: real, lacunarity: real, gain: real, k: nat)
    requires k > 0 && s.amplitude == Power(gain, k - 1) && s.amplitudeSum == GeometricSum(gain, k - 1)
    ensures var t := Octave(s, sample, lacunarity, gain);
      t.amplitude == Power(gain, k) && t.amplitudeSum == GeometricSum(gain, k)
  {
  }

  /** The bounds every octave keeps, for a sample in [-1, 1] (and in [0, 1]
      when `nonNegative`). */
  ghost predicate Bounded(s: Sum, nonNegative: bool) {
    && s.amplitude > 0.0
    && -s.amplitudeSum <= s.result <= s.amplitudeSum
    && (nonNegative ==> 0.0 <= s.result)
  }

  lemma OctaveBounded(s: Sum, sample: real, lacunarity: real, gain: real, nonNegative: bool)
    requires Bounded(s, nonNegative) && gain > 0.0
    requires -1.0 <= sample <= 1.0 && (nonNegative ==> 0.0 <= sample)
    ensures var t := Octave(s, sample, lacunarity, gain);
      Bounded(t, nonNegative) && t.amplitudeSum > 0.0
  {
    var t := Octave(s, sample, lacunarity, gain);
    PositiveProduct(s.amplitude, gain);
    assert t.amplitude > 0.0;
    ScaledSample(s.amplitude, sample);
    SumStep(s.result, s.amplitudeSum, s.amplitude, s.amplitude * sample, t.result, t.amplitudeSum, nonNegative);
  }

  /** The linear part of an octave's bounds, with the scaled sample `m`
      given as a value. */
  lemma SumStep(result: real, sum: real, a: real, m: real, result': real, sum': real, nonNegative: bool)
    requires -sum <= result <= sum && a > 0.0 && -a <= m <= a
    requires nonNegative ==> 0.0 <= result && 0.0 <= m
    requires result' == result + m && sum' == sum + a
    ensures -sum' <= result' <= sum' && sum' > 0.0
    ensures nonNegative ==> 0.0 <= result'
  {
  }

  /** With a positive gain the amplitudes stay positive and, after at least
      one octave, so does their sum. A noise in [-1, 1] keeps the result
      within plus or minus the amplitude sum, and the absolute samples of
      `Turbulence` keep it non-negative. */
  lemma {:induction false} SumBounds(noise: (real, real, real) -> real, absolute: bool, x: real, y: real, z: real,
                                     k: nat, lacunarity: real, gain: real)
    requires gain > 0.0
    requires forall a, b, c :: -1.0 <= noise(a, b, c) <= 1.0
    ensures var s := SumAfter(noise, absolute, x, y, z, k, lacunarity, gain);
      Bounded(s, absolute) && (k > 0 ==> s.amplitudeSum > 0.0)
  {
    if k > 0 {
      SumBounds(noise, absolute, x, y, z, k - 1, lacunarity, gain);
      var s := SumAfter(noise, absolute, x, y, z, k - 1, lacunarity, gain);
      assert -1.0 <= noise(s.x, s.y, s.z) <= 1.0;
      OctaveBounded(s, Sample(noise, absolute, s), lacunarity, gain, absolute);
    }
  }

  lemma PositiveProduct(a: real, b: real)
    requires a > 0.0 && b > 0.0
    ensures a * b > 0.0
  {
  }

  lemma ScaledSample(a: real, n: real)
    requires a > 0.0 && -1.0 <= n <= 1.0
    ensures -a <= a * n <= a
    ensures 0.0 <= n ==> 0.0 <= a * n
  {
  }

  lemma QuotientWithinUnit(r: real, s: real)
    requires s > 0.0 && -s <= r <= s
    ensures -1.0 <= r / s <= 1.0
    ensures 0.0 <= r ==> 0.0 <= r / s
  {
  }

  /** `fBm` with a positive gain, at least one octave and noise in [-1, 1]
      lies in [-1, 1], as its closing comment says; `Turbulence` under the
      same conditions lies in [0, 1]. */
  lemma FractalSumWithinUnit(noise: (real, real, real) -> real, absolute: bool, x: real, y: real, z: real,
                             octaves: real, lacunarity: real, gain: real)
    requires gain > 0.0 && octaves > 0.0
    requires forall a, b, c :: -1.0 <= noise(a, b, c) <= 1.0
    ensures var s := SumAfter(noise, absolute, x, y, z, OctaveCount(octaves), lacunarity, gain);
      var q := Divide(s.result, s.amplitudeSum);
      q.Value? && -1.0 <= q.v <= 1.0 && (absolute ==> 0.0 <= q.v)
  {
    var s := SumAfter(noise, absolute, x, y, z, OctaveCount(octaves), lacunarity, gain);
    SumBounds(noise, absolute, x, y, z, OctaveCount(octaves), lacunarity, gain);
    QuotientWithinUnit(s.result, s.amplitudeSum);
  }

  /** `Turbulence` adds only absolute samples times positive amplitudes, so
      with a positive gain its sum is non-negative whatever the noise, and
      after at least one octave its divisor is positive. */
  lemma {:induction false} TurbulenceSumNonNegative(noise: (real, real, real) -> real, x: real, y: real, z: real,
                                                    k: nat, lacunarity: real, gain: real)
    requires gain > 0.0
    ensures var s := SumAfter(noise, true, x, y, z, k, lacunarity, gain);
      s.amplitude > 0.0 && 0.0 <= s.result && (k > 0 ==> s.amplitudeSum > 0.0) && 0.0 <= s.amplitudeSum
  {
    if k > 0 {
      TurbulenceSumNonNegative(noise, x, y, z, k - 1, lacunarity, gain);
      var s := SumAfter(noise, true, x, y, z, k - 1, lacunarity, gain);
      PositiveProduct(s.amplitude, gain);
      NonNegativeProduct(s.amplitude, Sample(noise, true, s));
    }
  }

  /** With a positive gain and at least one octave, `Turbulence` returns a
      non-negative value. */
  lemma TurbulenceNonNegative(noise: (real, real, real) -> real, x: real, y: real, z: real,
                              octaves: real, lacunarity: real, gain: real)
    requires gain > 0.0 && octaves > 0.0
    ensures var s := SumAfter(noise, true, x, y, z, OctaveCount(octaves), lacunarity, gain);
      var q := Divide(s.result, s.amplitudeSum);
      q.Value? && 0.0 <= q.v
  {
    var s := SumAfter(noise, true, x, y, z, OctaveCount(octaves), lacunarity, gain);
    OctaveTest(0, octaves);
    TurbulenceSumNonNegative(noise, x, y, z, OctaveCount(octaves), lacunarity, gain);
    assert 0.0 <= s.result / s.amplitudeSum;
  }

  /** The state of the multifractals after some octaves. */
  datatype Fractal = Fractal(result: real, frequency: real, weight: real, x: real, y: real, z: real)

  /** One octave of `RidgedMultiFractal`: fold the sample into a ridge
      (offset minus its absolute value, squared), weight it by the previous
      octave, add it at the spectral weight `frequency^-h`, and take the next
      weight from it times `gain`, clamped to [0, 1]. */
  function RidgedOctave(s: Fractal, sample: real, spectral: real, lacunarity: real, gain: real, offset: real): Fractal
  {
    var ridge := offset - Abs(sample);
    var signal := (ridge * ridge) * s.weight;
    var w := signal * gain;
    Fractal(s.result + spectral * signal, s.frequency * lacunarity,
            if w > 1.0 then 1.0 else if w < 0.0 then 0.0 else w,
            s.x * lacunarity, s.y * lacunarity, s.z * lacunarity)
  }

  function RidgedAfter(noise: (real, real, real) -> real, pow: (real, real) -> real, x: real, y: real, z: real,
                       k: nat, lacunarity: real, gain: real, h: real, offset: real): Fractal
  {
    if k == 0 then Fractal(0.0, 1.0, 1.0, x, y, z)
    else
      var s := RidgedAfter(noise, pow, x, y, z, k - 1, lacunarity, gain, h, offset);
      RidgedOctave(s, noise(s.x, s.y, s.z), pow(s.frequency, -h), lacunarity, gain, offset)
  }

  method RidgedMultiFractal(noise: (real, real, real) -> real, pow: (real, real) -> real,
                            x0: real, y0: real, z0: real, octaves: real,
                            lacunarity: real, gain: real, h: real, offset: real) returns (r: real)
    ensures r == RidgedAfter(noise, pow, x0, y0, z0, OctaveCount(octaves), lacunarity, gain, h, offset).result
  {
    var s := Fractal(0.0, 1.0, 1.0, x0, y0, z0);
    var i: nat := 0;
    OctaveTest(i, octaves);
    while (i as real) < octaves
      invariant i <= OctaveCount(octaves)
      invariant s == RidgedAfter(noise, pow, x0, y0, z0, i, lacunarity, gain, h, offset)
      decreases OctaveCount(octaves) - i
    {
      OctaveTest(i, octaves);
      s := RidgedOctave(s, noise(s.x, s.y, s.z), pow(s.frequency, -h), lacunarity, gain, offset);
      i := i + 1;
    }
    OctaveTest(i, octaves);
    r := s.result;
  }

  /** Every ridged octave clamps the weight, so it stays in [0, 1] whatever
      the noise, the spectral weights and the parameters. */
  lemma {:induction false} RidgedWeightInUnit(noise: (real, real, real) -> real, pow: (real, real) -> real,
                                              x: real, y: real, z: real, k: nat,
                                              lacunarity: real, gain: real, h: real, offset: real)
    ensures var s := RidgedAfter(noise, pow, x, y, z, k, lacunarity, gain, h, offset);
      0.0 <= s.weight <= 1.0
  {
    if k > 0 {
      var s := RidgedAfter(noise, pow, x, y, z, k - 1, lacunarity, gain, h, offset);
      ClampedWeight(s, noise(s.x, s.y, s.z), pow(s.frequency, -h), lacunarity, gain, offset);
    }
  }

  lemma ClampedWeight(s: Fractal, sample: real, spectral: real, lacunarity: real, gain: real, offset: real)
    ensures 0.0 <= RidgedOctave(s, sample, spectral, lacunarity, gain, offset).weight <= 1.0
  {
  }

  /** With a positive lacunarity the frequency stays positive; when `pow` is
      non-negative on positive bases, as `Math.Pow` is, every spectral weight
      is non-negative, every octave adds a non-negative amount, and the
      result never falls below 0. */
  lemma {:induction false} RidgedResultNonNegative(noise: (real, real, real) -> real, pow: (real, real) -> real,
                                                   x: real, y: real, z: real, k: nat,
                                                   lacunarity: real, gain: real, h: real, offset: real)
    requires lacunarity > 0.0
    requires forall a, b :: a > 0.0 ==> pow(a, b) >= 0.0
    ensures var s := RidgedAfter(noise, pow, x, y, z, k, lacunarity, gain, h, offset);
      0.0 < s.frequency && 0.0 <= s.result
  {
    if k > 0 {
      RidgedResultNonNegative(noise, pow, x, y, z, k - 1, lacunarity, gain, h, offset);
      RidgedWeightInUnit(noise, pow, x, y, z, k - 1, lacunarity, gain, h, offset);
      var s := RidgedAfter(noise, pow, x, y, z, k - 1, lacunarity, gain, h, offset);
      PositiveProduct(s.frequency, lacunarity);
      RidgedOctaveBounds(s, noise(s.x, s.y, s.z), pow(s.frequency, -h), lacunarity, gain, offset);
    }
  }

  /** One ridged octave keeps the weight in [0, 1] and the result
      non-negative. */
  lemma RidgedOctaveBounds(s: Fractal, sample: real, spectral: real, lacunarity: real, gain: real, offset: real)
    requires spectral >= 0.0
    requires 0.0 <= s.weight <= 1.0 && 0.0 <= s.result
    ensures var t := RidgedOctave(s, sample, spectral, lacunarity, gain, offset);
      0.0 <= t.weight <= 1.0 && 0.0 <= t.result
  {
    var ridge := offset - Abs(sample);
    NonNegativeProduct(ridge, ridge);
    NonNegativeProduct(ridge * ridge, s.weight);
    NonNegativeProduct(spectral, (ridge * ridge) * s.weight);
  }

  lemma NonNegativeProduct(a: real, b: real)
    requires (a >= 0.0 && b >= 0.0) || a == b
    ensures a * b >= 0.0
  {
  }

  /** One octave of `HybridMultiFractal`: the offset sample at the spectral
      weight, added at the current weight, which it then multiplies, capped
      at 1. */
  function HybridOctave(s: Fractal, sample: real, spectral: real, lacunarity: real, offset: real): Fractal
  {
    var signal := spectral * (sample + offset);
    var w := s.weight * signal;
    Fractal(s.result + s.weight * signal, s.frequency * lacunarity, if w > 1.0 then 1.0 else w,
            s.x * lacunarity, s.y * lacunarity, s.z * lacunarity)
  }

  function HybridAfter(noise: (real, real, real) -> real, pow: (real, real) -> real, x: real, y: real, z: real,
                       k: nat, lacunarity: real, h: real, offset: real): Fractal
  {
    if k == 0 then Fractal(0.0, 1.0, 1.0, x, y, z)
    else
      var s := HybridAfter(noise, pow, x, y, z, k - 1, lacunarity, h, offset);
      HybridOctave(s, noise(s.x, s.y, s.z), pow(s.frequency, -h), lacunarity, offset)
  }

  method HybridMultiFractal(noise: (real, real, real) -> real, pow: (real, real) -> real,
                            x0: real, y0: real, z0: real, octaves: real,
                            lacunarity: real, h: real, offset: real) returns (r: real)
    ensures r == HybridAfter(noise, pow, x0, y0, z0, OctaveCount(octaves), lacunarity, h, offset).result
  {
    var s := Fractal(0.0, 1.0, 1.0, x0, y0, z0);
    var i: nat := 0;
    OctaveTest(i, octaves);
    while (i as real) < octaves
      invariant i <= OctaveCount(octaves)
      invariant s == HybridAfter(noise, pow, x0, y0, z0, i, lacunarity, h, offset)
      decreases OctaveCount(octaves) - i
    {
      OctaveTest(i, octaves);
      s := HybridOctave(s, noise(s.x, s.y, s.z), pow(s.frequency, -h), lacunarity, offset);
      i := i + 1;
    }
    OctaveTest(i, octaves);
    r := s.result;
  }

  /** The hybrid weight starts at 1 and is only capped from above, so it
      never exceeds 1 (and may go negative). */
  lemma HybridWeightAtMostOne(noise: (real, real, real) -> real, pow: (real, real) -> real,
                              x: real, y: real, z: real, k: nat, lacunarity: real, h: real, offset: real)
    ensures HybridAfter(noise, pow, x, y, z, k, lacunarity, h, offset).weight <= 1.0
  {
  }
}
