/** Second-order filter sections and their Butterworth designs (src/audio/Biquad.h). */
module Biquads {
  import opened RealFacts
  import opened Transducers

  datatype Coefficients = Coefficients(b0: real, b1: real, b2: real, a1: real, a2: real)

  /** A section in transposed form: its coefficients and its two delays. */
  datatype Section = Section(c: Coefficients, z1: real, z2: real)
  {
    function Out(x: real): real {
      c.b0 * x + z1
    }

    function Next(x: real): Section {
      Section(c, c.b1 * x - c.a1 * Out(x) + z2, c.b2 * x - c.a2 * Out(x))
    }
  }

  function Rested(c: Coefficients): Section {
    Section(c, 0.0, 0.0)
  }

  function Filter(s: Section, x: real): (Section, real) {
    (s.Next(x), s.Out(x))
  }

  function FilterRun(s: Section, xs: seq<real>): (res: (Section, seq<real>))
    ensures |res.1| == |xs|
  {
    Run<Section, real, real>(Filter, s, xs)
  }

  /** Sample number i, zero before the start. */
  function At(xs: seq<real>, i: int): real
    requires i < |xs|
  {
    if i < 0 then 0.0 else xs[i]
  }

  lemma FilterNext(s: Section, xs: seq<real>, i: nat)
    requires i < |xs|
    ensures var before := FilterRun(s, xs[..i]);
            FilterRun(s, xs[..i + 1]) == (before.0.Next(xs[i]), before.1 + [before.0.Out(xs[i])])
  {
    RunNext<Section, real, real>(Filter, s, xs, i);
  }

  lemma FilterNothing(s: Section)
    ensures FilterRun(s, []) == (s, [])
  {
  }

  /** One sample x, when the samples before were p in and q out, and y comes out. */
  lemma DelaysMove(s: Section, x: real, p: real, q: real, y: real)
    requires s.z2 == s.c.b2 * p - s.c.a2 * q && y == s.Out(x)
    ensures s.Next(x).c == s.c && s.Next(x).z2 == s.c.b2 * x - s.c.a2 * y
    ensures s.Next(x).z1 == s.c.b1 * x + s.c.b2 * p - s.c.a1 * y - s.c.a2 * q
  {
  }

  /** What the two delays hold, in terms of the signals. */
  lemma {:induction false} DelaysHold(c: Coefficients, xs: seq<real>)
    ensures var run := FilterRun(Rested(c), xs);
            var n, ys := |xs|, run.1;
            && run.0.c == c
            && run.0.z2 == c.b2 * At(xs, n - 1) - c.a2 * At(ys, n - 1)
            && run.0.z1 == c.b1 * At(xs, n - 1) + c.b2 * At(xs, n - 2) - c.a1 * At(ys, n - 1) - c.a2 * At(ys, n - 2)
    decreases |xs|
  {
    hide Section.Out, Section.Next, FilterRun;
    if |xs| == 0 {
      FilterNothing(Rested(c));
    } else {
      var n := |xs| - 1;
      DelaysHold(c, xs[..n]);
      FilterNext(Rested(c), xs, n);
      assert xs[..n + 1] == xs;
      var before := FilterRun(Rested(c), xs[..n]);
      var ys := FilterRun(Rested(c), xs).1;
      assert At(xs, n - 1) == At(xs[..n], n - 1) && At(ys, n - 1) == At(before.1, n - 1);
      DelaysMove(before.0, xs[n], At(xs, n - 1), At(ys, n - 1), ys[n]);
    }
  }

  /** The transposed form computes the textbook difference equation. */
  lemma DifferenceEquation(c: Coefficients, xs: seq<real>, n: nat)
    requires n < |xs|
    ensures var ys := FilterRun(Rested(c), xs).1;
            ys[n] == c.b0 * xs[n] + c.b1 * At(xs, n - 1) +
              c.b2 * At(xs, n - 2) - c.a1 * At(ys, n - 1) - c.a2 * At(ys, n - 2)
  {
    hide Run;
    DelaysHold(c, xs[..n]);
    FilterNext(Rested(c), xs, n);
    RunAppend<Section, real, real>(Filter, Rested(c), xs[..n + 1], xs[n + 1..]);
    assert xs[..n + 1] + xs[n + 1..] == xs;
    var ys, before := FilterRun(Rested(c), xs).1, FilterRun(Rested(c), xs[..n]);
    assert ys[n] == before.0.Out(xs[n]);
    assert At(xs, n - 1) == At(xs[..n], n - 1) && At(xs, n - 2) == At(xs[..n], n - 2);
    assert At(ys, n - 1) == At(before.1, n - 1) && At(ys, n - 2) == At(before.1, n - 2);
  }

  class Biquad {
    var c: Coefficients
    var z1: real
    var z2: real

    ghost function View(): Section
      reads this
    {
      Section(c, z1, z2)
    }

    constructor ()
      ensures View() == Rested(Coefficients(1.0, 0.0, 0.0, 0.0, 0.0))
    {
      c, z1, z2 := Coefficients(1.0, 0.0, 0.0, 0.0, 0.0), 0.0, 0.0;
    }

    method SetCoefficients(coefficients: Coefficients)
      modifies this
      ensures View() == old(View()).(c := coefficients)
    {
      c := coefficients;
    }

    method Reset()
      modifies this
      ensures View() == Rested(old(c))
    {
      z1, z2 := 0.0, 0.0;
    }

    method Process(x: real) returns (y: real)
      modifies this
      ensures (View(), y) == Filter(old(View()), x)
    {
      y := c.b0 * x + z1;
      z1 := c.b1 * x - c.a1 * y + z2;
      z2 := c.b2 * x - c.a2 * y;
      assert y == old(View()).Out(x);
      assert View() == old(View()).Next(x);
    }
  }

  // ---------------------------------------------------------------- Butterworth designs

  const SQRT_TWO: real := 1.41421356237
  const PI: real := 3.14159265359

  /** The prewarped frequency that both designs start from. */
  function Warp(tan: real -> real, fc: real, fs: real): real
    requires fs > 0.0
  {
    tan(2.0 * PI * fc / fs * 0.5)
  }

  lemma DivisorPositive(k: real)
    ensures 1.0 + SQRT_TWO * k + k * k > 0.0
  {
    var h := k + SQRT_TWO / 2.0;
    assert h * h >= 0.0;
    assert h * h == k * k + SQRT_TWO * k + SQRT_TWO * SQRT_TWO / 4.0;
  }

  /** Denominator before normalisation; positive because its discriminant is negative. */
  function Divisor(k: real): (d: real)
    ensures d > 0.0
  {
    DivisorPositive(k);
    1.0 + SQRT_TWO * k + k * k
  }

  function Lowpass(k: real): Coefficients {
    var k2 := k * k;
    var norm := 1.0 / Divisor(k);
    var b0 := k2 * norm;
    Coefficients(b0, 2.0 * b0, b0, 2.0 * (k2 - 1.0) * norm, (1.0 - SQRT_TWO * k + k2) * norm)
  }

  function Highpass(k: real): Coefficients {
    var k2 := k * k;
    var norm := 1.0 / Divisor(k);
    Coefficients(norm, -2.0 * norm, norm, 2.0 * (k2 - 1.0) * norm, (1.0 - SQRT_TWO * k + k2) * norm)
  }

  /** The stability triangle: exactly then both poles lie inside the unit circle. */
  predicate InsideTriangle(c: Coefficients) {
    -1.0 < c.a2 < 1.0 && -(1.0 + c.a2) < c.a1 < 1.0 + c.a2
  }

  function Numerator(c: Coefficients, z: real): real {
    c.b0 + c.b1 * z + c.b2
  }

  function Denominator(c: Coefficients, z: real): real {
    1.0 + c.a1 * z + c.a2
  }

  /** Gain at zero frequency and at half the sample rate. */
  predicate PassesLow(c: Coefficients) {
    && Denominator(c, 1.0) != 0.0 && Numerator(c, 1.0) == Denominator(c, 1.0)
    && Denominator(c, -1.0) != 0.0 && Numerator(c, -1.0) == 0.0
  }

  predicate PassesHigh(c: Coefficients) {
    && Denominator(c, 1.0) != 0.0 && Numerator(c, 1.0) == 0.0
    && Denominator(c, -1.0) != 0.0 && Numerator(c, -1.0) == Denominator(c, -1.0)
  }

  /** The sums that stability and gain are about, with the products named: kn = k norm, kkn = k k norm. */
  lemma PoleSums(c: Coefficients, norm: real, kn: real, kkn: real)
    requires norm > 0.0 && kn > 0.0 && kkn > 0.0 && norm + SQRT_TWO * kn + kkn == 1.0
    requires c.a1 == 2.0 * (kkn - norm) && c.a2 == norm - SQRT_TWO * kn + kkn
    ensures InsideTriangle(c)
    ensures Denominator(c, 1.0) == 4.0 * kkn && Denominator(c, -1.0) == 4.0 * norm
  {
  }

  lemma ProductPositive(p: real, q: real, r: real)
    requires p > 0.0 && q > 0.0 && r == p * q
    ensures r > 0.0
  {
  }

  lemma ProductsOf(k: real, k2: real, norm: real, d: real, kn: real, kkn: real)
    requires k > 0.0 && k2 == k * k && d > 0.0 && d == 1.0 + SQRT_TWO * k + k2 && norm == 1.0 / d
    requires kn == k * norm && kkn == k2 * norm
    ensures norm > 0.0 && kn > 0.0 && kkn > 0.0
    ensures norm + SQRT_TWO * kn + kkn == 1.0
    ensures 2.0 * (k2 - 1.0) * norm == 2.0 * (kkn - norm)
    ensures (1.0 - SQRT_TWO * k + k2) * norm == norm - SQRT_TWO * kn + kkn
  {
    QuotientTimes(1.0, d);
    assert norm * d == 1.0;
    SignOfFactor(norm, d);
    ProductPositive(k, k, k2);
    ProductPositive(k2, norm, kkn);
    ProductPositive(k, norm, kn);
    assert norm * d == norm + SQRT_TWO * kn + kkn;
  }

  /** The coefficients in those terms. */
  lemma Products(k: real) returns (norm: real, kn: real, kkn: real)
    requires k > 0.0
    ensures norm > 0.0 && kn > 0.0 && kkn > 0.0 && norm + SQRT_TWO * kn + kkn == 1.0
    ensures kn == k * norm && kkn == k * k * norm
    ensures Lowpass(k) == Coefficients(kkn, 2.0 * kkn, kkn, 2.0 * (kkn - norm), norm - SQRT_TWO * kn + kkn)
    ensures Highpass(k) == Coefficients(norm, -2.0 * norm, norm, 2.0 * (kkn - norm), norm - SQRT_TWO * kn + kkn)
  {
    var d, k2 := Divisor(k), k * k;
    norm := 1.0 / d;
    kn, kkn := k * norm, k2 * norm;
    ProductsOf(k, k2, norm, d, kn, kkn);
  }

  lemma LowGains(c: Coefficients, norm: real, kkn: real)
    requires c.b0 == c.b2 == kkn && c.b1 == 2.0 * kkn && norm > 0.0 && kkn > 0.0
    requires Denominator(c, 1.0) == 4.0 * kkn && Denominator(c, -1.0) == 4.0 * norm
    ensures PassesLow(c)
  {
  }

  /** Every lowpass design is stable, passes a constant unchanged and blocks the highest frequency. */
  lemma LowpassDesign(k: real)
    requires k > 0.0
    ensures InsideTriangle(Lowpass(k)) && PassesLow(Lowpass(k))
  {
    var norm, kn, kkn := Products(k);
    PoleSums(Lowpass(k), norm, kn, kkn);
    LowGains(Lowpass(k), norm, kkn);
  }

  /** Every highpass design is stable, blocks a constant and passes the highest frequency unchanged. */
  lemma HighpassDesign(k: real)
    requires k > 0.0
    ensures InsideTriangle(Highpass(k)) && PassesHigh(Highpass(k))
  {
    var norm, kn, kkn := Products(k);
    PoleSums(Highpass(k), norm, kn, kkn);
  }

  // ---------------------------------------------------------------- what stability is for

  /** Energy of two successive outputs. */
  function Energy(c: Coefficients, now: real, before: real): real {
    (1.0 + c.a2) * (now * now + before * before) + 2.0 * c.a1 * (now * before)
  }

  /** Without input, the output after the next. */
  function Coming(s: Section): real {
    s.z2 - s.c.a1 * s.z1
  }

  /** Energy of the two outputs that a section would give next without input. */
  function Stored(s: Section): real {
    Energy(s.c, Coming(s), s.z1)
  }

  lemma Regroup(a2: real, w: real, u: real, p: real)
    requires w + a2 * u == -p
    ensures (1.0 + a2) * ((w - u) * (w + u)) + 2.0 * p * (w - u) == -((1.0 - a2) * ((w - u) * (w - u)))
  {
    var d := w - u;
    assert (1.0 + a2) * (d * (w + u)) + 2.0 * p * d == d * ((1.0 + a2) * (w + u) + 2.0 * p);
    assert (1.0 + a2) * (w + u) + 2.0 * p == -(1.0 - a2) * d;
  }

  /** Without input the energy falls by (1 - a2) times the square of the change over two samples. */
  lemma EnergyFalls(c: Coefficients, u: real, v: real, w: real)
    requires w == -(c.a2 * u) - c.a1 * v
    ensures Energy(c, w, v) == Energy(c, v, u) - (1.0 - c.a2) * ((w - u) * (w - u))
  {
    var p := c.a1 * v;
    assert w + c.a2 * u == -p;
    assert 2.0 * c.a1 * (w * v) - 2.0 * c.a1 * (v * u) == 2.0 * p * (w - u);
    assert Energy(c, w, v) - Energy(c, v, u) == (1.0 + c.a2) * (w * w - u * u) + 2.0 * p * (w - u);
    assert w * w - u * u == (w - u) * (w + u);
    Regroup(c.a2, w, u, p);
  }

  /** An output y that is no louder than the energy e allows. */
  predicate NoLouder(c: Coefficients, y: real, e: real) {
    (1.0 + c.a2 - Abs(c.a1)) * (y * y) <= e
  }

  lemma SquareOf(x: real, s: real)
    requires s == x * x
    ensures s >= 0.0
  {
  }

  lemma SquareSums(x: real, y: real)
    ensures x * x >= 0.0 && y * y >= 0.0
    ensures -(x * x + y * y) <= 2.0 * (x * y) <= x * x + y * y
  {
    SquareOf(x - y, x * x + y * y - 2.0 * (x * y));
    SquareOf(x + y, x * x + y * y + 2.0 * (x * y));
  }

  lemma AbsTimes(a: real, p: real, s: real)
    requires -s <= p <= s
    ensures -(Abs(a) * s) <= a * p <= Abs(a) * s
  {
    MulMono(p, s, Abs(a));
    MulMono(-s, p, Abs(a));
  }

  lemma EnergyAtLeast(a: real, b: real, nn: real, bb: real, p: real)
    requires nn >= 0.0 && bb >= 0.0 && -(nn + bb) <= 2.0 * p <= nn + bb && Abs(a) < b
    ensures (b - Abs(a)) * bb <= b * (nn + bb) + 2.0 * a * p
  {
    var s := nn + bb;
    AbsTimes(a, 2.0 * p, s);
    MulMono(bb, s, b - Abs(a));
    assert (b - Abs(a)) * s == b * s - Abs(a) * s;
  }

  /** In the stability triangle the energy bounds the output. */
  lemma EnergyBounds(c: Coefficients, now: real, before: real)
    requires InsideTriangle(c)
    ensures NoLouder(c, before, Energy(c, now, before))
  {
    SquareSums(now, before);
    EnergyAtLeast(c.a1, 1.0 + c.a2, now * now, before * before, now * before);
  }

  lemma EnergyNeverGrows(c: Coefficients, u: real, v: real, w: real)
    requires c.a2 < 1.0 && w == -(c.a2 * u) - c.a1 * v
    ensures Energy(c, w, v) <= Energy(c, v, u)
  {
    EnergyFalls(c, u, v, w);
    hide Energy;
    var e := (w - u) * (w - u);
    SquareOf(w - u, e);
    MulMono(0.0, e, 1.0 - c.a2);
  }

  /** The delays without input. */
  lemma NextSilent(s: Section)
    ensures s.Out(0.0) == s.z1 && s.Next(0.0).c == s.c && s.Next(0.0).z1 == Coming(s) &&
            s.Next(0.0).z2 == -(s.c.a2 * s.z1)
  {
    assert s.Out(0.0) == s.z1;
  }

  lemma NextTwo(s: Section, w: real)
    requires w == -(s.c.a2 * s.z1) - s.c.a1 * Coming(s)
    ensures Stored(s.Next(0.0)) == Energy(s.c, w, Coming(s))
  {
    hide Energy, Section.Next, Section.Out;
    NextSilent(s);
    assert Coming(s.Next(0.0)) == w;
  }

  /** Without input, the stored energy of a stable section never grows. */
  lemma StoredFalls(s: Section)
    requires InsideTriangle(s.c)
    ensures Stored(s.Next(0.0)) <= Stored(s)
  {
    var w := -(s.c.a2 * s.z1) - s.c.a1 * Coming(s);
    hide Energy, Section.Next;
    NextTwo(s, w);
    EnergyNeverGrows(s.c, s.z1, Coming(s), w);
    hide Coming;
  }

  function Silence(n: nat): (xs: seq<real>)
    ensures |xs| == n
  {
    seq(n, i => 0.0)
  }

  lemma NoLouderStill(c: Coefficients, y: real, e: real, f: real)
    requires NoLouder(c, y, e) && e <= f
    ensures NoLouder(c, y, f)
  {
  }

  lemma NextOutput(s: Section, e: real)
    requires InsideTriangle(s.c) && Stored(s) <= e
    ensures s.Next(0.0).c == s.c && NoLouder(s.c, s.Out(0.0), e)
  {
    NextSilent(s);
    EnergyBounds(s.c, Coming(s), s.z1);
    hide Energy, Section.Out, NoLouder, Coming;
    NoLouderStill(s.c, s.z1, Stored(s), e);
  }

  /** A stable section left without input never rings louder than its stored energy allows, however long. */
  lemma {:induction false} RingsWithinItsEnergy(s: Section, n: nat)
    requires InsideTriangle(s.c)
    ensures var run := FilterRun(s, Silence(n));
            && run.0.c == s.c && Stored(run.0) <= Stored(s)
            && forall i :: 0 <= i < n ==> NoLouder(s.c, run.1[i], Stored(s))
    decreases n
  {
    hide Stored, Section.Next, Section.Out, InsideTriangle, NoLouder;
    if n > 0 {
      RingsWithinItsEnergy(s, n - 1);
      assert Silence(n)[..n - 1] == Silence(n - 1) && Silence(n)[..n] == Silence(n);
      FilterNext(s, Silence(n), n - 1);
      var before := FilterRun(s, Silence(n - 1)).0;
      StoredFalls(before);
      NextOutput(before, Stored(s));
    }
  }
}
