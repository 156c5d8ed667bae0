/** What the features of a window mean. */
module FeatureTheorems {
  import opened Options
  import opened RealFacts
  import opened Floats
  import opened Filterbanks
  import opened FeatureExtractors

  // ---------------------------------------------------------------- ranges

  /** Band centers in order, above zero. */
  predicate Ascending(c: seq<real>) {
    |c| == 4 && 0.0 < c[0] <= c[1] <= c[2] <= c[3]
  }

  predicate NotNegative(xs: seq<real>) {
    forall i :: 0 <= i < |xs| ==> 0.0 <= xs[i]
  }

  predicate TallySane(t: Tally, count: nat) {
    && 0.0 <= t.square && |t.bands| == 4 && NotNegative(t.bands)
    && t.crossings + 1 <= (if count == 0 then 1 else count)
  }

  /** Sums of squares, as many crossings as there can be, and a spectrum whose mean lies between the centers. */
  predicate Sane(s: Sums, centers: seq<real>)
    requires Ascending(centers)
  {
    && TallySane(s.left, s.count) && TallySane(s.right, s.count)
    && 0.0 <= s.spectral && centers[0] * s.spectral <= s.weighted <= centers[3] * s.spectral
  }

  lemma NothingSane(centers: seq<real>)
    requires Ascending(centers)
    ensures Sane(NoSums(), centers)
  {
  }

  lemma SquareNotNegative(x: real)
    ensures Square(x) >= 0.0
  {
  }

  lemma AddSane(t: Tally, count: nat, x: real, bands: seq<real>)
    requires TallySane(t, count) && |bands| == 4
    ensures TallySane(Add(t, count == 0, x, bands), count + 1)
  {
    hide Square, Crosses;
    assert x * x >= 0.0;
    forall b | 0 <= b < 4 ensures AddSquares(t.bands, bands)[b] >= 0.0 {
      SquareNotNegative(bands[b]);
    }
  }

  lemma EnergyNotNegative(l: real, r: real)
    ensures (l * l + r * r) * 0.5 >= 0.0
  {
    assert l * l >= 0.0 && r * r >= 0.0;
  }

  lemma EnergiesNotNegative(left: seq<real>, right: seq<real>)
    requires |left| == |right| == 4
    ensures NotNegative(Energies(left, right))
  {
    forall b | 0 <= b < 4 ensures Energies(left, right)[b] >= 0.0 {
      EnergyNotNegative(left[b], right[b]);
    }
  }

  lemma TwoParts(k: real, s: real, e: real)
    ensures k * (s + e) == k * s + k * e
  {
  }

  lemma StaysBetween(lo: real, hi: real, c: real, e: real, s: real, d: real, ce: real)
    requires lo <= c <= hi && 0.0 <= e && lo * s <= d <= hi * s && ce == c * e
    ensures lo * (s + e) <= d + ce <= hi * (s + e)
  {
    MulMono(lo, c, e);
    MulMono(c, hi, e);
    TwoParts(lo, s, e);
    TwoParts(hi, s, e);
  }

  /** A sum weighted with numbers between lo and hi lies between lo and hi times the plain sum. */
  lemma {:induction false} DotBetween(cs: seq<real>, es: seq<real>, n: nat, lo: real, hi: real)
    requires n <= |cs| == |es| && NotNegative(es) && forall i :: 0 <= i < n ==> lo <= cs[i] <= hi
    ensures 0.0 <= Sum(es, n) && lo * Sum(es, n) <= Dot(cs, es, n) <= hi * Sum(es, n)
    decreases n
  {
    if n > 0 {
      DotBetween(cs, es, n - 1, lo, hi);
      StaysBetween(lo, hi, cs[n - 1], es[n - 1], Sum(es, n - 1), Dot(cs, es, n - 1), cs[n - 1] * es[n - 1]);
    }
  }

  lemma SpectrumAdds(lo: real, hi: real, s: real, w: real, ds: real, dw: real)
    requires lo * s <= w <= hi * s && lo * ds <= dw <= hi * ds
    ensures lo * (s + ds) <= w + dw <= hi * (s + ds)
  {
  }

  lemma FrameSane(s: Sums, centers: seq<real>, f: Frame, left: seq<real>, right: seq<real>)
    requires Ascending(centers) && Sane(s, centers) && |left| == |right| == 4
    ensures Sane(AddFrame(s, centers, f, left, right), centers)
  {
    hide Add, Energies, TallySane, Sum, Dot;
    AddSane(s.left, s.count, f.Left(), left);
    AddSane(s.right, s.count, f.Right(), right);
    var e := Energies(left, right);
    EnergiesNotNegative(left, right);
    DotBetween(centers, e, 4, centers[0], centers[3]);
    SpectrumAdds(centers[0], centers[3], s.spectral, s.weighted, Sum(e, 4), Dot(centers, e, 4));
  }

  /** The extractor after any frames: the centers it was started with, and sane sums. */
  predicate ExtractorSane(e: Extractor, centers: seq<real>)
    requires Ascending(centers)
  {
    Centers(e.bank.design, e.rate) == centers && Sane(e.sums, centers)
  }

  lemma CentersAscend(rate: real, d: Design)
    requires rate > 0.0 && d == Designed(Finite(rate), LOW, MID, HIGH)
    ensures Ascending(Centers(d, rate))
  {
    CrossoversInOrder(Finite(rate), LOW, MID, HIGH);
    hide Clamp;
  }

  lemma WindowSane(sqrt: real -> real, e: SoundExtractor, f: Frame, centers: seq<real>)
    requires Ascending(centers) && ExtractorSane(e, centers)
    ensures ExtractorSane(Window(sqrt, e, f).0, centers)
    ensures ExtractorSane(TakeFrame(e, f), centers)
  {
    NothingSane(centers);
    hide Measure, Filtered, AddFrame, Sane, Centers;
    var b := Filtered(e.bank, f);
    FrameSane(e.sums, centers, f, b.1, b.2);
  }

  // ---------------------------------------------------------------- features

  lemma {:induction false} SumNotNegative(xs: seq<real>, n: nat)
    requires NotNegative(xs) && n <= |xs|
    ensures 0.0 <= Sum(xs, n)
  {
    if n > 0 { SumNotNegative(xs, n - 1); }
  }

  /** Energy of the bands up to band b. */
  function UpTo(energy: seq<real>, b: nat): real
    requires b < |energy|
  {
    Sum(energy, b + 1)
  }

  /** The rolloff is the center of the first band at which the energies up to there reach 85 % of the total. */
  predicate IsRolloff(r: real, energy: seq<real>, centers: seq<real>)
    requires |energy| == |centers| == 4
  {
    exists b :: 0 <= b < 4 && r == centers[b] && UpTo(energy, b) >= 0.85 * UpTo(energy, 3)
                && forall c :: 0 <= c < b ==> UpTo(energy, c) < 0.85 * UpTo(energy, 3)
  }

  lemma {:induction false} RolloffFound(energy: seq<real>, centers: seq<real>, b: nat)
    requires |energy| == 4 && Ascending(centers) && b < 4 && UpTo(energy, 3) > 0.0
    requires forall c :: 0 <= c < b ==> UpTo(energy, c) < 0.85 * UpTo(energy, 3)
    ensures Rolloff(energy, centers, UpTo(energy, 3), b) > 0.0
    ensures IsRolloff(Rolloff(energy, centers, UpTo(energy, 3), b), energy, centers)
    decreases 4 - b
  {
    assert 0.85 * UpTo(energy, 3) <= UpTo(energy, 3);
    assert UpTo(energy, b) == Sum(energy, b + 1);
    hide Sum, UpTo;
    if UpTo(energy, b) < 0.85 * UpTo(energy, 3) {
      RolloffFound(energy, centers, b + 1);
    }
  }

  lemma CentroidBetween(lo: real, hi: real, s: real, w: real)
    requires s > 0.0 && lo * s <= w <= hi * s
    ensures lo <= w / s <= hi
  {
    var q := w / s;
    QuotientTimes(w, s);
    SignOfFactor(q - lo, s);
    SignOfFactor(hi - q, s);
  }

  lemma ShareOfFrames(crossings: nat, count: nat)
    requires count > 0 && crossings < count
    ensures 0.0 <= PerFrame(crossings as real, count as real) < 1.0
  {
    var q := PerFrame(crossings as real, count as real);
    QuotientTimes(crossings as real, count as real);
    SignOfFactor(q, count as real);
    SignOfFactor(1.0 - q, count as real);
  }

  lemma MeanNotNegative(xs: seq<real>, n: real)
    requires |xs| == 4 && NotNegative(xs) && n > 0.0
    ensures NotNegative(Mean(xs, n))
  {
    forall b | 0 <= b < 4 ensures Mean(xs, n)[b] >= 0.0 {
      QuotientTimes(xs[b], n);
      SignOfFactor(xs[b] / n, n);
    }
  }

  /** In range: the crossing rate is below one, no band has negative energy, the centroid of a window that is not
      practically silent lies between the lowest and the highest band center, and the rolloff of one with any
      band energy is where 85 % of it is reached. */
  predicate InRange(f: Features, centers: seq<real>)
    requires Ascending(centers)
  {
    && 0.0 <= f.zcr < 1.0 && |f.bandEnergy| == 4 && NotNegative(f.bandEnergy)
    && (f.centroid == 0.0 || centers[0] <= f.centroid <= centers[3])
    && if UpTo(f.bandEnergy, 3) == 0.0 then f.rolloff == 0.0 else IsRolloff(f.rolloff, f.bandEnergy, centers)
  }

  lemma RolloffInRange(energy: seq<real>, centers: seq<real>)
    requires |energy| == 4 && NotNegative(energy) && Ascending(centers)
    ensures if UpTo(energy, 3) == 0.0 then RolloffOf(energy, centers) == 0.0
            else IsRolloff(RolloffOf(energy, centers), energy, centers)
  {
    SumNotNegative(energy, 4);
    hide Sum, Rolloff, IsRolloff;
    if UpTo(energy, 3) > 0.0 {
      RolloffFound(energy, centers, 0);
    }
  }

  lemma MeasureInRange(sqrt: real -> real, centers: seq<real>, channels: nat, s: Sums)
    requires Ascending(centers) && Sane(s, centers) && s.count > 0 && 1 <= channels <= 2
    ensures InRange(Measure(sqrt, centers, channels, s), centers)
  {
    var n := s.count as real;
    MeanNotNegative(s.left.bands, n);
    MeanNotNegative(s.right.bands, n);
    ShareOfFrames(s.left.crossings, s.count);
    ShareOfFrames(s.right.crossings, s.count);
    if s.spectral > 0.0 { CentroidBetween(centers[0], centers[3], s.spectral, s.weighted); }
    var bands := (Mean(s.left.bands, n), if channels >= 2 then Mean(s.right.bands, n) else NoBands());
    var energy := if channels == 1 then bands.0 else Halved(bands.0, bands.1);
    RolloffInRange(energy, centers);
    hide Rms, PerFrame, Mean, RolloffOf, UpTo, IsRolloff, Ascending;
  }

  predicate OutInRange(out: Option<Features>, centers: seq<real>)
    requires Ascending(centers)
  {
    out.Some? ==> InRange(out.value, centers)
  }

  lemma WindowInRange(sqrt: real -> real, e: SoundExtractor, f: Frame, centers: seq<real>)
    requires Ascending(centers) && ExtractorSane(e, centers)
    ensures ExtractorSane(Window(sqrt, e, f).0, centers) && OutInRange(Window(sqrt, e, f).1, centers)
  {
    WindowSane(sqrt, e, f, centers);
    var t := TakeFrame(e, f);
    assert t.channels == ChannelsOf(f);
    hide TakeFrame, Measure, InRange, Sane, Centers;
    MeasureInRange(sqrt, centers, t.channels, t.sums);
  }

  /** Every window of every run is measured in range, whatever the audio and the sample rate. */
  lemma {:induction false} AlwaysInRange(tan: real -> real, sqrt: real -> real, rate: real, channels: nat,
                                         fs: seq<Frame>)
    requires rate > 0.0
    ensures var centers := Centers(Designed(Finite(rate), LOW, MID, HIGH), rate);
            && Ascending(centers)
            && var run := Windows(sqrt, NewExtractor(tan, rate, channels), fs);
               ExtractorSane(run.0, centers) && forall i :: 0 <= i < |fs| ==> OutInRange(run.1[i], centers)
    decreases |fs|
  {
    hide Window, Designed, Centers, OutInRange, Sane, Ascending;
    var d := Designed(Finite(rate), LOW, MID, HIGH);
    CentersAscend(rate, d);
    if |fs| == 0 {
      NothingSane(Centers(d, rate));
    } else {
      var n := |fs| - 1;
      AlwaysInRange(tan, sqrt, rate, channels, fs[..n]);
      var e := NewExtractor(tan, rate, channels);
      WindowsNext(sqrt, e, fs, n);
      assert fs[..n + 1] == fs;
      WindowInRange(sqrt, Windows(sqrt, e, fs[..n]).0, fs[n], Centers(d, rate));
    }
  }

  // ---------------------------------------------------------------- mono is stereo with equal channels

  function Doubled(f: Frame): Frame {
    Stereo(f.Left(), f.Left())
  }

  function AllDoubled(fs: seq<Frame>): (ds: seq<Frame>)
    ensures |ds| == |fs| && forall i :: 0 <= i < |fs| ==> ds[i] == Doubled(fs[i])
  {
    seq(|fs|, i requires 0 <= i < |fs| => Doubled(fs[i]))
  }

  /** A mono extractor and a stereo one that hears the same on both channels. */
  predicate Twins(m: Extractor, s: Extractor) {
    && m.rate == s.rate && m.bank.design == s.bank.design
    && m.bank.left == s.bank.left == s.bank.right && m.sums == s.sums && m.sums.left == m.sums.right
  }

  lemma TwinsStep(m: Extractor, s: Extractor, f: Frame)
    requires m.sums.Valid() && s.sums.Valid() && Twins(m, s) && f.Mono?
    ensures Twins(TakeFrame(m, f), TakeFrame(s, Doubled(f)))
  {
    hide Split, Add, Energies, Sum, Dot, Centers;
  }

  lemma HalvedSame(xs: seq<real>)
    requires |xs| == 4
    ensures Halved(xs, xs) == xs
  {
    assert Halved(xs, xs) == [xs[0], xs[1], xs[2], xs[3]] == xs;
  }

  lemma RmsOfBoth(sqrt: real -> real, square: real, n: real)
    requires n > 0.0
    ensures Rms(sqrt, square + square, 2.0 * n) == Rms(sqrt, square, n)
  {
    QuotientTimes(square, n);
    QuotientUnique(square / n, 2.0 * n, square + square);
  }

  /** What the classifier looks at is the same in both. */
  predicate SameOverall(f: Features, g: Features) {
    f.rms == g.rms && f.zcr == g.zcr && f.bandEnergy == g.bandEnergy && f.centroid == g.centroid &&
      f.rolloff == g.rolloff
  }

  lemma MeasureTwins(sqrt: real -> real, centers: seq<real>, s: Sums)
    requires s.Valid() && s.count > 0 && |centers| == 4 && s.left == s.right
    ensures SameOverall(Measure(sqrt, centers, 1, s), Measure(sqrt, centers, 2, s))
  {
    var n := s.count as real;
    RmsOfBoth(sqrt, s.left.square, n);
    HalvedSame(Mean(s.left.bands, n));
    hide Rms, Mean, RolloffOf, Halved;
  }

  predicate SameOut(x: Option<Features>, y: Option<Features>) {
    if x.Some? && y.Some? then SameOverall(x.value, y.value) else x.None? && y.None?
  }

  lemma WindowTwins(sqrt: real -> real, m: SoundExtractor, s: SoundExtractor, f: Frame)
    requires Twins(m, s) && f.Mono?
    ensures Twins(Window(sqrt, m, f).0, Window(sqrt, s, Doubled(f)).0)
    ensures SameOut(Window(sqrt, m, f).1, Window(sqrt, s, Doubled(f)).1)
  {
    TwinsStep(m, s, f);
    var a, b := TakeFrame(m, f), TakeFrame(s, Doubled(f));
    assert a.channels == 1 && b.channels == 2;
    hide TakeFrame, Measure, SameOverall;
    MeasureTwins(sqrt, Centers(a.bank.design, a.rate), a.sums);
  }

  /** A mono stream and the stereo stream with that signal on both channels give the same windows, as far as
      loudness, crossings, band energies, centroid and rolloff go. */
  lemma {:induction false} MonoIsStereo(sqrt: real -> real, m: SoundExtractor, s: SoundExtractor, fs: seq<Frame>)
    requires Twins(m, s) && forall i :: 0 <= i < |fs| ==> fs[i].Mono?
    ensures var mono := Windows(sqrt, m, fs);
            var stereo := Windows(sqrt, s, AllDoubled(fs));
            Twins(mono.0, stereo.0) && forall i :: 0 <= i < |fs| ==> SameOut(mono.1[i], stereo.1[i])
    decreases |fs|
  {
    hide Window, Twins, SameOut;
    if |fs| > 0 {
      var n := |fs| - 1;
      var ds := AllDoubled(fs);
      assert ds[..n] == AllDoubled(fs[..n]) && fs[..n + 1] == fs && ds[..n + 1] == ds;
      MonoIsStereo(sqrt, m, s, fs[..n]);
      WindowsNext(sqrt, m, fs, n);
      WindowsNext(sqrt, s, ds, n);
      WindowTwins(sqrt, Windows(sqrt, m, fs[..n]).0, Windows(sqrt, s, ds[..n]).0, fs[n]);
    }
  }
}
