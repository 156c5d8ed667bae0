/** Features of a window of audio: running sums over the filter bands, frame by frame
    (src/audio/FeatureExtractor.h, src/audio/FeatureExtractor.cpp). The square root is a parameter. */
module FeatureExtractors {
  import opened Options
  import opened RealFacts
  import opened Interleaving
  import opened Floats
  import opened Transducers
  import opened Filterbanks

  const WINDOW: nat := 1024

  datatype Frame = Mono(sample: real) | Stereo(left: real, right: real)
  {
    function Left(): real {
      if Mono? then sample else left
    }

    function Right(): real {
      if Mono? then sample else right
    }
  }

  datatype Features = Features(
    rms: real, zcr: real, bandEnergy: seq<real>, centroid: real, rolloff: real,
    rmsCh: (real, real), zcrCh: (real, real), bandEnergyCh: (seq<real>, seq<real>))

  function NoBands(): (b: seq<real>)
    ensures |b| == 4
  {
    [0.0, 0.0, 0.0, 0.0]
  }

  function NoFeatures(): Features {
    Features(0.0, 0.0, NoBands(), 0.0, 0.0, (0.0, 0.0), (0.0, 0.0), (NoBands(), NoBands()))
  }

  // ---------------------------------------------------------------- one channel

  /** The sums of one channel over the frames of a window so far. */
  datatype Tally = Tally(square: real, crossings: nat, previous: real, bands: seq<real>)

  function NoTally(): Tally {
    Tally(0.0, 0, 0.0, NoBands())
  }

  /** Positive and not positive are the two sides of zero. */
  predicate Crosses(a: real, b: real) {
    (a > 0.0) != (b > 0.0)
  }

  function Square(x: real): real {
    x * x
  }

  function AddSquares(sums: seq<real>, xs: seq<real>): (r: seq<real>)
    requires |sums| == |xs| == 4
    ensures |r| == 4
  {
    seq(4, b requires 0 <= b < 4 => sums[b] + Square(xs[b]))
  }

  /** One more sample x with its bands; `first` says that it opens the window. */
  function Add(t: Tally, first: bool, x: real, bands: seq<real>): (u: Tally)
    requires |t.bands| == |bands| == 4
    ensures |u.bands| == 4
  {
    Tally(t.square + x * x,
          if !first && Crosses(t.previous, x) then t.crossings + 1 else t.crossings,
          x, AddSquares(t.bands, bands))
  }

  // ---------------------------------------------------------------- both channels

  datatype Sums = Sums(count: nat, left: Tally, right: Tally, spectral: real, weighted: real)
  {
    predicate Valid() {
      |left.bands| == 4 && |right.bands| == 4
    }
  }

  function NoSums(): (s: Sums)
    ensures s.Valid()
  {
    Sums(0, NoTally(), NoTally(), 0.0, 0.0)
  }

  /** The middle of each band. */
  function Centers(d: Design, rate: real): (c: seq<real>)
    ensures |c| == 4
  {
    [d.fc1 * 0.5, (d.fc1 + d.fc2) * 0.5, (d.fc2 + d.fc3) * 0.5, (d.fc3 + rate * 0.5) * 0.5]
  }

  /** Energy per band, averaged over the channels. */
  function Energies(left: seq<real>, right: seq<real>): (e: seq<real>)
    requires |left| == |right| == 4
    ensures |e| == 4
  {
    seq(4, b requires 0 <= b < 4 => (left[b] * left[b] + right[b] * right[b]) * 0.5)
  }

  function AddFrame(s: Sums, centers: seq<real>, f: Frame, left: seq<real>, right: seq<real>): (t: Sums)
    requires s.Valid() && |left| == |right| == |centers| == 4
    ensures t.Valid() && t.count == s.count + 1
  {
    var e := Energies(left, right);
    Sums(s.count + 1,
         Add(s.left, s.count == 0, f.Left(), left),
         Add(s.right, s.count == 0, f.Right(), right),
         s.spectral + Sum(e, 4), s.weighted + Dot(centers, e, 4))
  }

  // ---------------------------------------------------------------- the extractor

  datatype Extractor = Extractor(rate: real, bank: Bank, channels: nat, sums: Sums)
  {
    predicate Valid() {
      sums.Valid() && sums.count < WINDOW
    }
  }

  function NewExtractor(tan: real -> real, rate: real, channels: nat): (e: Extractor)
    ensures e.Valid() && e.sums == NoSums()
  {
    Extractor(rate, NewBank(tan, Finite(rate)), channels, NoSums())
  }

  /** The filters see the frame: a mono frame passes the left filters only, and counts for both channels. */
  function Filtered(b: Bank, f: Frame): (res: (Bank, seq<real>, seq<real>))
    ensures |res.1| == |res.2| == 4 && res.0.design == b.design
  {
    var l := Split(b.left, f.Left());
    if f.Mono? then (b.(left := l.0), l.1, l.1)
    else
      var r := Split(b.right, f.Right());
      (b.(left := l.0, right := r.0), l.1, r.1)
  }

  function ChannelsOf(f: Frame): nat {
    if f.Mono? then 1 else 2
  }

  function TakeFrame(e: Extractor, f: Frame): (r: Extractor)
    requires e.sums.Valid()
    ensures r.sums.Valid() && r.sums.count == e.sums.count + 1
  {
    var b := Filtered(e.bank, f);
    Extractor(e.rate, b.0, ChannelsOf(f), AddFrame(e.sums, Centers(e.bank.design, e.rate), f, b.1, b.2))
  }

  // ---------------------------------------------------------------- features of a window

  /** The middle of the first band, from band b on, at which the running energy reaches 85 % of the total. */
  function Rolloff(energy: seq<real>, centers: seq<real>, total: real, b: nat): real
    requires |energy| == |centers| == 4 && b <= 4
    decreases 4 - b
  {
    if b == 4 then 0.0
    else if Sum(energy, b + 1) >= 0.85 * total then centers[b]
    else Rolloff(energy, centers, total, b + 1)
  }

  function RolloffOf(energy: seq<real>, centers: seq<real>): real
    requires |energy| == |centers| == 4
  {
    var total := Sum(energy, 4);
    if total == 0.0 then 0.0
    else if Rolloff(energy, centers, total, 0) == 0.0 then centers[3]
    else Rolloff(energy, centers, total, 0)
  }

  function Halved(x: seq<real>, y: seq<real>): (r: seq<real>)
    requires |x| == |y| == 4
    ensures |r| == 4
  {
    [(x[0] + y[0]) * 0.5, (x[1] + y[1]) * 0.5, (x[2] + y[2]) * 0.5, (x[3] + y[3]) * 0.5]
  }

  function Mean(xs: seq<real>, n: real): (r: seq<real>)
    requires |xs| == 4 && n != 0.0
    ensures |r| == 4
  {
    [xs[0] / n, xs[1] / n, xs[2] / n, xs[3] / n]
  }

  /** Root of the mean square. */
  function Rms(sqrt: real -> real, square: real, n: real): real
    requires n != 0.0
  {
    sqrt(square / n)
  }

  function PerFrame(x: real, n: real): real
    requires n != 0.0
  {
    x / n
  }

  function Midpoint(x: real, y: real): real {
    (x + y) * 0.5
  }

  /** Energy-weighted mean of the band centers, zero for a window that is practically silent. */
  function Centroid(weighted: real, spectral: real): real {
    if spectral > 0.0000000001 then weighted / spectral else 0.0
  }

  function Measure(sqrt: real -> real, centers: seq<real>, channels: nat, s: Sums): (f: Features)
    requires s.Valid() && s.count > 0 && |centers| == 4
    ensures |f.bandEnergy| == 4
  {
    var n := s.count as real;
    var rms := (Rms(sqrt, s.left.square, n), if channels >= 2 then Rms(sqrt, s.right.square, n) else 0.0);
    var zcr := (PerFrame(s.left.crossings as real, n),
                if channels >= 2 then PerFrame(s.right.crossings as real, n) else 0.0);
    var bands := (Mean(s.left.bands, n), if channels >= 2 then Mean(s.right.bands, n) else NoBands());
    var energy := if channels == 1 then bands.0 else Halved(bands.0, bands.1);
    Features(if channels == 1 then rms.0 else Rms(sqrt, s.left.square + s.right.square, 2.0 * n),
             if channels == 1 then zcr.0 else Midpoint(zcr.0, zcr.1),
             energy, Centroid(s.weighted, s.spectral), RolloffOf(energy, centers), rms, zcr, bands)
  }

  /** One frame: a window that is full is measured and its sums start again; the filters go on. */
  function Window(sqrt: real -> real, e: Extractor, f: Frame): (res: (Extractor, Option<Features>))
    requires e.Valid()
    ensures res.0.Valid()
    ensures res.1.Some? <==> e.sums.count == WINDOW - 1
    ensures res.0.sums.count == (if e.sums.count == WINDOW - 1 then 0 else e.sums.count + 1)
  {
    var t := TakeFrame(e, f);
    if t.sums.count < WINDOW then (t, None)
    else (t.(sums := NoSums()), Some(Measure(sqrt, Centers(t.bank.design, t.rate), t.channels, t.sums)))
  }

  type SoundExtractor = e: Extractor | e.Valid() witness NewExtractor(x => x, 48000.0, 1)

  function WindowStep(sqrt: real -> real): (SoundExtractor, Frame) -> (SoundExtractor, Option<Features>) {
    (e: SoundExtractor, f: Frame) => Window(sqrt, e, f)
  }

  /** Frames one after the other; what comes out is a window or nothing at each frame. */
  function Windows(sqrt: real -> real, e: SoundExtractor, fs: seq<Frame>):
    (res: (SoundExtractor, seq<Option<Features>>))
    ensures |res.1| == |fs|
  {
    Run<SoundExtractor, Frame, Option<Features>>(WindowStep(sqrt), e, fs)
  }

  lemma WindowsNext(sqrt: real -> real, e: SoundExtractor, fs: seq<Frame>, i: nat)
    requires i < |fs|
    ensures var before := Windows(sqrt, e, fs[..i]);
            var now := Window(sqrt, before.0, fs[i]);
            Windows(sqrt, e, fs[..i + 1]) == (now.0, before.1 + [now.1])
  {
    RunNext<SoundExtractor, Frame, Option<Features>>(WindowStep(sqrt), e, fs, i);
  }

  lemma WindowsAppend(sqrt: real -> real, e: SoundExtractor, fs: seq<Frame>, gs: seq<Frame>)
    ensures var head := Windows(sqrt, e, fs);
            var tail := Windows(sqrt, head.0, gs);
            Windows(sqrt, e, fs + gs) == (tail.0, head.1 + tail.1)
  {
    RunAppend<SoundExtractor, Frame, Option<Features>>(WindowStep(sqrt), e, fs, gs);
  }

  /** Windows are exactly the whole multiples of 1024 frames since the start, and what is left is the rest. */
  lemma {:induction false} WindowsEvery1024(sqrt: real -> real, e: SoundExtractor, fs: seq<Frame>)
    ensures var run := Windows(sqrt, e, fs);
            && run.0.sums.count == (e.sums.count + |fs|) % WINDOW
            && forall i :: 0 <= i < |fs| ==> (run.1[i].Some? <==> (e.sums.count + i + 1) % WINDOW == 0)
    decreases |fs|
  {
    hide Window;
    if |fs| > 0 {
      var n := |fs| - 1;
      WindowsEvery1024(sqrt, e, fs[..n]);
      WindowsNext(sqrt, e, fs, n);
      assert fs[..n + 1] == fs;
    }
  }

  // ---------------------------------------------------------------- the object

  predicate HasFrame(xs: seq<real>, i: nat, channels: nat) {
    BlockSize(i + 1, channels) <= |xs|
  }

  /** Frame number i of interleaved samples. */
  function FrameAt(xs: seq<real>, i: nat, channels: nat): Frame
    requires 1 <= channels <= 2 && HasFrame(xs, i, channels)
  {
    OneOrTwo(i + 1, channels);
    if channels == 1 then Mono(xs[i]) else Stereo(xs[2 * i], xs[2 * i + 1])
  }

  /** The first n frames of interleaved samples. */
  function Frames(xs: seq<real>, n: nat, channels: nat): (fs: seq<Frame>)
    requires 1 <= channels <= 2 && BlockSize(n, channels) <= |xs|
    ensures |fs| == n
    ensures forall i {:trigger fs[i]} :: 0 <= i < n ==>
              HasFrame(xs, i, channels) && fs[i] == FrameAt(xs, i, channels)
  {
    assert forall i :: 0 <= i < n ==> HasFrame(xs, i, channels) by {
      forall i | 0 <= i < n ensures HasFrame(xs, i, channels) {
        WithinBlock(i, n, channels);
        NextFrame(i, channels);
      }
    }
    seq(n, i requires 0 <= i < n => FrameAt(xs, i, channels))
  }

  /** The n frames from frame `offset` on. */
  function FramesFrom(xs: seq<real>, offset: nat, n: nat, channels: nat): (fs: seq<Frame>)
    requires 1 <= channels <= 2 && BlockSize(offset + n, channels) <= |xs|
    ensures |fs| == n
  {
    Frames(xs, offset + n, channels)[offset..]
  }

  lemma SumsAdd(s: Sums, t: Sums, centers: seq<real>, f: Frame, left: seq<real>, right: seq<real>)
    requires s.Valid() && |left| == |right| == |centers| == 4 && t.count == s.count
    requires t.left == Add(s.left, s.count == 0, f.Left(), left) &&
             t.right == Add(s.right, s.count == 0, f.Right(), right)
    requires t.spectral == s.spectral + Sum(Energies(left, right), 4) &&
             t.weighted == s.weighted + Dot(centers, Energies(left, right), 4)
    ensures t.(count := t.count + 1) == AddFrame(s, centers, f, left, right)
  {
    hide Add, Sum, Dot, Energies;
  }

  /** Frames taken one after the other, after the channel count has been noted. */
  function TakeFrames(e: Extractor, fs: seq<Frame>, channels: nat): (r: Extractor)
    requires e.sums.Valid()
    ensures r.sums.Valid() && r.sums.count == e.sums.count + |fs|
    decreases |fs|
  {
    if |fs| == 0 then e.(channels := channels) else TakeFrame(TakeFrames(e, fs[..|fs| - 1], channels), fs[|fs| - 1])
  }

  lemma TakeFrameNext(e: Extractor, fs: seq<Frame>, channels: nat, i: nat)
    requires e.sums.Valid() && i < |fs|
    ensures TakeFrames(e, fs[..i + 1], channels) == TakeFrame(TakeFrames(e, fs[..i], channels), fs[i])
  {
    assert fs[..i + 1][..i] == fs[..i];
  }

  class FeatureExtractor {
    const sqrt: real -> real
    const filterbank: Filterbank
    var sampleRate: real
    var framesAccumulated: nat
    var channels: nat
    var sumSq: (real, real)
    var zcrCount: (nat, nat)
    var previous: (real, real)
    var bandSumSq: (seq<real>, seq<real>)
    var spectralSum: real
    var spectralWeightedSum: real

    ghost const Repr: set<object>

    ghost predicate Valid()
      reads this
    {
      && Repr == {this} + filterbank.Repr && filterbank.Valid() && this !in filterbank.Repr
      && |bandSumSq.0| == |bandSumSq.1| == 4
    }

    ghost function SumsView(): Sums
      reads this
    {
      Sums(framesAccumulated, Tally(sumSq.0, zcrCount.0, previous.0, bandSumSq.0),
           Tally(sumSq.1, zcrCount.1, previous.1, bandSumSq.1), spectralSum, spectralWeightedSum)
    }

    ghost function View(): Extractor
      requires Valid()
      reads this, Repr
    {
      Extractor(sampleRate, filterbank.View(), channels, SumsView())
    }

    constructor (tan: real -> real, sqrt: real -> real)
      ensures Valid() && this in Repr && fresh(Repr) && View() == NewExtractor(tan, 48000.0, 1)
      ensures filterbank.tan == tan && this.sqrt == sqrt && framesAccumulated == 0
    {
      hide Filterbank.View, Filterbank.Valid, NewBank;
      this.sqrt := sqrt;
      var bank := new Filterbank(tan, Finite(48000.0));
      filterbank := bank;
      Repr := {this} + bank.Repr;
      sampleRate, channels := 48000.0, 1;
      framesAccumulated, sumSq, zcrCount, previous := 0, (0.0, 0.0), (0, 0), (0.0, 0.0);
      bandSumSq, spectralSum, spectralWeightedSum := (NoBands(), NoBands()), 0.0, 0.0;
    }

    method ClearAccumulators()
      requires Valid()
      modifies this
      ensures Valid() && View() == old(View()).(sums := NoSums())
    {
      hide Filterbank.View, Filterbank.Valid;
      framesAccumulated := 0;
      sumSq := (0.0, 0.0);
      zcrCount := (0, 0);
      previous := (0.0, 0.0);
      bandSumSq := (NoBands(), NoBands());
      spectralSum, spectralWeightedSum := 0.0, 0.0;
    }

    /** The channel count stays what the last block had. */
    method Init(rate: real)
      requires Valid()
      modifies Repr
      ensures Valid() && View() == NewExtractor(filterbank.tan, rate, old(channels)) && framesAccumulated == 0
    {
      hide Filterbank.View, Filterbank.Valid, NewBank;
      sampleRate := rate;
      filterbank.Init(Finite(rate));
      ClearAccumulators();
    }

    /** One channel: square, zero crossing, band squares. */
    method Accumulate(t: Tally, x: real, bands: seq<real>) returns (u: Tally)
      requires |t.bands| == |bands| == 4
      ensures u == Add(t, framesAccumulated == 0, x, bands)
    {
      var crossings := t.crossings;
      if framesAccumulated > 0 && ((t.previous > 0.0) != (x > 0.0)) {
        crossings := crossings + 1;
      }
      var sums := t.bands;
      for b := 0 to 4
        invariant |sums| == 4
        invariant forall k :: 0 <= k < 4 ==> sums[k] == if k < b then t.bands[k] + Square(bands[k]) else t.bands[k]
      {
        var square := bands[b] * bands[b];
        assert square == Square(bands[b]);
        hide Square;
        sums := sums[b := sums[b] + square];
      }
      assert sums == AddSquares(t.bands, bands);
      hide AddSquares;
      u := Tally(t.square + x * x, crossings, x, sums);
    }

    /** Spectral sums over the four bands. */
    method AccumulateSpectrum(left: seq<real>, right: seq<real>)
      requires Valid() && |left| == |right| == 4
      modifies this`spectralSum, this`spectralWeightedSum
      ensures Valid()
      ensures spectralSum == old(spectralSum) + Sum(Energies(left, right), 4)
      ensures spectralWeightedSum ==
              old(spectralWeightedSum) + Dot(Centers(filterbank.design, sampleRate), Energies(left, right), 4)
    {
      var centers := Centers(filterbank.design, sampleRate);
      ghost var e := Energies(left, right);
      var s, w := 0.0, 0.0;
      for b := 0 to 4
        invariant s == Sum(e, b) && w == Dot(centers, e, b)
      {
        var energy := (left[b] * left[b] + right[b] * right[b]) * 0.5;
        assert energy == e[b];
        hide Energies, Centers;
        s := s + energy;
        w := w + centers[b] * energy;
      }
      spectralSum := spectralSum + s;
      spectralWeightedSum := spectralWeightedSum + w;
    }

    /** A mono frame goes through the left filters only. */
    method FilterFrame(f: Frame) returns (left: seq<real>, right: seq<real>)
      requires Valid()
      modifies filterbank.Repr
      ensures Valid() && (filterbank.View(), left, right) == Filtered(old(filterbank.View()), f)
      ensures filterbank.design == old(filterbank.design)
    {
      hide Filterbank.View, Split;
      left := filterbank.Process(f.Left(), 0);
      right := left;
      if f.Stereo? {
        right := filterbank.Process(f.Right(), 1);
      }
    }

    /** Both channels' sums; the spectrum comes after. */
    method AccumulateFrame(f: Frame, left: seq<real>, right: seq<real>)
      requires Valid() && |left| == |right| == 4
      modifies this`sumSq, this`zcrCount, this`previous, this`bandSumSq
      ensures Valid()
      ensures SumsView().left == Add(old(SumsView()).left, framesAccumulated == 0, f.Left(), left)
      ensures SumsView().right == Add(old(SumsView()).right, framesAccumulated == 0, f.Right(), right)
    {
      hide Add;
      var l := Accumulate(Tally(sumSq.0, zcrCount.0, previous.0, bandSumSq.0), f.Left(), left);
      var r := Accumulate(Tally(sumSq.1, zcrCount.1, previous.1, bandSumSq.1), f.Right(), right);
      sumSq, zcrCount, previous, bandSumSq := (l.square, r.square), (l.crossings, r.crossings),
        (l.previous, r.previous), (l.bands, r.bands);
    }

    method ProcessFrame(f: Frame)
      requires Valid()
      modifies Repr
      ensures Valid() && filterbank.View() == Filtered(old(filterbank.View()), f).0
      ensures framesAccumulated == old(framesAccumulated) && channels == old(channels) && sampleRate == old(sampleRate)
      ensures var b := Filtered(old(filterbank.View()), f);
              SumsView().(count := framesAccumulated + 1) ==
              AddFrame(old(SumsView()), Centers(old(filterbank.design), old(sampleRate)), f, b.1, b.2)
    {
      hide Filterbank.View, Filterbank.Valid, Split, Add, AddFrame, Energies, Centers, Filtered, Sum, Dot;
      ghost var before := SumsView();
      var left, right := FilterFrame(f);
      ghost var bank := filterbank.View();
      AccumulateFrame(f, left, right);
      AccumulateSpectrum(left, right);
      assert filterbank.View() == bank;
      SumsAdd(before, SumsView(), Centers(filterbank.design, sampleRate), f, left, right);
    }

    /** Frames of interleaved samples, from frame `offset` on. Other channel counts are ignored. */
    method Process(xs: seq<real>, offset: nat, frames: nat, chans: nat)
      requires Valid()
      requires chans == 1 || chans == 2 ==> BlockSize(offset + frames, chans) <= |xs|
      modifies Repr
      ensures Valid()
      ensures chans != 1 && chans != 2 ==> View() == old(View())
      ensures chans == 1 || chans == 2 ==>
              View() == TakeFrames(old(View()), FramesFrom(xs, offset, frames, chans), chans)
    {
      hide Filterbank.View, Filterbank.Valid, AddFrame, TakeFrame;
      if chans == 0 || chans > 2 { return; }
      channels := chans;
      ghost var fs := FramesFrom(xs, offset, frames, chans);
      for i := 0 to frames
        invariant Valid() && framesAccumulated == old(framesAccumulated) + i
        invariant channels == chans && View() == TakeFrames(old(View()), fs[..i], chans)
      {
        var f := FrameAt(xs, offset + i, chans);
        assert fs[i] == f;
        TakeFrameNext(old(View()), fs, chans, i);
        ProcessNext(f);
      }
      assert fs[..frames] == fs;
    }

    method ProcessNext(f: Frame)
      requires Valid() && channels == ChannelsOf(f)
      modifies Repr
      ensures Valid() && View() == TakeFrame(old(View()), f)
      ensures framesAccumulated == old(framesAccumulated) + 1 && channels == old(channels)
    {
      hide Filterbank.Valid, AddFrame, Filtered, Centers;
      ProcessFrame(f);
      framesAccumulated := framesAccumulated + 1;
    }

    method FindRolloff(energy: seq<real>, centers: seq<real>) returns (rolloff: real)
      requires |energy| == |centers| == 4
      ensures rolloff == RolloffOf(energy, centers)
    {
      var total := 0.0;
      for b := 0 to 4
        invariant total == Sum(energy, b)
      {
        total := total + energy[b];
      }
      if total == 0.0 { return 0.0; }
      var cumulative := 0.0;
      rolloff := 0.0;
      for b := 0 to 4
        invariant cumulative == Sum(energy, b) && rolloff == 0.0
        invariant Rolloff(energy, centers, total, 0) == Rolloff(energy, centers, total, b)
      {
        cumulative := cumulative + energy[b];
        if cumulative >= 0.85 * total {
          rolloff := centers[b];
          break;
        }
      }
      if rolloff == 0.0 { rolloff := centers[3]; }
    }

    /** Averages over the frames of the window. */
    method ComputeFeatures() returns (out: Features)
      requires Valid()
      ensures out == if framesAccumulated == 0 then NoFeatures()
                     else Measure(sqrt, Centers(filterbank.design, sampleRate), channels, SumsView())
    {
      hide Measure, Centers, Filterbank.View, Filterbank.Valid;
      if framesAccumulated == 0 { return NoFeatures(); }
      out := Average(framesAccumulated as real, Centers(filterbank.design, sampleRate));
    }

    method Average(n: real, centers: seq<real>) returns (out: Features)
      requires Valid() && framesAccumulated > 0 && n == framesAccumulated as real && |centers| == 4
      ensures out == Measure(sqrt, centers, channels, SumsView())
    {
      hide Centers, RolloffOf, Rms, PerFrame, Mean, Halved, Midpoint, Centroid, Filterbank.View, Filterbank.Valid;
      var rms := (Rms(sqrt, sumSq.0, n), 0.0);
      var zcr := (PerFrame(zcrCount.0 as real, n), 0.0);
      var bands := (Mean(bandSumSq.0, n), NoBands());
      if channels >= 2 {
        rms := (rms.0, Rms(sqrt, sumSq.1, n));
        zcr := (zcr.0, PerFrame(zcrCount.1 as real, n));
        bands := (bands.0, Mean(bandSumSq.1, n));
      }
      if channels == 1 {
        var rolloff := FindRolloff(bands.0, centers);
        out := Features(rms.0, zcr.0, bands.0, Centroid(spectralWeightedSum, spectralSum), rolloff, rms, zcr, bands);
      } else {
        var energy := Halved(bands.0, bands.1);
        var rolloff := FindRolloff(energy, centers);
        out := Features(Rms(sqrt, sumSq.0 + sumSq.1, 2.0 * n), Midpoint(zcr.0, zcr.1), energy,
                        Centroid(spectralWeightedSum, spectralSum), rolloff, rms, zcr, bands);
      }
    }

    /** A full window is measured and its sums start again; otherwise nothing happens. */
    method Finalize() returns (out: Option<Features>)
      requires Valid()
      modifies this
      ensures Valid()
      ensures old(framesAccumulated) < WINDOW ==> out == None && View() == old(View())
      ensures old(framesAccumulated) >= WINDOW ==>
                && View() == old(View()).(sums := NoSums())
                && out == Some(old(Measure(sqrt, Centers(filterbank.design, sampleRate), channels, SumsView())))
    {
      hide Measure, Centers, Filterbank.View, Filterbank.Valid;
      if framesAccumulated < WINDOW { return None; }
      var features := ComputeFeatures();
      ClearAccumulators();
      return Some(features);
    }
  }
}
