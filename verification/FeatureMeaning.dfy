/** What the features of a full window say about its samples: loudness, zero crossings, energy in the bands, and
    their balance point (src/audio/FeatureExtractor.cpp:40-148). */
module FeatureMeaning {
  import opened RealFacts
  import opened Interleaving
  import opened Filterbanks
  import opened FeatureExtractors
  import opened FeatureStreams
  import opened FeatureTheorems

  // ---------------------------------------------------------------- one channel

  /** The sums of one channel over a window that begins with these samples and bands. */
  function TallyOf(xs: seq<real>, bs: seq<seq<real>>): (t: Tally)
    requires |xs| == |bs| && forall i :: 0 <= i < |bs| ==> |bs[i]| == 4
    ensures |t.bands| == 4
    decreases |xs|
  {
    if |xs| == 0 then NoTally()
    else
      var n := |xs| - 1;
      Add(TallyOf(xs[..n], bs[..n]), n == 0, xs[n], bs[n])
  }

  function SquareSum(xs: seq<real>): real {
    if |xs| == 0 then 0.0 else SquareSum(xs[..|xs| - 1]) + xs[|xs| - 1] * xs[|xs| - 1]
  }

  /** Energy of band b over some frames. */
  function BandSum(bs: seq<seq<real>>, b: nat): real
    requires b < 4 && forall i :: 0 <= i < |bs| ==> |bs[i]| == 4
  {
    if |bs| == 0 then 0.0 else BandSum(bs[..|bs| - 1], b) + bs[|bs| - 1][b] * bs[|bs| - 1][b]
  }

  lemma {:induction false} TallySquares(xs: seq<real>, bs: seq<seq<real>>)
    requires |xs| == |bs| && forall i :: 0 <= i < |bs| ==> |bs[i]| == 4
    ensures TallyOf(xs, bs).square == SquareSum(xs)
    ensures forall b :: 0 <= b < 4 ==> TallyOf(xs, bs).bands[b] == BandSum(bs, b)
    ensures |xs| > 0 ==> TallyOf(xs, bs).previous == xs[|xs| - 1]
    decreases |xs|
  {
    if |xs| > 0 {
      TallySquares(xs[..|xs| - 1], bs[..|xs| - 1]);
      hide Crosses;
    }
  }

  // ---------------------------------------------------------------- zero crossings

  /** All samples positive, or all not positive. */
  predicate OneSided(xs: seq<real>) {
    |xs| > 0 && ((forall i :: 0 <= i < |xs| ==> xs[i] > 0.0) || (forall i :: 0 <= i < |xs| ==> xs[i] <= 0.0))
  }

  function Glued(parts: seq<seq<real>>): seq<real> {
    if |parts| == 0 then [] else Glued(parts[..|parts| - 1]) + parts[|parts| - 1]
  }

  /** The maximal runs of one side of zero: one-sided parts, neighbours on different sides. */
  predicate MaximalRuns(parts: seq<seq<real>>) {
    && (forall i :: 0 <= i < |parts| ==> OneSided(parts[i]))
    && (forall i :: 0 <= i < |parts| - 1 ==> (parts[i][0] > 0.0 <==> parts[i + 1][0] <= 0.0))
  }

  /** How often the side changes, and one more. */
  function Sides(xs: seq<real>): nat {
    if |xs| <= 1 then |xs|
    else Sides(xs[..|xs| - 1]) + if xs[|xs| - 2] > 0.0 <==> xs[|xs| - 1] <= 0.0 then 1 else 0
  }

  lemma {:induction false} SidesAppend(xs: seq<real>, part: seq<real>)
    requires |xs| > 0 && OneSided(part)
    ensures Sides(xs + part) == Sides(xs) + if xs[|xs| - 1] > 0.0 <==> part[0] <= 0.0 then 1 else 0
    decreases |part|
  {
    var all, n := xs + part, |part| - 1;
    assert all[..|all| - 1] == xs + part[..n];
    if n == 0 {
      assert xs + part[..0] == xs;
    } else {
      SidesAppend(xs, part[..n]);
    }
  }

  lemma {:induction false} SidesOfOne(part: seq<real>)
    requires OneSided(part)
    ensures Sides(part) == 1
    decreases |part|
  {
    if |part| > 1 {
      SidesOfOne(part[..|part| - 1]);
    }
  }

  /** Every way to write samples as maximal runs has as many runs. */
  lemma {:induction false} RunsAreSides(parts: seq<seq<real>>)
    requires MaximalRuns(parts) && |parts| > 0
    ensures |Glued(parts)| > 0 && Sides(Glued(parts)) == |parts|
    ensures Glued(parts)[|Glued(parts)| - 1] > 0.0 <==> parts[|parts| - 1][0] > 0.0
    decreases |parts|
  {
    var m := |parts| - 1;
    var last := parts[m];
    assert OneSided(last);
    if m == 0 {
      assert parts[..0] == [] && Glued(parts) == [] + last == last;
      SidesOfOne(last);
    } else {
      RunsAreSides(parts[..m]);
      SidesAppend(Glued(parts[..m]), last);
      assert parts[m - 1][0] > 0.0 <==> parts[m][0] <= 0.0;
    }
  }

  lemma CountOfRuns(parts: seq<seq<real>>, xs: seq<real>)
    requires MaximalRuns(parts) && Glued(parts) == xs && |xs| > 0
    ensures Sides(xs) == |parts|
  {
    RunsAreSides(parts);
  }

  lemma RunBegins(parts: seq<seq<real>>, x: real)
    requires MaximalRuns(parts) && |parts| > 0 && (parts[|parts| - 1][0] > 0.0 <==> x <= 0.0)
    ensures MaximalRuns(parts + [[x]]) && Glued(parts + [[x]]) == Glued(parts) + [x]
  {
    var all, n := parts + [[x]], |parts|;
    assert all[..n] == parts && all[n] == [x] && OneSided(all[n]);
    forall i | 0 <= i < n ensures OneSided(all[i]) && (all[i][0] > 0.0 <==> all[i + 1][0] <= 0.0) {
      assert all[i] == parts[i] && OneSided(parts[i]);
    }
  }

  lemma RunGrows(parts: seq<seq<real>>, last: seq<real>, x: real)
    requires MaximalRuns(parts + [last]) && |last| > 0 && (last[0] > 0.0 <==> x > 0.0)
    ensures MaximalRuns(parts + [last + [x]]) && Glued(parts + [last + [x]]) == Glued(parts + [last]) + [x]
  {
    var was, all, n := parts + [last], parts + [last + [x]], |parts|;
    assert was[..n] == parts == all[..n];
    assert OneSided(was[n]) && was[n] == last;
    assert all[n] == last + [x] && OneSided(all[n]);
    forall i | 0 <= i < n ensures OneSided(all[i]) {
      assert OneSided(was[i]);
    }
    forall i | 0 <= i < n ensures all[i][0] > 0.0 <==> all[i + 1][0] <= 0.0 {
      assert was[i][0] > 0.0 <==> was[i + 1][0] <= 0.0;
    }
    assert Glued(parts) + (last + [x]) == Glued(parts) + last + [x];
  }

  /** Samples can always be written so. */
  lemma {:induction false} RunsExist(xs: seq<real>) returns (parts: seq<seq<real>>)
    requires |xs| > 0
    ensures MaximalRuns(parts) && |parts| > 0 && Glued(parts) == xs
    decreases |xs|
  {
    var n := |xs| - 1;
    if n == 0 {
      parts := [xs];
      assert parts[..0] == [] && Glued(parts) == [] + xs == xs;
    } else {
      var before := RunsExist(xs[..n]);
      var m := |before| - 1;
      assert xs == xs[..n] + [xs[n]] && OneSided(before[m]) && before == before[..m] + [before[m]];
      if before[m][0] > 0.0 <==> xs[n] <= 0.0 {
        RunBegins(before, xs[n]);
        parts := before + [[xs[n]]];
      } else {
        RunGrows(before[..m], before[m], xs[n]);
        parts := before[..m] + [before[m] + [xs[n]]];
      }
    }
  }

  lemma Crossings(t: Tally, first: bool, x: real, bands: seq<real>)
    requires |t.bands| == |bands| == 4
    ensures Add(t, first, x, bands).crossings ==
            t.crossings + if !first && (t.previous > 0.0 <==> x <= 0.0) then 1 else 0
  {
  }

  /** The crossings counted are the places where the side changes. */
  lemma {:induction false} CrossingsAreChanges(xs: seq<real>, bs: seq<seq<real>>)
    requires |xs| == |bs| > 0 && forall i :: 0 <= i < |bs| ==> |bs[i]| == 4
    ensures TallyOf(xs, bs).crossings + 1 == Sides(xs)
    decreases |xs|
  {
    var n := |xs| - 1;
    TallySquares(xs[..n], bs[..n]);
    Crossings(TallyOf(xs[..n], bs[..n]), n == 0, xs[n], bs[n]);
    if n > 0 {
      CrossingsAreChanges(xs[..n], bs[..n]);
    }
  }

  // ---------------------------------------------------------------- both channels

  function Lefts(fs: seq<Frame>): (xs: seq<real>)
    ensures |xs| == |fs|
  {
    seq(|fs|, i requires 0 <= i < |fs| => fs[i].Left())
  }

  function Rights(fs: seq<Frame>): (xs: seq<real>)
    ensures |xs| == |fs|
  {
    seq(|fs|, i requires 0 <= i < |fs| => fs[i].Right())
  }

  /** The filters that the right samples pass: a mono stream passes the left ones only. */
  function RightFilters(b: Bank, channels: nat): Channel {
    if channels == 1 then b.left else b.right
  }

  /** Energies of two channels, averaged. */
  function Both(s: Sums): (e: seq<real>)
    requires s.Valid()
    ensures |e| == 4
  {
    Halved(s.left.bands, s.right.bands)
  }

  /** The two sums over all bands are those of the energies kept band by band. */
  predicate Balanced(s: Sums, centers: seq<real>)
    requires s.Valid() && |centers| == 4
  {
    s.spectral == Sum(Both(s), 4) && s.weighted == Dot(centers, Both(s), 4)
  }

  /** The sums of a window over the frames since it began. */
  ghost predicate SumsOver(e: Extractor, fs: seq<Frame>, channels: nat, t: Extractor) {
    && t.sums.Valid() && t.sums.count == |fs| && t.rate == e.rate && t.bank.design == e.bank.design
    && t.channels == channels && Balanced(t.sums, Centers(e.bank.design, e.rate))
    && var left, right := BandsOf(e.bank.left, Lefts(fs)), BandsOf(RightFilters(e.bank, channels), Rights(fs));
       && t.sums.left == TallyOf(Lefts(fs), left.1) && t.sums.right == TallyOf(Rights(fs), right.1)
       && t.bank.left == left.0 && (channels == 2 ==> t.bank.right == right.0)
  }

  predicate AllOf(fs: seq<Frame>, channels: nat) {
    forall i :: 0 <= i < |fs| ==> ChannelsOf(fs[i]) == channels
  }

  lemma NothingBalanced(centers: seq<real>)
    requires |centers| == 4
    ensures Balanced(NoSums(), centers)
  {
    FourTerms(centers, Both(NoSums()));
    FourTerms(Both(NoSums()), centers);
  }

  lemma EnergyAdds(s: Sums, t: Sums, l: seq<real>, r: seq<real>)
    requires s.Valid() && t.Valid() && |l| == |r| == 4
    requires t.left.bands == AddSquares(s.left.bands, l) && t.right.bands == AddSquares(s.right.bands, r)
    ensures forall b :: 0 <= b < 4 ==> Both(t)[b] == 1.0 * Both(s)[b] + 1.0 * Energies(l, r)[b]
  {
    forall b | 0 <= b < 4 ensures Both(t)[b] == 1.0 * Both(s)[b] + 1.0 * Energies(l, r)[b] {
      assert Energies(l, r)[b] == (Square(l[b]) + Square(r[b])) * 0.5;
    }
  }

  lemma BalancedStays(s: Sums, centers: seq<real>, f: Frame, l: seq<real>, r: seq<real>)
    requires s.Valid() && |l| == |r| == |centers| == 4 && Balanced(s, centers)
    ensures Balanced(AddFrame(s, centers, f, l, r), centers)
  {
    var t, es := AddFrame(s, centers, f, l, r), Energies(l, r);
    EnergyAdds(s, t, l, r);
    hide Both, Energies, Add;
    DotLinear(centers, Both(s), es, Both(t), 1.0, 1.0, 4);
    FourTerms(Both(s), Both(s));
    FourTerms(Both(t), Both(t));
    FourTerms(es, es);
  }

  /** One more sample of one channel. */
  lemma ChannelNext(c: Channel, xs: seq<real>)
    requires |xs| > 0
    ensures var n := |xs| - 1;
            var before, all := BandsOf(c, xs[..n]), BandsOf(c, xs);
            var now := Split(before.0, xs[n]);
            && all.0 == now.0
            && TallyOf(xs, all.1) == Add(TallyOf(xs[..n], before.1), n == 0, xs[n], now.1)
  {
    hide Split, Add;
    var n := |xs| - 1;
    assert BandsOf(c, xs).1[..n] == BandsOf(c, xs[..n]).1;
  }

  lemma NothingFollows(c: Channel)
    ensures BandsOf(c, []) == (c, []) && TallyOf([], []) == NoTally()
  {
  }

  /** The sums of a window are the sums over the samples that the two channels of the filters saw. */
  lemma {:induction false} SumsFollow(e: Extractor, fs: seq<Frame>, channels: nat)
    requires e.sums == NoSums() && 1 <= channels <= 2 && AllOf(fs, channels)
    ensures SumsOver(e, fs, channels, TakeFrames(e, fs, channels))
    decreases |fs|
  {
    hide Split, Add, Centers, Balanced, TallyOf, BandsOf;
    if |fs| == 0 {
      NothingBalanced(Centers(e.bank.design, e.rate));
      NothingFollows(e.bank.left);
      NothingFollows(RightFilters(e.bank, channels));
      assert Lefts(fs) == Rights(fs) == [];
    } else {
      var n := |fs| - 1;
      SumsFollow(e, fs[..n], channels);
      var t := TakeFrames(e, fs[..n], channels);
      assert Lefts(fs)[..n] == Lefts(fs[..n]) && Rights(fs)[..n] == Rights(fs[..n]);
      ChannelNext(e.bank.left, Lefts(fs));
      ChannelNext(RightFilters(e.bank, channels), Rights(fs));
      if channels == 1 {
        assert Rights(fs) == Lefts(fs);
      }
      var b := Filtered(t.bank, fs[n]);
      BalancedStays(t.sums, Centers(e.bank.design, e.rate), fs[n], b.1, b.2);
    }
  }

  /** The samples of the two channels are the interleaved samples that came in. */
  lemma FramesHoldSamples(xs: seq<real>, n: nat, channels: nat, i: nat)
    requires 1 <= channels <= 2 && BlockSize(n, channels) <= |xs| && i < BlockSize(n, channels)
    ensures var fs := Frames(xs, n, channels);
            && AllOf(fs, channels) && i / channels < n
            && xs[i] == if i % channels == 0 then Lefts(fs)[i / channels] else Rights(fs)[i / channels]
  {
    OneOrTwo(n, channels);
    var fs, f := Frames(xs, n, channels), i / channels;
    assert fs[f] == FrameAt(xs, f, channels);
  }

  // ---------------------------------------------------------------- what a window reports

  /** A whole window of frames, all mono or all stereo, from a fresh start, ends with the features f. */
  ghost predicate Reports(sqrt: real -> real, e: SoundExtractor, fs: seq<Frame>, channels: nat, f: Features) {
    && e.sums == NoSums() && |fs| == WINDOW && 1 <= channels <= 2 && AllOf(fs, channels)
    && Emitted(Windows(sqrt, e, fs).1) == [f]
  }

  lemma WindowReports(sqrt: real -> real, e: SoundExtractor, fs: seq<Frame>, channels: nat)
    requires e.sums == NoSums() && |fs| == WINDOW && 1 <= channels <= 2 && AllOf(fs, channels)
    ensures exists f :: Reports(sqrt, e, fs, channels, f)
  {
    hide TakeFrames, Windows, Measure, Emitted, Centers;
    OnePass(sqrt, e, fs, channels);
    var t := TakeFrames(e, fs, channels);
    assert Reports(sqrt, e, fs, channels, Measure(sqrt, Centers(t.bank.design, t.rate), t.channels, t.sums));
  }

  lemma ReportsSums(sqrt: real -> real, e: SoundExtractor, fs: seq<Frame>, channels: nat, f: Features)
    requires Reports(sqrt, e, fs, channels, f)
    ensures SumsOver(e, fs, channels, TakeFrames(e, fs, channels))
    ensures f == Measure(sqrt, Centers(e.bank.design, e.rate), channels, TakeFrames(e, fs, channels).sums)
  {
    hide TakeFrames, Windows, Measure, Emitted, Centers;
    OnePass(sqrt, e, fs, channels);
    SumsFollow(e, fs, channels);
    var t := TakeFrames(e, fs, channels);
    assert [f][0] == Measure(sqrt, Centers(t.bank.design, t.rate), t.channels, t.sums);
  }

  lemma Spread(x: real, n: real)
    requires n > 0.0
    ensures n * PerFrame(x, n) == x
  {
    QuotientTimes(x, n);
  }

  lemma RatesAre(sqrt: real -> real, centers: seq<real>, channels: nat, s: Sums, f: Features)
    requires s.Valid() && s.count == WINDOW && |centers| == 4 && 1 <= channels <= 2
    requires f == Measure(sqrt, centers, channels, s) && (channels == 1 ==> s.left.crossings == s.right.crossings)
    ensures 1024.0 * f.zcrCh.0 == s.left.crossings as real
    ensures if channels == 2 then 1024.0 * f.zcrCh.1 == s.right.crossings as real else f.zcrCh.1 == 0.0
    ensures 2048.0 * f.zcr == s.left.crossings as real + s.right.crossings as real
  {
    hide Rms, Centroid, RolloffOf, Mean, Halved, PerFrame;
    Spread(s.left.crossings as real, 1024.0);
    Spread(s.right.crossings as real, 1024.0);
  }

  lemma SameInMono(fs: seq<Frame>)
    requires AllOf(fs, 1)
    ensures Rights(fs) == Lefts(fs)
  {
  }

  /** The crossing rate counts the maximal runs of samples on one side of zero, channel by channel and overall;
      a mono stream counts for both channels. */
  lemma RateCountsRuns(sqrt: real -> real, e: SoundExtractor, fs: seq<Frame>, channels: nat, f: Features,
                       lefts: seq<seq<real>>, rights: seq<seq<real>>)
    requires Reports(sqrt, e, fs, channels, f)
    requires MaximalRuns(lefts) && Glued(lefts) == Lefts(fs) && MaximalRuns(rights) && Glued(rights) == Rights(fs)
    ensures 1024.0 * f.zcrCh.0 + 1.0 == |lefts| as real
    ensures if channels == 2 then 1024.0 * f.zcrCh.1 + 1.0 == |rights| as real else f.zcrCh.1 == 0.0
    ensures 2048.0 * f.zcr + 2.0 == |lefts| as real + |rights| as real
  {
    hide TakeFrames, Windows, Emitted, Centers, TallyOf, BandsOf, MaximalRuns, Glued, Sides, Rms, Centroid, RolloffOf,
         Mean, Halved, PerFrame, Balanced;
    ReportsSums(sqrt, e, fs, channels, f);
    var s := TakeFrames(e, fs, channels).sums;
    CountOfRuns(lefts, Lefts(fs));
    CountOfRuns(rights, Rights(fs));
    CrossingsAreChanges(Lefts(fs), BandsOf(e.bank.left, Lefts(fs)).1);
    CrossingsAreChanges(Rights(fs), BandsOf(RightFilters(e.bank, channels), Rights(fs)).1);
    if channels == 1 {
      SameInMono(fs);
    }
    hide Measure;
    RatesAre(sqrt, Centers(e.bank.design, e.rate), channels, s, f);
  }

  lemma {:induction false} SquareSumNotNegative(xs: seq<real>)
    ensures SquareSum(xs) >= 0.0
    decreases |xs|
  {
    if |xs| > 0 {
      SquareSumNotNegative(xs[..|xs| - 1]);
      SquareNotNegative(xs[|xs| - 1]);
    }
  }

  ghost predicate SquareRoot(sqrt: real -> real) {
    forall v :: v >= 0.0 ==> sqrt(v) * sqrt(v) == v
  }

  lemma RootMeans(sqrt: real -> real, square: real, n: real)
    requires SquareRoot(sqrt) && square >= 0.0 && n > 0.0
    ensures n * (Rms(sqrt, square, n) * Rms(sqrt, square, n)) == square
  {
    QuotientTimes(square, n);
    SignOfFactor(square / n, n);
  }

  /** The loudness is the root of the mean square of the samples, channel by channel and overall. */
  lemma LoudnessIsMeanSquare(sqrt: real -> real, e: SoundExtractor, fs: seq<Frame>, channels: nat, f: Features)
    requires Reports(sqrt, e, fs, channels, f) && SquareRoot(sqrt)
    ensures 1024.0 * (f.rmsCh.0 * f.rmsCh.0) == SquareSum(Lefts(fs))
    ensures if channels == 2 then 1024.0 * (f.rmsCh.1 * f.rmsCh.1) == SquareSum(Rights(fs)) else f.rmsCh.1 == 0.0
    ensures 2048.0 * (f.rms * f.rms) == SquareSum(Lefts(fs)) + SquareSum(Rights(fs))
  {
    hide TakeFrames, Windows, Emitted, Centers, TallyOf, BandsOf, Rms, Centroid, RolloffOf, Mean, Halved, PerFrame,
         Balanced, SquareRoot, SquareSum;
    ReportsSums(sqrt, e, fs, channels, f);
    var s := TakeFrames(e, fs, channels).sums;
    TallySquares(Lefts(fs), BandsOf(e.bank.left, Lefts(fs)).1);
    TallySquares(Rights(fs), BandsOf(RightFilters(e.bank, channels), Rights(fs)).1);
    SquareSumNotNegative(Lefts(fs));
    SquareSumNotNegative(Rights(fs));
    RootMeans(sqrt, s.left.square, 1024.0);
    RootMeans(sqrt, s.right.square, 1024.0);
    RootMeans(sqrt, s.left.square + s.right.square, 2048.0);
    if channels == 1 {
      SameInMono(fs);
    }
  }

  /** Energy of band b in the filtered samples of each channel. */
  function LeftEnergy(e: Extractor, fs: seq<Frame>, b: nat): real
    requires b < 4
  {
    BandSum(BandsOf(e.bank.left, Lefts(fs)).1, b)
  }

  function RightEnergy(e: Extractor, fs: seq<Frame>, channels: nat, b: nat): real
    requires b < 4
  {
    BandSum(BandsOf(RightFilters(e.bank, channels), Rights(fs)).1, b)
  }

  /** The band energies are means over the window of what the filters put out. */
  lemma EnergyIsMean(sqrt: real -> real, e: SoundExtractor, fs: seq<Frame>, channels: nat, f: Features, b: nat)
    requires Reports(sqrt, e, fs, channels, f) && b < 4
    ensures |f.bandEnergy| == |f.bandEnergyCh.0| == |f.bandEnergyCh.1| == 4
    ensures 1024.0 * f.bandEnergyCh.0[b] == LeftEnergy(e, fs, b)
    ensures if channels == 2 then 1024.0 * f.bandEnergyCh.1[b] == RightEnergy(e, fs, channels, b)
            else f.bandEnergyCh.1[b] == 0.0
    ensures 2048.0 * f.bandEnergy[b] == LeftEnergy(e, fs, b) + RightEnergy(e, fs, channels, b)
  {
    hide TakeFrames, Windows, Emitted, Centers, TallyOf, BandsOf, BandSum, Rms, Centroid, RolloffOf, PerFrame,
         Balanced;
    ReportsSums(sqrt, e, fs, channels, f);
    TallySquares(Lefts(fs), BandsOf(e.bank.left, Lefts(fs)).1);
    TallySquares(Rights(fs), BandsOf(RightFilters(e.bank, channels), Rights(fs)).1);
    if channels == 1 {
      SameInMono(fs);
    }
  }

  /** Where the bands meet, from zero to half the sample rate. */
  function Edges(e: Extractor): (es: seq<real>)
    ensures |es| == 5
  {
    [0.0, e.bank.design.fc1, e.bank.design.fc2, e.bank.design.fc3, e.rate * 0.5]
  }

  /** Moment about frequency c of the energy of one band, taken at its middle. */
  function Arm(lo: real, hi: real, c: real, energy: real): real {
    ((lo + hi) * 0.5 - c) * energy
  }

  /** Moment of the energies of all bands. */
  function Moment(edges: seq<real>, energy: seq<real>, c: real): real
    requires |edges| == 5 && |energy| == 4
  {
    Arm(edges[0], edges[1], c, energy[0]) + Arm(edges[1], edges[2], c, energy[1]) +
    Arm(edges[2], edges[3], c, energy[2]) + Arm(edges[3], edges[4], c, energy[3])
  }

  lemma FourMoments(c: real, p: real, q: real, r: real, s: real)
    ensures c * (p + q + r + s) == c * p + c * q + c * r + c * s
  {
  }

  lemma ArmIs(lo: real, hi: real, c: real, energy: real, middle: real)
    requires middle == (lo + hi) * 0.5
    ensures Arm(lo, hi, c, energy) == middle * energy - c * energy
  {
  }

  lemma MomentIs(es: seq<real>, centers: seq<real>, energy: seq<real>, c: real)
    requires |es| == 5 && |centers| == |energy| == 4
    requires centers[0] == (es[0] + es[1]) * 0.5 && centers[1] == (es[1] + es[2]) * 0.5
    requires centers[2] == (es[2] + es[3]) * 0.5 && centers[3] == (es[3] + es[4]) * 0.5
    ensures Moment(es, energy, c) == Dot(centers, energy, 4) - c * Sum(energy, 4)
  {
    hide Sum, Dot, Arm;
    FourTerms(energy, centers);
    FourTerms(centers, energy);
    ArmIs(es[0], es[1], c, energy[0], centers[0]);
    ArmIs(es[1], es[2], c, energy[1], centers[1]);
    ArmIs(es[2], es[3], c, energy[2], centers[2]);
    ArmIs(es[3], es[4], c, energy[3], centers[3]);
    FourMoments(c, energy[0], energy[1], energy[2], energy[3]);
  }

  /** The energies that are summed band by band are 1024 times the reported ones. */
  lemma EnergiesAre(sqrt: real -> real, centers: seq<real>, channels: nat, s: Sums, f: Features)
    requires s.Valid() && s.count == WINDOW && |centers| == 4 && 1 <= channels <= 2
    requires f == Measure(sqrt, centers, channels, s) && (channels == 1 ==> s.left.bands == s.right.bands)
    ensures forall b :: 0 <= b < 4 ==> Both(s)[b] == 1024.0 * f.bandEnergy[b] + 0.0 * f.bandEnergy[b]
    ensures f.centroid == Centroid(s.weighted, s.spectral)
  {
    hide Rms, Centroid, RolloffOf, PerFrame;
  }

  lemma BalancePoint(weighted: real, spectral: real, total: real, dot: real, c: real)
    requires weighted == 1024.0 * dot && spectral == 1024.0 * total && c == Centroid(weighted, spectral)
    ensures if 1024.0 * total > 0.0000000001 then dot - c * total == 0.0 else c == 0.0
  {
    if spectral > 0.0000000001 {
      QuotientTimes(weighted, spectral);
      assert (c * total) * 1024.0 == c * spectral == weighted;
    }
  }

  /** The centroid is the point about which the reported energies balance; where there is practically no energy, it
      is zero. */
  lemma CentroidBalances(sqrt: real -> real, e: SoundExtractor, fs: seq<Frame>, channels: nat, f: Features)
    requires Reports(sqrt, e, fs, channels, f)
    ensures |f.bandEnergy| == 4
    ensures if 1024.0 * Sum(f.bandEnergy, 4) > 0.0000000001 then Moment(Edges(e), f.bandEnergy, f.centroid) == 0.0
            else f.centroid == 0.0
  {
    hide TakeFrames, Windows, Emitted, TallyOf, BandsOf, Rms, RolloffOf, PerFrame, Both, Dot, Sum, Moment, Centroid,
         Measure;
    ReportsSums(sqrt, e, fs, channels, f);
    if channels == 1 {
      SameInMono(fs);
    }
    var s, centers := TakeFrames(e, fs, channels).sums, Centers(e.bank.design, e.rate);
    EnergiesAre(sqrt, centers, channels, s, f);
    var total, dot := Sum(f.bandEnergy, 4), Dot(centers, f.bandEnergy, 4);
    DotLinear(centers, f.bandEnergy, f.bandEnergy, Both(s), 1024.0, 0.0, 4);
    FourTerms(Both(s), Both(s));
    FourTerms(f.bandEnergy, f.bandEnergy);
    BalancePoint(s.weighted, s.spectral, total, dot, f.centroid);
    MomentIs(Edges(e), centers, f.bandEnergy, f.centroid);
  }
}
