/** What the crossovers do to a tone of any frequency, and so which band is which
    (src/audio/Filterbank.cpp:19-111). */
module FilterbankTones {
  import opened RealFacts
  import opened Floats
  import opened Biquads
  import opened BiquadTones
  import opened Filterbanks

  // ---------------------------------------------------------------- one edge

  /** A tone before, between and behind two sections. */
  datatype Path = Path(into: Tone, mid: Tone, out: Tone)

  function Moved(t: Turn, p: Path): Path {
    Path(t.Step(p.into), t.Step(p.mid), t.Step(p.out))
  }

  predicate Takes(e: Edge, t: Turn, p: Path) {
    Follows(e.0.c, t, p.into, p.mid) && Follows(e.1.c, t, p.mid, p.out)
  }

  /** The edge with its delays as they are in the middle of such a tone. */
  function Sounding(e: Edge, t: Turn, p: Path): Edge {
    (Ringing(e.0.c, t, p.into, p.mid), Ringing(e.1.c, t, p.mid, p.out))
  }

  lemma EdgeSounds(e: Edge, t: Turn, p: Path)
    requires Takes(e, t, p)
    ensures Takes(e, t, Moved(t, p))
    ensures Pass(Sounding(e, t, p), p.into.re) == (Sounding(e, t, Moved(t, p)), p.out.re)
  {
    hide Turn.Step, Follows, Ringing, Section.Out, Section.Next;
    RingsOn(e.0.c, t, p.into, p.mid);
    RingsOn(e.1.c, t, p.mid, p.out);
    FollowsOn(e.0.c, t, p.into, p.mid);
    FollowsOn(e.1.c, t, p.mid, p.out);
  }

  /** Through P twice. */
  function TwicePoles(k: real, t: Turn, y: Tone): Tone {
    Times(Poles(k, t), Times(Poles(k, t), y))
  }

  function Squared(x: real): real {
    x * x
  }

  lemma ThroughBoth(p: Tone, n: real, x: Tone, m: Tone, y: Tone)
    requires Times(p, m) == Scale(n, x) && Times(p, y) == Scale(n, m)
    ensures Times(p, Times(p, y)) == Scale(Squared(n), x)
  {
    ThreeFactors(n, n, x.re);
    ThreeFactors(n, n, x.im);
    hide Times;
    TimesScales(p, n, m);
  }

  /** Two lowpasses in a row multiply a tone by (k k a a) (k k a a) over P P. */
  lemma LowEdge(k: real, t: Turn, x: Tone) returns (p: Path)
    requires k > 0.0 && t.Valid()
    ensures Takes(Twice(Lowpass(k)), t, p) && p.into == x
    ensures TwicePoles(k, t, p.out) == Scale(Squared(Low(k, t)), x)
  {
    hide Times, Power, Poles, Lowpass, Follows, Scale, Squared, Low;
    var n := Low(k, t);
    PolesNotZero(k, t);
    var m := Divides(Poles(k, t), n, x);
    var y := Divides(Poles(k, t), n, m);
    p := Path(x, m, y);
    LowpassFollows(k, t, x, m);
    LowpassFollows(k, t, m, y);
    ThroughBoth(Poles(k, t), n, x, m, y);
  }

  /** Two highpasses in a row multiply a tone by (b b) (b b) over P P. */
  lemma HighEdge(k: real, t: Turn, x: Tone) returns (p: Path)
    requires k > 0.0 && t.Valid()
    ensures Takes(Twice(Highpass(k)), t, p) && p.into == x
    ensures TwicePoles(k, t, p.out) == Scale(Squared(High(t)), x)
  {
    hide Times, Power, Poles, Highpass, Follows, Scale, Squared, High;
    var n := High(t);
    PolesNotZero(k, t);
    var m := Divides(Poles(k, t), n, x);
    var y := Divides(Poles(k, t), n, m);
    p := Path(x, m, y);
    HighpassFollows(k, t, x, m);
    HighpassFollows(k, t, m, y);
    ThroughBoth(Poles(k, t), n, x, m, y);
  }

  // ---------------------------------------------------------------- one channel

  /** A tone on its way through the six edges. */
  datatype Paths = Paths(low: Path, lowMidHigh: Path, lowMidLow: Path, highMidHigh: Path, highMidLow: Path, high: Path)

  function AllMoved(t: Turn, ps: Paths): Paths {
    Paths(Moved(t, ps.low), Moved(t, ps.lowMidHigh), Moved(t, ps.lowMidLow), Moved(t, ps.highMidHigh),
          Moved(t, ps.highMidLow), Moved(t, ps.high))
  }

  predicate AllTake(c: Channel, t: Turn, x: Tone, ps: Paths) {
    && Takes(c.low, t, ps.low) && Takes(c.lowMidHigh, t, ps.lowMidHigh) && Takes(c.lowMidLow, t, ps.lowMidLow)
    && Takes(c.highMidHigh, t, ps.highMidHigh) && Takes(c.highMidLow, t, ps.highMidLow) && Takes(c.high, t, ps.high)
    && ps.low.into == ps.lowMidHigh.into == ps.highMidHigh.into == ps.high.into == x
    && ps.lowMidLow.into == ps.lowMidHigh.out && ps.highMidLow.into == ps.highMidHigh.out
  }

  function AllSounding(c: Channel, t: Turn, ps: Paths): Channel {
    Channel(Sounding(c.low, t, ps.low), Sounding(c.lowMidHigh, t, ps.lowMidHigh),
            Sounding(c.lowMidLow, t, ps.lowMidLow), Sounding(c.highMidHigh, t, ps.highMidHigh),
            Sounding(c.highMidLow, t, ps.highMidLow), Sounding(c.high, t, ps.high))
  }

  lemma ChannelSounds(c: Channel, t: Turn, x: Tone, ps: Paths)
    requires AllTake(c, t, x, ps)
    ensures AllTake(c, t, t.Step(x), AllMoved(t, ps))
    ensures Split(AllSounding(c, t, ps), x.re) ==
            (AllSounding(c, t, AllMoved(t, ps)),
             [ps.low.out.re, ps.lowMidLow.out.re, ps.highMidLow.out.re, ps.high.out.re])
  {
    hide Turn.Step, Takes, Sounding, Pass;
    EdgeSounds(c.low, t, ps.low);
    EdgeSounds(c.lowMidHigh, t, ps.lowMidHigh);
    EdgeSounds(c.lowMidLow, t, ps.lowMidLow);
    EdgeSounds(c.highMidHigh, t, ps.highMidHigh);
    EdgeSounds(c.highMidLow, t, ps.highMidLow);
    EdgeSounds(c.high, t, ps.high);
  }

  function PathsAfter(t: Turn, ps: Paths, n: nat): (r: Paths)
    ensures r.low.out == t.After(ps.low.out, n) && r.lowMidLow.out == t.After(ps.lowMidLow.out, n)
    ensures r.highMidLow.out == t.After(ps.highMidLow.out, n) && r.high.out == t.After(ps.high.out, n)
  {
    if n == 0 then ps else AllMoved(t, PathsAfter(t, ps, n - 1))
  }

  /** Samples of four tones together. */
  function Chords(t: Turn, ys: seq<Tone>, n: nat): (chords: seq<seq<real>>)
    requires |ys| == 4
    ensures |chords| == n
  {
    seq(n, i requires 0 <= i < n =>
      [t.After(ys[0], i).re, t.After(ys[1], i).re, t.After(ys[2], i).re, t.After(ys[3], i).re])
  }

  function Outs(ps: Paths): (ys: seq<Tone>)
    ensures |ys| == 4
  {
    [ps.low.out, ps.lowMidLow.out, ps.highMidLow.out, ps.high.out]
  }

  lemma ChordsNext(t: Turn, ps: Paths, n: nat)
    ensures var now := PathsAfter(t, ps, n);
            Chords(t, Outs(ps), n + 1) == Chords(t, Outs(ps), n) +
              [[now.low.out.re, now.lowMidLow.out.re, now.highMidLow.out.re, now.high.out.re]]
  {
  }

  lemma BandsNext(c: Channel, xs: seq<real>, x: real)
    ensures var before := BandsOf(c, xs);
            BandsOf(c, xs + [x]) == (Split(before.0, x).0, before.1 + [Split(before.0, x).1])
  {
    hide Split;
    assert (xs + [x])[..|xs|] == xs;
  }

  lemma {:induction false} RunSounds(c: Channel, t: Turn, x: Tone, ps: Paths, n: nat)
    requires AllTake(c, t, x, ps)
    ensures AllTake(c, t, t.After(x, n), PathsAfter(t, ps, n))
    ensures BandsOf(AllSounding(c, t, ps), t.Samples(x, n)) ==
            (AllSounding(c, t, PathsAfter(t, ps, n)), Chords(t, Outs(ps), n))
  {
    hide Turn.Step, AllTake, AllSounding, AllMoved, Split;
    if n > 0 {
      RunSounds(c, t, x, ps, n - 1);
      ChannelSounds(c, t, t.After(x, n - 1), PathsAfter(t, ps, n - 1));
      assert t.Samples(x, n) == t.Samples(x, n - 1) + [t.After(x, n - 1).re];
      ChordsNext(t, ps, n - 1);
      BandsNext(AllSounding(c, t, ps), t.Samples(x, n - 1), t.After(x, n - 1).re);
    }
  }

  // ---------------------------------------------------------------- the four bands

  predicate SameEdge(e: Edge, f: Edge) {
    e.0.c == f.0.c && e.1.c == f.1.c
  }

  predicate SameCoefficients(c: Channel, d: Channel) {
    && SameEdge(c.low, d.low) && SameEdge(c.lowMidHigh, d.lowMidHigh) && SameEdge(c.lowMidLow, d.lowMidLow)
    && SameEdge(c.highMidHigh, d.highMidHigh) && SameEdge(c.highMidLow, d.highMidLow) && SameEdge(c.high, d.high)
  }

  /** The four tones that a tone x is split into by crossovers k1, k2 and k3. */
  predicate Crossed(k1: real, k2: real, k3: real, t: Turn, x: Tone, ys: seq<Tone>)
    requires |ys| == 4
  {
    && TwicePoles(k1, t, ys[0]) == Scale(Squared(Low(k1, t)), x)
    && TwicePoles(k1, t, TwicePoles(k2, t, ys[1])) == Scale(Squared(Low(k2, t)), Scale(Squared(High(t)), x))
    && TwicePoles(k2, t, TwicePoles(k3, t, ys[2])) == Scale(Squared(Low(k3, t)), Scale(Squared(High(t)), x))
    && TwicePoles(k3, t, ys[3]) == Scale(Squared(High(t)), x)
  }

  lemma TwicePolesScales(k: real, t: Turn, q: real, y: Tone)
    ensures TwicePoles(k, t, Scale(q, y)) == Scale(q, TwicePoles(k, t, y))
  {
    hide Times, Scale, Poles;
    TimesScales(Poles(k, t), q, y);
    TimesScales(Poles(k, t), q, Times(Poles(k, t), y));
  }

  lemma Cancels(q: real, x: Tone, y: Tone)
    requires q > 0.0 && Scale(q, y) == Scale(q, x)
    ensures y == x
  {
    assert q * (y.re - x.re) == 0.0 && q * (y.im - x.im) == 0.0;
  }

  lemma TimesCancels(h: Tone, y: Tone, z: Tone)
    requires Power(h) > 0.0 && Times(h, y) == Times(h, z)
    ensures y == z
  {
    var m := Mirror(h);
    assert Mirror(m) == h && Power(m) == Power(h);
    hide Times, Mirror, Power;
    MirrorTimes(m, y);
    MirrorTimes(m, z);
    Cancels(Power(h), z, y);
  }

  lemma TwicePolesCancel(k: real, t: Turn, y: Tone, z: Tone)
    requires k > 0.0 && t.Valid() && TwicePoles(k, t, y) == TwicePoles(k, t, z)
    ensures y == z
  {
    hide Times, Poles, Power, Turn.Valid;
    PolesNotZero(k, t);
    TimesCancels(Poles(k, t), Times(Poles(k, t), y), Times(Poles(k, t), z));
    TimesCancels(Poles(k, t), y, z);
  }

  /** There is one such answer to every tone. */
  lemma CrossedIsUnique(k1: real, k2: real, k3: real, t: Turn, x: Tone, ys: seq<Tone>, zs: seq<Tone>)
    requires k1 > 0.0 && k2 > 0.0 && k3 > 0.0 && t.Valid() && |ys| == |zs| == 4
    requires Crossed(k1, k2, k3, t, x, ys) && Crossed(k1, k2, k3, t, x, zs)
    ensures ys == zs
  {
    hide TwicePoles, Scale, Low, High, Squared, Turn.Valid;
    TwicePolesCancel(k1, t, ys[0], zs[0]);
    TwicePolesCancel(k1, t, TwicePoles(k2, t, ys[1]), TwicePoles(k2, t, zs[1]));
    TwicePolesCancel(k2, t, ys[1], zs[1]);
    TwicePolesCancel(k2, t, TwicePoles(k3, t, ys[2]), TwicePoles(k3, t, zs[2]));
    TwicePolesCancel(k3, t, ys[2], zs[2]);
    TwicePolesCancel(k3, t, ys[3], zs[3]);
  }

  lemma PathsExist(tan: real -> real, rate: Float, fc1: real, fc2: real, fc3: real, t: Turn, x: Tone)
    returns (ps: Paths)
    requires PositiveTangent(tan) && t.Valid()
    ensures var d := Designed(rate, fc1, fc2, fc3);
            && d.rate > 0.0 && AllTake(NewChannel(tan, d), t, x, ps)
            && Crossed(Warp(tan, d.fc1, d.rate), Warp(tan, d.fc2, d.rate), Warp(tan, d.fc3, d.rate), t, x, Outs(ps))
  {
    CrossoversInOrder(rate, fc1, fc2, fc3);
    var d := Designed(rate, fc1, fc2, fc3);
    hide Designed, Twice, Takes, PositiveTangent, Warp, TwicePoles, Scale, Low, High;
    var k1, k2, k3 := Warp(tan, d.fc1, d.rate), Warp(tan, d.fc2, d.rate), Warp(tan, d.fc3, d.rate);
    WarpPositive(tan, d.fc1, d.rate);
    WarpPositive(tan, d.fc2, d.rate);
    WarpPositive(tan, d.fc3, d.rate);
    var low := LowEdge(k1, t, x);
    var lowMidHigh := HighEdge(k1, t, x);
    var lowMidLow := LowEdge(k2, t, lowMidHigh.out);
    var highMidHigh := HighEdge(k2, t, x);
    var highMidLow := LowEdge(k3, t, highMidHigh.out);
    var high := HighEdge(k3, t, x);
    ps := Paths(low, lowMidHigh, lowMidLow, highMidHigh, highMidLow, high);
    TwicePolesScales(k1, t, Squared(Low(k2, t)), lowMidHigh.out);
    TwicePolesScales(k2, t, Squared(Low(k3, t)), highMidHigh.out);
  }

  /** Whatever is designed, there is a state of the channel from which a tone of any frequency, amplitude and phase
      comes out as four tones of that frequency, for ever, and these are the products of the edges of each band. */
  lemma ToneResponse(tan: real -> real, rate: Float, fc1: real, fc2: real, fc3: real, t: Turn, x: Tone)
    returns (c: Channel, ys: seq<Tone>)
    requires PositiveTangent(tan) && t.Valid()
    ensures var d := Designed(rate, fc1, fc2, fc3);
            && d.rate > 0.0 && SameCoefficients(c, NewChannel(tan, d)) && |ys| == 4
            && (forall n: nat :: BandsOf(c, t.Samples(x, n)).1 == Chords(t, ys, n))
            && Crossed(Warp(tan, d.fc1, d.rate), Warp(tan, d.fc2, d.rate), Warp(tan, d.fc3, d.rate), t, x, ys)
  {
    hide Designed, PositiveTangent, Warp, AllTake, BandsOf, Crossed, Lowpass, Highpass;
    var ps := PathsExist(tan, rate, fc1, fc2, fc3, t, x);
    var channel := NewChannel(tan, Designed(rate, fc1, fc2, fc3));
    c, ys := AllSounding(channel, t, ps), Outs(ps);
    forall n: nat ensures BandsOf(c, t.Samples(x, n)).1 == Chords(t, ys, n) {
      RunSounds(channel, t, x, ps, n);
    }
  }

  // ---------------------------------------------------------------- the two ends

  const STILL: Turn := Turn(1.0, 0.0)
  const FASTEST: Turn := Turn(0.0, 1.0)

  lemma StillPoles(k: real, y: Tone)
    ensures Poles(k, STILL) == Tone(k * k, 0.0) && TwicePoles(k, STILL, y) == Scale(Squared(k * k), y)
    ensures Low(k, STILL) == k * k && High(STILL) == 0.0
  {
    ThreeFactors(k * k, k * k, y.re);
    ThreeFactors(k * k, k * k, y.im);
  }

  lemma FastestPoles(k: real, y: Tone)
    ensures Poles(k, FASTEST) == Tone(-1.0, 0.0) && TwicePoles(k, FASTEST, y) == y
    ensures Low(k, FASTEST) == 0.0 && High(FASTEST) == -1.0
  {
  }

  lemma StillGain(k: real)
    requires k > 0.0
    ensures Squared(k * k) > 0.0
  {
    ProductPositive(k, k, k * k);
    ProductPositive(k * k, k * k, Squared(k * k));
  }

  /** A constant goes through the lowest band unchanged, and through no other. */
  lemma ConstantIsLow(k1: real, k2: real, k3: real, x: Tone, ys: seq<Tone>)
    requires k1 > 0.0 && k2 > 0.0 && k3 > 0.0 && |ys| == 4 && Crossed(k1, k2, k3, STILL, x, ys)
    ensures ys == [x, Tone(0.0, 0.0), Tone(0.0, 0.0), Tone(0.0, 0.0)]
  {
    var o := Tone(0.0, 0.0);
    hide TwicePoles, Low, High;
    StillGain(k1);
    StillGain(k2);
    StillGain(k3);
    StillPoles(k1, ys[0]);
    Cancels(Squared(k1 * k1), x, ys[0]);
    StillPoles(k2, ys[1]);
    StillPoles(k1, TwicePoles(k2, STILL, ys[1]));
    Cancels(Squared(k1 * k1), o, TwicePoles(k2, STILL, ys[1]));
    Cancels(Squared(k2 * k2), o, ys[1]);
    StillPoles(k3, ys[2]);
    StillPoles(k2, TwicePoles(k3, STILL, ys[2]));
    Cancels(Squared(k2 * k2), o, TwicePoles(k3, STILL, ys[2]));
    Cancels(Squared(k3 * k3), o, ys[2]);
    StillPoles(k3, ys[3]);
    Cancels(Squared(k3 * k3), o, ys[3]);
  }

  /** The fastest alternation goes through the highest band unchanged, and through no other. */
  lemma FastestIsHigh(k1: real, k2: real, k3: real, x: Tone, ys: seq<Tone>)
    requires |ys| == 4 && Crossed(k1, k2, k3, FASTEST, x, ys)
    ensures ys == [Tone(0.0, 0.0), Tone(0.0, 0.0), Tone(0.0, 0.0), x]
  {
    hide TwicePoles, Low, High;
    FastestPoles(k1, ys[0]);
    FastestPoles(k2, ys[1]);
    FastestPoles(k1, TwicePoles(k2, FASTEST, ys[1]));
    FastestPoles(k3, ys[2]);
    FastestPoles(k2, TwicePoles(k3, FASTEST, ys[2]));
    FastestPoles(k3, ys[3]);
  }

  lemma StillStays(x: Tone)
    ensures STILL.Valid() && STILL.Step(x) == x
  {
  }

  lemma FastestTurns(x: Tone)
    ensures FASTEST.Valid() && FASTEST.Step(x) == Tone(-x.re, -x.im)
  {
  }

  lemma PathsStay(ps: Paths)
    ensures AllMoved(STILL, ps) == ps
    ensures AllMoved(FASTEST, AllMoved(FASTEST, ps)) == ps
  {
    forall x: Tone ensures STILL.Step(x) == x {
      StillStays(x);
    }
    forall x: Tone ensures FASTEST.Step(FASTEST.Step(x)) == x {
      FastestTurns(x);
      FastestTurns(FASTEST.Step(x));
    }
    hide Turn.Step;
  }

  lemma SoundingIs(c: Channel, t: Turn, ps: Paths)
    ensures SameCoefficients(AllSounding(c, t, ps), c)
  {
  }

  lemma OutsAre(ps: Paths)
    ensures Outs(ps)[0] == ps.low.out && Outs(ps)[1] == ps.lowMidLow.out
    ensures Outs(ps)[2] == ps.highMidLow.out && Outs(ps)[3] == ps.high.out
  {
  }

  lemma WarpsPositive(tan: real -> real, rate: Float, fc1: real, fc2: real, fc3: real)
    requires PositiveTangent(tan)
    ensures var d := Designed(rate, fc1, fc2, fc3);
            d.rate > 0.0 && Warp(tan, d.fc1, d.rate) > 0.0 && Warp(tan, d.fc2, d.rate) > 0.0 &&
            Warp(tan, d.fc3, d.rate) > 0.0
  {
    CrossoversInOrder(rate, fc1, fc2, fc3);
    var d := Designed(rate, fc1, fc2, fc3);
    hide Designed, PositiveTangent, Warp;
    WarpPositive(tan, d.fc1, d.rate);
    WarpPositive(tan, d.fc2, d.rate);
    WarpPositive(tan, d.fc3, d.rate);
  }

  /** Whatever is designed, a constant is all in the lowest band: there is a state that it leaves as it is. */
  lemma ConstantStays(tan: real -> real, rate: Float, fc1: real, fc2: real, fc3: real, x: real) returns (c: Channel)
    requires PositiveTangent(tan)
    ensures var d := Designed(rate, fc1, fc2, fc3);
            d.rate > 0.0 && SameCoefficients(c, NewChannel(tan, d)) && Split(c, x) == (c, [x, 0.0, 0.0, 0.0])
  {
    hide Designed, PositiveTangent, Warp, NewChannel, SameCoefficients, AllTake, AllMoved, AllSounding, Split, Crossed,
         Turn.Step;
    var o := Tone(x, 0.0);
    StillStays(o);
    var ps := PathsExist(tan, rate, fc1, fc2, fc3, STILL, o);
    var d := Designed(rate, fc1, fc2, fc3);
    var channel := NewChannel(tan, d);
    WarpsPositive(tan, rate, fc1, fc2, fc3);
    ConstantIsLow(Warp(tan, d.fc1, d.rate), Warp(tan, d.fc2, d.rate), Warp(tan, d.fc3, d.rate), o, Outs(ps));
    ChannelSounds(channel, STILL, o, ps);
    PathsStay(ps);
    c := AllSounding(channel, STILL, ps);
    SoundingIs(channel, STILL, ps);
    OutsAre(ps);
  }

  lemma OutsTurn(ps: Paths)
    ensures var qs := AllMoved(FASTEST, ps);
            && qs.low.out.re == -ps.low.out.re && qs.lowMidLow.out.re == -ps.lowMidLow.out.re
            && qs.highMidLow.out.re == -ps.highMidLow.out.re && qs.high.out.re == -ps.high.out.re
  {
    FastestTurns(ps.low.out);
    FastestTurns(ps.lowMidLow.out);
    FastestTurns(ps.highMidLow.out);
    FastestTurns(ps.high.out);
    hide Turn.Step;
  }

  /** Whatever is designed, samples that alternate between x and -x are all in the highest band: there are two states
      that they alternate between. */
  lemma AlternationStays(tan: real -> real, rate: Float, fc1: real, fc2: real, fc3: real, x: real)
    returns (c: Channel, e: Channel)
    requires PositiveTangent(tan)
    ensures var d := Designed(rate, fc1, fc2, fc3);
            d.rate > 0.0 && SameCoefficients(c, NewChannel(tan, d)) && SameCoefficients(e, NewChannel(tan, d))
    ensures Split(c, x) == (e, [0.0, 0.0, 0.0, x]) && Split(e, -x) == (c, [0.0, 0.0, 0.0, -x])
  {
    hide Designed, PositiveTangent, Warp, NewChannel, SameCoefficients, AllTake, AllMoved, AllSounding, Split, Crossed,
         Turn.Step;
    var o := Tone(x, 0.0);
    FastestTurns(o);
    var ps := PathsExist(tan, rate, fc1, fc2, fc3, FASTEST, o);
    var d := Designed(rate, fc1, fc2, fc3);
    var channel := NewChannel(tan, d);
    FastestIsHigh(Warp(tan, d.fc1, d.rate), Warp(tan, d.fc2, d.rate), Warp(tan, d.fc3, d.rate), o, Outs(ps));
    ChannelSounds(channel, FASTEST, o, ps);
    var qs := AllMoved(FASTEST, ps);
    ChannelSounds(channel, FASTEST, FASTEST.Step(o), qs);
    PathsStay(ps);
    c, e := AllSounding(channel, FASTEST, ps), AllSounding(channel, FASTEST, qs);
    SoundingIs(channel, FASTEST, ps);
    SoundingIs(channel, FASTEST, qs);
    OutsAre(ps);
    OutsTurn(ps);
  }

  // ---------------------------------------------------------------- at a crossover

  lemma CrossoverParts(k: real, a: real, b: real, aa: real, bb: real, kk: real, kab: real)
    requires aa == a * a && bb == b * b && kk == k * k && kab == k * (a * b)
    requires k > 0.0 && b == k * a && aa + bb == 1.0
    ensures kk * aa == bb && kab == bb && bb > 0.0
  {
    ThreeFactors(k, k * a, a);
    ThreeFactors(k, k, a);
    ThreeFactors(k * k, a, a);
    assert kk * aa == k * a * b;
    ThreeFactors(k, a, b);
    if a > 0.0 {
      ProductPositive(k, a, b);
    } else if a < 0.0 {
      ProductPositive(k, -a, -b);
    }
    assert b != 0.0;
    NotZeroSquare(b, bb);
  }

  lemma TurnedTwice(w: real, r: real, g: real, y: Tone)
    requires w == SQRT_TWO * r && g == r * r
    ensures Times(Tone(0.0, w), Times(Tone(0.0, w), y)) == Scale(-(SQRT_TWO * SQRT_TWO) * g, y)
  {
    ThreeFactors(r, r, y.re);
    ThreeFactors(r, r, y.im);
    assert w * (w * y.re) == SQRT_TWO * SQRT_TWO * (r * (r * y.re));
    assert w * (w * y.im) == SQRT_TWO * SQRT_TWO * (r * (r * y.im));
  }

  lemma HalfOf(g: real, x: Tone, y: Tone)
    requires g > 0.0 && Scale(-(SQRT_TWO * SQRT_TWO) * g, y) == Scale(g, x)
    ensures Scale(SQRT_TWO * SQRT_TWO, y) == Scale(-1.0, x)
  {
    assert g * (SQRT_TWO * SQRT_TWO * y.re + x.re) == 0.0;
    assert g * (SQRT_TWO * SQRT_TWO * y.im + x.im) == 0.0;
  }

  lemma PolesAtCrossover(k: real, t: Turn, bb: real)
    requires k > 0.0 && t.Valid() && t.b == k * t.a && bb == t.b * t.b
    ensures Poles(k, t) == Tone(0.0, SQRT_TWO * bb) && Low(k, t) == bb && High(t) == -bb && bb > 0.0
  {
    CrossoverParts(k, t.a, t.b, t.a * t.a, bb, k * k, k * (t.a * t.b));
  }

  lemma SquaredIs(n: real, bb: real, g: real)
    requires (n == bb || n == -bb) && g == bb * bb
    ensures Squared(n) == g
  {
  }

  /** The frequency that a crossover k is designed for. */
  lemma CrossoverPoles(k: real, t: Turn, x: Tone, y: Tone, n: real)
    requires k > 0.0 && t.Valid() && t.b == k * t.a && (n == Low(k, t) || n == High(t))
    requires TwicePoles(k, t, y) == Scale(Squared(n), x)
    ensures Scale(SQRT_TWO * SQRT_TWO, y) == Scale(-1.0, x)
  {
    hide Times, Poles, Low, High, Squared, Turn.Valid, Scale;
    var bb := t.b * t.b;
    var g := bb * bb;
    PolesAtCrossover(k, t, bb);
    SquaredIs(n, bb, g);
    TurnedTwice(SQRT_TWO * bb, bb, g, y);
    ProductPositive(bb, bb, g);
    HalfOf(g, x, y);
  }

  /** Half the amplitude and the opposite phase, as far as the square root of two is exact. */
  predicate HalfAndOpposite(x: Tone, y: Tone) {
    Abs(2.0 * y.re + x.re) <= 0.00000000001 * Abs(y.re) && Abs(2.0 * y.im + x.im) <= 0.00000000001 * Abs(y.im)
  }

  lemma NearlyTwo(x: Tone, y: Tone)
    requires Scale(SQRT_TWO * SQRT_TWO, y) == Scale(-1.0, x)
    ensures HalfAndOpposite(x, y)
  {
    assert 0.0 <= 2.0 - SQRT_TWO * SQRT_TWO <= 0.00000000001;
    assert 2.0 * y.re + x.re == (2.0 - SQRT_TWO * SQRT_TWO) * y.re;
    assert 2.0 * y.im + x.im == (2.0 - SQRT_TWO * SQRT_TWO) * y.im;
  }

  /** Half the angle that frequency fc turns through per sample. */
  lemma WarpIs(tan: real -> real, fc: real, fs: real, half: real)
    requires fs > 0.0 && half * fs == PI * fc
    ensures Warp(tan, fc, fs) == tan(half)
  {
    assert half * 2.0 * fs == 2.0 * PI * fc;
    QuotientUnique(half * 2.0, fs, 2.0 * PI * fc);
    assert 2.0 * PI * fc / fs * 0.5 == half;
  }

  /** A tone at the lowest crossover frequency comes out of the lowest band with half its amplitude and the opposite
      phase, and a tone at the highest crossover frequency so comes out of the highest band. */
  lemma HalfAtTheCrossover(tan: real -> real, rate: Float, fc1: real, fc2: real, fc3: real, t: Turn, half: real,
                           x: Tone) returns (c: Channel, ys: seq<Tone>)
    requires PositiveTangent(tan) && t.Valid() && t.b == tan(half) * t.a
    ensures var d := Designed(rate, fc1, fc2, fc3);
            && d.rate > 0.0 && SameCoefficients(c, NewChannel(tan, d)) && |ys| == 4
            && (forall n: nat :: BandsOf(c, t.Samples(x, n)).1 == Chords(t, ys, n))
            && (half * d.rate == PI * d.fc1 ==> HalfAndOpposite(x, ys[0]))
            && (half * d.rate == PI * d.fc3 ==> HalfAndOpposite(x, ys[3]))
  {
    hide Designed, PositiveTangent, Warp, BandsOf, SameCoefficients, Lowpass, Highpass, TwicePoles, Scale, Low, High,
         HalfAndOpposite, NewChannel, Turn.Valid, Squared;
    var d := Designed(rate, fc1, fc2, fc3);
    WarpsPositive(tan, rate, fc1, fc2, fc3);
    c, ys := ToneResponse(tan, rate, fc1, fc2, fc3, t, x);
    if half * d.rate == PI * d.fc1 {
      WarpIs(tan, d.fc1, d.rate, half);
      CrossoverPoles(tan(half), t, x, ys[0], Low(tan(half), t));
      NearlyTwo(x, ys[0]);
    }
    if half * d.rate == PI * d.fc3 {
      WarpIs(tan, d.fc3, d.rate, half);
      CrossoverPoles(tan(half), t, x, ys[3], High(t));
      NearlyTwo(x, ys[3]);
    }
  }

  // ---------------------------------------------------------------- the inner bands

  /** An edge that lets nothing through, at rest. */
  function Blocked(): Edge {
    Twice(Coefficients(0.0, 0.0, 0.0, 0.0, 0.0))
  }

  lemma RestStays(c: Coefficients)
    ensures Pass(Twice(c), 0.0) == (Twice(c), 0.0)
  {
    hide Section.Out, Section.Next;
    NextIs(Rested(c), 0.0, 0.0);
    assert Rested(c).Next(0.0).z1 == 0.0 && Rested(c).Next(0.0).z2 == 0.0;
  }

  lemma NothingPasses(x: real)
    ensures Pass(Blocked(), x) == (Blocked(), 0.0)
  {
    var nothing := Coefficients(0.0, 0.0, 0.0, 0.0, 0.0);
    NextIs(Rested(nothing), x, 0.0);
    NextIs(Rested(nothing), 0.0, 0.0);
    hide Section.Out, Section.Next;
  }

  /** Channel d does sample for sample what channel c does, but for one silent band. */
  predicate AllBut(c: Channel, d: Channel, x: real, band: nat)
    requires band < 4
  {
    Split(d, x).1 == Split(c, x).1[band := 0.0]
  }

  function WithoutLowMidLow(c: Channel): Channel {
    c.(lowMidLow := Blocked())
  }

  function WithoutLowMidHigh(c: Channel, k: Coefficients): Channel {
    c.(lowMidHigh := Blocked(), lowMidLow := Twice(k))
  }

  function WithoutHighMidLow(c: Channel): Channel {
    c.(highMidLow := Blocked())
  }

  function WithoutHighMidHigh(c: Channel, k: Coefficients): Channel {
    c.(highMidHigh := Blocked(), highMidLow := Twice(k))
  }

  /** The low inner band is behind two edges of its own. When one of them lets nothing through, and the other is at
      rest if it comes after it, this band is silent and stays so, and the other three are what they were. */
  lemma LowMidIsInSeries(c: Channel, k: Coefficients, x: real)
    ensures AllBut(c, WithoutLowMidLow(c), x, 1) && AllBut(c, WithoutLowMidHigh(c, k), x, 1)
    ensures Split(WithoutLowMidLow(c), x).0 == WithoutLowMidLow(Split(c, x).0)
    ensures Split(WithoutLowMidHigh(c, k), x).0 == WithoutLowMidHigh(Split(c, x).0, k)
  {
    hide Pass, Twice, Blocked;
    NothingPasses(x);
    NothingPasses(Pass(c.lowMidHigh, x).1);
    RestStays(k);
  }

  /** And so is the high inner band. */
  lemma HighMidIsInSeries(c: Channel, k: Coefficients, x: real)
    ensures AllBut(c, WithoutHighMidLow(c), x, 2) && AllBut(c, WithoutHighMidHigh(c, k), x, 2)
    ensures Split(WithoutHighMidLow(c), x).0 == WithoutHighMidLow(Split(c, x).0)
    ensures Split(WithoutHighMidHigh(c, k), x).0 == WithoutHighMidHigh(Split(c, x).0, k)
  {
    hide Pass, Twice, Blocked;
    NothingPasses(x);
    NothingPasses(Pass(c.highMidHigh, x).1);
    RestStays(k);
  }
}
