/** Four analysis bands for each of two channels; every band edge is two second-order Butterworth sections in a
    row (src/audio/Filterbank.h, src/audio/Filterbank.cpp). The tangent is a parameter. */
module Filterbanks {
  import opened RealFacts
  import opened Floats
  import opened Biquads

  /** Sample rate and the three crossover frequencies in use. */
  datatype Design = Design(rate: real, fc1: real, fc2: real, fc3: real)

  /** The crossovers asked for, moved below 45 % of the sample rate and kept apart. */
  function Designed(rate: Float, fc1: real, fc2: real, fc3: real): Design {
    var fs := if rate.Finite? && rate.value > 0.0 then rate.value else 48000.0;
    var limit := fs * 0.45;
    var f1 := Clamp(fc1, limit * 0.001, limit * 0.8);
    var f2 := Clamp(fc2, f1 * 1.01, limit * 0.9);
    var f3 := Clamp(fc3, f2 * 1.01, limit);
    Design(fs, f1, f2, f3)
  }

  /** Every clamp has its bounds in order, and whatever rate and frequencies are asked for, the crossovers are
      positive, in order, and below half the sample rate. */
  lemma CrossoversInOrder(rate: Float, fc1: real, fc2: real, fc3: real)
    ensures var d := Designed(rate, fc1, fc2, fc3);
            && d.rate > 0.0 && 0.0 < d.fc1 < d.fc2 < d.fc3 <= d.rate * 0.45
            && d.rate * 0.45 * 0.001 <= d.rate * 0.45 * 0.8
            && d.fc1 * 1.01 <= d.rate * 0.45 * 0.9 && d.fc2 * 1.01 <= d.rate * 0.45
  {
  }

  lemma RatePositive(rate: Float, fc1: real, fc2: real, fc3: real)
    ensures Designed(rate, fc1, fc2, fc3).rate > 0.0
  {
    CrossoversInOrder(rate, fc1, fc2, fc3);
    hide Clamp;
  }

  /** Crossovers that fit below the limit, each at least one per cent above the one before, are used as they are;
      so are the rate and any others that can be. */
  lemma KeepsWhatFits(rate: real, fc1: real, fc2: real, fc3: real)
    requires rate > 0.0
    ensures var limit := rate * 0.45;
            Designed(Finite(rate), fc1, fc2, fc3) == Design(rate, fc1, fc2, fc3) <==>
            limit * 0.001 <= fc1 <= limit * 0.8 && fc1 * 1.01 <= fc2 <= limit * 0.9 && fc2 * 1.01 <= fc3 <= limit
  {
  }

  /** Two sections in a row. */
  type Edge = (Section, Section)

  function Twice(c: Coefficients): Edge {
    (Rested(c), Rested(c))
  }

  function Pass(e: Edge, x: real): (Edge, real) {
    var y := e.0.Out(x);
    ((e.0.Next(x), e.1.Next(y)), e.1.Out(y))
  }

  /** The filters of one channel: one edge for the outer bands, two for the inner ones. */
  datatype Channel = Channel(low: Edge, lowMidHigh: Edge, lowMidLow: Edge, highMidHigh: Edge, highMidLow: Edge,
                             high: Edge)

  function NewChannel(tan: real -> real, d: Design): Channel
    requires d.rate > 0.0
  {
    Channel(Twice(Lowpass(Warp(tan, d.fc1, d.rate))),
            Twice(Highpass(Warp(tan, d.fc1, d.rate))), Twice(Lowpass(Warp(tan, d.fc2, d.rate))),
            Twice(Highpass(Warp(tan, d.fc2, d.rate))), Twice(Lowpass(Warp(tan, d.fc3, d.rate))),
            Twice(Highpass(Warp(tan, d.fc3, d.rate))))
  }

  /** One sample of one channel: the state after it, and the four bands from low to high. */
  function Split(c: Channel, x: real): (res: (Channel, seq<real>))
    ensures |res.1| == 4
  {
    var b0 := Pass(c.low, x);
    var h1 := Pass(c.lowMidHigh, x);
    var b1 := Pass(c.lowMidLow, h1.1);
    var h2 := Pass(c.highMidHigh, x);
    var b2 := Pass(c.highMidLow, h2.1);
    var b3 := Pass(c.high, x);
    (Channel(b0.0, h1.0, b1.0, h2.0, b2.0, b3.0), [b0.1, b1.1, b2.1, b3.1])
  }

  /** Sample after sample: the state after them, and the four bands of each. */
  function BandsOf(c: Channel, xs: seq<real>): (res: (Channel, seq<seq<real>>))
    ensures |res.1| == |xs| && forall i :: 0 <= i < |xs| ==> |res.1[i]| == 4
    decreases |xs|
  {
    if |xs| == 0 then (c, [])
    else
      var before := BandsOf(c, xs[..|xs| - 1]);
      var now := Split(before.0, xs[|xs| - 1]);
      (now.0, before.1 + [now.1])
  }

  predicate Stable(c: Channel) {
    && InsideTriangle(c.low.0.c) && InsideTriangle(c.low.1.c)
    && InsideTriangle(c.lowMidHigh.0.c) && InsideTriangle(c.lowMidHigh.1.c)
    && InsideTriangle(c.lowMidLow.0.c) && InsideTriangle(c.lowMidLow.1.c)
    && InsideTriangle(c.highMidHigh.0.c) && InsideTriangle(c.highMidHigh.1.c)
    && InsideTriangle(c.highMidLow.0.c) && InsideTriangle(c.highMidLow.1.c)
    && InsideTriangle(c.high.0.c) && InsideTriangle(c.high.1.c)
  }

  /** The tangent is positive up to nine tenths of a quarter turn. Crossovers go no further. */
  ghost predicate PositiveTangent(tan: real -> real) {
    forall x :: 0.0 < x <= 0.45 * PI ==> tan(x) > 0.0
  }

  lemma WarpPositive(tan: real -> real, fc: real, fs: real)
    requires PositiveTangent(tan) && 0.0 < fc <= fs * 0.45
    ensures Warp(tan, fc, fs) > 0.0
  {
    var x := 2.0 * PI * fc / fs * 0.5;
    var q := 2.0 * PI * fc / fs;
    QuotientTimes(2.0 * PI * fc, fs);
    assert q * fs == 2.0 * PI * fc;
    SignOfFactor(q, fs);
    assert (0.9 * PI - q) * fs >= 0.0;
    SignOfFactor(0.9 * PI - q, fs);
    assert 0.0 < x <= 0.45 * PI;
  }

  /** Whatever sample rate and crossovers are asked for, all twelve sections of a channel are stable. */
  lemma AlwaysStable(tan: real -> real, rate: Float, fc1: real, fc2: real, fc3: real)
    requires PositiveTangent(tan)
    ensures Designed(rate, fc1, fc2, fc3).rate > 0.0 && Stable(NewChannel(tan, Designed(rate, fc1, fc2, fc3)))
  {
    CrossoversInOrder(rate, fc1, fc2, fc3);
    var d := Designed(rate, fc1, fc2, fc3);
    hide Designed, Lowpass, Highpass, InsideTriangle, PositiveTangent, Warp, PassesLow, PassesHigh;
    var k1, k2, k3 := Warp(tan, d.fc1, d.rate), Warp(tan, d.fc2, d.rate), Warp(tan, d.fc3, d.rate);
    WarpPositive(tan, d.fc1, d.rate);
    WarpPositive(tan, d.fc2, d.rate);
    WarpPositive(tan, d.fc3, d.rate);
    LowpassDesign(k1); HighpassDesign(k1);
    LowpassDesign(k2); HighpassDesign(k2);
    LowpassDesign(k3); HighpassDesign(k3);
  }

  // ---------------------------------------------------------------- the bank

  datatype Bank = Bank(design: Design, left: Channel, right: Channel)

  const LOW: real := 1500.0
  const MID: real := 4000.0
  const HIGH: real := 10000.0

  function NewBank(tan: real -> real, rate: Float): (b: Bank)
    ensures b.design == Designed(rate, LOW, MID, HIGH)
  {
    RatePositive(rate, LOW, MID, HIGH);
    var d := Designed(rate, LOW, MID, HIGH);
    Bank(d, NewChannel(tan, d), NewChannel(tan, d))
  }

  /** One edge, two objects. */
  class EdgeFilter {
    const first: Biquad
    const second: Biquad

    ghost function Repr(): set<object> {
      {this, first, second}
    }

    ghost predicate Valid() {
      first != second
    }

    ghost function View(): Edge
      reads first, second
    {
      (first.View(), second.View())
    }

    constructor ()
      ensures Valid() && fresh(Repr())
    {
      first := new Biquad();
      second := new Biquad();
    }

    method Design(c: Coefficients)
      requires Valid()
      modifies first, second
      ensures View() == Twice(c)
    {
      first.SetCoefficients(c);
      second.SetCoefficients(c);
      first.Reset();
      second.Reset();
    }

    method Process(x: real) returns (y: real)
      requires Valid()
      modifies first, second
      ensures (View(), y) == Pass(old(View()), x)
    {
      y := first.Process(x);
      y := second.Process(y);
    }
  }

  /** Two edges that share no section. */
  ghost predicate Apart(e: EdgeFilter, f: EdgeFilter) {
    e.first != f.first && e.first != f.second && e.second != f.first && e.second != f.second
  }

  class ChannelFilters {
    const low: EdgeFilter
    const lowMidHigh: EdgeFilter
    const lowMidLow: EdgeFilter
    const highMidHigh: EdgeFilter
    const highMidLow: EdgeFilter
    const high: EdgeFilter

    /** The sections: all that a channel changes. */
    ghost function Sections(): set<object> {
      {low.first, low.second, lowMidHigh.first, lowMidHigh.second, lowMidLow.first, lowMidLow.second,
       highMidHigh.first, highMidHigh.second, highMidLow.first, highMidLow.second, high.first, high.second}
    }

    ghost predicate Valid() {
      && low.Valid() && lowMidHigh.Valid() && lowMidLow.Valid() && highMidHigh.Valid() && highMidLow.Valid() &&
           high.Valid()
      && Apart(low, lowMidHigh) && Apart(low, lowMidLow) && Apart(low, highMidHigh) && Apart(low, highMidLow) &&
           Apart(low, high)
      && Apart(lowMidHigh, lowMidLow) && Apart(lowMidHigh, highMidHigh) && Apart(lowMidHigh, highMidLow) &&
           Apart(lowMidHigh, high)
      && Apart(lowMidLow, highMidHigh) && Apart(lowMidLow, highMidLow) && Apart(lowMidLow, high)
      && Apart(highMidHigh, highMidLow) && Apart(highMidHigh, high) && Apart(highMidLow, high)
    }

    ghost function View(): Channel
      reads Sections()
    {
      Channel(low.View(), lowMidHigh.View(), lowMidLow.View(), highMidHigh.View(), highMidLow.View(), high.View())
    }

    constructor ()
      ensures Valid() && fresh(Sections())
    {
      low := new EdgeFilter();
      lowMidHigh := new EdgeFilter();
      lowMidLow := new EdgeFilter();
      highMidHigh := new EdgeFilter();
      highMidLow := new EdgeFilter();
      high := new EdgeFilter();
    }

    method Design(tan: real -> real, d: Design)
      requires Valid() && d.rate > 0.0
      modifies Sections()
      ensures View() == NewChannel(tan, d)
    {
      hide Lowpass, Highpass, Warp;
      low.Design(Lowpass(Warp(tan, d.fc1, d.rate)));
      lowMidHigh.Design(Highpass(Warp(tan, d.fc1, d.rate)));
      lowMidLow.Design(Lowpass(Warp(tan, d.fc2, d.rate)));
      highMidHigh.Design(Highpass(Warp(tan, d.fc2, d.rate)));
      highMidLow.Design(Lowpass(Warp(tan, d.fc3, d.rate)));
      high.Design(Highpass(Warp(tan, d.fc3, d.rate)));
    }

    method Process(x: real) returns (bands: seq<real>)
      requires Valid()
      modifies Sections()
      ensures (View(), bands) == Split(old(View()), x)
    {
      hide Pass;
      var b0 := low.Process(x);
      var b1 := lowMidHigh.Process(x);
      b1 := lowMidLow.Process(b1);
      var b2 := highMidHigh.Process(x);
      b2 := highMidLow.Process(b2);
      var b3 := high.Process(x);
      bands := [b0, b1, b2, b3];
    }
  }

  class Filterbank {
    const tan: real -> real
    const left: ChannelFilters
    const right: ChannelFilters
    var design: Design

    ghost const Repr: set<object>

    ghost predicate Valid() {
      Repr == {this} + left.Sections() + right.Sections() && left.Valid() && right.Valid() &&
        left.Sections() !! right.Sections() && this !in left.Sections() + right.Sections()
    }

    ghost function View(): Bank
      requires Valid()
      reads Repr
    {
      Bank(design, left.View(), right.View())
    }

    constructor (tan: real -> real, rate: Float)
      ensures Valid() && fresh(Repr) && this.tan == tan && View() == NewBank(tan, rate)
    {
      hide ChannelFilters.View, ChannelFilters.Valid, NewBank;
      this.tan := tan;
      var l := new ChannelFilters();
      var r := new ChannelFilters();
      left, right := l, r;
      Repr := {this} + l.Sections() + r.Sections();
      new;
      Init(rate);
    }

    method Init(rate: Float)
      requires Valid()
      modifies Repr
      ensures View() == NewBank(tan, rate)
    {
      hide Designed, NewChannel, ChannelFilters.View, ChannelFilters.Valid, ChannelFilters.Sections;
      RatePositive(rate, LOW, MID, HIGH);
      var d := Designed(rate, LOW, MID, HIGH);
      design := d;
      left.Design(tan, d);
      right.Design(tan, d);
    }

    method Process(x: real, channel: nat) returns (bands: seq<real>)
      requires Valid()
      modifies Repr
      ensures |bands| == 4 && design == old(design)
      ensures channel == 1 ==>
                View() == old(View()).(right := Split(old(View()).right, x).0) &&
                bands == Split(old(View()).right, x).1
      ensures channel != 1 ==>
                View() == old(View()).(left := Split(old(View()).left, x).0) &&
                bands == Split(old(View()).left, x).1
    {
      hide Split, ChannelFilters.View, ChannelFilters.Valid;
      var c := if channel < 2 then channel else 0;
      if c == 1 {
        bands := right.Process(x);
      } else {
        bands := left.Process(x);
      }
    }
  }
}
