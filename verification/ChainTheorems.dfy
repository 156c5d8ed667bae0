/** What the signal chain as a whole promises (src/audio/DspChain.cpp). */
module ChainTheorems {
  import opened Interleaving
  import opened Freeverb
  import FreeverbTheorems
  import opened MixerStages
  import opened LimiterStages
  import opened ChainReference

  // ---------------------------------------------------------------- blocks may be cut anywhere between frames

  /** What the setters of the stages have set, without what the stages remember. */
  function Tuning(a: Audio): Audio {
    Audio((Reverb(a.pair.0.settings, Tank.Unprimed), Reverb(a.pair.1.settings, Tank.Unprimed)),
          a.mixer.(gains := Gains.Unprimed), a.limiter.(knee := Knee.Unprimed))
  }

  /** Audio does not change what was set. */
  lemma SampleKeepsTuning(m: Maths, a: Audio, x: (nat, real))
    ensures Tuning(ChainSample(m, a, x).0) == Tuning(a)
  {
    MixerStages.AimValid(a.mixer, m.cosine, m.sine);
    LimiterStages.AimValid(a.limiter);
    hide Step, DryGoal, WetGoal, Shape;
  }

  lemma {:induction false} RunKeepsTuning(m: Maths, a: Audio, xs: seq<(nat, real)>)
    ensures Tuning(ChainRun(m, a, xs).0) == Tuning(a)
    decreases |xs|
  {
    hide Tuning, ChainSample;
    if |xs| == 0 {
      ChainRunNothing(m, a);
    } else {
      var n := |xs| - 1;
      RunKeepsTuning(m, a, xs[..n]);
      ChainRunNext(m, a, xs, n);
      assert xs[..n + 1] == xs;
      SampleKeepsTuning(m, ChainRun(m, a, xs[..n]).0, xs[n]);
    }
  }

  /** Reading the same control words again has no effect, however much audio went by in between. */
  lemma ApplyOnce(c: Chain, k: SoundControls, a: Audio)
    requires Tuning(a) == Tuning(Apply(c, k).audio)
    ensures Apply(Chain(a, Apply(c, k).lastPreset), k) == Chain(a, Apply(c, k).lastPreset)
  {
  }

  /** One block is the same as two shorter ones, if it is cut between frames. */
  lemma SplitBlock(m: Maths, c: Chain, k: SoundControls, xs: seq<real>, ys: seq<real>, channels: nat)
    requires channels > 0 && |xs| % channels == 0
    ensures var first := Process(m, c, k, xs, channels);
            var second := Process(m, first.0, k, ys, channels);
            Process(m, c, k, xs + ys, channels) == (second.0, first.1 + second.1)
  {
    hide Apply, ChainRun, Tuning;
    if |xs| == 0 {
      assert xs + ys == ys;
      assert [] + Process(m, c, k, ys, channels).1 == Process(m, c, k, ys, channels).1;
    } else if |ys| == 0 {
      assert xs + ys == xs;
      assert Process(m, c, k, xs, channels).1 + [] == Process(m, c, k, xs, channels).1;
    } else {
      var ready := Apply(c, k);
      var run := ChainRun(m, ready.audio, Tagged(xs, channels));
      RunKeepsTuning(m, ready.audio, Tagged(xs, channels));
      ApplyOnce(c, k, run.0);
      TaggedAppend(xs, ys, channels);
      ChainRunAppend(m, ready.audio, Tagged(xs, channels), Tagged(ys, channels));
    }
  }

  /** A block processed as any list of parts. */
  function ProcessParts(m: Maths, c: Chain, k: SoundControls, parts: seq<seq<real>>, channels: nat):
    (res: (Chain, seq<real>))
    requires channels > 0
    decreases |parts|
  {
    hide Process;
    if |parts| == 0 then (c, [])
    else
      var first := Process(m, c, k, parts[0], channels);
      var rest := ProcessParts(m, first.0, k, parts[1..], channels);
      (rest.0, first.1 + rest.1)
  }

  function Joined(parts: seq<seq<real>>): seq<real>
    decreases |parts|
  {
    if |parts| == 0 then [] else parts[0] + Joined(parts[1..])
  }

  lemma ProcessNothing(m: Maths, c: Chain, k: SoundControls, channels: nat)
    requires channels > 0
    ensures Process(m, c, k, [], channels) == (c, [])
  {
  }

  /** Output and state do not depend on how a stretch of audio is cut into blocks of whole frames. */
  lemma {:induction false} SplitAnywhere(m: Maths, c: Chain, k: SoundControls, parts: seq<seq<real>>, channels: nat)
    requires channels > 0 && forall p :: 0 <= p < |parts| ==> |parts[p]| % channels == 0
    ensures ProcessParts(m, c, k, parts, channels) == Process(m, c, k, Joined(parts), channels)
    decreases |parts|
  {
    hide Process;
    if |parts| == 0 {
      ProcessNothing(m, c, k, channels);
    } else {
      SplitBlock(m, c, k, parts[0], Joined(parts[1..]), channels);
      SplitAnywhere(m, Process(m, c, k, parts[0], channels).0, k, parts[1..], channels);
    }
  }

  // ---------------------------------------------------------------- channels do not mix

  /** Left and right samples in turn. */
  function Interleaved(left: seq<real>, right: seq<real>): (xs: seq<real>)
    requires |left| == |right|
    ensures |xs| == 2 * |left|
    ensures forall f :: 0 <= f < |left| ==> xs[2 * f] == left[f] && xs[2 * f + 1] == right[f]
  {
    if |left| == 0 then []
    else
      var n := |left| - 1;
      Interleaved(left[..n], right[..n]) + [left[n], right[n]]
  }

  /** The chain that a mono run of one channel sees: its model in the first place. */
  function OneSide(a: Audio, right: bool): Audio {
    if right then a.(pair := (a.pair.1, a.pair.0)) else a
  }

  /** Two mono runs as one stereo state. */
  predicate Sides(stereo: Audio, left: Audio, right: Audio) {
    && stereo == Audio((left.pair.0, right.pair.0), left.mixer, left.limiter)
    && right.mixer == left.mixer && right.limiter == left.limiter
  }

  lemma StereoNext(m: Maths, a: Audio, l: Audio, r: Audio, x: real, y: real)
    requires Sides(a, l, r)
    ensures var one := ChainSample(m, a, (0, x));
            var two := ChainSample(m, one.0, (1, y));
            && one.1 == ChainSample(m, l, (0, x)).1 && two.1 == ChainSample(m, r, (0, y)).1
            && Sides(two.0, ChainSample(m, l, (0, x)).0, ChainSample(m, r, (0, y)).0)
  {
    hide Step, Mixer.Aim, Mixer.Advance, Mixer.Blend, Limiter.Aim, Limiter.Advance, Shape, Limiter.KneeNow;
  }

  lemma StereoPairs(left: seq<real>, right: seq<real>, n: nat)
    requires |left| == |right| == n + 1
    ensures Interleaved(left, right) == Interleaved(left[..n], right[..n]) + [left[n], right[n]]
  {
  }

  lemma MonoNext(m: Maths, a: Audio, xs: seq<real>, n: nat)
    requires |xs| == n + 1
    ensures var before := ChainRun(m, a, Tagged(xs[..n], 1));
            var now := ChainSample(m, before.0, (0, xs[n]));
            ChainRun(m, a, Tagged(xs, 1)) == (now.0, before.1 + [now.1])
  {
    hide ChainSample, ChainRun;
    var t := Tagged(xs, 1);
    assert t[..n] == Tagged(xs[..n], 1) && t[..n + 1] == t;
    ChainRunNext(m, a, t, n);
  }

  /** One more stereo frame. */
  lemma StereoRunNext(m: Maths, a: Audio, xs: seq<real>, n: nat)
    requires |xs| == 2 * n + 2
    ensures var before := ChainRun(m, a, Tagged(xs[..2 * n], 2));
            var one := ChainSample(m, before.0, (0, xs[2 * n]));
            var two := ChainSample(m, one.0, (1, xs[2 * n + 1]));
            ChainRun(m, a, Tagged(xs, 2)) == (two.0, before.1 + [one.1, two.1])
  {
    hide ChainSample, ChainRun;
    var t := Tagged(xs, 2);
    assert t[..2 * n] == Tagged(xs[..2 * n], 2) && t[..2 * n + 2] == t;
    ChainRunNext(m, a, t, 2 * n);
    ChainRunNext(m, a, t, 2 * n + 1);
    assert t[2 * n] == (0, xs[2 * n]) && t[2 * n + 1] == (1, xs[2 * n + 1]);
    var before := ChainRun(m, a, t[..2 * n]);
    var one := ChainSample(m, before.0, t[2 * n]);
    var two := ChainSample(m, one.0, t[2 * n + 1]);
    assert before.1 + [one.1] + [two.1] == before.1 + [one.1, two.1];
  }

  /** Each channel of a stereo run is the mono run of that channel. */
  lemma {:induction false} StereoIsTwoMonos(m: Maths, a: Audio, left: seq<real>, right: seq<real>)
    requires |left| == |right|
    ensures var l := ChainRun(m, OneSide(a, false), Tagged(left, 1));
            var r := ChainRun(m, OneSide(a, true), Tagged(right, 1));
            var s := ChainRun(m, a, Tagged(Interleaved(left, right), 2));
            s.1 == Interleaved(l.1, r.1) && Sides(s.0, l.0, r.0)
    decreases |left|
  {
    hide ChainSample, ChainRun;
    var l, r := OneSide(a, false), OneSide(a, true);
    if |left| == 0 {
      ChainRunNothing(m, a);
      ChainRunNothing(m, l);
      ChainRunNothing(m, r);
      assert Tagged(left, 1) == [] && Tagged(right, 1) == [] && Tagged(Interleaved(left, right), 2) == [];
    } else {
      hide Sides, Interleaved, OneSide;
      var n := |left| - 1;
      StereoIsTwoMonos(m, a, left[..n], right[..n]);
      MonoNext(m, l, left, n);
      MonoNext(m, r, right, n);
      StereoPairs(left, right, n);
      var before := ChainRun(m, a, Tagged(Interleaved(left[..n], right[..n]), 2));
      StereoRunNext(m, a, Interleaved(left, right), n);
      assert Interleaved(left, right)[..2 * n] == Interleaved(left[..n], right[..n]);
      var p, q := ChainRun(m, l, Tagged(left[..n], 1)), ChainRun(m, r, Tagged(right[..n], 1));
      StereoNext(m, before.0, p.0, q.0, left[n], right[n]);
      var x, y := ChainSample(m, p.0, (0, left[n])).1, ChainSample(m, q.0, (0, right[n])).1;
      StereoPairs(p.1 + [x], q.1 + [y], n);
      assert (p.1 + [x])[..n] == p.1 && (q.1 + [y])[..n] == q.1;
    }
  }

  function Swapped(c: Chain): Chain {
    c.(audio := OneSide(c.audio, true))
  }

  lemma ApplySwapped(c: Chain, k: SoundControls)
    ensures Apply(Swapped(c), k) == Swapped(Apply(c, k))
  {
    hide ActiveCombs;
  }

  /** The same for blocks. While both channel models are in the same state, as they are after a reset, the
      right channel is the mono run of the very same chain. */
  lemma StereoBlock(m: Maths, c: Chain, k: SoundControls, left: seq<real>, right: seq<real>)
    requires |left| == |right|
    ensures Process(m, c, k, Interleaved(left, right), 2).1 ==
            Interleaved(Process(m, c, k, left, 1).1, Process(m, Swapped(c), k, right, 1).1)
    ensures c.audio.pair.0 == c.audio.pair.1 ==> Swapped(c) == c
  {
    hide Apply, ChainRun;
    ApplySwapped(c, k);
    StereoIsTwoMonos(m, Apply(c, k).audio, left, right);
  }

  /** The built-in tuning and every preset keep to the ranges that bound the reverb, so its output stays within
      `OutputBound(m, 0.95, 0.7)` times the wet level for input within m. */
  lemma PresetsWithin(p: nat, s: SoundSettings)
    requires p < PRESET_COUNT
    ensures FreeverbTheorems.SettingsWithin(Voiced(s, Preset(p)), 0.95, 0.7)
    ensures FreeverbTheorems.SettingsWithin(DEFAULTS, 0.95, 0.7)
  {
    assert Preset(0).feedback == 0.70 && Preset(1).feedback == 0.85 && Preset(2).feedback == 0.95;
  }
}
