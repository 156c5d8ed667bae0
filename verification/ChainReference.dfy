/** The signal chain as one machine over samples (src/audio/DspChain.cpp, src/audio/Classifier.h:18-37).

    The implementation runs whole blocks through one stage after the other, in chunks of 4096 frames. Here
    every sample goes through all stages at once. That both are the same is part of the contract of
    `DspChain.Process` in DspChain.dfy. */
module ChainReference {
  import opened RealFacts
  import opened Transducers
  import opened Interleaving
  import opened Freeverb
  import opened FreeverbPairs
  import opened MixerStages
  import opened LimiterStages

  /** The transcendental functions the chain uses; nothing depends on which they are. */
  datatype Maths = Maths(cosine: real -> real, sine: real -> real, tanh: real -> real)

  datatype PresetParams = PresetParams(feedback: real, damping: real, allpassG: real, kneeBlend: real,
                                       crossfadeMode: real)

  const PRESET_COUNT: nat := 3
  const NO_PRESET: nat := 255

  /** Percussive, tonal, ambient. */
  function Preset(p: nat): PresetParams
    requires p < PRESET_COUNT
  {
    [PresetParams(0.70, 0.40, 0.50, 0.0, 0.0),
     PresetParams(0.85, 0.20, 0.60, 0.5, 0.5),
     PresetParams(0.95, 0.10, 0.70, 1.0, 1.0)][p]
  }

  /** What the stages of the chain remember. */
  datatype Audio = Audio(pair: Pair, mixer: SoundMixer, limiter: SoundLimiter)

  /** The chain: its stages and the preset that was applied last. */
  datatype Chain = Chain(audio: Audio, lastPreset: nat)

  /** The two control words that the background threads write and a block reads. */
  datatype Controls = Controls(preset: nat, complexity: nat)
  {
    predicate Valid() {
      preset <= 255 && complexity <= 255
    }
  }

  // ---------------------------------------------------------------- samples

  /** One sample of channel x.0 through reverb, mixer and limiter. */
  function ChainSample(m: Maths, a: Audio, x: (nat, real)): (Audio, real) {
    var r := PairSample(a.pair, x);
    var d := MixSample(m.cosine, m.sine, a.mixer, (x.0, x.1, r.1));
    var l := LimitSample(m.tanh, a.limiter, (x.0, d.1));
    (Audio(r.0, d.0, l.0), l.1)
  }

  function ChainStep(m: Maths): (Audio, (nat, real)) -> (Audio, real) {
    (a: Audio, x: (nat, real)) => ChainSample(m, a, x)
  }

  function ChainRun(m: Maths, a: Audio, xs: seq<(nat, real)>): (res: (Audio, seq<real>))
    ensures |res.1| == |xs|
  {
    Run<Audio, (nat, real), real>(ChainStep(m), a, xs)
  }

  lemma ChainRunNothing(m: Maths, a: Audio)
    ensures ChainRun(m, a, []) == (a, [])
  {
  }

  lemma ChainRunNext(m: Maths, a: Audio, xs: seq<(nat, real)>, i: nat)
    requires i < |xs|
    ensures var before := ChainRun(m, a, xs[..i]);
            var now := ChainSample(m, before.0, xs[i]);
            ChainRun(m, a, xs[..i + 1]) == (now.0, before.1 + [now.1])
  {
    RunNext<Audio, (nat, real), real>(ChainStep(m), a, xs, i);
  }

  lemma ChainRunAppend(m: Maths, a: Audio, xs: seq<(nat, real)>, ys: seq<(nat, real)>)
    ensures var head := ChainRun(m, a, xs);
            var tail := ChainRun(m, head.0, ys);
            ChainRun(m, a, xs + ys) == (tail.0, head.1 + tail.1)
  {
    RunAppend<Audio, (nat, real), real>(ChainStep(m), a, xs, ys);
  }

  lemma MixRunNext(m: Maths, mixer: SoundMixer, xs: seq<(nat, real, real)>, i: nat)
    requires i < |xs|
    ensures var before := MixRun(m.cosine, m.sine, mixer, xs[..i]);
            var now := MixSample(m.cosine, m.sine, before.0, xs[i]);
            MixRun(m.cosine, m.sine, mixer, xs[..i + 1]) == (now.0, before.1 + [now.1])
  {
    RunNext<SoundMixer, (nat, real, real), real>(MixStep(m.cosine, m.sine), mixer, xs, i);
  }

  lemma LimitRunNext(m: Maths, limiter: SoundLimiter, xs: seq<(nat, real)>, i: nat)
    requires i < |xs|
    ensures var before := LimitRun(m.tanh, limiter, xs[..i]);
            var now := LimitSample(m.tanh, before.0, xs[i]);
            LimitRun(m.tanh, limiter, xs[..i + 1]) == (now.0, before.1 + [now.1])
  {
    RunNext<SoundLimiter, (nat, real), real>(LimitStep(m.tanh), limiter, xs, i);
  }

  /** The last sample of a block, stage by stage and through all stages. */
  lemma OneMore(m: Maths, a: Audio, xs: seq<real>, channels: nat, n: nat)
    requires channels > 0 && |xs| == n + 1
    requires var wet := PairRun(a.pair, Tagged(xs[..n], channels));
             var mix := MixRun(m.cosine, m.sine, a.mixer, TaggedPair(xs[..n], wet.1, channels));
             var lim := LimitRun(m.tanh, a.limiter, Tagged(mix.1, channels));
             ChainRun(m, a, Tagged(xs[..n], channels)) == (Audio(wet.0, mix.0, lim.0), lim.1)
    ensures var wet := PairRun(a.pair, Tagged(xs, channels));
            var mix := MixRun(m.cosine, m.sine, a.mixer, TaggedPair(xs, wet.1, channels));
            var lim := LimitRun(m.tanh, a.limiter, Tagged(mix.1, channels));
            ChainRun(m, a, Tagged(xs, channels)) == (Audio(wet.0, mix.0, lim.0), lim.1)
  {
    hide PairSample, MixSample, LimitSample, PairRun, MixRun, LimitRun, ChainRun;
    var t := Tagged(xs, channels);
    assert t[..n] == Tagged(xs[..n], channels) && t[..n + 1] == t;
    PairRunNext(a.pair, t, n);
    ChainRunNext(m, a, t, n);
    var wet := PairRun(a.pair, t);
    var u := TaggedPair(xs, wet.1, channels);
    assert u[..n] == TaggedPair(xs[..n], wet.1[..n], channels) && u[..n + 1] == u;
    MixRunNext(m, a.mixer, u, n);
    var mix := MixRun(m.cosine, m.sine, a.mixer, u);
    var v := Tagged(mix.1, channels);
    assert v[..n] == Tagged(mix.1[..n], channels) && v[..n + 1] == v;
    LimitRunNext(m, a.limiter, v, n);
    assert wet.1[..n] == PairRun(a.pair, t[..n]).1;
    assert mix.1[..n] == MixRun(m.cosine, m.sine, a.mixer, u[..n]).1;
  }

  /** Running whole blocks through one stage after the other is running sample by sample through all. */
  lemma {:induction false} StagesInStep(m: Maths, a: Audio, xs: seq<real>, channels: nat)
    requires channels > 0
    ensures var wet := PairRun(a.pair, Tagged(xs, channels));
            var mix := MixRun(m.cosine, m.sine, a.mixer, TaggedPair(xs, wet.1, channels));
            var lim := LimitRun(m.tanh, a.limiter, Tagged(mix.1, channels));
            ChainRun(m, a, Tagged(xs, channels)) == (Audio(wet.0, mix.0, lim.0), lim.1)
    decreases |xs|
  {
    if |xs| == 0 {
      ChainRunNothing(m, a);
      PairRunNothing(a.pair);
      MixerStages.RunNothing(m.cosine, m.sine, a.mixer);
      LimiterStages.RunNothing(m.tanh, a.limiter);
      assert Tagged(xs, channels) == [];
    } else {
      var n := |xs| - 1;
      StagesInStep(m, a, xs[..n], channels);
      OneMore(m, a, xs, channels, n);
    }
  }

  // ---------------------------------------------------------------- blocks

  type SoundControls = k: Controls | k.Valid() witness Controls(1, 128)

  /** The reverb settings of a preset. */
  function Voiced(s: SoundSettings, p: PresetParams): SoundSettings {
    s.(feedback := p.feedback, damping := p.damping, allpassG := p.allpassG)
  }

  /** A preset that is in the table and was not the last one applied sets the parameters of the stages. Any
      other preset word is ignored. */
  function ApplyPreset(c: Chain, p: nat): Chain {
    if p >= PRESET_COUNT || p == c.lastPreset then c
    else
      var q := Preset(p);
      var a := c.audio;
      Chain(Audio((a.pair.0.(settings := Voiced(a.pair.0.settings, q)),
                   a.pair.1.(settings := Voiced(a.pair.1.settings, q))),
                  a.mixer.(mode := q.crossfadeMode),
                  a.limiter.(kneeBlend := q.kneeBlend)),
            p)
  }

  /** Only the reverb looks at the complexity level. */
  function ApplyComplexity(c: Chain, level: nat): Chain
    requires level <= 255
  {
    var a := c.audio;
    var n := ActiveCombs(level);
    c.(audio := a.(pair := (a.pair.0.(settings := a.pair.0.settings.(activeCombs := n)),
                            a.pair.1.(settings := a.pair.1.settings.(activeCombs := n)))))
  }

  function Apply(c: Chain, k: SoundControls): Chain {
    ApplyComplexity(ApplyPreset(c, k.preset), k.complexity)
  }

  /** One block under constant control words. A block of no frames does not even read them. */
  function Process(m: Maths, c: Chain, k: SoundControls, xs: seq<real>, channels: nat): (res: (Chain, seq<real>))
    requires channels > 0
    ensures |res.1| == |xs|
  {
    if |xs| == 0 then (c, [])
    else
      var ready := Apply(c, k);
      var run := ChainRun(m, ready.audio, Tagged(xs, channels));
      (Chain(run.0, ready.lastPreset), run.1)
  }

  function Reset(c: Chain): Chain {
    var a := c.audio;
    Chain(Audio((Reverb(a.pair.0.settings, Tank.Unprimed), Reverb(a.pair.1.settings, Tank.Unprimed)),
                a.mixer.(gains := Gains.Unprimed),
                a.limiter.(knee := Knee.Unprimed)),
          NO_PRESET)
  }

  /** All stages get the same ramp length. */
  function Ramped(c: Chain, frames: nat): Chain {
    var a := c.audio;
    c.(audio := Audio((a.pair.0.(settings := a.pair.0.settings.(rampFrames := frames)),
                       a.pair.1.(settings := a.pair.1.settings.(rampFrames := frames))),
                      a.mixer.(rampFrames := frames), a.limiter.(rampFrames := frames)))
  }

  /** The mixer keeps its dry/wet amount in [0, 1]. */
  function Rewetted(c: Chain, wet: real): Chain {
    c.(audio := c.audio.(mixer := c.audio.mixer.(wetAmount := Clamp(wet, 0.0, 1.0))))
  }

  function Regained(c: Chain, makeupGain: real): Chain {
    c.(audio := c.audio.(limiter := c.audio.limiter.(makeupGain := makeupGain)))
  }

  /** A chain as built, then given a dry/wet amount, a makeup gain and the ramp length of a sample rate. */
  function NewChain(wetAmount: real, makeupGain: real, rampFrames: nat): Chain {
    var r := NewReverb(DEFAULTS.(rampFrames := rampFrames));
    Chain(Audio((r, r), NewMixer(wetAmount, 0.0, rampFrames), NewLimiter(0.0, makeupGain, rampFrames)), NO_PRESET)
  }
}
