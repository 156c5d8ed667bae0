/** Resetting a chain, compared with building a new one (src/audio/DspChain.cpp:60-90). */
module ChainReset {
  import opened RealFacts
  import opened Interleaving
  import opened Freeverb
  import opened FreeverbPairs
  import opened MixerStages
  import opened LimiterStages
  import opened ChainReference
  import opened ChainTheorems

  /** What no setter of the chain ever pulls apart: fixed levels, one ramp length, one tuning for both channels. */
  predicate Built(c: Chain, frames: nat) {
    var a := c.audio;
    && a.pair.0.settings == a.pair.1.settings
    && a.pair.0.settings.wet == DEFAULTS.wet
    && a.pair.0.settings.rampFrames == a.mixer.rampFrames == a.limiter.rampFrames == frames
    && a.limiter.ceiling == 1.0
  }

  lemma BuiltByTuning(c: Chain, d: Chain, frames: nat)
    requires Tuning(c.audio) == Tuning(d.audio) && Built(d, frames)
    ensures Built(c, frames)
  {
    assert Tuning(c.audio).pair.0.settings == Tuning(d.audio).pair.0.settings;
    assert Tuning(c.audio).pair.1.settings == Tuning(d.audio).pair.1.settings;
    assert Tuning(c.audio).mixer.rampFrames == Tuning(d.audio).mixer.rampFrames;
    assert Tuning(c.audio).limiter == Tuning(d.audio).limiter;
  }

  /** Every chain that was built, fed and reset in any order is of this kind. */
  lemma BuiltStays(m: Maths, c: Chain, k: SoundControls, xs: seq<real>, channels: nat, frames: nat)
    requires Built(c, frames) && channels > 0
    ensures Built(Process(m, c, k, xs, channels).0, frames) && Built(Reset(c), frames)
  {
    hide ChainRun, ActiveCombs;
    if |xs| > 0 {
      RunKeepsTuning(m, Apply(c, k).audio, Tagged(xs, channels));
      BuiltByTuning(Process(m, c, k, xs, channels).0, Apply(c, k), frames);
    }
  }

  /** A new chain is of this kind, and a new sample rate gives a chain of this kind one of its own. */
  lemma BuiltAtFirst(wetAmount: real, makeupGain: real, c: Chain, frames: nat, newFrames: nat)
    requires Built(c, frames)
    ensures Built(NewChain(wetAmount, makeupGain, frames), frames) && Built(Ramped(c, newFrames), newFrames)
    ensures Ramped(NewChain(wetAmount, makeupGain, frames), newFrames) == NewChain(wetAmount, makeupGain, newFrames)
  {
  }

  // ---------------------------------------------------------------- what a chain has been through

  /** A call of the audio callback: the control words during it, and its samples. */
  datatype Block = Block(words: SoundControls, samples: seq<real>, channels: nat)

  predicate Blocks(blocks: seq<Block>) {
    forall b :: 0 <= b < |blocks| ==> blocks[b].channels > 0
  }

  function Session(m: Maths, c: Chain, blocks: seq<Block>): (Chain, seq<real>)
    requires Blocks(blocks)
    decreases |blocks|
  {
    hide Process;
    if |blocks| == 0 then (c, [])
    else
      var first := Process(m, c, blocks[0].words, blocks[0].samples, blocks[0].channels);
      var rest := Session(m, first.0, blocks[1..]);
      (rest.0, first.1 + rest.1)
  }

  /** What happens to a chain between its construction and a reset: blocks, resets, and new values of the ramp length,
      the dry/wet amount and the makeup gain. */
  datatype Event = Played(block: Block) | WasReset | Reframed(frames: nat) | Rewet(wet: real) | Regain(gain: real)

  predicate Possible(life: seq<Event>) {
    forall i :: 0 <= i < |life| ==> life[i].Played? ==> life[i].block.channels > 0
  }

  function After(m: Maths, c: Chain, life: seq<Event>): Chain
    requires Possible(life)
    decreases |life|
  {
    if |life| == 0 then c
    else
      var n := |life| - 1;
      var before := After(m, c, life[..n]);
      match life[n]
      case Played(b) => Process(m, before, b.words, b.samples, b.channels).0
      case WasReset => Reset(before)
      case Reframed(frames) => Ramped(before, frames)
      case Rewet(wet) => Rewetted(before, wet)
      case Regain(gain) => Regained(before, gain)
  }

  /** The ramp length that was set last. */
  function LastFrames(frames: nat, life: seq<Event>): nat
    decreases |life|
  {
    if |life| == 0 then frames
    else if life[|life| - 1].Reframed? then life[|life| - 1].frames
    else LastFrames(frames, life[..|life| - 1])
  }

  /** The dry/wet amount that was set last, as the mixer keeps it. */
  function LastWet(wetAmount: real, life: seq<Event>): real
    decreases |life|
  {
    if |life| == 0 then wetAmount
    else if life[|life| - 1].Rewet? then Clamp(life[|life| - 1].wet, 0.0, 1.0)
    else LastWet(wetAmount, life[..|life| - 1])
  }

  function LastGain(makeupGain: real, life: seq<Event>): real
    decreases |life|
  {
    if |life| == 0 then makeupGain
    else if life[|life| - 1].Regain? then life[|life| - 1].gain
    else LastGain(makeupGain, life[..|life| - 1])
  }

  /** The preset of the table that a block with samples has named last; a caller who keeps its own record of the
      words it wrote knows this. */
  function LastNamed(life: seq<Event>): (p: nat)
    ensures p < PRESET_COUNT || p == NO_PRESET
    decreases |life|
  {
    if |life| == 0 then NO_PRESET
    else
      var e := life[|life| - 1];
      if e.Played? && |e.block.samples| > 0 && e.block.words.preset < PRESET_COUNT then e.block.words.preset
      else LastNamed(life[..|life| - 1])
  }

  /** What the class members of the stages start with. */
  const AT_CONSTRUCTION: PresetParams := PresetParams(0.84, 0.2, 0.6, 0.0, 0.0)

  function Params(p: nat): PresetParams {
    if p < PRESET_COUNT then Preset(p) else AT_CONSTRUCTION
  }

  /** A chain whose parameters are those of preset p, or those of construction if p names none. */
  predicate Carries(c: Chain, p: nat, wetAmount: real, makeupGain: real, frames: nat) {
    var q := Params(p);
    && Built(c, frames)
    && c.audio.pair.0.settings.feedback == q.feedback && c.audio.pair.0.settings.damping == q.damping
    && c.audio.pair.0.settings.allpassG == q.allpassG
    && c.audio.mixer.mode == q.crossfadeMode && c.audio.mixer.wetAmount == wetAmount
    && c.audio.limiter.kneeBlend == q.kneeBlend && c.audio.limiter.makeupGain == makeupGain
    && (c.lastPreset == p || c.lastPreset == NO_PRESET)
  }

  lemma CarriesByTuning(c: Chain, d: Chain, p: nat, w: real, g: real, frames: nat)
    requires Tuning(c.audio) == Tuning(d.audio) && c.lastPreset == d.lastPreset && Carries(d, p, w, g, frames)
    ensures Carries(c, p, w, g, frames)
  {
    BuiltByTuning(c, d, frames);
    assert Tuning(c.audio).pair.0.settings == Tuning(d.audio).pair.0.settings;
    assert Tuning(c.audio).mixer == Tuning(d.audio).mixer && Tuning(c.audio).limiter == Tuning(d.audio).limiter;
  }

  lemma CarriesApplied(c: Chain, p: nat, w: real, g: real, frames: nat, k: SoundControls)
    requires Carries(c, p, w, g, frames) && (p < PRESET_COUNT || p == NO_PRESET)
    ensures Carries(Apply(c, k), if k.preset < PRESET_COUNT then k.preset else p, w, g, frames)
  {
    hide ActiveCombs;
  }

  lemma CarriesPlayed(m: Maths, c: Chain, p: nat, w: real, g: real, frames: nat, b: Block)
    requires Carries(c, p, w, g, frames) && (p < PRESET_COUNT || p == NO_PRESET) && b.channels > 0
    ensures Carries(Process(m, c, b.words, b.samples, b.channels).0,
                    if |b.samples| > 0 && b.words.preset < PRESET_COUNT then b.words.preset else p, w, g, frames)
  {
    hide Carries, Apply, ChainRun, Tuning;
    if |b.samples| > 0 {
      var ready := Apply(c, b.words);
      CarriesApplied(c, p, w, g, frames, b.words);
      RunKeepsTuning(m, ready.audio, Tagged(b.samples, b.channels));
      CarriesByTuning(Process(m, c, b.words, b.samples, b.channels).0, ready,
                      if b.words.preset < PRESET_COUNT then b.words.preset else p, w, g, frames);
    }
  }

  lemma CarriesElse(c: Chain, p: nat, w: real, g: real, frames: nat, newFrames: nat)
    requires Carries(c, p, w, g, frames)
    ensures Carries(Reset(c), p, w, g, frames) && Carries(Ramped(c, newFrames), p, w, g, newFrames)
  {
  }

  lemma CarriesSet(c: Chain, p: nat, w: real, g: real, frames: nat, wet: real, gain: real)
    requires Carries(c, p, w, g, frames)
    ensures Carries(Rewetted(c, wet), p, Clamp(wet, 0.0, 1.0), g, frames) &&
            Carries(Regained(c, gain), p, w, gain, frames)
  {
    hide Clamp;
  }

  lemma NewCarries(w: real, g: real, frames: nat)
    ensures Carries(NewChain(w, g, frames), NO_PRESET, w, g, frames)
  {
  }

  /** After any life the parameters of a chain are those of the preset that was named last, reset or not. */
  lemma {:induction false} ParametersOutliveReset(m: Maths, w: real, g: real, frames: nat, life: seq<Event>)
    requires Possible(life)
    ensures Carries(After(m, NewChain(w, g, frames), life),
                    LastNamed(life), LastWet(w, life), LastGain(g, life), LastFrames(frames, life))
    decreases |life|
  {
    hide Carries, NewChain, Process, Reset, Ramped, Rewetted, Regained, Clamp;
    if |life| == 0 {
      NewCarries(w, g, frames);
    } else {
      var n := |life| - 1;
      ParametersOutliveReset(m, w, g, frames, life[..n]);
      var c, p := After(m, NewChain(w, g, frames), life[..n]), LastNamed(life[..n]);
      var u, h, f := LastWet(w, life[..n]), LastGain(g, life[..n]), LastFrames(frames, life[..n]);
      match life[n]
      case Played(b) => CarriesPlayed(m, c, p, u, h, f, b);
      case WasReset => CarriesElse(c, p, u, h, f, f);
      case Reframed(newFrames) => CarriesElse(c, p, u, h, f, newFrames);
      case Rewet(wet) => CarriesSet(c, p, u, h, f, wet, h);
      case Regain(gain) => CarriesSet(c, p, u, h, f, u, gain);
    }
  }

  /** The number of combs that the complexity level of the last block with samples asks for; all before the first. */
  function LastCombs(life: seq<Event>): nat
    decreases |life|
  {
    if |life| == 0 then NUM_COMBS
    else
      var e := life[|life| - 1];
      if e.Played? && |e.block.samples| > 0 then ActiveCombs(e.block.words.complexity)
      else LastCombs(life[..|life| - 1])
  }

  predicate Combs(c: Chain, n: nat) {
    c.audio.pair.0.settings.activeCombs == c.audio.pair.1.settings.activeCombs == n
  }

  lemma CombsPlayed(m: Maths, c: Chain, n: nat, b: Block)
    requires Combs(c, n) && b.channels > 0
    ensures Combs(Process(m, c, b.words, b.samples, b.channels).0,
                  if |b.samples| > 0 then ActiveCombs(b.words.complexity) else n)
  {
    hide ChainRun, ActiveCombs;
    if |b.samples| > 0 {
      var ready := Apply(c, b.words);
      RunKeepsTuning(m, ready.audio, Tagged(b.samples, b.channels));
      var now := Process(m, c, b.words, b.samples, b.channels).0;
      assert Tuning(now.audio).pair.0.settings == Tuning(ready.audio).pair.0.settings;
      assert Tuning(now.audio).pair.1.settings == Tuning(ready.audio).pair.1.settings;
    }
  }

  lemma CombsElse(c: Chain, n: nat, frames: nat, wet: real, gain: real)
    requires Combs(c, n)
    ensures Combs(Reset(c), n) && Combs(Ramped(c, frames), n) && Combs(Rewetted(c, wet), n) &&
            Combs(Regained(c, gain), n)
  {
  }

  lemma NewCombs(w: real, g: real, frames: nat)
    ensures Combs(NewChain(w, g, frames), NUM_COMBS)
  {
  }

  /** After any life both channels work with the combs that the last level asked for, reset or not. */
  lemma {:induction false} CombsOutliveReset(m: Maths, w: real, g: real, frames: nat, life: seq<Event>)
    requires Possible(life)
    ensures Combs(After(m, NewChain(w, g, frames), life), LastCombs(life))
    decreases |life|
  {
    hide Combs, Process, Reset, Ramped, Rewetted, Regained;
    if |life| == 0 {
      NewCombs(w, g, frames);
    } else {
      var n := |life| - 1;
      CombsOutliveReset(m, w, g, frames, life[..n]);
      var c, k := After(m, NewChain(w, g, frames), life[..n]), LastCombs(life[..n]);
      match life[n]
      case Played(b) => CombsPlayed(m, c, k, b);
      case WasReset => CombsElse(c, k, 0, 0.0, 0.0);
      case Reframed(newFrames) => CombsElse(c, k, newFrames, 0.0, 0.0);
      case Rewet(wet) => CombsElse(c, k, 0, wet, 0.0);
      case Regain(gain) => CombsElse(c, k, 0, 0.0, gain);
    }
  }

  // ---------------------------------------------------------------- when a reset chain is a new one

  /** A new chain with the same dry/wet amount, makeup gain and ramp length. */
  function Rebuilt(c: Chain): Chain {
    NewChain(c.audio.mixer.wetAmount, c.audio.limiter.makeupGain, c.audio.mixer.rampFrames)
  }

  /** No preset has the feedback of construction. */
  lemma FeedbackTells(p: nat)
    ensures p < PRESET_COUNT ==> Params(p).feedback != AT_CONSTRUCTION.feedback
  {
    assert Preset(0).feedback == 0.70 && Preset(1).feedback == 0.85 && Preset(2).feedback == 0.95;
  }

  lemma AppliedAfterReset(c: Chain, p: nat, w: real, g: real, frames: nat, k: SoundControls)
    requires Carries(c, p, w, g, frames) && (p < PRESET_COUNT || p == NO_PRESET)
    ensures Apply(Reset(c), k) == Apply(Rebuilt(c), k) <==> k.preset < PRESET_COUNT || p == NO_PRESET
  {
    hide ActiveCombs;
    var r, n := Apply(Reset(c), k).audio, Apply(Rebuilt(c), k).audio;
    if k.preset < PRESET_COUNT {
      assert r.pair.0.settings == n.pair.0.settings;
    } else {
      assert r.pair.0.settings == c.audio.pair.0.settings.(activeCombs := ActiveCombs(k.complexity));
      assert n.pair.0.settings == DEFAULTS.(rampFrames := frames, activeCombs := ActiveCombs(k.complexity));
      FeedbackTells(p);
    }
  }

  /** The first control words that a reset chain reads make it equal to a new one, in every part of its state,
      exactly if they name a preset of the table or none was ever named before. */
  lemma ResetIsNewExactlyIf(m: Maths, w: real, g: real, frames: nat, life: seq<Event>, k: SoundControls)
    requires Possible(life)
    ensures var c := After(m, NewChain(w, g, frames), life);
            Apply(Reset(c), k) == Apply(Rebuilt(c), k) <==> k.preset < PRESET_COUNT || LastNamed(life) == NO_PRESET
  {
    hide Apply, Reset, Rebuilt, NewChain, After, Carries;
    ParametersOutliveReset(m, w, g, frames, life);
    AppliedAfterReset(After(m, NewChain(w, g, frames), life),
                      LastNamed(life), LastWet(w, life), LastGain(g, life), LastFrames(frames, life), k);
  }

  /** The first block that has any frames names a preset of the table. */
  predicate NamesPresetFirst(blocks: seq<Block>)
    decreases |blocks|
  {
    |blocks| > 0 ==>
      if |blocks[0].samples| == 0 then NamesPresetFirst(blocks[1..]) else blocks[0].words.preset < PRESET_COUNT
  }

  lemma {:induction false} SoundsNew(m: Maths, c: Chain, p: nat, w: real, g: real, frames: nat, blocks: seq<Block>)
    requires Carries(c, p, w, g, frames) && (p < PRESET_COUNT || p == NO_PRESET) && Blocks(blocks)
    requires NamesPresetFirst(blocks) || p == NO_PRESET
    ensures Session(m, Reset(c), blocks).1 == Session(m, Rebuilt(c), blocks).1
    decreases |blocks|
  {
    hide Apply, Reset, Rebuilt, ChainRun, Carries;
    if |blocks| > 0 {
      if |blocks[0].samples| == 0 {
        SoundsNew(m, c, p, w, g, frames, blocks[1..]);
      } else {
        AppliedAfterReset(c, p, w, g, frames, blocks[0].words);
      }
    }
  }

  /** After a reset, everything that can be heard is what a new chain would play, for any later blocks and
      control words, if the first words read name a preset of the table or none was ever named before. */
  lemma ResetSoundsNew(m: Maths, w: real, g: real, frames: nat, life: seq<Event>, blocks: seq<Block>)
    requires Possible(life) && Blocks(blocks)
    requires NamesPresetFirst(blocks) || LastNamed(life) == NO_PRESET
    ensures var c := After(m, NewChain(w, g, frames), life);
            Session(m, Reset(c), blocks).1 == Session(m, Rebuilt(c), blocks).1
  {
    hide Reset, Rebuilt, NewChain, After, Carries, Session;
    ParametersOutliveReset(m, w, g, frames, life);
    SoundsNew(m, After(m, NewChain(w, g, frames), life),
              LastNamed(life), LastWet(w, life), LastGain(g, life), LastFrames(frames, life), blocks);
  }

  // ---------------------------------------------------------------- the other case is real

  /** A new chain with no wet signal that has played one silent sample with the ambient preset. */
  function AmbientOnce(m: Maths): Chain {
    Process(m, NewChain(0.0, 1.0, 480), Controls(2, 128), [0.0], 1).0
  }

  /** Words that name no preset. */
  function NoPresetWords(): SoundControls {
    Controls(3, 128)
  }

  lemma GoalsWhenDry(m: Maths)
    requires m.cosine(Angle(0.0)) == 1.0 && m.sine(Angle(0.0)) == 0.0
    ensures DryGoal(0.0, 1.0, m.cosine) == DryGoal(0.0, 0.0, m.cosine) == 1.0
    ensures WetGoal(0.0, 1.0, m.sine) == WetGoal(0.0, 0.0, m.sine) == 0.0
  {
  }

  lemma ShapesOfOne(tanh: real -> real)
    requires 0.5 < tanh(1.0) <= 1.0
    ensures Shape(tanh, 1.0, 1.0, 1.0, 1.0) == 0.5 && Shape(tanh, 0.0, 1.0, 1.0, 1.0) == tanh(1.0)
  {
  }

  /** The first sample of a chain that is in its reset state, when the wet gain is zero: only the dry path and
      the limiter count. */
  lemma FirstDrySample(m: Maths, c: Chain, k: SoundControls, x: real)
    requires k.preset >= PRESET_COUNT && c.audio.mixer.gains.Unprimed? && c.audio.limiter.knee.Unprimed?
    requires WetGoal(c.audio.mixer.wetAmount, c.audio.mixer.mode, m.sine) == 0.0
    ensures var l := c.audio.limiter;
            Process(m, c, k, [x], 1).1 ==
            [Shape(m.tanh, l.kneeBlend, l.makeupGain, l.ceiling,
                   DryGoal(c.audio.mixer.wetAmount, c.audio.mixer.mode, m.cosine) * x)]
  {
    hide PairSample, Shape, DryGoal, WetGoal, ActiveCombs, ChainRun;
    var a := Apply(c, k).audio;
    var t := Tagged([x], 1);
    ChainRunNext(m, a, t, 0);
    ChainRunNothing(m, a);
    assert t[..0] == [] && t[..1] == t && t[0] == (0, x);
    var u := PairSample(a.pair, (0, x)).1;
    assert 0.0 * u == 0.0;
  }

  /** An ambient chain that is reset and then told no preset keeps the soft knee: it plays a full-scale sample
      at one half, where a new chain plays tanh 1. */
  lemma ResetKeepsTheKnee(m: Maths)
    requires m.cosine(Angle(0.0)) == 1.0 && m.sine(Angle(0.0)) == 0.0 && 0.5 < m.tanh(1.0) <= 1.0
    ensures Built(AmbientOnce(m), 480)
    ensures Process(m, Reset(AmbientOnce(m)), NoPresetWords(), [1.0], 1).1 == [0.5]
    ensures Process(m, Rebuilt(AmbientOnce(m)), NoPresetWords(), [1.0], 1).1 == [m.tanh(1.0)]
  {
    hide ChainSample, ChainRun, ActiveCombs, DryGoal, WetGoal, Shape;
    var n := NewChain(0.0, 1.0, 480);
    BuiltStays(m, n, Controls(2, 128), [0.0], 1, 480);
    var c := AmbientOnce(m);
    RunKeepsTuning(m, Apply(n, Controls(2, 128)).audio, Tagged([0.0], 1));
    var t := Tuning(Apply(n, Controls(2, 128)).audio);
    assert t == Tuning(c.audio);
    assert t.mixer.wetAmount == 0.0 && t.mixer.mode == 1.0;
    assert t.limiter == Limiter(1.0, 1.0, 1.0, 480, Knee.Unprimed);
    assert Reset(c).audio.mixer == t.mixer && Reset(c).audio.limiter == t.limiter;
    GoalsWhenDry(m);
    FirstDrySample(m, Reset(c), NoPresetWords(), 1.0);
    FirstDrySample(m, Rebuilt(c), NoPresetWords(), 1.0);
    ShapesOfOne(m.tanh);
  }
}
