/** Dry/wet crossfade with ramped gains (src/audio/MixerStage.h, src/audio/MixerStage.cpp).
    Cosine and sine are parameters: nothing here depends on what they are. */
module MixerStages {
  import opened LinearRamps
  import opened RealFacts
  import opened Transducers
  import opened Interleaving

  const HALF_PI: real := 1.57079632679

  function Angle(wetAmount: real): real {
    wetAmount * HALF_PI
  }

  /** A dry and a wet sample under their gains. */
  function Weigh(dg: real, dry: real, wg: real, wet: real): real {
    dg * dry + wg * wet
  }

  /** Gain of the dry signal: from linear (mode 0) to equal power (mode 1). */
  function DryGoal(wetAmount: real, mode: real, cosine: real -> real): real {
    (1.0 - mode) * (1.0 - wetAmount) + mode * cosine(Angle(wetAmount))
  }

  function WetGoal(wetAmount: real, mode: real, sine: real -> real): real {
    (1.0 - mode) * wetAmount + mode * sine(Angle(wetAmount))
  }

  lemma EndGoals(wetAmount: real, cosine: real -> real, sine: real -> real)
    ensures DryGoal(wetAmount, 0.0, cosine) == 1.0 - wetAmount && WetGoal(wetAmount, 0.0, sine) == wetAmount
    ensures DryGoal(wetAmount, 1.0, cosine) == cosine(Angle(wetAmount))
    ensures WetGoal(wetAmount, 1.0, sine) == sine(Angle(wetAmount))
  {
  }

  /** The linear mode keeps the sum of both gains, and the equal-power mode the sum of their squares. */
  lemma GoalsKeep(wetAmount: real, cosine: real -> real, sine: real -> real)
    requires var c, s := cosine(Angle(wetAmount)), sine(Angle(wetAmount)); c * c + s * s == 1.0
    ensures DryGoal(wetAmount, 0.0, cosine) + WetGoal(wetAmount, 0.0, sine) == 1.0
    ensures var d, w := DryGoal(wetAmount, 1.0, cosine), WetGoal(wetAmount, 1.0, sine);
            d * d + w * w == 1.0
    ensures WetGoal(wetAmount, 0.0, sine) == wetAmount && DryGoal(wetAmount, 1.0, cosine) == cosine(Angle(wetAmount))
  {
    EndGoals(wetAmount, cosine, sine);
    hide DryGoal, WetGoal;
  }

  /** In between, the goals are in between. */
  lemma GoalsBlend(wetAmount: real, mode: real, cosine: real -> real, sine: real -> real)
    ensures DryGoal(wetAmount, mode, cosine) ==
            Crossfade(mode, DryGoal(wetAmount, 0.0, cosine), DryGoal(wetAmount, 1.0, cosine))
    ensures WetGoal(wetAmount, mode, sine) ==
            Crossfade(mode, WetGoal(wetAmount, 0.0, sine), WetGoal(wetAmount, 1.0, sine))
  {
    EndGoals(wetAmount, cosine, sine);
  }

  /** At both ends of the amount only one of the signals is left, in every mode; halfway both are as loud. */
  lemma OneSignalAtTheEnds(mode: real, cosine: real -> real, sine: real -> real)
    requires cosine(0.0) == sine(HALF_PI) == 1.0 && cosine(HALF_PI) == sine(0.0) == 0.0
    requires cosine(HALF_PI / 2.0) == sine(HALF_PI / 2.0)
    ensures DryGoal(0.0, mode, cosine) == WetGoal(1.0, mode, sine) == 1.0
    ensures DryGoal(1.0, mode, cosine) == WetGoal(0.0, mode, sine) == 0.0
    ensures DryGoal(0.5, mode, cosine) == WetGoal(0.5, mode, sine)
  {
    assert Angle(0.0) == 0.0 && Angle(1.0) == HALF_PI && Angle(0.5) == HALF_PI / 2.0;
  }

  datatype Gains = Unprimed | Primed(dry: Ramp, wet: Ramp)

  /** A mixer: its settings, and its two gain ramps once they have been primed. */
  datatype Mixer = Mixer(wetAmount: real, mode: real, rampFrames: nat, gains: Gains)
  {
    predicate Valid() {
      gains.Primed? ==> gains.dry.Valid() && gains.wet.Valid()
    }

    /** Aim the gains at what the settings ask for; the first time, jump there. */
    function Aim(cosine: real -> real, sine: real -> real): Mixer {
      var d, w := DryGoal(wetAmount, mode, cosine), WetGoal(wetAmount, mode, sine);
      match gains
      case Unprimed => this.(gains := Primed(Settled(d), Settled(w)))
      case Primed(dry, wet) => this.(gains := Primed(dry.Retarget(d, rampFrames), wet.Retarget(w, rampFrames)))
    }

    /** One frame of the ramps. */
    function Advance(): Mixer {
      match gains
      case Unprimed => this
      case Primed(dry, wet) => this.(gains := Primed(dry.Next(), wet.Next()))
    }

    function AdvanceBy(frames: nat): Mixer {
      if frames == 0 then this else AdvanceBy(frames - 1).Advance()
    }

    function Blend(dry: real, wet: real): real {
      match gains
      case Unprimed => 0.0
      case Primed(d, w) => Weigh(d.value, dry, w.value, wet)
    }
  }

  lemma AimValid(m: Mixer, cosine: real -> real, sine: real -> real)
    requires m.Valid()
    ensures m.Aim(cosine, sine).Valid() && m.Aim(cosine, sine).Advance().Valid()
  {
    var p := m.Aim(cosine, sine);
    NextValid(p.gains.dry);
    NextValid(p.gains.wet);
  }

  type SoundMixer = m: Mixer | m.Valid() witness Mixer(0.5, 0.0, 480, Unprimed)

  function NewMixer(wetAmount: real, mode: real, rampFrames: nat): SoundMixer {
    Mixer(wetAmount, mode, rampFrames, Unprimed)
  }

  /** One sample: the ramps move once per frame, at its first channel. */
  function MixSample(cosine: real -> real, sine: real -> real, m: SoundMixer, x: (nat, real, real)):
    (SoundMixer, real)
  {
    AimValid(m, cosine, sine);
    var now := if x.0 == 0 then m.Aim(cosine, sine).Advance() else m;
    (now, now.Blend(x.1, x.2))
  }

  function MixStep(cosine: real -> real, sine: real -> real): (SoundMixer, (nat, real, real)) -> (SoundMixer, real) {
    (m: SoundMixer, x: (nat, real, real)) => MixSample(cosine, sine, m, x)
  }

  function MixRun(cosine: real -> real, sine: real -> real, m: SoundMixer, xs: seq<(nat, real, real)>):
    (res: (SoundMixer, seq<real>))
    ensures |res.1| == |xs|
  {
    Run<SoundMixer, (nat, real, real), real>(MixStep(cosine, sine), m, xs)
  }

  /** Aiming is idempotent, and moving the ramps does not change what they aim at. */
  lemma AimSettles(m: Mixer, cosine: real -> real, sine: real -> real)
    ensures m.Aim(cosine, sine).Aim(cosine, sine) == m.Aim(cosine, sine)
    ensures m.Aim(cosine, sine).Advance().Aim(cosine, sine) == m.Aim(cosine, sine).Advance()
  {
    hide DryGoal, WetGoal;
  }

  lemma OneSample(cosine: real -> real, sine: real -> real, m: SoundMixer, xs: seq<(nat, real, real)>)
    requires |xs| == 1
    ensures MixRun(cosine, sine, m, xs) == (MixSample(cosine, sine, m, xs[0]).0, [MixSample(cosine, sine, m, xs[0]).1])
  {
    var step := MixStep(cosine, sine);
    RunNext<SoundMixer, (nat, real, real), real>(step, m, xs, 0);
    assert xs[..1] == xs && xs[..0] == [];
    var now := step(m, xs[0]);
    assert now == MixSample(cosine, sine, m, xs[0]);
    assert [] + [now.1] == [now.1];
  }

  /** Aiming before a run that has samples changes nothing: the first frame aims anyway. */
  lemma {:induction false} AimAbsorbed(m: SoundMixer, cosine: real -> real, sine: real -> real,
                                       xs: seq<(nat, real, real)>)
    requires |xs| > 0 && xs[0].0 == 0
    ensures m.Aim(cosine, sine).Valid()
    ensures MixRun(cosine, sine, m.Aim(cosine, sine), xs) == MixRun(cosine, sine, m, xs)
    decreases |xs|
  {
    AimValid(m, cosine, sine);
    AimSettles(m, cosine, sine);
    hide Mixer.Aim, Mixer.Advance, Mixer.Blend;
    if |xs| == 1 {
      OneSample(cosine, sine, m, xs);
      OneSample(cosine, sine, m.Aim(cosine, sine), xs);
    } else {
      AimAbsorbed(m, cosine, sine, xs[..|xs| - 1]);
    }
  }

  lemma MixRunAppend(cosine: real -> real, sine: real -> real, m: SoundMixer, xs: seq<(nat, real, real)>, i: nat,
                     j: nat)
    requires i <= j <= |xs|
    ensures var head := MixRun(cosine, sine, m, xs[..i]);
            var tail := MixRun(cosine, sine, head.0, xs[i..j]);
            MixRun(cosine, sine, m, xs[..j]) == (tail.0, head.1 + tail.1)
  {
    hide Run, MixSample;
    RunAppend<SoundMixer, (nat, real, real), real>(MixStep(cosine, sine), m, xs[..i], xs[i..j]);
    assert xs[..i] + xs[i..j] == xs[..j];
  }

  lemma BlendWeighs(m: Mixer, dry: real, wet: real)
    requires m.gains.Primed?
    ensures m.Blend(dry, wet) == Weigh(m.gains.dry.value, dry, m.gains.wet.value, wet)
  {
  }

  /** One frame of a run: the ramps move once, and every channel is blended with the same gains. */
  lemma {:induction false} FrameRun(cosine: real -> real, sine: real -> real, m: SoundMixer,
                                    inputs: seq<(nat, real, real)>,
                                    dry: seq<real>, wet: seq<real>, f: nat, channels: nat, k: nat)
    requires 1 <= k <= channels && |dry| == |wet| && inputs == TaggedPair(dry, wet, channels) &&
             f * channels + k <= |inputs|
    ensures m.Aim(cosine, sine).Advance().Valid()
    ensures var at := f * channels;
            var run := MixRun(cosine, sine, m, inputs[at..at + k]);
            && run.0 == m.Aim(cosine, sine).Advance()
            && forall ch :: 0 <= ch < k ==> run.1[ch] == m.Aim(cosine, sine).Advance().Blend(dry[at + ch], wet[at + ch])
    decreases k
  {
    AimValid(m, cosine, sine);
    var at := f * channels;
    ChannelOf(f, k - 1, channels);
    RunNext<SoundMixer, (nat, real, real), real>(MixStep(cosine, sine), m, inputs[at..at + k], k - 1);
    assert inputs[at..at + k][..k] == inputs[at..at + k];
    assert inputs[at..at + k][..k - 1] == inputs[at..at + k - 1];
    if k > 1 {
      FrameRun(cosine, sine, m, inputs, dry, wet, f, channels, k - 1);
    }
  }

  /** The run over one more frame, whose samples have been blended with the gains after one advance. */
  lemma MixedFrame(cosine: real -> real, sine: real -> real, m: SoundMixer, before: Mixer, after: Mixer,
                   xs: seq<real>, ys: seq<real>, f: nat, channels: nat, at: nat, done: seq<real>, frame: seq<real>)
    requires channels > 0 && |xs| == |ys| && at == f * channels && at + channels <= |xs| && before.Valid()
    requires MixRun(cosine, sine, m, TaggedPair(xs, ys, channels)[..at]) == (before, done)
    requires before.Aim(cosine, sine) == before && after == before.Advance() && after.gains.Primed?
    requires |frame| == channels && forall ch :: 0 <= ch < channels ==>
               frame[ch] == Weigh(after.gains.dry.value, xs[at + ch], after.gains.wet.value, ys[at + ch])
    ensures after.Valid()
    ensures MixRun(cosine, sine, m, TaggedPair(xs, ys, channels)[..at + channels]) == (after, done + frame)
  {
    hide Mixer.Aim, Mixer.Advance, Mixer.Blend, Weigh, Run, MixRun;
    var inputs := TaggedPair(xs, ys, channels);
    FrameRun(cosine, sine, before, inputs, xs, ys, f, channels, channels);
    var run := MixRun(cosine, sine, before, inputs[at..at + channels]);
    assert frame == run.1 by {
      forall ch | 0 <= ch < channels ensures frame[ch] == run.1[ch] {
        BlendWeighs(after, xs[at + ch], ys[at + ch]);
      }
    }
    MixRunAppend(cosine, sine, m, inputs, at, at + channels);
  }

  // ---------------------------------------------------------------- gliding to new gains

  lemma {:induction false} AdvancedBy(m: Mixer, k: nat)
    requires m.gains.Primed?
    ensures m.AdvanceBy(k) == m.(gains := Primed(m.gains.dry.After(k), m.gains.wet.After(k)))
    decreases k
  {
    if k > 0 {
      AdvancedBy(m, k - 1);
      OneMoreSample(m.gains.dry, k - 1);
      OneMoreSample(m.gains.wet, k - 1);
    }
  }

  lemma {:induction false} StaysAimed(m: Mixer, cosine: real -> real, sine: real -> real, k: nat)
    ensures var a := m.Aim(cosine, sine).AdvanceBy(k); a.Aim(cosine, sine) == a
    decreases k
  {
    hide DryGoal, WetGoal;
    if k > 0 {
      StaysAimed(m, cosine, sine, k - 1);
    }
  }

  /** A run of single samples aims once and then moves the ramps once per sample. */
  lemma {:induction false} MonoRun(m: SoundMixer, cosine: real -> real, sine: real -> real, xs: seq<(nat, real, real)>)
    requires |xs| > 0 && forall i :: 0 <= i < |xs| ==> xs[i].0 == 0
    ensures MixRun(cosine, sine, m, xs).0 == m.Aim(cosine, sine).AdvanceBy(|xs|)
    decreases |xs|
  {
    hide Mixer.Aim, Mixer.Advance, Mixer.Blend;
    AimSettles(m, cosine, sine);
    if |xs| == 1 {
      OneSample(cosine, sine, m, xs);
      assert m.Aim(cosine, sine).AdvanceBy(0) == m.Aim(cosine, sine);
    } else {
      var n := |xs| - 1;
      MonoRun(m, cosine, sine, xs[..n]);
      StaysAimed(m, cosine, sine, n);
    }
  }

  /** After a change of mode or amount both gains go to their new goals along straight lines, in as many frames as
      the ramp length says. */
  lemma GainsGlide(m: SoundMixer, cosine: real -> real, sine: real -> real, xs: seq<(nat, real, real)>)
    requires m.gains.Primed? && |xs| > 0 && forall i :: 0 <= i < |xs| ==> xs[i].0 == 0
    ensures var d, w := DryGoal(m.wetAmount, m.mode, cosine), WetGoal(m.wetAmount, m.mode, sine);
            var n := if m.rampFrames == 0 then 1 else m.rampFrames;
            var now := MixRun(cosine, sine, m, xs).0.gains;
            && now.Primed?
            && (d != m.gains.dry.target && |xs| <= n ==>
                  now.dry.value == m.gains.dry.value + (d - m.gains.dry.value) / (n as real) * (|xs| as real))
            && (w != m.gains.wet.target && |xs| <= n ==>
                  now.wet.value == m.gains.wet.value + (w - m.gains.wet.value) / (n as real) * (|xs| as real))
            && (d != m.gains.dry.target && w != m.gains.wet.target && |xs| >= n ==>
                  now == Primed(Settled(d), Settled(w)))
  {
    hide DryGoal, WetGoal, Ramp.After, MixRun;
    var d, w := DryGoal(m.wetAmount, m.mode, cosine), WetGoal(m.wetAmount, m.mode, sine);
    MonoRun(m, cosine, sine, xs);
    AdvancedBy(m.Aim(cosine, sine), |xs|);
    if d != m.gains.dry.target {
      GlidesThenRests(m.gains.dry, d, m.rampFrames, |xs|);
    }
    if w != m.gains.wet.target {
      GlidesThenRests(m.gains.wet, w, m.rampFrames, |xs|);
    }
    hide Mixer.AdvanceBy;
  }

  lemma RunNothing(cosine: real -> real, sine: real -> real, m: SoundMixer)
    ensures MixRun(cosine, sine, m, []) == (m, [])
  {
  }

  class MixerStage {
    const cosine: real -> real
    const sine: real -> real
    const dryGain: LinearRamp
    const wetGain: LinearRamp
    var primed: bool
    var rampFrames: nat
    var wetAmount: real
    var crossfadeMode: real

    ghost const Repr: set<object>

    ghost predicate Valid()
      reads Repr
    {
      Repr == {this, dryGain, wetGain} && dryGain != wetGain && dryGain.Valid() && wetGain.Valid()
    }

    ghost function View(): Mixer
      requires Valid()
      reads Repr
    {
      Mixer(wetAmount, crossfadeMode, rampFrames, if primed then Primed(dryGain.View(), wetGain.View()) else Unprimed)
    }

    constructor (cosine: real -> real, sine: real -> real)
      ensures Valid() && fresh(Repr) && View() == NewMixer(0.5, 0.0, 480)
      ensures this.cosine == cosine && this.sine == sine
    {
      this.cosine, this.sine := cosine, sine;
      dryGain := new LinearRamp(0.5);
      wetGain := new LinearRamp(0.5);
      primed, rampFrames, wetAmount, crossfadeMode := false, 480, 0.5, 0.0;
      Repr := {this, dryGain, wetGain};
    }

    method SetWet(wet: real)
      requires Valid()
      modifies this`wetAmount
      ensures Valid() && View() == old(View()).(wetAmount := Clamp(wet, 0.0, 1.0))
    {
      wetAmount := if wet < 0.0 then 0.0 else if wet > 1.0 then 1.0 else wet;
    }

    method SetCrossfadeMode(mode: real)
      requires Valid()
      modifies this`crossfadeMode
      ensures Valid() && View() == old(View()).(mode := mode)
    {
      crossfadeMode := mode;
    }

    method SetRampFrames(frames: nat)
      requires Valid()
      modifies this`rampFrames
      ensures Valid() && View() == old(View()).(rampFrames := frames)
    {
      rampFrames := frames;
    }

    method Reset()
      requires Valid()
      modifies this`primed
      ensures Valid() && View() == old(View()).(gains := Unprimed)
    {
      primed := false;
    }

    /** Start of a block: trigonometry once, then aim. */
    method Aim()
      requires Valid()
      modifies Repr
      ensures Valid() && View() == old(View()).Aim(cosine, sine)
    {
      var angle := Angle(wetAmount);
      var d := (1.0 - crossfadeMode) * (1.0 - wetAmount) + crossfadeMode * cosine(angle);
      var w := (1.0 - crossfadeMode) * wetAmount + crossfadeMode * sine(angle);
      assert d == DryGoal(wetAmount, crossfadeMode, cosine) && w == WetGoal(wetAmount, crossfadeMode, sine);
      hide DryGoal, WetGoal;
      if !primed {
        dryGain.Snap(d);
        wetGain.Snap(w);
        primed := true;
      }
      dryGain.Target(d, rampFrames);
      wetGain.Target(w, rampFrames);
    }

    method Advance() returns (dg: real, wg: real)
      requires Valid() && primed
      modifies dryGain, wetGain
      ensures Valid() && View() == old(View()).Advance()
      ensures primed && dg == View().gains.dry.value && wg == View().gains.wet.value
    {
      dg := dryGain.Next();
      wg := wetGain.Next();
    }

    /** The samples of one frame. */
    method MixFrame(dry: array<real>, wet: array<real>, out: array<real>, at: nat, channels: nat, dg: real, wg: real)
      returns (ghost frame: seq<real>)
      requires at + channels <= dry.Length && at + channels <= wet.Length && at + channels <= out.Length
      modifies out
      ensures |frame| == channels
      ensures forall ch :: 0 <= ch < channels ==> frame[ch] == Weigh(dg, old(dry[at + ch]), wg, old(wet[at + ch]))
      ensures out[..at + channels] == old(out[..at]) + frame
      ensures forall i :: 0 <= i < out.Length && !(at <= i < at + channels) ==> out[i] == old(out[i])
    {
      hide Weigh;
      for ch := 0 to channels
        invariant forall i :: at <= i < at + ch ==> out[i] == Weigh(dg, old(dry[i]), wg, old(wet[i]))
        invariant forall i :: 0 <= i < out.Length && !(at <= i < at + ch) ==> out[i] == old(out[i])
      {
        var i := at + ch;
        out[i] := Weigh(dg, dry[i], wg, wet[i]);
      }
      frame := out[at..at + channels];
      forall ch | 0 <= ch < channels
        ensures frame[ch] == Weigh(dg, old(dry[at + ch]), wg, old(wet[at + ch]))
      {
        assert frame[ch] == out[at + ch];
      }
      SlicesJoin(out, 0, at, at + channels);
      assert out[..at] == old(out[..at]);
    }

    /** One frame, in terms of the run over the whole block of dry and wet samples `xs` and `ys`. */
    method MixAt(dry: array<real>, wet: array<real>, out: array<real>, at: nat, channels: nat, ghost n: nat,
                 ghost f: nat, ghost m: SoundMixer, ghost xs: seq<real>, ghost ys: seq<real>)
      requires Valid() && primed && at == f * channels && at + channels <= n == |xs| == |ys|
      requires n <= dry.Length && n <= wet.Length && n <= out.Length
      requires dry[at..n] == xs[at..] && wet[at..n] == ys[at..]
      requires View().Aim(cosine, sine) == View()
      requires channels > 0 ==> MixRun(cosine, sine, m, TaggedPair(xs, ys, channels)[..at]) == (View(), out[..at])
      modifies dryGain, wetGain, out
      ensures Valid() && primed && View() == old(View()).Advance() && View().Aim(cosine, sine) == View()
      ensures channels > 0 ==>
                MixRun(cosine, sine, m, TaggedPair(xs, ys, channels)[..at + channels]) == (View(), out[..at + channels])
      ensures dry[at + channels..n] == xs[at + channels..] && wet[at + channels..n] == ys[at + channels..]
      ensures out[n..] == old(out[n..])
    {
      hide Mixer.Aim, Mixer.Advance, Mixer.Blend, Weigh, Run, MixRun;
      ghost var done := out[..at];
      ghost var before := View();
      AimSettles(before, cosine, sine);
      SliceValues(dry, at, n, xs);
      SliceValues(wet, at, n, ys);
      var dg, wg := Advance();
      ghost var frame := MixFrame(dry, wet, out, at, channels, dg, wg);
      ValuesSlice(dry, at + channels, n, xs);
      ValuesSlice(wet, at + channels, n, ys);
      if channels > 0 {
        MixedFrame(cosine, sine, m, before, View(), xs, ys, f, channels, at, done, frame);
      }
    }

    /** One block of interleaved audio. The output may be the dry or the wet array. Without channels, only the
        ramps move. */
    method Mix(dry: array<real>, wet: array<real>, out: array<real>, frames: nat, channels: nat)
      requires Valid() && BlockSize(frames, channels) <= out.Length
      requires BlockSize(frames, channels) <= dry.Length && BlockSize(frames, channels) <= wet.Length
      modifies Repr, out
      ensures Valid()
      ensures channels > 0 ==>
                && old(View()).Aim(cosine, sine).Valid()
                && MixRun(cosine, sine, old(View()).Aim(cosine, sine),
                          TaggedPair(old(dry[..BlockSize(frames, channels)]), old(wet[..BlockSize(frames, channels)]),
                                     channels)) ==
                   (View(), out[..BlockSize(frames, channels)])
      ensures channels == 0 ==> View() == old(View()).Aim(cosine, sine).AdvanceBy(frames)
      ensures out[BlockSize(frames, channels)..] == old(out[BlockSize(frames, channels)..])
    {
      ghost var n := BlockSize(frames, channels);
      ghost var xs, ys := dry[..n], wet[..n];
      AimValid(View(), cosine, sine);
      AimSettles(View(), cosine, sine);
      Aim();
      MixFrames(dry, wet, out, frames, channels, n, xs, ys);
    }

    method MixFrames(dry: array<real>, wet: array<real>, out: array<real>, frames: nat, channels: nat,
                     ghost n: nat, ghost xs: seq<real>, ghost ys: seq<real>)
      requires Valid() && primed && n == BlockSize(frames, channels)
      requires n <= dry.Length && n <= wet.Length && n <= out.Length && xs == dry[..n] && ys == wet[..n]
      requires View().Valid() && View().Aim(cosine, sine) == View()
      modifies dryGain, wetGain, out
      ensures Valid() && View() == old(View()).AdvanceBy(frames)
      ensures channels > 0 ==> MixRun(cosine, sine, old(View()), TaggedPair(xs, ys, channels)) == (View(), out[..n])
      ensures out[n..] == old(out[n..])
    {
      hide Mixer.Aim, Mixer.Advance, Mixer.Blend, Weigh, Run, MixRun;
      ghost var m: SoundMixer := View();
      RunNothing(cosine, sine, m);
      assert channels > 0 ==> TaggedPair(xs, ys, channels)[..0] == [];
      assert out[..0] == [];
      ghost var tail := out[n..];
      var at := 0;
      for f := 0 to frames
        invariant Valid() && primed && at == f * channels <= n
        invariant View().Aim(cosine, sine) == View() && View() == m.AdvanceBy(f)
        invariant channels > 0 ==> MixRun(cosine, sine, m, TaggedPair(xs, ys, channels)[..at]) == (View(), out[..at])
        invariant out[n..] == tail && dry[at..n] == xs[at..] && wet[at..n] == ys[at..]
      {
        WithinBlock(f, frames, channels);
        MixAt(dry, wet, out, at, channels, n, f, m, xs, ys);
        NextFrame(f, channels);
        at := at + channels;
      }
      assert channels > 0 ==> TaggedPair(xs, ys, channels)[..n] == TaggedPair(xs, ys, channels);
    }
  }
}
