/** Soft clipping with a ramped knee and a hard ceiling (src/audio/LimiterStage.h, src/audio/LimiterStage.cpp).
    The hyperbolic tangent is a parameter. */
module LimiterStages {
  import opened LinearRamps
  import opened RealFacts
  import opened Transducers
  import opened Interleaving

  datatype Knee = Unprimed | Primed(ramp: Ramp)

  datatype Limiter = Limiter(kneeBlend: real, makeupGain: real, ceiling: real, rampFrames: nat, knee: Knee)
  {
    predicate Valid() {
      knee.Primed? ==> knee.ramp.Valid()
    }

    function Aim(): Limiter {
      match knee
      case Unprimed => this.(knee := Primed(Settled(kneeBlend)))
      case Primed(r) => this.(knee := Primed(r.Retarget(kneeBlend, rampFrames)))
    }

    function Advance(): Limiter {
      match knee
      case Unprimed => this
      case Primed(r) => this.(knee := Primed(r.Next()))
    }

    function AdvanceBy(frames: nat): Limiter {
      if frames == 0 then this else AdvanceBy(frames - 1).Advance()
    }

    function KneeNow(): real {
      if knee.Primed? then knee.ramp.value else 0.0
    }
  }

  function Soft(x: real): real {
    x / (1.0 + Abs(x))
  }

  /** One sample: tanh, blended with a rational curve as the knee softens, then clamped to the ceiling. */
  function Shape(tanh: real -> real, knee: real, gain: real, ceiling: real, x: real): (y: real)
    ensures 0.0 <= ceiling ==> -ceiling <= y <= ceiling
  {
    var hard := tanh(x * gain);
    var y := if knee > 0.0 then Crossfade(knee, hard, Soft(x * gain)) else hard;
    if y > ceiling then ceiling else if y < -ceiling then -ceiling else y
  }

  lemma SoftWithin(u: real)
    ensures Abs(Soft(u)) <= 1.0 && Soft(u) * (1.0 + Abs(u)) == u
  {
    QuotientTimes(u, 1.0 + Abs(u));
    QuotientWithin(u, 1.0 + Abs(u), 1.0);
  }

  lemma CrossfadeIs(p: real, x: real, y: real)
    ensures Crossfade(p, x, y) == (1.0 - p) * x + p * y
  {
  }

  /** As long as tanh keeps to [-1, 1], a knee is a proportion and the ceiling is at least one, the ceiling never
      acts: what leaves is exactly the blend of both curves, and it lies between them. */
  lemma ShapeBlends(tanh: real -> real, knee: real, gain: real, ceiling: real, x: real)
    requires 0.0 <= knee <= 1.0 && Abs(tanh(x * gain)) <= 1.0 && 1.0 <= ceiling
    ensures var hard, soft := tanh(x * gain), Soft(x * gain);
            var y := Shape(tanh, knee, gain, ceiling, x);
            && soft * (1.0 + Abs(x * gain)) == x * gain
            && y == Crossfade(knee, hard, soft) == (1.0 - knee) * hard + knee * soft
            && Min(hard, soft) <= y <= Max(hard, soft)
            && (knee == 0.0 ==> y == hard) && (knee == 1.0 ==> y == soft)
  {
    hide Soft, Crossfade;
    SoftWithin(x * gain);
    CrossfadeBetween(knee, tanh(x * gain), Soft(x * gain));
    CrossfadeIs(knee, tanh(x * gain), Soft(x * gain));
  }

  lemma AimValid(l: Limiter)
    requires l.Valid()
    ensures l.Aim().Valid() && l.Aim().Advance().Valid()
  {
    NextValid(l.Aim().knee.ramp);
  }

  lemma AimSettles(l: Limiter)
    ensures l.Aim().Aim() == l.Aim()
    ensures l.Aim().Advance().Aim() == l.Aim().Advance()
  {
  }

  type SoundLimiter = l: Limiter | l.Valid() witness Limiter(0.0, 1.0, 1.0, 480, Unprimed)

  function NewLimiter(kneeBlend: real, makeupGain: real, rampFrames: nat): SoundLimiter {
    Limiter(kneeBlend, makeupGain, 1.0, rampFrames, Unprimed)
  }

  /** One sample: the knee moves once per frame, at its first channel. */
  function LimitSample(tanh: real -> real, l: SoundLimiter, x: (nat, real)): (SoundLimiter, real) {
    AimValid(l);
    var now := if x.0 == 0 then l.Aim().Advance() else l;
    (now, Shape(tanh, now.KneeNow(), now.makeupGain, now.ceiling, x.1))
  }

  function LimitStep(tanh: real -> real): (SoundLimiter, (nat, real)) -> (SoundLimiter, real) {
    (l: SoundLimiter, x: (nat, real)) => LimitSample(tanh, l, x)
  }

  function LimitRun(tanh: real -> real, l: SoundLimiter, xs: seq<(nat, real)>): (res: (SoundLimiter, seq<real>))
    ensures |res.1| == |xs|
  {
    Run<SoundLimiter, (nat, real), real>(LimitStep(tanh), l, xs)
  }

  lemma OneSample(tanh: real -> real, l: SoundLimiter, xs: seq<(nat, real)>)
    requires |xs| == 1
    ensures LimitRun(tanh, l, xs) == (LimitSample(tanh, l, xs[0]).0, [LimitSample(tanh, l, xs[0]).1])
  {
    var step := LimitStep(tanh);
    RunNext<SoundLimiter, (nat, real), real>(step, l, xs, 0);
    assert xs[..1] == xs && xs[..0] == [];
    var now := step(l, xs[0]);
    assert now == LimitSample(tanh, l, xs[0]);
    assert [] + [now.1] == [now.1];
  }

  /** Aiming before a run that has samples changes nothing: the first frame aims anyway. */
  lemma {:induction false} AimAbsorbed(tanh: real -> real, l: SoundLimiter, xs: seq<(nat, real)>)
    requires |xs| > 0 && xs[0].0 == 0
    ensures l.Aim().Valid()
    ensures LimitRun(tanh, l.Aim(), xs) == LimitRun(tanh, l, xs)
    decreases |xs|
  {
    AimValid(l);
    AimSettles(l);
    hide Limiter.Aim, Limiter.Advance, Shape;
    if |xs| == 1 {
      OneSample(tanh, l, xs);
      OneSample(tanh, l.Aim(), xs);
    } else {
      AimAbsorbed(tanh, l, xs[..|xs| - 1]);
    }
  }

  // ---------------------------------------------------------------- gliding to a new knee

  lemma {:induction false} AdvancedBy(l: Limiter, k: nat)
    requires l.knee.Primed?
    ensures l.AdvanceBy(k) == l.(knee := Primed(l.knee.ramp.After(k)))
    decreases k
  {
    if k > 0 {
      AdvancedBy(l, k - 1);
      OneMoreSample(l.knee.ramp, k - 1);
    }
  }

  lemma {:induction false} StaysAimed(l: Limiter, k: nat)
    ensures l.Aim().AdvanceBy(k).Aim() == l.Aim().AdvanceBy(k)
    decreases k
  {
    if k > 0 {
      StaysAimed(l, k - 1);
    }
  }

  /** A run of single samples aims once and then moves the knee once per sample. */
  lemma {:induction false} MonoRun(tanh: real -> real, l: SoundLimiter, xs: seq<(nat, real)>)
    requires |xs| > 0 && forall i :: 0 <= i < |xs| ==> xs[i].0 == 0
    ensures LimitRun(tanh, l, xs).0 == l.Aim().AdvanceBy(|xs|)
    decreases |xs|
  {
    hide Limiter.Aim, Limiter.Advance, Shape;
    AimSettles(l);
    if |xs| == 1 {
      OneSample(tanh, l, xs);
      assert l.Aim().AdvanceBy(0) == l.Aim();
    } else {
      var n := |xs| - 1;
      MonoRun(tanh, l, xs[..n]);
      StaysAimed(l, n);
    }
  }

  /** After a change the knee goes to its new value along a straight line, in as many frames as the ramp length
      says. */
  lemma KneeGlides(tanh: real -> real, l: SoundLimiter, xs: seq<(nat, real)>)
    requires l.knee.Primed? && l.kneeBlend != l.knee.ramp.target
    requires |xs| > 0 && forall i :: 0 <= i < |xs| ==> xs[i].0 == 0
    ensures var r, n := l.knee.ramp, if l.rampFrames == 0 then 1 else l.rampFrames;
            var now := LimitRun(tanh, l, xs).0.knee;
            && now.Primed?
            && (|xs| <= n ==> now.ramp.value == r.value + (l.kneeBlend - r.value) / (n as real) * (|xs| as real))
            && (|xs| >= n ==> now.ramp == Settled(l.kneeBlend))
  {
    hide Ramp.After, LimitRun;
    MonoRun(tanh, l, xs);
    AdvancedBy(l.Aim(), |xs|);
    GlidesThenRests(l.knee.ramp, l.kneeBlend, l.rampFrames, |xs|);
    hide Limiter.AdvanceBy;
  }

  lemma RunNothing(tanh: real -> real, l: SoundLimiter)
    ensures LimitRun(tanh, l, []) == (l, [])
  {
  }

  lemma LimitRunAppend(tanh: real -> real, l: SoundLimiter, xs: seq<(nat, real)>, i: nat, j: nat)
    requires i <= j <= |xs|
    ensures var head := LimitRun(tanh, l, xs[..i]);
            var tail := LimitRun(tanh, head.0, xs[i..j]);
            LimitRun(tanh, l, xs[..j]) == (tail.0, head.1 + tail.1)
  {
    hide Run, LimitSample;
    RunAppend<SoundLimiter, (nat, real), real>(LimitStep(tanh), l, xs[..i], xs[i..j]);
    assert xs[..i] + xs[i..j] == xs[..j];
  }

  /** One frame of a run: the knee moves once, and every channel is shaped with it. */
  lemma {:induction false} FrameRun(tanh: real -> real, l: SoundLimiter, inputs: seq<(nat, real)>, xs: seq<real>,
                                    f: nat, channels: nat, k: nat)
    requires 1 <= k <= channels && inputs == Tagged(xs, channels) && f * channels + k <= |inputs|
    ensures l.Aim().Advance().Valid()
    ensures var at := f * channels;
            var run := LimitRun(tanh, l, inputs[at..at + k]);
            var now := l.Aim().Advance();
            && run.0 == now
            && forall ch :: 0 <= ch < k ==>
                 run.1[ch] == Shape(tanh, now.KneeNow(), now.makeupGain, now.ceiling, xs[at + ch])
    decreases k
  {
    AimValid(l);
    hide Shape;
    var at := f * channels;
    ChannelOf(f, k - 1, channels);
    RunNext<SoundLimiter, (nat, real), real>(LimitStep(tanh), l, inputs[at..at + k], k - 1);
    assert inputs[at..at + k][..k] == inputs[at..at + k];
    assert inputs[at..at + k][..k - 1] == inputs[at..at + k - 1];
    if k > 1 {
      FrameRun(tanh, l, inputs, xs, f, channels, k - 1);
    }
  }

  /** The run over one more frame, whose samples have been shaped with the knee after one advance. */
  lemma LimitedFrame(tanh: real -> real, l: SoundLimiter, before: Limiter, after: Limiter, xs: seq<real>, f: nat,
                     channels: nat, at: nat, done: seq<real>, frame: seq<real>)
    requires channels > 0 && at == f * channels && at + channels <= |xs| && before.Valid()
    requires LimitRun(tanh, l, Tagged(xs, channels)[..at]) == (before, done)
    requires before.Aim() == before && after == before.Advance()
    requires |frame| == channels && forall ch :: 0 <= ch < channels ==>
               frame[ch] == Shape(tanh, after.KneeNow(), after.makeupGain, after.ceiling, xs[at + ch])
    ensures after.Valid()
    ensures LimitRun(tanh, l, Tagged(xs, channels)[..at + channels]) == (after, done + frame)
  {
    hide Limiter.Aim, Limiter.Advance, Shape, Run, LimitRun;
    var inputs := Tagged(xs, channels);
    FrameRun(tanh, before, inputs, xs, f, channels, channels);
    assert frame == LimitRun(tanh, before, inputs[at..at + channels]).1;
    LimitRunAppend(tanh, l, inputs, at, at + channels);
  }

  class LimiterStage {
    const tanh: real -> real
    const kneeRamp: LinearRamp
    const ceiling: real
    var primed: bool
    var rampFrames: nat
    var makeupGain: real
    var kneeBlend: real

    ghost const Repr: set<object>

    ghost predicate Valid()
      reads Repr
    {
      Repr == {this, kneeRamp} && kneeRamp.Valid()
    }

    ghost function View(): Limiter
      requires Valid()
      reads Repr
    {
      Limiter(kneeBlend, makeupGain, ceiling, rampFrames, if primed then Primed(kneeRamp.View()) else Unprimed)
    }

    constructor (tanh: real -> real)
      ensures Valid() && fresh(Repr) && View() == NewLimiter(0.0, 1.0, 480)
      ensures this.tanh == tanh
    {
      this.tanh := tanh;
      kneeRamp := new LinearRamp(0.0);
      primed, rampFrames, makeupGain, ceiling, kneeBlend := false, 480, 1.0, 1.0, 0.0;
      Repr := {this, kneeRamp};
    }

    method SetMakeupGain(g: real)
      requires Valid()
      modifies this`makeupGain
      ensures Valid() && View() == old(View()).(makeupGain := g)
    {
      makeupGain := g;
    }

    method SetKneeBlend(k: real)
      requires Valid()
      modifies this`kneeBlend
      ensures Valid() && View() == old(View()).(kneeBlend := k)
    {
      kneeBlend := k;
    }

    method SetRampFrames(frames: nat)
      requires Valid()
      modifies this`rampFrames
      ensures Valid() && View() == old(View()).(rampFrames := frames)
    {
      rampFrames := frames;
    }

    method Reset()
      requires Valid()
      modifies this`primed
      ensures Valid() && View() == old(View()).(knee := Unprimed)
    {
      primed := false;
    }

    method Aim()
      requires Valid()
      modifies Repr
      ensures Valid() && primed && View() == old(View()).Aim()
    {
      if !primed {
        kneeRamp.Snap(kneeBlend);
        primed := true;
      }
      kneeRamp.Target(kneeBlend, rampFrames);
    }

    method Advance() returns (knee: real)
      requires Valid() && primed
      modifies kneeRamp
      ensures Valid() && View() == old(View()).Advance() && knee == View().KneeNow()
    {
      knee := kneeRamp.Next();
    }

    method ShapeSample(x: real, knee: real) returns (y: real)
      ensures y == Shape(tanh, knee, makeupGain, ceiling, x)
    {
      y := tanh(x * makeupGain);
      if knee > 0.0 {
        var v := x * makeupGain;
        var soft := v / (1.0 + Abs(v));
        y := Crossfade(knee, y, soft);
      }
      if y > ceiling {
        y := ceiling;
      } else if y < -ceiling {
        y := -ceiling;
      }
    }

    /** The samples of one frame, from `input[at..]` to `output[base + at..]`. */
    method LimitSamples(input: array<real>, output: array<real>, base: nat, at: nat, channels: nat, knee: real)
      requires at + channels <= input.Length && base + at + channels <= output.Length
      requires input != output || base == 0
      modifies output
      ensures forall i :: at <= i < at + channels ==>
                output[base + i] == Shape(tanh, knee, makeupGain, ceiling, old(input[i]))
      ensures forall i :: 0 <= i < output.Length && !(base + at <= i < base + at + channels) ==>
              output[i] == old(output[i])
    {
      hide Shape;
      for ch := 0 to channels
        invariant forall i :: at <= i < at + ch ==>
                    output[base + i] == Shape(tanh, knee, makeupGain, ceiling, old(input[i]))
        invariant forall i :: 0 <= i < output.Length && !(base + at <= i < base + at + ch) ==>
                  output[i] == old(output[i])
      {
        var i := at + ch;
        var y := ShapeSample(input[i], knee);
        output[base + i] := y;
      }
    }

    method LimitFrame(input: array<real>, output: array<real>, base: nat, at: nat, channels: nat, knee: real)
      returns (ghost frame: seq<real>)
      requires at + channels <= input.Length && base + at + channels <= output.Length
      requires input != output || base == 0
      modifies output
      ensures |frame| == channels
      ensures forall ch :: 0 <= ch < channels ==>
                frame[ch] == Shape(tanh, knee, makeupGain, ceiling, old(input[at + ch]))
      ensures output[base..base + at + channels] == old(output[base..base + at]) + frame
      ensures forall i :: 0 <= i < output.Length && !(base + at <= i < base + at + channels) ==>
              output[i] == old(output[i])
    {
      hide Shape;
      LimitSamples(input, output, base, at, channels, knee);
      frame := output[base + at..base + at + channels];
      forall ch | 0 <= ch < channels
        ensures frame[ch] == Shape(tanh, knee, makeupGain, ceiling, old(input[at + ch]))
      {
        assert frame[ch] == output[base + (at + ch)];
      }
      SlicesJoin(output, base, base + at, base + at + channels);
      assert output[base..base + at] == old(output[base..base + at]);
    }

    /** One frame, in terms of the run over the whole block of samples `xs`. */
    method LimitAt(input: array<real>, output: array<real>, base: nat, at: nat, channels: nat, ghost n: nat,
                   ghost f: nat, ghost l: SoundLimiter, ghost xs: seq<real>)
      requires Valid() && primed && at == f * channels && at + channels <= n == |xs|
      requires n <= input.Length && base + n <= output.Length && (input != output || base == 0)
      requires input[at..n] == xs[at..] && View().Aim() == View()
      requires channels > 0 ==> LimitRun(tanh, l, Tagged(xs, channels)[..at]) == (View(), output[base..base + at])
      modifies kneeRamp, output
      ensures Valid() && primed && View() == old(View()).Advance() && View().Aim() == View()
      ensures channels > 0 ==>
                LimitRun(tanh, l, Tagged(xs, channels)[..at + channels]) == (View(), output[base..base + at + channels])
      ensures input[at + channels..n] == xs[at + channels..]
      ensures output[..base] == old(output[..base]) && output[base + n..] == old(output[base + n..])
    {
      hide Limiter.Aim, Limiter.Advance, Shape, Run, LimitRun;
      ghost var done := output[base..base + at];
      ghost var before := View();
      AimSettles(before);
      SliceValues(input, at, n, xs);
      var knee := Advance();
      ghost var frame := LimitFrame(input, output, base, at, channels, knee);
      ValuesSlice(input, at + channels, n, xs);
      if channels > 0 {
        LimitedFrame(tanh, l, before, View(), xs, f, channels, at, done, frame);
      }
    }

    /** One block of interleaved audio, written from position `base` on. The output may be the input array, from
        its start. Without channels, only the knee moves. */
    method Process(input: array<real>, output: array<real>, base: nat, frames: nat, channels: nat)
      requires Valid() && (input != output || base == 0)
      requires BlockSize(frames, channels) <= input.Length && base + BlockSize(frames, channels) <= output.Length
      modifies Repr, output
      ensures Valid()
      ensures channels > 0 ==>
                && old(View()).Aim().Valid()
                && LimitRun(tanh, old(View()).Aim(), Tagged(old(input[..BlockSize(frames, channels)]), channels)) ==
                   (View(), output[base..base + BlockSize(frames, channels)])
      ensures channels == 0 ==> View() == old(View()).Aim().AdvanceBy(frames)
      ensures output[..base] == old(output[..base])
      ensures output[base + BlockSize(frames, channels)..] == old(output[base + BlockSize(frames, channels)..])
    {
      ghost var n := BlockSize(frames, channels);
      ghost var xs := input[..n];
      AimValid(View());
      AimSettles(View());
      Aim();
      LimitFrames(input, output, base, frames, channels, n, xs);
    }

    method LimitFrames(input: array<real>, output: array<real>, base: nat, frames: nat, channels: nat,
                       ghost n: nat, ghost xs: seq<real>)
      requires Valid() && primed && n == BlockSize(frames, channels) && (input != output || base == 0)
      requires n <= input.Length && base + n <= output.Length && xs == input[..n]
      requires View().Valid() && View().Aim() == View()
      modifies kneeRamp, output
      ensures Valid() && View() == old(View()).AdvanceBy(frames)
      ensures channels > 0 ==> LimitRun(tanh, old(View()), Tagged(xs, channels)) == (View(), output[base..base + n])
      ensures output[..base] == old(output[..base]) && output[base + n..] == old(output[base + n..])
    {
      hide Limiter.Aim, Limiter.Advance, Shape, Run, LimitRun;
      ghost var l: SoundLimiter := View();
      RunNothing(tanh, l);
      assert channels > 0 ==> Tagged(xs, channels)[..0] == [];
      assert output[base..base] == [];
      ghost var head, tail := output[..base], output[base + n..];
      var at := 0;
      for f := 0 to frames
        invariant Valid() && primed && at == f * channels <= n
        invariant View().Aim() == View() && View() == l.AdvanceBy(f)
        invariant channels > 0 ==> LimitRun(tanh, l, Tagged(xs, channels)[..at]) == (View(), output[base..base + at])
        invariant output[..base] == head && output[base + n..] == tail && input[at..n] == xs[at..]
      {
        WithinBlock(f, frames, channels);
        LimitAt(input, output, base, at, channels, n, f, l, xs);
        NextFrame(f, channels);
        at := at + channels;
      }
      assert channels > 0 ==> Tagged(xs, channels)[..n] == Tagged(xs, channels);
    }
  }
}
