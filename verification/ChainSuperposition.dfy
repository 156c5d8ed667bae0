/** The signal path before the limiter is linear, and the whole chain maps silence to silence. */
module ChainSuperposition {
  import opened RealFacts
  import opened Transducers
  import opened Interleaving
  import opened Freeverb
  import opened FreeverbTheorems
  import opened FreeverbPairs
  import opened MixerStages
  import opened LimiterStages
  import opened ChainReference
  import opened ChainTheorems

  /** One sample under the control words in force at that sample. Shows what leaves the mixer, and what leaves
      the limiter. */
  function Monitor(m: Maths, c: Chain, input: (SoundControls, (nat, real))): (Chain, (real, real)) {
    var ready := Apply(c, input.0);
    var wet := PairSample(ready.audio.pair, input.1).1;
    var mixed := MixSample(m.cosine, m.sine, ready.audio.mixer, (input.1.0, input.1.1, wet)).1;
    var out := ChainSample(m, ready.audio, input.1);
    (Chain(out.0, ready.lastPreset), (mixed, out.1))
  }

  function Monitored(m: Maths): (Chain, (SoundControls, (nat, real))) -> (Chain, (real, real)) {
    (c: Chain, input: (SoundControls, (nat, real))) => Monitor(m, c, input)
  }

  function Watch(m: Maths, c: Chain, inputs: seq<(SoundControls, (nat, real))>): (res: (Chain, seq<(real, real)>))
    ensures |res.1| == |inputs|
  {
    Run<Chain, (SoundControls, (nat, real)), (real, real)>(Monitored(m), c, inputs)
  }

  function Held(k: SoundControls, xs: seq<(nat, real)>): (inputs: seq<(SoundControls, (nat, real))>)
    ensures |inputs| == |xs| && forall i :: 0 <= i < |xs| ==> inputs[i] == (k, xs[i])
  {
    seq(|xs|, i requires 0 <= i < |xs| => (k, xs[i]))
  }

  lemma WatchNext(m: Maths, c: Chain, inputs: seq<(SoundControls, (nat, real))>, i: nat)
    requires i < |inputs|
    ensures var before := Watch(m, c, inputs[..i]);
            var now := Monitor(m, before.0, inputs[i]);
            Watch(m, c, inputs[..i + 1]) == (now.0, before.1 + [now.1])
  {
    RunNext<Chain, (SoundControls, (nat, real)), (real, real)>(Monitored(m), c, inputs, i);
  }

  lemma WatchNothing(m: Maths, c: Chain)
    ensures Watch(m, c, []) == (c, [])
  {
  }

  /** Reading the control words at every sample of a block, when they do not change, is reading them once. */
  lemma {:induction false} WatchedBlock(m: Maths, c: Chain, k: SoundControls, xs: seq<real>, channels: nat, n: nat)
    requires channels > 0 && 0 < n == |xs|
    ensures var watched := Watch(m, c, Held(k, Tagged(xs, channels)));
            var block := Process(m, c, k, xs, channels);
            watched.0 == block.0 && forall i :: 0 <= i < n ==> watched.1[i].1 == block.1[i]
    decreases n
  {
    hide Apply, ChainSample, ChainRun, Watch, Tuning, PairSample, MixSample;
    var ready := Apply(c, k);
    var t := Tagged(xs, channels);
    var h := Held(k, t);
    var before := Watch(m, c, h[..n - 1]);
    ChainRunNext(m, ready.audio, t, n - 1);
    WatchNext(m, c, h, n - 1);
    assert t[..n] == t && h[..n] == h;
    if n == 1 {
      assert t[..0] == [] && h[..0] == [];
      ChainRunNothing(m, ready.audio);
      WatchNothing(m, c);
    } else {
      WatchedBlock(m, c, k, xs[..n - 1], channels, n - 1);
      assert t[..n - 1] == Tagged(xs[..n - 1], channels) && h[..n - 1] == Held(k, t[..n - 1]);
      RunKeepsTuning(m, ready.audio, t[..n - 1]);
      ApplyOnce(c, k, before.0.audio);
    }
  }

  // ---------------------------------------------------------------- superposition

  predicate ReverbLinear(x: SoundReverb, y: SoundReverb, z: SoundReverb, a: real, b: real) {
    x.settings == y.settings == z.settings && TankLinear(x.tank, y.tank, z.tank, a, b)
  }

  /** Three chains with the same settings and the same ramps, the third holding the mixture of what the reverbs
      of the other two hold. */
  predicate ChainLinear(p: Chain, q: Chain, r: Chain, a: real, b: real) {
    && p.lastPreset == q.lastPreset == r.lastPreset
    && p.audio.mixer == q.audio.mixer == r.audio.mixer
    && p.audio.limiter == q.audio.limiter == r.audio.limiter
    && ReverbLinear(p.audio.pair.0, q.audio.pair.0, r.audio.pair.0, a, b)
    && ReverbLinear(p.audio.pair.1, q.audio.pair.1, r.audio.pair.1, a, b)
  }

  predicate TouchLinear(x: (SoundControls, (nat, real)), y: (SoundControls, (nat, real)),
                        z: (SoundControls, (nat, real)), a: real, b: real) {
    x.0 == y.0 == z.0 && x.1.0 == y.1.0 == z.1.0 && z.1.1 == a * x.1.1 + b * y.1.1
  }

  lemma ApplyLinear(p: Chain, q: Chain, r: Chain, k: SoundControls, a: real, b: real)
    requires ChainLinear(p, q, r, a, b)
    ensures ChainLinear(Apply(p, k), Apply(q, k), Apply(r, k), a, b)
  {
    hide TankLinear, ActiveCombs;
  }

  lemma StepLinear(p: SoundReverb, q: SoundReverb, r: SoundReverb, x: real, y: real, z: real, a: real, b: real)
    requires ReverbLinear(p, q, r, a, b) && z == a * x + b * y
    ensures ReverbLinear(Step(p, x).0, Step(q, y).0, Step(r, z).0, a, b)
    ensures Step(r, z).1 == a * Step(p, x).1 + b * Step(q, y).1
  {
    hide TankLinear, Step, Tank.Valid;
    var s := p.settings;
    SampleLinear(p, q, r, (s, x), (s, y), (s, z), a, b);
    assert p.(settings := s) == p && q.(settings := s) == q && r.(settings := s) == r;
  }

  lemma WeighLinear(dg: real, wg: real, x: real, y: real, z: real, u: real, v: real, w: real, a: real, b: real)
    requires z == a * x + b * y && w == a * u + b * v
    ensures Weigh(dg, z, wg, w) == a * Weigh(dg, x, wg, u) + b * Weigh(dg, y, wg, v)
  {
    Distribute(dg, a, x, b, y);
    Distribute(wg, a, u, b, v);
  }

  /** One sample through both channel models and the mixer. */
  lemma PairLinear(p: Pair, q: Pair, r: Pair, x: (nat, real), y: (nat, real), z: (nat, real), a: real, b: real)
    requires ReverbLinear(p.0, q.0, r.0, a, b) && ReverbLinear(p.1, q.1, r.1, a, b)
    requires x.0 == y.0 == z.0 && z.1 == a * x.1 + b * y.1
    ensures ReverbLinear(PairSample(p, x).0.0, PairSample(q, y).0.0, PairSample(r, z).0.0, a, b)
    ensures ReverbLinear(PairSample(p, x).0.1, PairSample(q, y).0.1, PairSample(r, z).0.1, a, b)
    ensures PairSample(r, z).1 == a * PairSample(p, x).1 + b * PairSample(q, y).1
  {
    hide ReverbLinear, Step;
    if z.0 % MAX_CHANNELS == 0 {
      StepLinear(p.0, q.0, r.0, x.1, y.1, z.1, a, b);
    } else {
      StepLinear(p.1, q.1, r.1, x.1, y.1, z.1, a, b);
    }
  }

  lemma MixLinear(m: Maths, mixer: SoundMixer, ch: nat, x: real, y: real, z: real, u: real, v: real, w: real, a: real,
                  b: real)
    requires z == a * x + b * y && w == a * u + b * v
    ensures MixSample(m.cosine, m.sine, mixer, (ch, z, w)).1 ==
            a * MixSample(m.cosine, m.sine, mixer, (ch, x, u)).1 + b * MixSample(m.cosine, m.sine, mixer, (ch, y, v)).1
    ensures MixSample(m.cosine, m.sine, mixer, (ch, z, w)).0 == MixSample(m.cosine, m.sine, mixer, (ch, x, u)).0
    ensures MixSample(m.cosine, m.sine, mixer, (ch, z, w)).0 == MixSample(m.cosine, m.sine, mixer, (ch, y, v)).0
  {
    hide Weigh, Mixer.Aim, Mixer.Advance;
    var now := MixSample(m.cosine, m.sine, mixer, (ch, x, u)).0;
    if now.gains.Primed? {
      WeighLinear(now.gains.dry.value, now.gains.wet.value, x, y, z, u, v, w, a, b);
    }
  }

  lemma MonitorLinear(m: Maths, p: Chain, q: Chain, r: Chain, x: (SoundControls, (nat, real)),
                      y: (SoundControls, (nat, real)),
                      z: (SoundControls, (nat, real)), a: real, b: real)
    requires ChainLinear(p, q, r, a, b) && TouchLinear(x, y, z, a, b)
    ensures ChainLinear(Monitor(m, p, x).0, Monitor(m, q, y).0, Monitor(m, r, z).0, a, b)
    ensures Monitor(m, r, z).1.0 == a * Monitor(m, p, x).1.0 + b * Monitor(m, q, y).1.0
  {
    hide Apply, ReverbLinear, PairSample, MixSample, Shape;
    ApplyLinear(p, q, r, x.0, a, b);
    var k, l, n := Apply(p, x.0).audio, Apply(q, y.0).audio, Apply(r, z.0).audio;
    PairLinear(k.pair, l.pair, n.pair, x.1, y.1, z.1, a, b);
    var u, v, w := PairSample(k.pair, x.1).1, PairSample(l.pair, y.1).1, PairSample(n.pair, z.1).1;
    MixLinear(m, n.mixer, z.1.0, x.1.1, y.1.1, z.1.1, u, v, w, a, b);
  }

  /** The reverbs remember nothing. */
  predicate Emptied(c: Chain) {
    c.audio.pair.0.tank.Unprimed? && c.audio.pair.1.tank.Unprimed?
  }

  /** Superposition. From reset, under any one schedule of control words, the reverb and the mixer turn the
      mixture a x + b y of two signals into the mixture of what they make of each. */
  lemma Superposition(m: Maths, c: Chain, xs: seq<(SoundControls, (nat, real))>, ys: seq<(SoundControls, (nat, real))>,
                      zs: seq<(SoundControls, (nat, real))>, a: real, b: real)
    requires Emptied(c)
    requires |xs| == |ys| == |zs| && forall i :: 0 <= i < |zs| ==> TouchLinear(xs[i], ys[i], zs[i], a, b)
    ensures forall i :: 0 <= i < |zs| ==>
              Watch(m, c, zs).1[i].0 == a * Watch(m, c, xs).1[i].0 + b * Watch(m, c, ys).1[i].0
  {
    hide Monitor, Run;
    var step := Monitored(m);
    var rel := (p: Chain, q: Chain, r: Chain) => ChainLinear(p, q, r, a, b);
    var ins := (u: (SoundControls, (nat, real)), v: (SoundControls, (nat, real)), w: (SoundControls, (nat, real))) =>
      TouchLinear(u, v, w, a, b);
    var outs := (u: (real, real), v: (real, real), w: (real, real)) => w.0 == a * u.0 + b * v.0;
    assert rel(c, c, c);
    hide ChainLinear, TouchLinear;
    forall p, q, r, u, v, w {:trigger StepRelated(step, rel, outs, p, q, r, u, v, w)} | rel(p, q, r) && ins(u, v, w)
      ensures StepRelated(step, rel, outs, p, q, r, u, v, w)
    {
      MonitorLinear(m, p, q, r, u, v, w, a, b);
    }
    RunRelatedThrice(step, rel, ins, outs, c, c, c, xs, ys, zs);
    assert forall i :: 0 <= i < |zs| ==> outs(Watch(m, c, xs).1[i], Watch(m, c, ys).1[i], Watch(m, c, zs).1[i]);
  }

  lemma ShapeOfSilence(tanh: real -> real, knee: real, gain: real, ceiling: real)
    ensures 0.0 <= ceiling && tanh(0.0) == 0.0 ==> Shape(tanh, knee, gain, ceiling, 0.0) == 0.0
  {
    assert 0.0 * gain == 0.0;
    assert Soft(0.0) == 0.0;
  }

  /** The limiter sees what leaves the mixer, and keeps its ceiling. */
  lemma LimitedMix(m: Maths, c: Chain, x: (SoundControls, (nat, real)))
    ensures var out := Monitor(m, c, x);
            && out.0.audio.limiter.ceiling == c.audio.limiter.ceiling
            && (0.0 <= c.audio.limiter.ceiling ==> Abs(out.1.1) <= c.audio.limiter.ceiling)
            && (0.0 <= c.audio.limiter.ceiling && m.tanh(0.0) == 0.0 && out.1.0 == 0.0 ==> out.1.1 == 0.0)
  {
    hide PairSample, MixSample, ActiveCombs;
    var l := Apply(c, x.0).audio.limiter;
    LimiterStages.AimValid(l);
    ShapeOfSilence(m.tanh, LimitSample(m.tanh, l, (x.1.0, 0.0)).0.KneeNow(), l.makeupGain, l.ceiling);
    hide Shape;
  }

  /** Silence stays silence. From reset, whatever the control words do and whatever the settings are, no input
      means no output. */
  lemma {:induction false} Silence(m: Maths, c: Chain, xs: seq<(SoundControls, (nat, real))>)
    requires Emptied(c) && 0.0 <= c.audio.limiter.ceiling && m.tanh(0.0) == 0.0
    requires forall i :: 0 <= i < |xs| ==> xs[i].1.1 == 0.0
    ensures Watch(m, c, xs).0.audio.limiter.ceiling == c.audio.limiter.ceiling
    ensures forall i :: 0 <= i < |xs| ==> Watch(m, c, xs).1[i] == (0.0, 0.0)
    decreases |xs|
  {
    hide Monitor, Watch;
    if |xs| == 0 {
      WatchNothing(m, c);
    } else {
      var n := |xs| - 1;
      Silence(m, c, xs[..n]);
      WatchNext(m, c, xs, n);
      assert xs[..n + 1] == xs;
      LimitedMix(m, Watch(m, c, xs[..n]).0, xs[n]);
      Superposition(m, c, xs, xs, xs, 0.0, 0.0);
    }
  }

  /** Whatever happens before it, what leaves the chain never exceeds the ceiling. */
  lemma {:induction false} NeverAboveCeiling(m: Maths, c: Chain, xs: seq<(SoundControls, (nat, real))>)
    requires 0.0 <= c.audio.limiter.ceiling
    ensures Watch(m, c, xs).0.audio.limiter.ceiling == c.audio.limiter.ceiling
    ensures forall i :: 0 <= i < |xs| ==> Abs(Watch(m, c, xs).1[i].1) <= c.audio.limiter.ceiling
    decreases |xs|
  {
    hide Monitor, Watch;
    if |xs| == 0 {
      WatchNothing(m, c);
    } else {
      var n := |xs| - 1;
      NeverAboveCeiling(m, c, xs[..n]);
      WatchNext(m, c, xs, n);
      assert xs[..n + 1] == xs;
      LimitedMix(m, Watch(m, c, xs[..n]).0, xs[n]);
    }
  }
}
