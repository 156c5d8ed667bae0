/** What one channel of the reverb computes, stated with plain delay lines
    (src/audio/FreeverbStage.h, src/audio/FreeverbStage.cpp).

    The implementation keeps ring buffers, hides stale samples behind a countdown, leaves the storage of a
    silent comb as it was, and counts ramps down. Here a comb that is silent has no state at all: it is
    `Off`, and when it is wanted again it starts from a line of zeros. A line is the list of the samples that
    will come out of the delay, next one first. Class `Model` in FreeverbStage.dfy refines this. */
module Freeverb {
  import opened LinearRamps
  import opened RealFacts

  const NUM_COMBS: nat := 4
  const NUM_ALLPASS: nat := 2

  function CombLen(c: nat): (n: nat)
    requires c < NUM_COMBS
    ensures 1116 <= n <= 1356
  {
    [1116, 1188, 1277, 1356][c]
  }

  function AllpassLen(a: nat): (n: nat)
    requires a < NUM_ALLPASS
    ensures 441 <= n <= 556
  {
    [556, 441][a]
  }

  function Zeros(n: nat): (z: seq<real>)
    ensures |z| == n && forall i :: 0 <= i < n ==> z[i] == 0.0
  {
    seq(n, i => 0.0)
  }

  datatype Comb = Off | On(line: seq<real>, lp: real, weight: Ramp)
  {
    function Weight(): real {
      if Off? then 0.0 else weight.value
    }

    /** The sample that comes out of the delay now. */
    function Delayed(): real {
      if Off? || |line| == 0 then 0.0 else line[0]
    }

    /** One sample of a fading weight; a comb that has faded out completely is off. */
    function Fade(): Comb {
      if Off? then Off
      else
        var w := weight.Next();
        if w.value == 0.0 then Off else On(line, lp, w)
    }

    /** Follow a change of the number of wanted combs (`changed`), then fade by one sample. */
    function Gate(len: nat, changed: bool, wanted: bool, frames: nat): Comb {
      if !changed then Fade()
      else if Off? then
        if wanted then On(Zeros(len), 0.0, Settled(0.0).Retarget(1.0, frames)).Fade() else Off
      else
        On(line, lp, weight.Retarget(if wanted then 1.0 else 0.0, frames)).Fade()
    }

    /** What came out of the delay, low-passed: the sample that is fed back. */
    function Damped(damp: real): real {
      if Off? then 0.0 else (1.0 - damp) * Delayed() + damp * lp
    }

    /** The delay moves by one sample: `v` goes in, and `d` is the new low-pass state. */
    function Feed(v: real, d: real): Comb {
      if Off? || |line| == 0 then this else On(line[1..] + [v], d, weight)
    }

    /** Sound state of comb number `c` when the first `wanted` combs are wanted. */
    predicate Ok(c: nat, wanted: nat)
      requires c < NUM_COMBS
    {
      && (c < wanted ==> On?)
      && (On? ==>
            && |line| == CombLen(c)
            && weight.Valid()
            && 0.0 < weight.value <= 1.0
            && weight.target == (if c < wanted then 1.0 else 0.0)
            && (c == 0 ==> weight == Settled(1.0)))
    }
  }

  datatype Settings = Settings(feedback: real, damping: real, allpassG: real,
                               activeCombs: nat, rampFrames: nat, wet: real)
  {
    predicate Valid() {
      1 <= activeCombs <= NUM_COMBS
    }
  }

  /** How many combs a complexity level of 0..255 asks for. */
  function ActiveCombs(level: nat): (n: nat)
    requires level <= 255
    ensures 1 <= n <= NUM_COMBS
    ensures n == 1 <==> level < 85
    ensures n == 2 <==> 85 <= level < 170
    ensures n == 3 <==> 170 <= level < 255
    ensures n == NUM_COMBS <==> level == 255
  {
    1 + level * 3 / 255
  }

  /** All a channel remembers. Before its first sample (`Unprimed`) that is nothing. */
  datatype Tank = Unprimed
                | Primed(combs: seq<Comb>, lines: seq<seq<real>>, fb: Ramp, damp: Ramp, ap: Ramp, wanted: nat)
  {
    predicate Valid() {
      Primed? ==>
        && 1 <= wanted <= NUM_COMBS
        && |combs| == NUM_COMBS && |lines| == NUM_ALLPASS
        && (forall c :: 0 <= c < NUM_COMBS ==> combs[c].Ok(c, wanted))
        && (forall a :: 0 <= a < NUM_ALLPASS ==> |lines[a]| == AllpassLen(a))
        && fb.Valid() && damp.Valid() && ap.Valid()
    }
  }

  datatype Reverb = Reverb(settings: Settings, tank: Tank)
  {
    predicate Valid() {
      settings.Valid() && tank.Valid()
    }
  }

  /** The first sample after construction or reset: every parameter starts on its target. */
  function Prime(s: Settings): (t: Tank)
    requires s.Valid()
    ensures t.Valid() && t.Primed? && t.wanted == s.activeCombs
  {
    Primed(seq(NUM_COMBS, c requires 0 <= c < NUM_COMBS =>
             if c < s.activeCombs then On(Zeros(CombLen(c)), 0.0, Settled(1.0)) else Off),
           seq(NUM_ALLPASS, a requires 0 <= a < NUM_ALLPASS => Zeros(AllpassLen(a))),
           Settled(s.feedback), Settled(s.damping), Settled(s.allpassG), s.activeCombs)
  }

  lemma GateOk(c: Comb, i: nat, previous: nat, wanted: nat, frames: nat)
    requires i < NUM_COMBS && 1 <= wanted
    requires c.Ok(i, previous) && (i == 0 ==> 1 <= previous)
    ensures c.Gate(CombLen(i), wanted != previous, i < wanted, frames).Ok(i, wanted)
  {
    if c.Off? {
      if i < wanted {
        NextLeavesStart(Ramp(0.0, 1.0, if frames == 0 then 1 else frames));
        NextValid(Ramp(0.0, 1.0, if frames == 0 then 1 else frames));
      }
    } else {
      var w := if wanted != previous then c.weight.Retarget(if i < wanted then 1.0 else 0.0, frames) else c.weight;
      NextStays(w, 0.0, 1.0);
      if w.value < w.target { NextLeavesStart(w); }
    }
  }

  /** The control part of one sample: prime if needed, advance the parameter ramps, follow the comb count.
      It does not look at the audio. */
  function Control(r: Reverb): (t: Tank)
    requires r.Valid()
    ensures t.Valid() && t.Primed? && t.wanted == r.settings.activeCombs
  {
    var s := r.settings;
    var p := if r.tank.Primed? then r.tank else Prime(s);
    assert forall c :: 0 <= c < NUM_COMBS ==>
      p.combs[c].Gate(CombLen(c), s.activeCombs != p.wanted, c < s.activeCombs, s.rampFrames).Ok(c, s.activeCombs) by {
      forall c | 0 <= c < NUM_COMBS
        ensures p.combs[c].Gate(CombLen(c), s.activeCombs != p.wanted, c < s.activeCombs, s.rampFrames)
                .Ok(c, s.activeCombs)
      {
        GateOk(p.combs[c], c, p.wanted, s.activeCombs, s.rampFrames);
      }
    }
    NextValid(p.fb.Retarget(s.feedback, s.rampFrames));
    NextValid(p.damp.Retarget(s.damping, s.rampFrames));
    NextValid(p.ap.Retarget(s.allpassG, s.rampFrames));
    Primed(seq(NUM_COMBS, c requires 0 <= c < NUM_COMBS =>
             p.combs[c].Gate(CombLen(c), s.activeCombs != p.wanted, c < s.activeCombs, s.rampFrames)),
           p.lines,
           p.fb.Retarget(s.feedback, s.rampFrames).Next(),
           p.damp.Retarget(s.damping, s.rampFrames).Next(),
           p.ap.Retarget(s.allpassG, s.rampFrames).Next(),
           s.activeCombs)
  }

  function Weights(combs: seq<Comb>): (ws: seq<real>)
    ensures |ws| == |combs|
  {
    seq(|combs|, c requires 0 <= c < |combs| => combs[c].Weight())
  }

  function Delays(combs: seq<Comb>): (ds: seq<real>)
    ensures |ds| == |combs|
  {
    seq(|combs|, c requires 0 <= c < |combs| => combs[c].Delayed())
  }

  /** Comb 0 is always fully on, so the weights never sum to less than one. */
  lemma {:induction false} WeightSumAtLeastOne(t: Tank, n: nat)
    requires t.Valid() && t.Primed? && 1 <= n <= NUM_COMBS
    ensures Sum(Weights(t.combs), n) >= 1.0
  {
    if n == 1 {
      assert t.combs[0].Ok(0, t.wanted);
      assert Sum(Weights(t.combs), 0) == 0.0;
    } else {
      WeightSumAtLeastOne(t, n - 1);
      assert t.combs[n - 1].Ok(n - 1, t.wanted);
    }
  }

  /** Output of the comb bank: the average of the delayed samples, weighted. */
  function BankOut(t: Tank): real
    requires t.Valid() && t.Primed?
  {
    WeightSumAtLeastOne(t, NUM_COMBS);
    Dot(Weights(t.combs), Delays(t.combs), NUM_COMBS) / Sum(Weights(t.combs), NUM_COMBS)
  }

  /** What an all-pass section stores: its input plus part of what comes out of its delay line. */
  function AllpassStore(line: seq<real>, g: real, x: real): real
    requires |line| > 0
  {
    x + line[0] * g
  }

  function AllpassOut(line: seq<real>, g: real, x: real): real
    requires |line| > 0
  {
    line[0] - g * AllpassStore(line, g, x)
  }

  function AllpassFeed(line: seq<real>, g: real, x: real): seq<real>
    requires |line| > 0
  {
    line[1..] + [AllpassStore(line, g, x)]
  }

  /** The signal after the first n all-pass sections. */
  function Through(lines: seq<seq<real>>, g: real, x: real, n: nat): real
    requires n <= |lines| && forall a :: 0 <= a < |lines| ==> |lines[a]| > 0
  {
    if n == 0 then x else AllpassOut(lines[n - 1], g, Through(lines, g, x, n - 1))
  }

  function FeedLines(lines: seq<seq<real>>, g: real, x: real): seq<seq<real>>
    requires forall a :: 0 <= a < |lines| ==> |lines[a]| > 0
  {
    seq(|lines|, a requires 0 <= a < |lines| => AllpassFeed(lines[a], g, Through(lines, g, x, a)))
  }

  /** What a comb stores: the input plus what it feeds back. */
  function CombStore(c: Comb, x: real, fb: real, damp: real): real {
    x + fb * c.Damped(damp)
  }

  function CombAudio(c: Comb, x: real, fb: real, damp: real): Comb {
    c.Feed(CombStore(c, x, fb, damp), c.Damped(damp))
  }

  /** The audio part of one sample, for a tank whose control part is done. */
  function Audio(t: Tank, x: real): (t': Tank)
    requires t.Valid() && t.Primed?
    ensures t'.Valid() && t'.Primed?
  {
    t.(combs := seq(NUM_COMBS, c requires 0 <= c < NUM_COMBS => CombAudio(t.combs[c], x, t.fb.value, t.damp.value)),
       lines := FeedLines(t.lines, t.ap.value, BankOut(t)))
  }

  /** One sample of one channel. */
  function Step(r: Reverb, x: real): (res: (Reverb, real))
    requires r.Valid()
    ensures res.0.Valid() && res.0.settings == r.settings
  {
    var t := Control(r);
    (r.(tank := Audio(t, x)), Through(t.lines, t.ap.value, BankOut(t), NUM_ALLPASS) * r.settings.wet)
  }

  type SoundSettings = s: Settings | s.Valid() witness DEFAULTS
  type SoundReverb = r: Reverb | r.Valid() witness Reverb(DEFAULTS, Unprimed)

  /** A newly built channel: tuning of the class members of `Model`. */
  const DEFAULTS: Settings := Settings(0.84, 0.2, 0.6, 4, 480, 0.5)

  function NewReverb(s: SoundSettings): SoundReverb {
    Reverb(s, Unprimed)
  }

  /** One sample under the settings in force at that sample. Any schedule of setter calls between samples is
      a sequence of such inputs. */
  function Sample(r: SoundReverb, input: (SoundSettings, real)): (res: (SoundReverb, real)) {
    Step(r.(settings := input.0), input.1)
  }
}
