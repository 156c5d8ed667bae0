/** How a reverb channel goes from one setting to the next: every parameter and every comb weight moves along a
    straight line, in as many samples as the ramp length says (src/audio/FreeverbStage.cpp:18-44). */
module FreeverbGlides {
  import opened LinearRamps
  import opened Transducers
  import opened Freeverb
  import opened FreeverbDiagram

  function Holding(r: SoundReverb, s: SoundSettings, xs: seq<real>): SoundReverb {
    Run<SoundReverb, (SoundSettings, real), real>(Sample, r, Under(s, xs)).0
  }

  lemma HoldingNext(r: SoundReverb, s: SoundSettings, xs: seq<real>)
    requires |xs| > 0
    ensures var n := |xs| - 1;
            var before := Holding(r, s, xs[..n]);
            Holding(r, s, xs) == Sample(before, (s, xs[n])).0
  {
    var n := |xs| - 1;
    assert Under(s, xs)[..n] == Under(s, xs[..n]) && Under(s, xs)[..n + 1] == Under(s, xs);
    RunNext<SoundReverb, (SoundSettings, real), real>(Sample, r, Under(s, xs), n);
    hide Sample;
  }

  lemma HoldingNothing(r: SoundReverb, s: SoundSettings)
    ensures Holding(r, s, []) == r
  {
  }

  // ---------------------------------------------------------------- parameters

  lemma ParameterStep(r: SoundReverb, s: SoundSettings, x: real)
    requires r.tank.Primed?
    ensures var t := Sample(r, (s, x)).0.tank;
            && t.Primed? && t.wanted == s.activeCombs
            && t.fb == r.tank.fb.Retarget(s.feedback, s.rampFrames).Next()
            && t.damp == r.tank.damp.Retarget(s.damping, s.rampFrames).Next()
            && t.ap == r.tank.ap.Retarget(s.allpassG, s.rampFrames).Next()
  {
    hide Ramp.Retarget, Ramp.Next, Comb.Gate, BankOut, Through, FeedLines, CombAudio;
  }

  lemma {:induction false} AfterKeepsTarget(r: Ramp, k: nat)
    ensures r.After(k).target == r.target
    decreases k
  {
    if k > 0 {
      AfterKeepsTarget(r.Next(), k - 1);
    }
  }

  /** Aiming again at the same goal changes nothing, so the ramp just goes on. */
  lemma AimedOnce(r: Ramp, goal: real, frames: nat, k: nat)
    ensures var a := r.Retarget(goal, frames);
            a.After(k).Retarget(goal, frames).Next() == a.After(k + 1)
  {
    var a := r.Retarget(goal, frames);
    AfterKeepsTarget(a, k);
    OneMoreSample(a, k);
    hide Ramp.After, Ramp.Next;
  }

  lemma AfterOne(r: Ramp)
    ensures r.After(1) == r.Next()
  {
    assert r.Next().After(0) == r.Next();
  }

  /** Each of the three parameters follows its own setting. */
  lemma {:induction false} ParametersGlide(r: SoundReverb, s: SoundSettings, xs: seq<real>)
    requires r.tank.Primed? && |xs| > 0
    ensures var t := Holding(r, s, xs).tank;
            && t.Primed? && t.wanted == s.activeCombs
            && t.fb == r.tank.fb.Retarget(s.feedback, s.rampFrames).After(|xs|)
            && t.damp == r.tank.damp.Retarget(s.damping, s.rampFrames).After(|xs|)
            && t.ap == r.tank.ap.Retarget(s.allpassG, s.rampFrames).After(|xs|)
    decreases |xs|
  {
    hide Sample, Holding, Ramp.Retarget, Ramp.Next, Ramp.After;
    var n, f, was := |xs| - 1, s.rampFrames, r.tank;
    HoldingNext(r, s, xs);
    if n == 0 {
      assert xs[..0] == [];
      HoldingNothing(r, s);
      ParameterStep(r, s, xs[0]);
      AfterOne(was.fb.Retarget(s.feedback, f));
      AfterOne(was.damp.Retarget(s.damping, f));
      AfterOne(was.ap.Retarget(s.allpassG, f));
    } else {
      ParametersGlide(r, s, xs[..n]);
      ParameterStep(Holding(r, s, xs[..n]), s, xs[n]);
      AimedOnce(was.fb, s.feedback, f, n);
      AimedOnce(was.damp, s.damping, f, n);
      AimedOnce(was.ap, s.allpassG, f, n);
    }
  }

  // ---------------------------------------------------------------- weights

  /** The ramp of a comb's weight when a sample begins: zero for a comb that is off. */
  function Fading(c: Comb, changed: bool, wanted: bool, frames: nat): Ramp {
    var w := if c.Off? then Settled(0.0) else c.weight;
    if changed then w.Retarget(if wanted then 1.0 else 0.0, frames) else w
  }

  predicate Shows(c: Comb, w: Ramp) {
    if c.On? then c.weight == w else w == Settled(0.0)
  }

  lemma GateShows(c: Comb, i: nat, previous: nat, wanted: nat, frames: nat)
    requires i < NUM_COMBS && c.Ok(i, previous)
    ensures Shows(c.Gate(CombLen(i), wanted != previous, i < wanted, frames),
                  Fading(c, wanted != previous, i < wanted, frames).Next())
  {
    var w := Fading(c, wanted != previous, i < wanted, frames);
    if w.value > w.target {
      NextReachesOnlyAtTheEnd(w);
    } else if w.value < w.target {
      NextLeavesStart(w);
    }
  }

  lemma WeightStep(r: SoundReverb, s: SoundSettings, x: real, c: nat)
    requires r.tank.Primed? && c < NUM_COMBS
    ensures var t := Sample(r, (s, x)).0.tank;
            && t.Primed? && t.wanted == s.activeCombs
            && Shows(t.combs[c], Fading(r.tank.combs[c], s.activeCombs != r.tank.wanted, c < s.activeCombs,
                                        s.rampFrames).Next())
  {
    assert r.tank.combs[c].Ok(c, r.tank.wanted);
    GateShows(r.tank.combs[c], c, r.tank.wanted, s.activeCombs, s.rampFrames);
    hide Ramp.Retarget, Ramp.Next, Fading, Comb.Gate, BankOut, Through, FeedLines, CombStore, Comb.Damped;
  }

  lemma {:induction false} WeightsGlide(r: SoundReverb, s: SoundSettings, xs: seq<real>, c: nat)
    requires r.tank.Primed? && |xs| > 0 && c < NUM_COMBS
    ensures var t := Holding(r, s, xs).tank;
            && t.Primed? && t.wanted == s.activeCombs
            && Shows(t.combs[c], Fading(r.tank.combs[c], s.activeCombs != r.tank.wanted, c < s.activeCombs,
                                        s.rampFrames)
                                 .After(|xs|))
    decreases |xs|
  {
    hide Sample, Holding, Ramp.Retarget, Ramp.Next, Ramp.After;
    var n := |xs| - 1;
    var w := Fading(r.tank.combs[c], s.activeCombs != r.tank.wanted, c < s.activeCombs, s.rampFrames);
    HoldingNext(r, s, xs);
    if n == 0 {
      assert xs[..0] == [];
      HoldingNothing(r, s);
      WeightStep(r, s, xs[0], c);
      AfterOne(w);
    } else {
      WeightsGlide(r, s, xs[..n], c);
      WeightStep(Holding(r, s, xs[..n]), s, xs[n], c);
      OneMoreSample(w, n);
    }
  }

  lemma MinusShare(n: real, k: real)
    requires n > 0.0
    ensures 1.0 + (0.0 - 1.0) / n * k == 1.0 - 1.0 / n * k
  {
    assert (0.0 - 1.0) / n == -(1.0 / n);
  }

  /** A comb that comes back has k / n of its weight after k of n samples; one that leaves from full weight has
      lost as much, and after n samples it is off. */
  lemma CombsFade(r: SoundReverb, s: SoundSettings, xs: seq<real>, c: nat)
    requires r.tank.Primed? && |xs| > 0 && c < NUM_COMBS && s.activeCombs != r.tank.wanted
    ensures var n := if s.rampFrames == 0 then 1 else s.rampFrames;
            var before, now := r.tank.combs[c], Holding(r, s, xs).tank.combs[c];
            && (before.Off? && c < s.activeCombs ==>
                  now.Weight() == if |xs| < n then 1.0 / (n as real) * (|xs| as real) else 1.0)
            && (before.On? && before.weight == Settled(1.0) && s.activeCombs <= c ==>
                  now.Weight() == (if |xs| < n then 1.0 - 1.0 / (n as real) * (|xs| as real) else 0.0) &&
                  (|xs| >= n ==> now.Off?))
  {
    hide Holding, Ramp.After;
    WeightsGlide(r, s, xs, c);
    var n, before := if s.rampFrames == 0 then 1 else s.rampFrames, r.tank.combs[c];
    if before.Off? && c < s.activeCombs {
      GlidesThenRests(Settled(0.0), 1.0, s.rampFrames, |xs|);
    } else if before.On? && before.weight == Settled(1.0) && s.activeCombs <= c {
      GlidesThenRests(Settled(1.0), 0.0, s.rampFrames, |xs|);
      MinusShare(n as real, |xs| as real);
      assert Holding(r, s, xs).tank.combs[c].Ok(c, s.activeCombs);
    }
  }
}
