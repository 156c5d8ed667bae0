/** What a reverb channel is as a block diagram, from reset and at constant settings: the average of as many combs as
    are wanted, side by side, then two all-pass sections in a row, then the output level
    (src/audio/FreeverbStage.cpp:18-63). With the equations of combs and sections this says what it computes. */
module FreeverbDiagram {
  import opened LinearRamps
  import opened RealFacts
  import opened Transducers
  import opened Freeverb
  import opened CombTheorems
  import opened AllpassTheorems

  function LoopOf(s: SoundSettings, c: nat, xs: seq<real>): (res: (SoundLoop, seq<real>))
    requires c < NUM_COMBS
    ensures |res.1| == |xs|
  {
    LoopRun(s.feedback, s.damping, Empty(CombLen(c)), xs)
  }

  /** What comes out of the combs after the samples xs; a comb that is not wanted adds nothing. */
  function Coming(s: SoundSettings, xs: seq<real>): (ys: seq<real>)
    ensures |ys| == NUM_COMBS
  {
    seq(NUM_COMBS, c requires 0 <= c < NUM_COMBS => if c < s.activeCombs then LoopOf(s, c, xs).0.line[0] else 0.0)
  }

  function AverageNow(s: SoundSettings, xs: seq<real>): real {
    Sum(Coming(s, xs), NUM_COMBS) / (s.activeCombs as real)
  }

  /** The output of the comb bank. */
  function Bank(s: SoundSettings, xs: seq<real>): (ys: seq<real>)
    ensures |ys| == |xs|
    decreases |xs|
  {
    if |xs| == 0 then [] else Bank(s, xs[..|xs| - 1]) + [AverageNow(s, xs[..|xs| - 1])]
  }

  /** Through both sections. */
  function First(s: SoundSettings, xs: seq<real>): (res: (Line, seq<real>))
    ensures |res.1| == |xs|
  {
    SectionRun(s.allpassG, Zeros(AllpassLen(0)), Bank(s, xs))
  }

  function Second(s: SoundSettings, xs: seq<real>): (res: (Line, seq<real>))
    ensures |res.1| == |xs|
  {
    SectionRun(s.allpassG, Zeros(AllpassLen(1)), First(s, xs).1)
  }

  /** What a channel holds after the samples xs. */
  function Holds(s: SoundSettings, xs: seq<real>): Tank {
    Primed(seq(NUM_COMBS, c requires 0 <= c < NUM_COMBS =>
             if c < s.activeCombs then LoopOf(s, c, xs).0.Comb(Settled(1.0)) else Off),
           [First(s, xs).0, Second(s, xs).0],
           Settled(s.feedback), Settled(s.damping), Settled(s.allpassG), s.activeCombs)
  }

  /** Samples under the same settings. */
  function Under(s: SoundSettings, xs: seq<real>): (inputs: seq<(SoundSettings, real)>)
    ensures |inputs| == |xs| && forall i :: 0 <= i < |xs| ==> inputs[i] == (s, xs[i])
  {
    seq(|xs|, i requires 0 <= i < |xs| => (s, xs[i]))
  }

  lemma LoopsValid(s: SoundSettings, c: nat, xs: seq<real>)
    requires c < NUM_COMBS
    ensures |LoopOf(s, c, xs).0.line| == CombLen(c)
  {
    LineHolds(s.feedback, s.damping, CombLen(c), xs, |xs|);
    assert xs[..|xs|] == xs;
    hide LoopRun, StoredAt;
  }

  lemma {:induction false} LineLength(g: real, line: Line, xs: seq<real>)
    ensures |SectionRun(g, line, xs).0| == |line|
  {
    LineDelays(g, line, xs);
    hide SectionRun, Stores;
  }

  lemma HoldsValid(s: SoundSettings, xs: seq<real>)
    ensures Holds(s, xs).Valid()
  {
    hide LoopOf, SectionRun, Bank;
    forall c | 0 <= c < NUM_COMBS ensures Holds(s, xs).combs[c].Ok(c, s.activeCombs) {
      LoopsValid(s, c, xs);
    }
    LineLength(s.allpassG, Zeros(AllpassLen(0)), Bank(s, xs));
    LineLength(s.allpassG, Zeros(AllpassLen(1)), First(s, xs).1);
  }

  lemma HoldsNothing(s: SoundSettings)
    ensures Holds(s, []) == Prime(s)
  {
    forall c | 0 <= c < NUM_COMBS ensures LoopOf(s, c, []) == (Empty(CombLen(c)), []) {}
    assert First(s, []) == (Zeros(AllpassLen(0)), []);
    assert Second(s, []) == (Zeros(AllpassLen(1)), []);
    hide LoopOf, First, Second;
    assert Holds(s, []).combs == Prime(s).combs;
  }

  /** Nothing moves in the control part while the settings stay. */
  lemma ControlRests(s: SoundSettings, r: SoundReverb, xs: seq<real>)
    requires r.settings == s && (r.tank == Holds(s, xs) || (|xs| == 0 && r.tank.Unprimed?))
    ensures Control(r) == Holds(s, xs)
  {
    hide LoopOf, First, Second;
    HoldsNothing(s);
    var p := if r.tank.Primed? then r.tank else Prime(s);
    assert p == Holds(s, xs);
    assert Control(r).combs == p.combs;
  }

  lemma WeightsAre(t: Tank, s: SoundSettings, xs: seq<real>, c: nat)
    requires t == Holds(s, xs) && c < NUM_COMBS
    ensures t.combs[c].Weight() == if c < s.activeCombs then 1.0 else 0.0
    ensures t.combs[c].Delayed() == Coming(s, xs)[c]
  {
    hide LoopOf, First, Second;
  }

  /** The bank puts out the average of the wanted combs. */
  lemma BankIs(s: SoundSettings, xs: seq<real>)
    ensures Holds(s, xs).Valid() && BankOut(Holds(s, xs)) == AverageNow(s, xs)
  {
    hide LoopOf, First, Second, Sum, Dot;
    HoldsValid(s, xs);
    var t := Holds(s, xs);
    var ws, ds, ys := Weights(t.combs), Delays(t.combs), Coming(s, xs);
    FourTerms(ws, ds);
    FourTerms(ys, ds);
    forall c | 0 <= c < NUM_COMBS ensures ws[c] * ds[c] == ys[c] {
      WeightsAre(t, s, xs, c);
      assert ws[c] == if c < s.activeCombs then 1.0 else 0.0;
    }
    assert Sum(ws, 4) == s.activeCombs as real;
    assert Dot(ws, ds, 4) == Sum(ys, 4);
  }

  lemma OnceKeepsForm(fb: real, damp: real, l: SoundLoop, x: real)
    ensures Once(fb, damp, l, x).0.Comb(Settled(1.0)) == CombAudio(l.Comb(Settled(1.0)), x, fb, damp)
  {
    hide CombStore;
  }

  lemma LoopMore(s: SoundSettings, c: nat, xs: seq<real>, x: real)
    requires c < s.activeCombs
    ensures LoopOf(s, c, xs + [x]).0.Comb(Settled(1.0)) ==
            CombAudio(LoopOf(s, c, xs).0.Comb(Settled(1.0)), x, s.feedback, s.damping)
  {
    LoopNext(s.feedback, s.damping, Empty(CombLen(c)), xs + [x], |xs|);
    assert (xs + [x])[..|xs|] == xs && (xs + [x])[..|xs| + 1] == xs + [x];
    OnceKeepsForm(s.feedback, s.damping, LoopOf(s, c, xs).0, x);
    hide LoopRun, Once, CombAudio;
  }

  lemma SectionMore(g: real, line: Line, xs: seq<real>, x: real)
    ensures var before := SectionRun(g, line, xs);
            SectionRun(g, line, xs + [x]) == (AllpassFeed(before.0, g, x), before.1 + [AllpassOut(before.0, g, x)])
  {
    hide AllpassOut, AllpassStore, AllpassFeed;
    SectionNext(g, line, xs + [x], |xs|);
    assert (xs + [x])[..|xs|] == xs && (xs + [x])[..|xs| + 1] == xs + [x];
  }

  lemma BankMore(s: SoundSettings, xs: seq<real>, x: real)
    ensures Bank(s, xs + [x]) == Bank(s, xs) + [AverageNow(s, xs)]
  {
    hide AverageNow;
    assert (xs + [x])[..|xs|] == xs;
  }

  lemma OffStays(x: real, fb: real, damp: real)
    ensures CombAudio(Off, x, fb, damp) == Off
  {
  }

  /** One more sample. */
  lemma HoldsMore(s: SoundSettings, xs: seq<real>, x: real)
    ensures Holds(s, xs).Valid() && Audio(Holds(s, xs), x) == Holds(s, xs + [x])
    ensures Second(s, xs + [x]).1 ==
            Second(s, xs).1 + [Through(Holds(s, xs).lines, s.allpassG, BankOut(Holds(s, xs)), NUM_ALLPASS)]
  {
    hide LoopOf, Bank, AverageNow, BankOut, CombAudio, AllpassOut, AllpassFeed, AllpassStore, SectionRun;
    var g, t := s.allpassG, Holds(s, xs);
    BankIs(s, xs);
    BankMore(s, xs, x);
    SectionMore(g, Zeros(AllpassLen(0)), Bank(s, xs), AverageNow(s, xs));
    var u := AllpassOut(First(s, xs).0, g, AverageNow(s, xs));
    SectionMore(g, Zeros(AllpassLen(1)), First(s, xs).1, u);
    assert Through(t.lines, g, BankOut(t), 0) == BankOut(t) && Through(t.lines, g, BankOut(t), 1) == u;
    forall c | 0 <= c < NUM_COMBS ensures Audio(t, x).combs[c] == Holds(s, xs + [x]).combs[c] {
      if c < s.activeCombs {
        LoopMore(s, c, xs, x);
      } else {
        OffStays(x, s.feedback, s.damping);
      }
    }
    assert Audio(t, x).combs == Holds(s, xs + [x]).combs;
    assert Audio(t, x).lines == Holds(s, xs + [x]).lines;
  }

  /** The output level. */
  function AtLevel(y: real, level: real): real {
    y * level
  }

  function Scaled(ys: seq<real>, level: real): (zs: seq<real>)
    ensures |zs| == |ys| && forall i :: 0 <= i < |ys| ==> zs[i] == AtLevel(ys[i], level)
  {
    seq(|ys|, i requires 0 <= i < |ys| => AtLevel(ys[i], level))
  }

  lemma ScaledMore(ys: seq<real>, level: real, n: nat)
    requires |ys| == n + 1
    ensures Scaled(ys, level) == Scaled(ys[..n], level) + [AtLevel(ys[n], level)]
  {
    hide AtLevel;
  }

  lemma NothingOut(s: SoundSettings)
    ensures |Second(s, []).1| == 0
  {
  }

  lemma DiagramStep(s: SoundSettings, r: SoundReverb, xs: seq<real>, x: real)
    requires r.settings == s && (r.tank == Holds(s, xs) || (|xs| == 0 && r.tank.Unprimed?))
    ensures var now := Sample(r, (s, x));
            && now.0 == Reverb(s, Holds(s, xs + [x]))
            && |Second(s, xs + [x]).1| == |xs| + 1 && now.1 == AtLevel(Second(s, xs + [x]).1[|xs|], s.wet)
            && Second(s, xs + [x]).1[..|xs|] == Second(s, xs).1
  {
    hide Control, Audio, Through, BankOut, Second, Bank, LoopOf, First;
    ControlRests(s, r, xs);
    HoldsMore(s, xs, x);
  }

  /** The block diagram: from reset and at constant settings a channel plays what leaves the second section, scaled. */
  lemma {:induction false} Diagram(s: SoundSettings, xs: seq<real>)
    ensures var run := Run(Sample, NewReverb(s), Under(s, xs));
            && run.1 == Scaled(Second(s, xs).1, s.wet) && run.0.settings == s
            && (run.0.tank == Holds(s, xs) || (|xs| == 0 && run.0.tank.Unprimed?))
    decreases |xs|
  {
    hide Sample, Holds, Second, AtLevel;
    if |xs| == 0 {
      NothingOut(s);
    } else {
      var n := |xs| - 1;
      Diagram(s, xs[..n]);
      var inputs := Under(s, xs);
      assert inputs[..n] == Under(s, xs[..n]) && inputs[..n + 1] == inputs && xs[..n] + [xs[n]] == xs;
      RunNext<SoundReverb, (SoundSettings, real), real>(Sample, NewReverb(s), inputs, n);
      DiagramStep(s, Run(Sample, NewReverb(s), inputs[..n]).0, xs[..n], xs[n]);
      ScaledMore(Second(s, xs).1, s.wet, n);
    }
  }

  lemma {:induction false} BankAt(s: SoundSettings, xs: seq<real>, n: nat)
    requires n < |xs|
    ensures Bank(s, xs)[n] == AverageNow(s, xs[..n])
    decreases |xs|
  {
    hide AverageNow;
    var m := |xs| - 1;
    if n < m {
      BankAt(s, xs[..m], n);
      assert xs[..m][..n] == xs[..n];
    }
  }

  /** What the combs put out at sample n. */
  function Outs(s: SoundSettings, xs: seq<real>, n: nat): (ys: seq<real>)
    requires n < |xs|
    ensures |ys| == NUM_COMBS
  {
    seq(NUM_COMBS, c requires 0 <= c < NUM_COMBS => if c < s.activeCombs then LoopOf(s, c, xs).1[n] else 0.0)
  }

  lemma OutsCome(s: SoundSettings, xs: seq<real>, n: nat)
    requires n < |xs|
    ensures Outs(s, xs, n) == Coming(s, xs[..n])
  {
    hide LoopRun;
    forall c | 0 <= c < NUM_COMBS ensures Outs(s, xs, n)[c] == Coming(s, xs[..n])[c] {
      CombTheorems.OutAt(s.feedback, s.damping, Empty(CombLen(c)), xs, n);
    }
  }

  /** What the bank puts out is the average of what the wanted combs put out. */
  lemma BankAverages(s: SoundSettings, xs: seq<real>, n: nat)
    requires n < |xs|
    ensures s.activeCombs as real * Bank(s, xs)[n] == Sum(Outs(s, xs, n), NUM_COMBS)
  {
    hide Outs, Coming, Sum, Bank;
    BankAt(s, xs, n);
    OutsCome(s, xs, n);
    QuotientTimes(Sum(Outs(s, xs, n), NUM_COMBS), s.activeCombs as real);
  }
}
