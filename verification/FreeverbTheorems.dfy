/** What one reverb channel promises over whole runs, whatever is done to its settings between samples. */
module FreeverbTheorems {
  import opened LinearRamps
  import opened RealFacts
  import opened Freeverb
  import opened Transducers

  // ---------------------------------------------------------------- bounded input, bounded output

  predicate AllWithin(xs: seq<real>, m: real) {
    forall i :: 0 <= i < |xs| ==> Abs(xs[i]) <= m
  }

  /** Ranges of the parameters: feedback at most f, all-pass gain at most g, damping a proportion. */
  predicate SettingsWithin(s: Settings, f: real, g: real) {
    0.0 <= s.feedback <= f && 0.0 <= s.damping <= 1.0 && 0.0 <= s.allpassG <= g
  }

  /** Bound on what section number n keeps in its delay line. */
  function StorageBound(b: real, g: real, n: nat): real
    requires g < 1.0
    decreases n, 1
  {
    EntryBound(b, g, n) / (1.0 - g)
  }

  /** Bound on the signal that enters all-pass section number n when the combs stay within b. */
  function EntryBound(b: real, g: real, n: nat): real
    requires g < 1.0
    decreases n, 0
  {
    if n == 0 then b else StorageBound(b, g, n - 1) + g * StorageBound(b, g, n - 1)
  }

  predicate CombWithin(c: Comb, b: real) {
    c.On? ==> AllWithin(c.line, b) && Abs(c.lp) <= b
  }

  predicate Within(t: Tank, b: real, f: real, g: real)
    requires g < 1.0
  {
    t.Primed? ==>
      && (forall c :: 0 <= c < |t.combs| ==> CombWithin(t.combs[c], b))
      && (forall a :: 0 <= a < |t.lines| ==> AllWithin(t.lines[a], StorageBound(b, g, a)))
      && t.fb.Within(0.0, f) && t.damp.Within(0.0, 1.0) && t.ap.Within(0.0, g)
  }

  lemma StorageAbsorbs(e: real, g: real)
    requires 0.0 <= e && 0.0 <= g < 1.0
    ensures 0.0 <= e / (1.0 - g) && e + g * (e / (1.0 - g)) == e / (1.0 - g)
  {
    var k := e / (1.0 - g);
    DivMono(0.0, e, 1.0 - g);
    QuotientTimes(e, 1.0 - g);
    assert k * (1.0 - g) == k - g * k;
  }

  /** The storage bound is the level at which what is fed back no longer adds anything. */
  lemma {:induction false} BoundsFit(b: real, g: real, n: nat)
    requires 0.0 <= b && 0.0 <= g < 1.0
    ensures 0.0 <= EntryBound(b, g, n) && 0.0 <= StorageBound(b, g, n)
    ensures EntryBound(b, g, n) + g * StorageBound(b, g, n) == StorageBound(b, g, n)
  {
    if n > 0 {
      BoundsFit(b, g, n - 1);
      MulMono(0.0, g, StorageBound(b, g, n - 1));
    }
    StorageAbsorbs(EntryBound(b, g, n), g);
  }

  /** A proportion of two values within b stays within b: the damping filter cannot grow. */
  lemma DampedWithin(c: Comb, damp: real, b: real)
    requires CombWithin(c, b) && 0.0 <= b && 0.0 <= damp <= 1.0
    ensures Abs(c.Damped(damp)) <= b
  {
    if c.On? {
      AverageWithin(damp, c.Delayed(), c.lp, b);
    }
  }

  lemma FeedWithin(c: Comb, v: real, d: real, b: real)
    requires CombWithin(c, b) && Abs(v) <= b && Abs(d) <= b
    ensures CombWithin(c.Feed(v, d), b)
  {
  }

  lemma StoredByComb(c: Comb, x: real, fb: real, damp: real, m: real, b: real, f: real)
    requires CombWithin(c, b) && 0.0 <= b && 0.0 <= damp <= 1.0 && 0.0 <= fb <= f
    requires Abs(x) <= m && m + f * b <= b
    ensures Abs(c.Damped(damp)) <= b && Abs(CombStore(c, x, fb, damp)) <= b
  {
    hide Comb.Damped, CombWithin;
    DampedWithin(c, damp, b);
    ScaledSumWithin(x, fb, c.Damped(damp), m, f, b);
  }

  lemma CombAudioWithin(c: Comb, x: real, fb: real, damp: real, m: real, b: real, f: real)
    requires CombWithin(c, b) && 0.0 <= b && 0.0 <= damp <= 1.0 && 0.0 <= fb <= f
    requires Abs(x) <= m && m + f * b <= b
    ensures CombWithin(CombAudio(c, x, fb, damp), b)
  {
    hide Comb.Damped, Comb.Feed, CombStore, CombWithin;
    StoredByComb(c, x, fb, damp, m, b, f);
    FeedWithin(c, CombStore(c, x, fb, damp), c.Damped(damp), b);
  }

  lemma GateWithin(c: Comb, b: real, len: nat, changed: bool, wanted: bool, frames: nat)
    requires CombWithin(c, b) && 0.0 <= b
    ensures CombWithin(c.Gate(len, changed, wanted, frames), b)
  {
  }

  lemma RetargetWithin(r: Ramp, goal: real, frames: nat, lo: real, hi: real)
    requires r.Valid() && r.Within(lo, hi) && lo <= goal <= hi
    ensures r.Retarget(goal, frames).Next().Within(lo, hi)
  {
    NextStays(r.Retarget(goal, frames), lo, hi);
  }

  lemma ControlWithin(r: Reverb, b: real, f: real, g: real)
    requires r.Valid() && 0.0 <= b && 0.0 <= g < 1.0
    requires SettingsWithin(r.settings, f, g) && Within(r.tank, b, f, g)
    ensures Within(Control(r), b, f, g)
  {
    var s := r.settings;
    var p := if r.tank.Primed? then r.tank else Prime(s);
    forall a | 0 <= a < NUM_ALLPASS
      ensures AllWithin(p.lines[a], StorageBound(b, g, a))
    {
      BoundsFit(b, g, a);
    }
    forall c | 0 <= c < NUM_COMBS
      ensures CombWithin(Control(r).combs[c], b)
    {
      assert CombWithin(p.combs[c], b);
      GateWithin(p.combs[c], b, CombLen(c), s.activeCombs != p.wanted, c < s.activeCombs, s.rampFrames);
    }
    RetargetWithin(p.fb, s.feedback, s.rampFrames, 0.0, f);
    RetargetWithin(p.damp, s.damping, s.rampFrames, 0.0, 1.0);
    RetargetWithin(p.ap, s.allpassG, s.rampFrames, 0.0, g);
  }

  /** The normalized bank output is a weighted average, so it is no larger than any comb. */
  lemma BankOutWithin(t: Tank, b: real)
    requires t.Valid() && t.Primed? && 0.0 <= b
    requires forall c :: 0 <= c < NUM_COMBS ==> CombWithin(t.combs[c], b)
    ensures Abs(BankOut(t)) <= b
  {
    var ws, ds := Weights(t.combs), Delays(t.combs);
    forall c | 0 <= c < NUM_COMBS ensures 0.0 <= ws[c] && Abs(ds[c]) <= b {
      assert t.combs[c].Ok(c, t.wanted) && CombWithin(t.combs[c], b);
    }
    DotWithin(ws, ds, b, NUM_COMBS);
    WeightSumAtLeastOne(t, NUM_COMBS);
    QuotientWithin(Dot(ws, ds, NUM_COMBS), Sum(ws, NUM_COMBS), b);
  }

  /** What is stored by one all-pass section, and what leaves it, on numbers alone. */
  lemma StoredWithin(d: real, gain: real, x: real, e: real, g: real, k: real)
    requires Abs(gain) <= g && Abs(x) <= e && Abs(d) <= k && e + g * k == k
    ensures Abs(x + d * gain) <= k
  {
    ScaledSumWithin(x, gain, d, e, g, k);
  }

  lemma SubtractedWithin(d: real, gain: real, v: real, g: real, k: real)
    requires Abs(d) <= k && Abs(v) <= k && Abs(gain) <= g
    ensures Abs(d - gain * v) <= k + g * k
  {
    MulAbsBound(gain, v, g, k);
  }

  lemma StoreWithin(line: seq<real>, gain: real, x: real, e: real, g: real, k: real)
    requires 0.0 <= gain <= g && Abs(x) <= e && |line| > 0 && e + g * k == k && AllWithin(line, k)
    ensures Abs(AllpassStore(line, gain, x)) <= k
  {
    StoredWithin(line[0], gain, x, e, g, k);
  }

  lemma OutWithin(line: seq<real>, gain: real, x: real, g: real, k: real)
    requires 0.0 <= gain <= g && |line| > 0 && AllWithin(line, k) && Abs(AllpassStore(line, gain, x)) <= k
    ensures Abs(AllpassOut(line, gain, x)) <= k + g * k
  {
    hide AllpassStore;
    SubtractedWithin(line[0], gain, AllpassStore(line, gain, x), g, k);
  }

  lemma FeedLineWithin(line: seq<real>, gain: real, x: real, k: real)
    requires |line| > 0 && AllWithin(line, k) && Abs(AllpassStore(line, gain, x)) <= k
    ensures AllWithin(AllpassFeed(line, gain, x), k)
  {
    hide AllpassStore;
  }

  /** One all-pass section: storage and output stay within their bounds. */
  lemma AllpassWithin(line: seq<real>, gain: real, x: real, e: real, g: real, k: real)
    requires 0.0 <= gain <= g && Abs(x) <= e && |line| > 0 && e + g * k == k && AllWithin(line, k)
    ensures AllWithin(AllpassFeed(line, gain, x), k)
    ensures Abs(AllpassOut(line, gain, x)) <= k + g * k
  {
    hide AllpassStore, AllpassOut, AllpassFeed, AllWithin;
    StoreWithin(line, gain, x, e, g, k);
    OutWithin(line, gain, x, g, k);
    FeedLineWithin(line, gain, x, k);
  }

  lemma {:induction false} ThroughWithin(lines: seq<seq<real>>, gain: real, x: real, b: real, g: real, n: nat)
    requires n <= |lines| && 0.0 <= gain <= g < 1.0 && 0.0 <= b && Abs(x) <= b
    requires forall a :: 0 <= a < |lines| ==> |lines[a]| > 0
    requires forall a :: 0 <= a < |lines| ==> AllWithin(lines[a], StorageBound(b, g, a))
    ensures Abs(Through(lines, gain, x, n)) <= EntryBound(b, g, n)
  {
    hide AllpassOut, AllpassFeed, AllWithin, StorageBound;
    if n > 0 {
      ThroughWithin(lines, gain, x, b, g, n - 1);
      BoundsFit(b, g, n - 1);
      AllpassWithin(lines[n - 1], gain, Through(lines, gain, x, n - 1), EntryBound(b, g, n - 1), g,
                    StorageBound(b, g, n - 1));
    }
  }

  lemma LinesWithin(lines: seq<seq<real>>, gain: real, x: real, b: real, g: real)
    requires 0.0 <= gain <= g < 1.0 && 0.0 <= b && Abs(x) <= b
    requires forall a :: 0 <= a < |lines| ==> |lines[a]| > 0
    requires forall a :: 0 <= a < |lines| ==> AllWithin(lines[a], StorageBound(b, g, a))
    ensures forall a :: 0 <= a < |lines| ==> AllWithin(FeedLines(lines, gain, x)[a], StorageBound(b, g, a))
  {
    hide AllpassOut, AllpassFeed, AllWithin, StorageBound, EntryBound, Through;
    forall a | 0 <= a < |lines|
      ensures AllWithin(FeedLines(lines, gain, x)[a], StorageBound(b, g, a))
    {
      ThroughWithin(lines, gain, x, b, g, a);
      BoundsFit(b, g, a);
      AllpassWithin(lines[a], gain, Through(lines, gain, x, a), EntryBound(b, g, a), g, StorageBound(b, g, a));
    }
  }

  lemma AudioWithin(t: Tank, x: real, m: real, b: real, f: real, g: real)
    requires t.Valid() && t.Primed? && 0.0 <= b && 0.0 <= g < 1.0
    requires Within(t, b, f, g) && Abs(x) <= m && m + f * b <= b
    ensures Within(Audio(t, x), b, f, g)
    ensures Abs(Through(t.lines, t.ap.value, BankOut(t), NUM_ALLPASS)) <= EntryBound(b, g, NUM_ALLPASS)
  {
    hide BankOut, CombAudio, CombWithin, FeedLines, AllWithin, StorageBound, EntryBound, Through;
    BankOutWithin(t, b);
    forall c | 0 <= c < NUM_COMBS
      ensures CombWithin(Audio(t, x).combs[c], b)
    {
      assert CombWithin(t.combs[c], b);
      CombAudioWithin(t.combs[c], x, t.fb.value, t.damp.value, m, b, f);
    }
    LinesWithin(t.lines, t.ap.value, BankOut(t), b, g);
    ThroughWithin(t.lines, t.ap.value, BankOut(t), b, g, NUM_ALLPASS);
  }

  /** One sample under any admissible settings keeps the bounds. */
  lemma SampleWithin(r: SoundReverb, s: SoundSettings, x: real, m: real, b: real, f: real, g: real, wet: real)
    requires 0.0 <= b && 0.0 <= g < 1.0 && m + f * b <= b
    requires SettingsWithin(s, f, g) && Abs(s.wet) <= wet && Within(r.tank, b, f, g) && Abs(x) <= m
    ensures Within(Sample(r, (s, x)).0.tank, b, f, g)
    ensures Abs(Sample(r, (s, x)).1) <= EntryBound(b, g, NUM_ALLPASS) * wet
  {
    hide Control, Audio, Through, BankOut, EntryBound, StorageBound, Within;
    var now := r.(settings := s);
    ControlWithin(now, b, f, g);
    var t := Control(now);
    AudioWithin(t, x, m, b, f, g);
    MulAbsBound(Through(t.lines, t.ap.value, BankOut(t), NUM_ALLPASS), s.wet, EntryBound(b, g, NUM_ALLPASS), wet);
  }

  predicate InputWithin(input: (SoundSettings, real), m: real, f: real, g: real, wet: real) {
    SettingsWithin(input.0, f, g) && Abs(input.0.wet) <= wet && Abs(input.1) <= m
  }

  /** The bounds are an invariant of every run that starts within them. */
  lemma RunWithin(r: SoundReverb, inputs: seq<(SoundSettings, real)>, m: real, b: real, f: real, g: real, wet: real,
                  out: real)
    requires 0.0 <= b && 0.0 <= g < 1.0 && m + f * b <= b && out == EntryBound(b, g, NUM_ALLPASS) * wet
    requires forall k :: 0 <= k < |inputs| ==> InputWithin(inputs[k], m, f, g, wet)
    requires Within(r.tank, b, f, g)
    ensures Within(Run(Sample, r, inputs).0.tank, b, f, g)
    ensures AllWithin(Run(Sample, r, inputs).1, out)
  {
    var inv := (t: SoundReverb) => Within(t.tank, b, f, g);
    var allowed := (i: (SoundSettings, real)) => InputWithin(i, m, f, g, wet);
    var good := (y: real) => Abs(y) <= out;
    forall t, x {:trigger Sample(t, x)} | inv(t) && allowed(x)
      ensures inv(Sample(t, x).0) && good(Sample(t, x).1)
    {
      SampleWithin(t, x.0, x.1, m, b, f, g, wet);
    }
    RunInvariant(Sample, inv, allowed, good, r, inputs);
    assert forall k :: 0 <= k < |inputs| ==> good(Run(Sample, r, inputs).1[k]);
  }

  lemma Growth(e: real, g: real)
    requires g < 1.0
    ensures e / (1.0 - g) + g * (e / (1.0 - g)) == e * ((1.0 + g) / (1.0 - g))
  {
    var m, q, h := 1.0 - g, e / (1.0 - g), (1.0 + g) / (1.0 - g);
    assert (q + g * q) * m == (1.0 + g) * e by { assert (q + g * q) * m == (1.0 + g) * (q * m); }
    assert (e * h) * m == (1.0 + g) * e by { assert (e * h) * m == e * (h * m); }
    QuotientUnique(q + g * q, m, (1.0 + g) * e);
    QuotientUnique(e * h, m, (1.0 + g) * e);
  }

  /** The bound for two all-pass sections, written out. */
  lemma TwoSections(b: real, g: real)
    requires g < 1.0
    ensures EntryBound(b, g, NUM_ALLPASS) == b * ((1.0 + g) / (1.0 - g)) * ((1.0 + g) / (1.0 - g))
  {
    assert EntryBound(b, g, 1) == StorageBound(b, g, 0) + g * StorageBound(b, g, 0);
    Growth(b, g);
    Growth(EntryBound(b, g, 1), g);
  }

  /** The fixed point of the feedback: at this level what a comb feeds back makes room for the input. */
  lemma CombLevel(m: real, f: real)
    requires 0.0 <= m && 0.0 <= f < 1.0
    ensures 0.0 <= m / (1.0 - f) && m + f * (m / (1.0 - f)) == m / (1.0 - f)
  {
    StorageAbsorbs(m, f);
  }

  /** M/(1-F) * ((1+G)/(1-G))^2 */
  function OutputBound(m: real, f: real, g: real): real
    requires f < 1.0 && g < 1.0
  {
    m / (1.0 - f) * ((1.0 + g) / (1.0 - g)) * ((1.0 + g) / (1.0 - g))
  }

  lemma OutputBoundIsEntryBound(m: real, f: real, g: real, wet: real)
    requires f < 1.0 && g < 1.0
    ensures OutputBound(m, f, g) * wet == EntryBound(m / (1.0 - f), g, NUM_ALLPASS) * wet
  {
    assert OutputBound(m, f, g) == EntryBound(m / (1.0 - f), g, NUM_ALLPASS) by { TwoSections(m / (1.0 - f), g); }
    hide OutputBound, EntryBound;
  }

  /** Bounded input gives bounded output, from reset and under every schedule of complexity and preset
      changes: comb storage within M/(1-F), output within wet * M/(1-F) * ((1+G)/(1-G))^2. */
  lemma BoundedOutput(start: SoundSettings, inputs: seq<(SoundSettings, real)>, m: real, f: real, g: real, wet: real)
    requires 0.0 <= m && 0.0 <= f < 1.0 && 0.0 <= g < 1.0
    requires forall k :: 0 <= k < |inputs| ==> InputWithin(inputs[k], m, f, g, wet)
    ensures var end := Run(Sample, NewReverb(start), inputs);
            && (end.0.tank.Primed? ==> forall c :: 0 <= c < NUM_COMBS ==>
                CombWithin(end.0.tank.combs[c], m / (1.0 - f)))
            && AllWithin(end.1, OutputBound(m, f, g) * wet)
  {
    hide EntryBound, StorageBound, Sample, AllWithin, CombWithin, InputWithin, OutputBound;
    CombLevel(m, f);
    OutputBoundIsEntryBound(m, f, g, wet);
    RunWithin(NewReverb(start), inputs, m, m / (1.0 - f), f, g, wet, OutputBound(m, f, g) * wet);
  }

  // ---------------------------------------------------------------- superposition

  predicate SeqLinear(xs: seq<real>, ys: seq<real>, zs: seq<real>, a: real, b: real) {
    |xs| == |ys| == |zs| && forall i :: 0 <= i < |zs| ==> zs[i] == a * xs[i] + b * ys[i]
  }

  /** Three combs in the same control state whose audio is linearly related. */
  predicate CombLinear(x: Comb, y: Comb, z: Comb, a: real, b: real) {
    if x.Off? || y.Off? || z.Off? then x.Off? && y.Off? && z.Off?
    else
      && x.weight == y.weight == z.weight
      && SeqLinear(x.line, y.line, z.line, a, b)
      && z.lp == a * x.lp + b * y.lp
  }

  predicate TankLinear(x: Tank, y: Tank, z: Tank, a: real, b: real) {
    if x.Unprimed? || y.Unprimed? || z.Unprimed? then x.Unprimed? && y.Unprimed? && z.Unprimed?
    else
      && |x.combs| == |y.combs| == |z.combs| && |x.lines| == |y.lines| == |z.lines|
      && x.fb == y.fb == z.fb && x.damp == y.damp == z.damp && x.ap == y.ap == z.ap
      && x.wanted == y.wanted == z.wanted
      && (forall c :: 0 <= c < |z.combs| ==> CombLinear(x.combs[c], y.combs[c], z.combs[c], a, b))
      && (forall l :: 0 <= l < |z.lines| ==> SeqLinear(x.lines[l], y.lines[l], z.lines[l], a, b))
  }

  lemma GateLinear(x: Comb, y: Comb, z: Comb, a: real, b: real, len: nat, changed: bool, wanted: bool, frames: nat)
    requires CombLinear(x, y, z, a, b)
    ensures CombLinear(x.Gate(len, changed, wanted, frames), y.Gate(len, changed, wanted, frames),
                       z.Gate(len, changed, wanted, frames), a, b)
  {
  }

  /** The control part never looks at the audio. */
  lemma ControlLinear(x: Reverb, y: Reverb, z: Reverb, a: real, b: real)
    requires x.Valid() && y.Valid() && z.Valid() && x.settings == y.settings == z.settings
    requires TankLinear(x.tank, y.tank, z.tank, a, b)
    ensures TankLinear(Control(x), Control(y), Control(z), a, b)
  {
    var s := x.settings;
    var p := if x.tank.Primed? then x.tank else Prime(s);
    var q := if x.tank.Primed? then y.tank else Prime(s);
    var r := if x.tank.Primed? then z.tank else Prime(s);
    assert TankLinear(p, q, r, a, b);
    forall c | 0 <= c < NUM_COMBS
      ensures CombLinear(Control(x).combs[c], Control(y).combs[c], Control(z).combs[c], a, b)
    {
      GateLinear(p.combs[c], q.combs[c], r.combs[c], a, b, CombLen(c), s.activeCombs != p.wanted, c < s.activeCombs,
                 s.rampFrames);
    }
  }

  lemma DampedLinear(x: Comb, y: Comb, z: Comb, a: real, b: real, damp: real)
    requires CombLinear(x, y, z, a, b)
    ensures z.Damped(damp) == a * x.Damped(damp) + b * y.Damped(damp)
  {
    if z.On? {
      SumLinear(a, b, (1.0 - damp) * x.Delayed(), (1.0 - damp) * y.Delayed(), damp, x.lp, y.lp);
      Distribute(1.0 - damp, a, x.Delayed(), b, y.Delayed());
    }
  }

  lemma FeedLinear(x: Comb, y: Comb, z: Comb, a: real, b: real, vx: real, vy: real, vz: real, dx: real, dy: real,
                   dz: real)
    requires CombLinear(x, y, z, a, b) && vz == a * vx + b * vy && dz == a * dx + b * dy
    ensures CombLinear(x.Feed(vx, dx), y.Feed(vy, dy), z.Feed(vz, dz), a, b)
  {
  }

  lemma CombAudioLinear(x: Comb, y: Comb, z: Comb, a: real, b: real, ux: real, uy: real, uz: real, fb: real, damp: real)
    requires CombLinear(x, y, z, a, b) && uz == a * ux + b * uy
    ensures CombLinear(CombAudio(x, ux, fb, damp), CombAudio(y, uy, fb, damp), CombAudio(z, uz, fb, damp), a, b)
  {
    hide Comb.Damped, CombLinear;
    DampedLinear(x, y, z, a, b, damp);
    SumLinear(a, b, ux, uy, fb, x.Damped(damp), y.Damped(damp));
    FeedLinear(x, y, z, a, b, ux + fb * x.Damped(damp), uy + fb * y.Damped(damp), uz + fb * z.Damped(damp),
               x.Damped(damp), y.Damped(damp), z.Damped(damp));
  }

  lemma TankSizes(x: Tank, y: Tank, z: Tank)
    requires x.Valid() && y.Valid() && z.Valid() && x.Primed? && y.Primed? && z.Primed?
    ensures |x.combs| == |y.combs| == |z.combs| == NUM_COMBS && |x.lines| == |y.lines| == |z.lines| == NUM_ALLPASS
  {
  }

  lemma CombOutLinear(x: Comb, y: Comb, z: Comb, a: real, b: real)
    requires CombLinear(x, y, z, a, b)
    ensures z.Delayed() == a * x.Delayed() + b * y.Delayed() && x.Weight() == y.Weight() == z.Weight()
  {
  }

  lemma BankOutLinear(x: Tank, y: Tank, z: Tank, a: real, b: real)
    requires x.Valid() && y.Valid() && z.Valid() && x.Primed? && y.Primed? && z.Primed?
    requires TankLinear(x, y, z, a, b)
    ensures BankOut(z) == a * BankOut(x) + b * BankOut(y)
  {
    TankSizes(x, y, z);
    hide Dot, Sum, SeqLinear, CombLinear, Tank.Valid;
    var ws := Weights(z.combs);
    var dx, dy, dz := Delays(x.combs), Delays(y.combs), Delays(z.combs);
    forall c | 0 <= c < NUM_COMBS
      ensures dz[c] == a * dx[c] + b * dy[c] && x.combs[c].Weight() == y.combs[c].Weight() == ws[c]
    {
      CombOutLinear(x.combs[c], y.combs[c], z.combs[c], a, b);
    }
    assert Weights(x.combs) == ws && Weights(y.combs) == ws;
    WeightSumAtLeastOne(z, NUM_COMBS);
    AverageLinear(ws, dx, dy, dz, a, b, NUM_COMBS);
  }

  lemma StoreLinear(lx: seq<real>, ly: seq<real>, lz: seq<real>, g: real, x: real, y: real, z: real, a: real, b: real)
    requires |lz| > 0 && SeqLinear(lx, ly, lz, a, b) && z == a * x + b * y
    ensures AllpassStore(lz, g, z) == a * AllpassStore(lx, g, x) + b * AllpassStore(ly, g, y)
  {
    SumLinear(a, b, x, y, g, lx[0], ly[0]);
  }

  lemma AllpassLinear(lx: seq<real>, ly: seq<real>, lz: seq<real>, g: real, x: real, y: real, z: real, a: real, b: real)
    requires |lz| > 0 && SeqLinear(lx, ly, lz, a, b) && z == a * x + b * y
    ensures AllpassOut(lz, g, z) == a * AllpassOut(lx, g, x) + b * AllpassOut(ly, g, y)
    ensures SeqLinear(AllpassFeed(lx, g, x), AllpassFeed(ly, g, y), AllpassFeed(lz, g, z), a, b)
  {
    hide AllpassStore;
    StoreLinear(lx, ly, lz, g, x, y, z, a, b);
    SumLinear(a, b, lx[0], ly[0], -g, AllpassStore(lx, g, x), AllpassStore(ly, g, y));
  }

  lemma {:induction false} ThroughLinear(lx: seq<seq<real>>, ly: seq<seq<real>>, lz: seq<seq<real>>, g: real,
                                         x: real, y: real, z: real, a: real, b: real, n: nat)
    requires n <= |lz| && |lx| == |ly| == |lz| && z == a * x + b * y
    requires forall l :: 0 <= l < |lz| ==> |lx[l]| > 0 && |ly[l]| > 0 && |lz[l]| > 0
    requires forall l :: 0 <= l < |lz| ==> SeqLinear(lx[l], ly[l], lz[l], a, b)
    ensures Through(lz, g, z, n) == a * Through(lx, g, x, n) + b * Through(ly, g, y, n)
  {
    hide AllpassOut, SeqLinear;
    if n > 0 {
      ThroughLinear(lx, ly, lz, g, x, y, z, a, b, n - 1);
      AllpassLinear(lx[n - 1], ly[n - 1], lz[n - 1], g, Through(lx, g, x, n - 1), Through(ly, g, y, n - 1),
                    Through(lz, g, z, n - 1), a, b);
    }
  }

  lemma AudioLinear(x: Tank, y: Tank, z: Tank, a: real, b: real, ux: real, uy: real, uz: real)
    requires x.Valid() && y.Valid() && z.Valid() && x.Primed? && y.Primed? && z.Primed?
    requires TankLinear(x, y, z, a, b) && uz == a * ux + b * uy
    ensures TankLinear(Audio(x, ux), Audio(y, uy), Audio(z, uz), a, b)
    ensures Through(z.lines, z.ap.value, BankOut(z), NUM_ALLPASS) ==
            a * Through(x.lines, x.ap.value, BankOut(x), NUM_ALLPASS) +
              b * Through(y.lines, y.ap.value, BankOut(y), NUM_ALLPASS)
  {
    hide BankOut, Through, AllpassFeed, CombAudio, CombLinear, SeqLinear;
    BankOutLinear(x, y, z, a, b);
    forall c | 0 <= c < NUM_COMBS
      ensures CombLinear(Audio(x, ux).combs[c], Audio(y, uy).combs[c], Audio(z, uz).combs[c], a, b)
    {
      CombAudioLinear(x.combs[c], y.combs[c], z.combs[c], a, b, ux, uy, uz, z.fb.value, z.damp.value);
    }
    var g := z.ap.value;
    forall l | 0 <= l < NUM_ALLPASS
      ensures SeqLinear(Audio(x, ux).lines[l], Audio(y, uy).lines[l], Audio(z, uz).lines[l], a, b)
    {
      ThroughLinear(x.lines, y.lines, z.lines, g, BankOut(x), BankOut(y), BankOut(z), a, b, l);
      AllpassLinear(x.lines[l], y.lines[l], z.lines[l], g, Through(x.lines, g, BankOut(x), l),
                    Through(y.lines, g, BankOut(y), l), Through(z.lines, g, BankOut(z), l), a, b);
    }
    ThroughLinear(x.lines, y.lines, z.lines, g, BankOut(x), BankOut(y), BankOut(z), a, b, NUM_ALLPASS);
  }

  /** Three inputs under the same settings, the third the mixture of the other two. */
  predicate InputLinear(x: (SoundSettings, real), y: (SoundSettings, real), z: (SoundSettings, real), a: real,
                        b: real) {
    x.0 == y.0 == z.0 && z.1 == a * x.1 + b * y.1
  }

  lemma SampleLinear(p: SoundReverb, q: SoundReverb, r: SoundReverb,
                     u: (SoundSettings, real), v: (SoundSettings, real), w: (SoundSettings, real), a: real, b: real)
    requires TankLinear(p.tank, q.tank, r.tank, a, b) && InputLinear(u, v, w, a, b)
    ensures TankLinear(Sample(p, u).0.tank, Sample(q, v).0.tank, Sample(r, w).0.tank, a, b)
    ensures Sample(r, w).1 == a * Sample(p, u).1 + b * Sample(q, v).1
  {
    hide Control, Audio, Through, BankOut, TankLinear;
    var x, y, z := p.(settings := u.0), q.(settings := v.0), r.(settings := w.0);
    ControlLinear(x, y, z, a, b);
    var k, l, m := Control(x), Control(y), Control(z);
    AudioLinear(k, l, m, a, b, u.1, v.1, w.1);
    Distribute(w.0.wet, a, Through(k.lines, k.ap.value, BankOut(k), NUM_ALLPASS), b,
               Through(l.lines, l.ap.value, BankOut(l), NUM_ALLPASS));
  }

  /** Superposition: under any one schedule of settings, the response to a mixture is the mixture of the
      responses. */
  lemma RunLinear(x: SoundReverb, y: SoundReverb, z: SoundReverb,
                  xs: seq<(SoundSettings, real)>, ys: seq<(SoundSettings, real)>, zs: seq<(SoundSettings, real)>,
                  a: real, b: real)
    requires TankLinear(x.tank, y.tank, z.tank, a, b)
    requires |xs| == |ys| == |zs| && forall k :: 0 <= k < |xs| ==> InputLinear(xs[k], ys[k], zs[k], a, b)
    ensures SeqLinear(Run(Sample, x, xs).1, Run(Sample, y, ys).1, Run(Sample, z, zs).1, a, b)
  {
    hide Sample, TankLinear, InputLinear, Run;
    var rel := (p: SoundReverb, q: SoundReverb, r: SoundReverb) => TankLinear(p.tank, q.tank, r.tank, a, b);
    var ins := (u: (SoundSettings, real), v: (SoundSettings, real), w: (SoundSettings, real)) =>
      InputLinear(u, v, w, a, b);
    var outs := (u: real, v: real, w: real) => w == a * u + b * v;
    forall p, q, r, u, v, w {:trigger StepRelated(Sample, rel, outs, p, q, r, u, v, w)} | rel(p, q, r) && ins(u, v, w)
      ensures StepRelated(Sample, rel, outs, p, q, r, u, v, w)
    {
      SampleLinear(p, q, r, u, v, w, a, b);
    }
    RunRelatedThrice(Sample, rel, ins, outs, x, y, z, xs, ys, zs);
    assert forall k :: 0 <= k < |xs| ==>
           outs(Run(Sample, x, xs).1[k], Run(Sample, y, ys).1[k], Run(Sample, z, zs).1[k]);
  }

  // ---------------------------------------------------------------- settling

  /** No weight needs more than n further samples. */
  predicate SettlesIn(t: Tank, n: nat) {
    t.Primed? ==> forall c :: 0 <= c < |t.combs| && t.combs[c].On? ==> t.combs[c].weight.remaining <= n
  }

  function RampLength(s: Settings): nat {
    if s.rampFrames == 0 then 1 else s.rampFrames
  }

  /** Every sample brings all weights closer, even the one at which the wanted count changes. */
  lemma StepSettles(r: Reverb, x: real, n: nat)
    requires r.Valid() && SettlesIn(r.tank, n)
    requires r.tank.Primed? && r.tank.wanted != r.settings.activeCombs ==> n >= RampLength(r.settings)
    ensures SettlesIn(Step(r, x).0.tank, if n == 0 then 0 else n - 1)
    ensures Step(r, x).0.tank.wanted == r.settings.activeCombs
  {
    var t := Control(r);
    var s := r.settings;
    var p := if r.tank.Primed? then r.tank else Prime(s);
    forall c | 0 <= c < NUM_COMBS && t.combs[c].On?
      ensures t.combs[c].weight.remaining <= if n == 0 then 0 else n - 1
    {
      assert p.combs[c].On? ==> p.combs[c].weight.remaining <= n;
    }
  }

  /** While the comb count is held, whatever else changes, every sample brings all weights closer. */
  lemma {:induction false} HeldRun(r: SoundReverb, combs: nat, inputs: seq<(SoundSettings, real)>, n: nat)
    requires SettlesIn(r.tank, n) && forall k :: 0 <= k < |inputs| ==> inputs[k].0.activeCombs == combs
    requires |inputs| > 0 ==> n >= RampLength(inputs[0].0)
    ensures SettlesIn(Run(Sample, r, inputs).0.tank, if n <= |inputs| then 0 else n - |inputs|)
    ensures |inputs| > 0 ==> Run(Sample, r, inputs).0.tank.Primed? && Run(Sample, r, inputs).0.tank.wanted == combs
    decreases |inputs|
  {
    if |inputs| > 0 {
      var k := |inputs| - 1;
      HeldRun(r, combs, inputs[..k], n);
      StepSettles(Run(Sample, r, inputs[..k]).0.(settings := inputs[k].0), inputs[k].1, if n <= k then 0 else n - k);
    }
  }

  /** In a sound tank whose weights have all arrived, exactly the wanted combs work, with weight one. */
  lemma ArrivedBank(t: Tank, c: nat)
    requires t.Valid() && t.Primed? && SettlesIn(t, 0) && c < NUM_COMBS
    ensures c < t.wanted ==> t.combs[c].On? && t.combs[c].weight == Settled(1.0)
    ensures t.wanted <= c ==> t.combs[c] == Off
  {
    assert t.combs[c].Ok(c, t.wanted);
  }

  /** Once the comb count has been held for one ramp, exactly the wanted combs work, each with weight one. The
      other settings may change at every sample, and so may the ramp length after the first. */
  lemma SettledBank(r: SoundReverb, combs: nat, frames: nat, inputs: seq<(SoundSettings, real)>)
    requires SettlesIn(r.tank, frames) && |inputs| >= frames
    requires |inputs| > 0 && RampLength(inputs[0].0) <= frames
    requires forall k :: 0 <= k < |inputs| ==> inputs[k].0.activeCombs == combs
    ensures var t := Run(Sample, r, inputs).0.tank;
            && t.Primed?
            && forall c :: 0 <= c < NUM_COMBS ==>
                 (c < combs ==> t.combs[c].On? && t.combs[c].weight == Settled(1.0)) &&
                 (combs <= c ==> t.combs[c] == Off)
  {
    HeldRun(r, combs, inputs, frames);
    var t := Run(Sample, r, inputs).0.tank;
    forall c: nat | c < NUM_COMBS
      ensures (c < combs ==> t.combs[c].On? && t.combs[c].weight == Settled(1.0)) &&
              (combs <= c ==> t.combs[c] == Off)
    {
      ArrivedBank(t, c);
    }
  }

  /** The first hypothesis of `SettledBank` costs nothing while ramps are no longer than `frames`: it holds in
      every state reached from reset. */
  lemma {:induction false} AlwaysSettlesInOneRamp(start: SoundSettings, inputs: seq<(SoundSettings, real)>, frames: nat)
    requires forall k :: 0 <= k < |inputs| ==> RampLength(inputs[k].0) <= frames
    ensures SettlesIn(Run(Sample, NewReverb(start), inputs).0.tank, frames)
    decreases |inputs|
  {
    if |inputs| > 0 {
      var n := |inputs| - 1;
      AlwaysSettlesInOneRamp(start, inputs[..n], frames);
      StepSettles(Run(Sample, NewReverb(start), inputs[..n]).0.(settings := inputs[n].0), inputs[n].1, frames);
    }
  }
}
