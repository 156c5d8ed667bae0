/** When the difference between a chain that was reset and a new one can be heard (src/audio/DspChain.cpp:60-90).

    The answer is exact. To show that a difference is heard, both chains are given one sample x and then silence,
    on one channel, with one comb and a word that names no preset. Two samples of the answer tell all: the first,
    which the dry path alone makes, and the one where the shortest comb first returns the input. */
module ResetHeard {
  import opened LinearRamps
  import opened RealFacts
  import opened Interleaving
  import opened Freeverb
  import opened FreeverbPairs
  import opened MixerStages
  import opened LimiterStages
  import opened ChainReference
  import opened ChainReset

  /** What is needed of the hyperbolic tangent: odd, increasing, and above 1 - 1 / (1 + v + v v) but below one for
      positive v. */
  ghost predicate TanhLike(tanh: real -> real) {
    && (forall v :: tanh(-v) == -tanh(v))
    && (forall u, v :: u < v ==> tanh(u) < tanh(v))
    && (forall v :: 0.0 <= v ==> tanh(v) < 1.0 && (1.0 - tanh(v)) * (1.0 + v + v * v) <= 1.0)
  }

  // ---------------------------------------------------------------- the answer of one reverb channel

  const FIRST_ECHO: nat := CombLen(0)

  predicate Silent(line: seq<real>) {
    forall i :: 0 <= i < |line| ==> line[i] == 0.0
  }

  /** A line that has taken x, and since then silence, for n samples in all. */
  predicate Travelling(line: seq<real>, x: real, n: nat) {
    && |line| == FIRST_ECHO && n <= FIRST_ECHO
    && forall i :: 0 <= i < |line| ==> line[i] == if i + n == FIRST_ECHO then x else 0.0
  }

  /** One comb works and holds x; nothing has reached the sections yet. */
  predicate Echoing(t: Tank, s: Settings, x: real, n: nat) {
    && t.Valid() && t.Primed? && t.wanted == s.activeCombs == 1
    && t.combs[0].On? && t.combs[0].lp == 0.0 && t.combs[0].weight == Settled(1.0) && Travelling(t.combs[0].line, x, n)
    && (forall c :: 1 <= c < NUM_COMBS ==> t.combs[c].Off?)
    && (forall a :: 0 <= a < NUM_ALLPASS ==> Silent(t.lines[a]))
    && t.fb == Settled(s.feedback) && t.damp == Settled(s.damping) && t.ap == Settled(s.allpassG)
  }

  /** Before its first sample a channel will start like this, and no ramp moves while nothing is retargeted. */
  lemma EchoControl(r: SoundReverb, x: real, n: nat)
    requires r.settings.activeCombs == 1
    requires if n == 0 then r.tank.Unprimed? else Echoing(r.tank, r.settings, x, n)
    ensures Echoing(Control(r), r.settings, x, n)
  {
    if n > 0 {
      assert Control(r).combs[0] == r.tank.combs[0].Fade();
    }
  }

  /** The bank puts out what leaves the one line that works. */
  lemma OneCombOut(t: Tank, s: Settings, x: real, n: nat)
    requires Echoing(t, s, x, n)
    ensures BankOut(t) == if n == FIRST_ECHO then x else 0.0
  {
    hide Sum, Dot;
    var ws, ds := Weights(t.combs), Delays(t.combs);
    FourTerms(ws, ds);
    assert ws[0] == 1.0 && ws[1] == ws[2] == ws[3] == 0.0;
    assert Sum(ws, 4) == 1.0 && Dot(ws, ds, 4) == ds[0];
  }

  /** Silent sections only scale. */
  lemma SilentSections(lines: seq<seq<real>>, g: real, x: real)
    requires |lines| == NUM_ALLPASS && forall a :: 0 <= a < NUM_ALLPASS ==> |lines[a]| > 0 && Silent(lines[a])
    ensures Through(lines, g, x, NUM_ALLPASS) == g * g * x
    ensures x == 0.0 ==> forall a :: 0 <= a < NUM_ALLPASS ==> Silent(FeedLines(lines, g, x)[a])
  {
    assert Through(lines, g, x, 0) == x;
    assert Through(lines, g, x, 1) == -(g * x);
    assert Through(lines, g, x, 2) == -(g * -(g * x));
  }

  lemma CombTravels(c: Comb, x: real, n: nat, fb: real, damp: real, input: real)
    requires c.On? && c.lp == 0.0 && Travelling(c.line, x, n) && n < FIRST_ECHO
    requires input == if n == 0 then x else 0.0
    ensures var d := CombAudio(c, input, fb, damp);
            d.On? && d.lp == 0.0 && d.weight == c.weight && Travelling(d.line, x, n + 1)
  {
    assert c.line[0] == 0.0;
    assert c.Damped(damp) == 0.0;
  }

  /** The wet signal of sample i. */
  function WetAt(s: Settings, x: real, i: nat): real {
    if i == FIRST_ECHO then s.allpassG * s.allpassG * x * s.wet else 0.0
  }

  /** One sample: x first, then silence. */
  lemma EchoStep(r: SoundReverb, x: real, n: nat, input: real)
    requires r.settings.activeCombs == 1 && n <= FIRST_ECHO && input == if n == 0 then x else 0.0
    requires if n == 0 then r.tank.Unprimed? else Echoing(r.tank, r.settings, x, n)
    ensures Step(r, input).1 == WetAt(r.settings, x, n)
    ensures n < FIRST_ECHO ==> Echoing(Step(r, input).0.tank, r.settings, x, n + 1)
  {
    var t := Control(r);
    EchoControl(r, x, n);
    OneCombOut(t, r.settings, x, n);
    SilentSections(t.lines, t.ap.value, BankOut(t));
    if n < FIRST_ECHO {
      CombTravels(t.combs[0], x, n, t.fb.value, t.damp.value, input);
    }
  }

  // ---------------------------------------------------------------- the answer of the chain

  /** One sample, then silence until the first echo. */
  function Impulse(x: real): (xs: seq<real>)
    ensures |xs| == FIRST_ECHO + 1 && forall i :: 0 <= i < |xs| ==> xs[i] == if i == 0 then x else 0.0
  {
    seq(FIRST_ECHO + 1, i => if i == 0 then x else 0.0)
  }

  /** Mixer and limiter at rest on what they aim at. */
  predicate Steady(m: Maths, a: Audio, mixer: SoundMixer, limiter: SoundLimiter) {
    && a.mixer == mixer.(gains := Gains.Primed(Settled(DryGoal(mixer.wetAmount, mixer.mode, m.cosine)),
                                              Settled(WetGoal(mixer.wetAmount, mixer.mode, m.sine))))
    && a.limiter == limiter.(knee := Knee.Primed(Settled(limiter.kneeBlend)))
  }

  /** A chain that has taken n samples of an impulse since it was reset. */
  predicate Answering(m: Maths, a: Audio, start: Audio, x: real, n: nat) {
    && a.pair.0.settings == start.pair.0.settings && a.pair.0.settings.activeCombs == 1
    && (if n == 0 then a == start && a.pair.0.tank.Unprimed? && a.mixer.gains.Unprimed? && a.limiter.knee.Unprimed?
        else
          && n <= FIRST_ECHO && Echoing(a.pair.0.tank, a.pair.0.settings, x, n)
          && Steady(m, a, start.mixer, start.limiter))
  }

  /** What is heard at sample i. */
  function HeardAt(m: Maths, a: Audio, x: real, i: nat): real {
    Shape(m.tanh, a.limiter.kneeBlend, a.limiter.makeupGain, a.limiter.ceiling,
          Weigh(DryGoal(a.mixer.wetAmount, a.mixer.mode, m.cosine), if i == 0 then x else 0.0,
                WetGoal(a.mixer.wetAmount, a.mixer.mode, m.sine), WetAt(a.pair.0.settings, x, i)))
  }

  lemma AnswerStep(m: Maths, a: Audio, start: Audio, x: real, n: nat, input: real)
    requires Answering(m, a, start, x, n) && n <= FIRST_ECHO && input == if n == 0 then x else 0.0
    ensures ChainSample(m, a, (0, input)).1 == HeardAt(m, start, x, n)
    ensures n < FIRST_ECHO ==> Answering(m, ChainSample(m, a, (0, input)).0, start, x, n + 1)
  {
    hide Step, Echoing, WetAt, DryGoal, WetGoal, Weigh, Shape;
    EchoStep(a.pair.0, x, n, input);
  }

  lemma {:induction false} AnswerSoFar(m: Maths, start: Audio, x: real, n: nat)
    requires Answering(m, start, start, x, 0) && n <= FIRST_ECHO
    ensures Answering(m, ChainRun(m, start, Tagged(Impulse(x), 1)[..n]).0, start, x, n)
    decreases n
  {
    hide Answering, ChainSample, ChainRun, Impulse;
    var t := Tagged(Impulse(x), 1);
    if n == 0 {
      assert t[..0] == [];
      ChainRunNothing(m, start);
    } else {
      AnswerSoFar(m, start, x, n - 1);
      ChainRunNext(m, start, t, n - 1);
      AnswerStep(m, ChainRun(m, start, t[..n - 1]).0, start, x, n - 1, t[n - 1].1);
    }
  }

  /** The answer of a chain that has just been reset: what is heard at any sample up to the first echo. */
  lemma Answer(m: Maths, start: Audio, x: real, i: nat)
    requires Answering(m, start, start, x, 0) && i <= FIRST_ECHO
    ensures ChainRun(m, start, Tagged(Impulse(x), 1)).1[i] == HeardAt(m, start, x, i)
  {
    hide Answering, ChainSample, HeardAt, Impulse;
    var t := Tagged(Impulse(x), 1);
    AnswerSoFar(m, start, x, i);
    ChainRunNext(m, start, t, i);
    AnswerStep(m, ChainRun(m, start, t[..i]).0, start, x, i, t[i].1);
    ChainRunAppend(m, start, t[..i + 1], t[i + 1..]);
    assert t[..i + 1] + t[i + 1..] == t;
  }

  /** The probing block: an impulse on one channel, with words that name no preset and ask for one comb. */
  function Probe(x: real): Block {
    Block(Controls(PRESET_COUNT, 0), Impulse(x), 1)
  }

  /** No stage remembers any audio. */
  predicate Blank(c: Chain) {
    c.audio.pair.0.tank.Unprimed? && c.audio.mixer.gains.Unprimed? && c.audio.limiter.knee.Unprimed?
  }

  lemma OneBlock(m: Maths, c: Chain, b: Block)
    requires b.channels > 0
    ensures Session(m, c, [b]).1 == Process(m, c, b.words, b.samples, b.channels).1
  {
    hide Process;
    var first := Process(m, c, b.words, b.samples, b.channels);
    assert [b][1..] == [];
    assert Session(m, first.0, []) == (first.0, []);
    assert first.1 + [] == first.1;
  }

  /** What a chain that carries preset p answers, reset or new. */
  lemma ProbeAnswers(m: Maths, c: Chain, p: nat, w: real, g: real, frames: nat, x: real, i: nat, dry: real, wet: real)
    requires Carries(c, p, w, g, frames) && Blank(c) && i <= FIRST_ECHO
    requires dry == (if i == 0 then x else 0.0)
    requires wet == if i == FIRST_ECHO then Params(p).allpassG * Params(p).allpassG * x * 0.5 else 0.0
    ensures |Session(m, c, [Probe(x)]).1| == FIRST_ECHO + 1
    ensures var mode := Params(p).crossfadeMode;
            Session(m, c, [Probe(x)]).1[i] ==
            Shape(m.tanh, Params(p).kneeBlend, g, 1.0,
                  Weigh(DryGoal(w, mode, m.cosine), dry, WetGoal(w, mode, m.sine), wet))
  {
    hide ChainRun, Impulse, Weigh, Shape, DryGoal, WetGoal;
    var start := Apply(c, Probe(x).words).audio;
    assert ActiveCombs(0) == 1;
    assert start.pair.0.settings == c.audio.pair.0.settings.(activeCombs := 1);
    Answer(m, start, x, i);
    OneBlock(m, c, Probe(x));
    assert wet == WetAt(start.pair.0.settings, x, i);
  }

  // ---------------------------------------------------------------- curves that differ

  lemma TanhSigns(tanh: real -> real, v: real)
    requires TanhLike(tanh)
    ensures tanh(0.0) == 0.0 && Abs(tanh(v)) < 1.0
    ensures 0.0 < v ==> 0.0 < tanh(v)
    ensures v < 0.0 ==> tanh(v) < 0.0
  {
    assert tanh(-0.0) == -tanh(0.0) && tanh(-v) == -tanh(v);
  }

  /** With the ceiling of the chain a shaped sample is the blend of both curves at u, the sample z after the makeup
      gain. */
  lemma Shaped(tanh: real -> real, k: real, g: real, z: real, u: real)
    requires TanhLike(tanh) && 0.0 <= k <= 1.0 && u == z * g
    ensures Shape(tanh, k, g, 1.0, z) == Crossfade(k, tanh(u), Soft(u))
    ensures k == 0.0 ==> Shape(tanh, k, g, 1.0, z) == tanh(u)
  {
    hide TanhLike, Shape, Crossfade, Soft;
    TanhSigns(tanh, z * g);
    ShapeBlends(tanh, k, g, 1.0, z);
    assert tanh(z * g) == tanh(u) && Soft(z * g) == Soft(u);
  }

  lemma SoftAt(u: real)
    requires 0.0 <= u
    ensures (1.0 - Soft(u)) * (1.0 + u) == 1.0 && 0.0 <= Soft(u) && (u > 0.0 ==> 0.0 < Soft(u))
  {
    QuotientTimes(u, 1.0 + u);
    DivMono(0.0, u, 1.0 + u);
  }

  /** If e is 1 / (1 + u), the gap is at most 1 / big, and k big is more than 1 + u, then the gap is less than k e. */
  lemma SmallerGap(k: real, e: real, u: real, big: real, gap: real)
    requires 0.0 < u && 0.0 < big && e * (1.0 + u) == 1.0 && gap * big <= 1.0 && 1.0 + u < k * big
    ensures gap < k * e
  {
    var r := k * e * big - 1.0;
    assert r * (1.0 + u) == k * big * (e * (1.0 + u)) - (1.0 + u);
    SignOfFactor(r, 1.0 + u);
    assert (k * e - gap) * big == k * e * big - gap * big;
    SignOfFactor(k * e - gap, big);
  }

  lemma PositiveProduct(a: real, b: real, p: real)
    requires 0.0 < a && 0.0 < b && p == a * b
    ensures 0.0 < p
  {
  }

  lemma ThreeTerms(k: real, v: real, w: real)
    ensures k * (1.0 + v + w) == k + k * v + k * w
  {
  }

  lemma Squares(k: real, c: real, u: real, v: real, s: real, q: real)
    requires v == c * u && s == c * c && q == k * s && q * u == q + 2.0
    ensures k * (v * v) == (q + 2.0) * u
  {
    assert v * v == s * (u * u);
    assert k * (s * (u * u)) == q * u * u;
  }

  lemma FarProducts(k: real, c: real, u: real, v: real, s: real, q: real)
    requires 0.0 < k && 0.0 < v && v == c * u && 1.0 <= u && s == c * c && q == k * s && 0.0 < q && q * u == q + 2.0
    ensures 1.0 + u < k * (1.0 + v + v * v)
  {
    PositiveProduct(k, v, k * v);
    Squares(k, c, u, v, s, q);
    MulStrict(2.0, q + 2.0, u);
    ThreeTerms(k, v, v * v);
  }

  /** Far out, k (c u)^2 is more than 1 + u. */
  lemma FarOut(k: real, c: real) returns (u: real, v: real)
    requires 0.0 < k && 0.0 < c
    ensures 1.0 <= u && v == c * u && 0.0 < v && 1.0 + u < k * (1.0 + v + v * v)
  {
    var s := c * c;
    PositiveProduct(c, c, s);
    var q := k * s;
    PositiveProduct(k, s, q);
    u := 1.0 + 2.0 / q;
    DivMono(0.0, 2.0, q);
    QuotientTimes(2.0, q);
    v := c * u;
    PositiveProduct(c, u, v);
    FarProducts(k, c, u, v, s, q);
  }

  lemma TanhRises(tanh: real -> real, v: real)
    requires TanhLike(tanh) && 0.0 <= v
    ensures (1.0 - tanh(v)) * (1.0 + v + v * v) <= 1.0
  {
  }

  lemma Falls(k: real, t: real, s: real)
    requires 0.0 < k <= 1.0 && t <= 1.0
    ensures (1.0 - k) * t + k * s <= 1.0 - k * (1.0 - s)
  {
    MulMono(t, 1.0, 1.0 - k);
  }

  /** The soft knee keeps the blend away from one. */
  lemma BlendFalls(tanh: real -> real, k: real, u: real)
    requires TanhLike(tanh) && 0.0 < k <= 1.0 && 0.0 < u
    ensures Crossfade(k, tanh(u), Soft(u)) <= 1.0 - k * (1.0 - Soft(u))
  {
    hide TanhLike, Soft;
    TanhSigns(tanh, u);
    Falls(k, tanh(u), Soft(u));
  }

  lemma CurvesPart(tanh: real -> real, k: real, u: real, v: real)
    requires TanhLike(tanh) && 0.0 < k <= 1.0 && 0.0 < u && 0.0 < v && 1.0 + u < k * (1.0 + v + v * v)
    ensures Crossfade(k, tanh(u), Soft(u)) < tanh(v)
  {
    hide TanhLike, Crossfade, Soft;
    var gap, e, big := 1.0 - tanh(v), 1.0 - Soft(u), 1.0 + v + v * v;
    BlendFalls(tanh, k, u);
    SoftAt(u);
    TanhRises(tanh, v);
    PositiveProduct(v, v, v * v);
    SmallerGap(k, e, u, big, gap);
  }

  lemma TanhNotPositive(tanh: real -> real, v: real)
    requires TanhLike(tanh) && v <= 0.0
    ensures tanh(v) <= 0.0
  {
    TanhSigns(tanh, v);
  }

  lemma BlendPositive(tanh: real -> real, k: real, u: real)
    requires TanhLike(tanh) && 0.0 < k <= 1.0 && 0.0 < u
    ensures 0.0 < Crossfade(k, tanh(u), Soft(u))
  {
    TanhSigns(tanh, u);
    SoftAt(u);
    CrossfadeBetween(k, tanh(u), Soft(u));
    hide TanhLike, Crossfade, Soft;
  }

  /** A tanh whose argument is scaled is never the blend with a soft knee. */
  lemma CurvesDiffer(tanh: real -> real, k: real, c: real) returns (u: real, v: real)
    requires TanhLike(tanh) && 0.0 < k <= 1.0
    ensures v == c * u && Crossfade(k, tanh(u), Soft(u)) != tanh(v)
  {
    hide TanhLike, Crossfade, Soft;
    if c <= 0.0 {
      u, v := 1.0, c;
      BlendPositive(tanh, k, u);
      TanhNotPositive(tanh, v);
    } else {
      u, v := FarOut(k, c);
      CurvesPart(tanh, k, u, v);
    }
  }

  /** The input at which the signal reaches u after a gain d and the makeup gain g. */
  lemma Reach(d: real, g: real, u: real) returns (x: real, y: real)
    requires d != 0.0 && g != 0.0
    ensures y == d * x && y * g == u
  {
    y := u / g;
    x := y / d;
    QuotientTimes(u, g);
    QuotientTimes(y, d);
  }

  lemma ReachedToo(d: real, n: real, c: real, g: real, x: real, y: real, z: real, u: real)
    requires c * d == n && y == d * x && z == n * x && y * g == u
    ensures z * g == c * u
  {
    assert z == c * y;
    assert z * g == c * (y * g);
  }

  lemma TanhPositive(tanh: real -> real, v: real)
    requires TanhLike(tanh) && 0.0 < v
    ensures 0.0 < tanh(v)
  {
    TanhSigns(tanh, v);
  }

  lemma NothingIn(tanh: real -> real, k: real)
    requires TanhLike(tanh)
    ensures Crossfade(k, tanh(0.0), Soft(0.0)) == 0.0
  {
    TanhSigns(tanh, 0.0);
  }

  /** Two chains of which one has a soft knee play different samples for some input x, unless both of their gains
      are zero. */
  lemma KneeHeard(tanh: real -> real, k: real, g: real, d: real, n: real) returns (x: real, y: real, z: real)
    requires TanhLike(tanh) && 0.0 < k <= 1.0 && g != 0.0 && (d != 0.0 || n != 0.0)
    ensures y == d * x && z == n * x && Shape(tanh, k, g, 1.0, y) != Shape(tanh, 0.0, g, 1.0, z)
  {
    hide TanhLike, Shape, Crossfade, Soft;
    if d != 0.0 {
      var u, v := CurvesDiffer(tanh, k, n / d);
      x, y := Reach(d, g, u);
      z := n * x;
      QuotientTimes(n, d);
      ReachedToo(d, n, n / d, g, x, y, z, u);
      Shaped(tanh, k, g, y, u);
      Shaped(tanh, 0.0, g, z, v);
    } else {
      x, z := Reach(n, g, 1.0);
      y := 0.0;
      TanhPositive(tanh, 1.0);
      NothingIn(tanh, k);
      Shaped(tanh, k, g, y, 0.0);
      Shaped(tanh, 0.0, g, z, 1.0);
    }
  }

  lemma Cancels(d: real, x: real, y: real, g: real)
    requires x * g == 1.0 && y == d * x
    ensures y * g == d
  {
    assert d * x * g == d * (x * g);
  }

  lemma Increasing(tanh: real -> real, d: real, n: real)
    requires TanhLike(tanh) && d != n
    ensures tanh(d) != tanh(n)
  {
  }

  /** Without a knee, chains with different gains play different samples for some input x. */
  lemma GainHeard(tanh: real -> real, g: real, d: real, n: real) returns (x: real, y: real, z: real)
    requires TanhLike(tanh) && g != 0.0 && d != n
    ensures y == d * x && z == n * x && Shape(tanh, 0.0, g, 1.0, y) != Shape(tanh, 0.0, g, 1.0, z)
  {
    hide TanhLike, Shape;
    x := 1.0 / g;
    y, z := d * x, n * x;
    QuotientTimes(1.0, g);
    Cancels(d, x, y, g);
    Cancels(n, x, z, g);
    Shaped(tanh, 0.0, g, y, d);
    Shaped(tanh, 0.0, g, z, n);
    Increasing(tanh, d, n);
  }

  // ---------------------------------------------------------------- what is heard

  lemma DryOnly(d: real, w: real, x: real, y: real)
    requires y == d * x
    ensures Weigh(d, x, w, 0.0) == y
  {
  }

  /** The first echo has passed two sections of gain a, the output level, and the wet gain w of the mixer. */
  lemma EchoOnly(d: real, w: real, a: real, x: real, wet: real, n: real, y: real)
    requires wet == a * a * x * 0.5 && n == w * (a * a * 0.5) && y == n * x
    ensures Weigh(d, 0.0, w, wet) == y
  {
  }

  /** New chains have linear gains. */
  lemma LinearGoals(w: real, cosine: real -> real, sine: real -> real)
    ensures DryGoal(w, 0.0, cosine) == 1.0 - w && WetGoal(w, 0.0, sine) == w
  {
  }

  /** A reset chain and a new one of the same make. */
  lemma BothCarry(c: Chain, p: nat, w: real, g: real, frames: nat)
    requires Carries(c, p, w, g, frames)
    ensures Carries(Reset(c), p, w, g, frames) && Carries(Rebuilt(c), NO_PRESET, w, g, frames)
    ensures Blank(Reset(c)) && Blank(Rebuilt(c))
  {
  }

  /** The gain from the input to the first echo, and to the first sample, with preset p. */
  function EchoGain(m: Maths, p: nat, w: real): real {
    var q := Params(p);
    WetGoal(w, q.crossfadeMode, m.sine) * (q.allpassG * q.allpassG * 0.5)
  }

  function DryGain(m: Maths, p: nat, w: real): real {
    DryGoal(w, Params(p).crossfadeMode, m.cosine)
  }

  lemma EchoAnswer(m: Maths, c: Chain, p: nat, w: real, g: real, frames: nat, x: real, y: real)
    requires Carries(c, p, w, g, frames) && Blank(c) && y == EchoGain(m, p, w) * x
    ensures |Session(m, c, [Probe(x)]).1| == FIRST_ECHO + 1
    ensures Session(m, c, [Probe(x)]).1[FIRST_ECHO] == Shape(m.tanh, Params(p).kneeBlend, g, 1.0, y)
  {
    hide Shape, Weigh, DryGoal, WetGoal, Carries, Blank, Session, Params, Process, Impulse;
    var mode, a := Params(p).crossfadeMode, Params(p).allpassG;
    var wet := a * a * x * 0.5;
    ProbeAnswers(m, c, p, w, g, frames, x, FIRST_ECHO, 0.0, wet);
    EchoOnly(DryGoal(w, mode, m.cosine), WetGoal(w, mode, m.sine), a, x, wet, EchoGain(m, p, w), y);
  }

  lemma DryAnswer(m: Maths, c: Chain, p: nat, w: real, g: real, frames: nat, x: real, y: real)
    requires Carries(c, p, w, g, frames) && Blank(c) && y == DryGain(m, p, w) * x
    ensures |Session(m, c, [Probe(x)]).1| == FIRST_ECHO + 1
    ensures Session(m, c, [Probe(x)]).1[0] == Shape(m.tanh, Params(p).kneeBlend, g, 1.0, y)
  {
    hide Shape, Weigh, DryGoal, WetGoal, Carries, Blank, Session, Params, Process, Impulse;
    var mode := Params(p).crossfadeMode;
    ProbeAnswers(m, c, p, w, g, frames, x, 0, x, 0.0);
    DryOnly(DryGoal(w, mode, m.cosine), WetGoal(w, mode, m.sine), x, y);
  }

  /** The percussive preset changes the level of the echo, and the others have a soft knee. */
  lemma PresetsDiffer(m: Maths, p: nat, w: real)
    requires p < PRESET_COUNT
    ensures p == 0 ==> Params(p).kneeBlend == 0.0 && (w != 0.0 ==> EchoGain(m, p, w) != EchoGain(m, NO_PRESET, w))
    ensures p > 0 ==> 0.0 < Params(p).kneeBlend <= 1.0
    ensures Params(NO_PRESET).kneeBlend == 0.0 && DryGain(m, NO_PRESET, w) == 1.0 - w
    ensures w != 0.0 ==> EchoGain(m, NO_PRESET, w) != 0.0
  {
    LinearGoals(w, m.cosine, m.sine);
    hide DryGoal, WetGoal;
  }

  /** If there is a wet signal, the first echo differs: by its level after the percussive preset, by the knee after
      the others. */
  lemma EchoHeard(m: Maths, c: Chain, p: nat, w: real, g: real, frames: nat) returns (x: real)
    requires Carries(c, p, w, g, frames) && p < PRESET_COUNT && TanhLike(m.tanh) && g != 0.0 && w != 0.0
    ensures Session(m, Reset(c), [Probe(x)]).1 != Session(m, Rebuilt(c), [Probe(x)]).1
  {
    hide TanhLike, Shape, EchoGain, DryGain, Params, Carries, Blank, Reset, Rebuilt, Session;
    PresetsDiffer(m, p, w);
    var y, z;
    if p == 0 {
      x, y, z := GainHeard(m.tanh, g, EchoGain(m, p, w), EchoGain(m, NO_PRESET, w));
    } else {
      x, y, z := KneeHeard(m.tanh, Params(p).kneeBlend, g, EchoGain(m, p, w), EchoGain(m, NO_PRESET, w));
    }
    BothCarry(c, p, w, g, frames);
    EchoAnswer(m, Reset(c), p, w, g, frames, x, y);
    EchoAnswer(m, Rebuilt(c), NO_PRESET, w, g, frames, x, z);
  }

  /** Without a wet signal, the knee still differs after the tonal and the ambient preset. */
  lemma DryHeard(m: Maths, c: Chain, p: nat, g: real, frames: nat) returns (x: real)
    requires Carries(c, p, 0.0, g, frames) && 0 < p < PRESET_COUNT && TanhLike(m.tanh) && g != 0.0
    ensures Session(m, Reset(c), [Probe(x)]).1 != Session(m, Rebuilt(c), [Probe(x)]).1
  {
    hide TanhLike, Shape, EchoGain, DryGain, Params, Carries, Blank, Reset, Rebuilt, Session;
    PresetsDiffer(m, p, 0.0);
    var y, z;
    x, y, z := KneeHeard(m.tanh, Params(p).kneeBlend, g, DryGain(m, p, 0.0), DryGain(m, NO_PRESET, 0.0));
    BothCarry(c, p, 0.0, g, frames);
    DryAnswer(m, Reset(c), p, 0.0, g, frames, x, y);
    DryAnswer(m, Rebuilt(c), NO_PRESET, 0.0, g, frames, x, z);
  }

  // ---------------------------------------------------------------- what is not heard

  /** The makeup gain is zero. */
  predicate Muted(c: Chain) {
    c.audio.limiter.makeupGain == 0.0 && c.audio.limiter.ceiling == 1.0
  }

  lemma SilenceShaped(tanh: real -> real, k: real, z: real)
    requires tanh(0.0) == 0.0
    ensures Shape(tanh, k, 0.0, 1.0, z) == 0.0
  {
    assert z * 0.0 == 0.0;
  }

  lemma MutedSample(m: Maths, a: Audio, x: (nat, real))
    requires m.tanh(0.0) == 0.0 && a.limiter.makeupGain == 0.0 && a.limiter.ceiling == 1.0
    ensures var r := ChainSample(m, a, x);
            r.1 == 0.0 && r.0.limiter.makeupGain == 0.0 && r.0.limiter.ceiling == 1.0
  {
    hide PairSample, MixSample, Crossfade;
    var z := MixSample(m.cosine, m.sine, a.mixer, (x.0, x.1, PairSample(a.pair, x).1)).1;
    assert z * 0.0 == 0.0;
    SilenceShaped(m.tanh, LimitSample(m.tanh, a.limiter, (x.0, z)).0.KneeNow(), z);
  }

  lemma {:induction false} MutedRun(m: Maths, a: Audio, xs: seq<(nat, real)>)
    requires m.tanh(0.0) == 0.0 && a.limiter.makeupGain == 0.0 && a.limiter.ceiling == 1.0
    ensures var r := ChainRun(m, a, xs);
            Silent(r.1) && r.0.limiter.makeupGain == 0.0 && r.0.limiter.ceiling == 1.0
    decreases |xs|
  {
    hide ChainSample, ChainRun;
    if |xs| == 0 {
      ChainRunNothing(m, a);
    } else {
      var n := |xs| - 1;
      MutedRun(m, a, xs[..n]);
      ChainRunNext(m, a, xs, n);
      assert xs[..n + 1] == xs;
      MutedSample(m, ChainRun(m, a, xs[..n]).0, xs[n]);
    }
  }

  lemma MutedBlock(m: Maths, c: Chain, b: Block)
    requires m.tanh(0.0) == 0.0 && Muted(c) && b.channels > 0
    ensures var r := Process(m, c, b.words, b.samples, b.channels);
            Muted(r.0) && Silent(r.1)
  {
    hide ChainRun, ActiveCombs;
    if |b.samples| > 0 {
      MutedRun(m, Apply(c, b.words).audio, Tagged(b.samples, b.channels));
    }
  }

  function SampleCount(blocks: seq<Block>): nat {
    if |blocks| == 0 then 0 else |blocks[0].samples| + SampleCount(blocks[1..])
  }

  /** A chain without makeup gain plays silence. */
  lemma {:induction false} MutedSession(m: Maths, c: Chain, blocks: seq<Block>)
    requires m.tanh(0.0) == 0.0 && Muted(c) && Blocks(blocks)
    ensures Silent(Session(m, c, blocks).1) && |Session(m, c, blocks).1| == SampleCount(blocks)
    decreases |blocks|
  {
    hide Process, Muted;
    if |blocks| > 0 {
      MutedBlock(m, c, blocks[0]);
      MutedSession(m, Process(m, c, blocks[0].words, blocks[0].samples, blocks[0].channels).0, blocks[1..]);
    }
  }

  /** Without a wet signal, chains that differ in their reverb only. */
  predicate DryAlike(a: Audio, b: Audio) {
    && a.mixer == b.mixer && a.limiter == b.limiter && a.mixer.wetAmount == 0.0
    && (a.mixer.gains.Primed? ==> a.mixer.gains.wet == Settled(0.0))
  }

  /** The mixer ignores a wet signal of no gain. */
  lemma WetUnheard(m: Maths, mixer: SoundMixer, x: (nat, real), u: real, v: real)
    requires m.sine(0.0) == 0.0 && mixer.wetAmount == 0.0
    requires mixer.gains.Primed? ==> mixer.gains.wet == Settled(0.0)
    ensures MixSample(m.cosine, m.sine, mixer, (x.0, x.1, u)) == MixSample(m.cosine, m.sine, mixer, (x.0, x.1, v))
    ensures var now := MixSample(m.cosine, m.sine, mixer, (x.0, x.1, u)).0;
            now.wetAmount == 0.0 && (now.gains.Primed? ==> now.gains.wet == Settled(0.0))
  {
    hide DryGoal;
    assert WetGoal(0.0, mixer.mode, m.sine) == 0.0;
    assert 0.0 * u == 0.0 * v == 0.0;
  }

  lemma DrySample(m: Maths, a: Audio, b: Audio, x: (nat, real))
    requires m.sine(0.0) == 0.0 && DryAlike(a, b)
    ensures ChainSample(m, a, x).1 == ChainSample(m, b, x).1
    ensures DryAlike(ChainSample(m, a, x).0, ChainSample(m, b, x).0)
  {
    hide PairSample, DryGoal, Shape;
    assert WetGoal(0.0, a.mixer.mode, m.sine) == 0.0;
    WetUnheard(m, a.mixer, x, PairSample(a.pair, x).1, PairSample(b.pair, x).1);
  }

  lemma {:induction false} DryRun(m: Maths, a: Audio, b: Audio, xs: seq<(nat, real)>)
    requires m.sine(0.0) == 0.0 && DryAlike(a, b)
    ensures ChainRun(m, a, xs).1 == ChainRun(m, b, xs).1 && DryAlike(ChainRun(m, a, xs).0, ChainRun(m, b, xs).0)
    decreases |xs|
  {
    hide ChainSample, ChainRun, DryAlike;
    if |xs| == 0 {
      ChainRunNothing(m, a);
      ChainRunNothing(m, b);
    } else {
      var n := |xs| - 1;
      DryRun(m, a, b, xs[..n]);
      ChainRunNext(m, a, xs, n);
      ChainRunNext(m, b, xs, n);
      assert xs[..n + 1] == xs;
      DrySample(m, ChainRun(m, a, xs[..n]).0, ChainRun(m, b, xs[..n]).0, xs[n]);
    }
  }

  lemma DryApply(c: Chain, d: Chain, k: SoundControls)
    requires DryAlike(c.audio, d.audio) && c.lastPreset == d.lastPreset
    ensures DryAlike(Apply(c, k).audio, Apply(d, k).audio) && Apply(c, k).lastPreset == Apply(d, k).lastPreset
  {
    hide ActiveCombs;
  }

  lemma {:induction false} DrySession(m: Maths, c: Chain, d: Chain, blocks: seq<Block>)
    requires m.sine(0.0) == 0.0 && DryAlike(c.audio, d.audio) && c.lastPreset == d.lastPreset && Blocks(blocks)
    ensures Session(m, c, blocks).1 == Session(m, d, blocks).1
    decreases |blocks|
  {
    hide Apply, ChainRun, DryAlike;
    if |blocks| > 0 {
      var b := blocks[0];
      if |b.samples| > 0 {
        DryApply(c, d, b.words);
        DryRun(m, Apply(c, b.words).audio, Apply(d, b.words).audio, Tagged(b.samples, b.channels));
      }
      DrySession(m, Process(m, c, b.words, b.samples, b.channels).0, Process(m, d, b.words, b.samples, b.channels).0,
                 blocks[1..]);
    }
  }

  // ---------------------------------------------------------------- exactly when a reset can be told from a new chain

  /** Nobody can tell the chains apart. */
  ghost predicate SoundAlike(m: Maths, c: Chain, d: Chain) {
    forall blocks :: Blocks(blocks) ==> Session(m, c, blocks).1 == Session(m, d, blocks).1
  }

  lemma Unheard(m: Maths, c: Chain, p: nat, w: real, g: real, frames: nat)
    requires Carries(c, p, w, g, frames) && TanhLike(m.tanh) && m.sine(0.0) == 0.0
    requires p == NO_PRESET || g == 0.0 || (p == 0 && w == 0.0)
    ensures SoundAlike(m, Reset(c), Rebuilt(c))
  {
    hide Process;
    TanhSigns(m.tanh, 0.0);
    forall blocks | Blocks(blocks) ensures Session(m, Reset(c), blocks).1 == Session(m, Rebuilt(c), blocks).1 {
      if p == NO_PRESET {
        SoundsNew(m, c, p, w, g, frames, blocks);
      } else if g == 0.0 {
        MutedSession(m, Reset(c), blocks);
        MutedSession(m, Rebuilt(c), blocks);
      } else {
        DrySession(m, Reset(c), Rebuilt(c), blocks);
      }
    }
  }

  lemma HeardBy(m: Maths, c: Chain, d: Chain, b: Block)
    requires b.channels > 0 && Session(m, c, [b]).1 != Session(m, d, [b]).1
    ensures !SoundAlike(m, c, d)
  {
    hide Session;
    assert Blocks([b]);
  }

  /** After any life and then a reset, nobody can tell the chain from a new one, by any blocks and control words,
      exactly if no preset of the table was ever named, the makeup gain is zero, or the last preset named was the
      percussive one and there is no wet signal. */
  lemma ResetIsUnheardExactlyIf(m: Maths, w: real, g: real, frames: nat, life: seq<Event>)
    requires Possible(life) && TanhLike(m.tanh) && m.sine(0.0) == 0.0
    ensures var c := After(m, NewChain(w, g, frames), life);
            SoundAlike(m, Reset(c), Rebuilt(c)) <==>
            LastNamed(life) == NO_PRESET || LastGain(g, life) == 0.0 ||
              (LastNamed(life) == 0 && LastWet(w, life) == 0.0)
  {
    hide TanhLike, SoundAlike, Carries, After, NewChain, Reset, Rebuilt, Session, LastWet, LastGain;
    var c, p, f := After(m, NewChain(w, g, frames), life), LastNamed(life), LastFrames(frames, life);
    var u, h := LastWet(w, life), LastGain(g, life);
    ParametersOutliveReset(m, w, g, frames, life);
    if p == NO_PRESET || h == 0.0 || (p == 0 && u == 0.0) {
      Unheard(m, c, p, u, h, f);
    } else {
      var x;
      if u != 0.0 {
        x := EchoHeard(m, c, p, u, h, f);
      } else {
        x := DryHeard(m, c, p, h, f);
      }
      HeardBy(m, Reset(c), Rebuilt(c), Probe(x));
    }
  }
}
