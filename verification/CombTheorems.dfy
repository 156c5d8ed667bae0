/** What a comb of the reverb computes at constant feedback and damping: a feedback comb with a low-passed loop
    (src/audio/FreeverbStage.cpp:39-52). */
module CombTheorems {
  import opened Transducers
  import opened Biquads
  import opened LinearRamps
  import opened Freeverb

  /** A comb at work: its delay line, and the low-passed sample that it fed back last. */
  datatype Loop = Loop(line: seq<real>, lp: real)
  {
    predicate Valid() {
      |line| > 0
    }

    function Comb(weight: Ramp): Comb {
      On(line, lp, weight)
    }
  }

  type SoundLoop = l: Loop | l.Valid() witness Loop([0.0], 0.0)

  /** A comb that is switched on. */
  function Empty(len: nat): SoundLoop
    requires len > 0
  {
    Loop(Zeros(len), 0.0)
  }

  function Once(fb: real, damp: real, l: SoundLoop, x: real): (res: (SoundLoop, real)) {
    var c := CombAudio(l.Comb(Settled(1.0)), x, fb, damp);
    (Loop(c.line, c.lp), l.line[0])
  }

  /** One sample: what comes out of the delay, and the loop after it. */
  function Circle(fb: real, damp: real): (SoundLoop, real) -> (SoundLoop, real) {
    (l: SoundLoop, x: real) => Once(fb, damp, l, x)
  }

  function LoopRun(fb: real, damp: real, l: SoundLoop, xs: seq<real>): (res: (SoundLoop, seq<real>))
    ensures |res.1| == |xs|
  {
    Run<SoundLoop, real, real>(Circle(fb, damp), l, xs)
  }

  lemma LoopNext(fb: real, damp: real, l: SoundLoop, xs: seq<real>, i: nat)
    requires i < |xs|
    ensures var before := LoopRun(fb, damp, l, xs[..i]);
            var now := Once(fb, damp, before.0, xs[i]);
            LoopRun(fb, damp, l, xs[..i + 1]) == (now.0, before.1 + [now.1])
  {
    RunNext<SoundLoop, real, real>(Circle(fb, damp), l, xs, i);
  }

  /** What the loop has fed back last after n samples, and what it stores at sample m: nothing before the start. */
  function Fed(fb: real, damp: real, len: nat, xs: seq<real>, n: nat): real
    requires 0 < len && n <= |xs|
  {
    LoopRun(fb, damp, Empty(len), xs[..n]).0.lp
  }

  function StoredAt(fb: real, damp: real, len: nat, xs: seq<real>, m: int): real
    requires 0 < len && m < |xs|
  {
    if m < 0 then 0.0 else xs[m] + fb * Fed(fb, damp, len, xs, m + 1)
  }

  /** One sample on numbers: the low-pass, and the line. */
  lemma OnceIs(fb: real, damp: real, l: SoundLoop, x: real)
    ensures var r := Once(fb, damp, l, x);
            && r.1 == l.line[0] && r.0.lp == (1.0 - damp) * l.line[0] + damp * l.lp
            && |r.0.line| == |l.line| && r.0.line[|l.line| - 1] == x + fb * r.0.lp
            && forall i :: 0 <= i < |l.line| - 1 ==> r.0.line[i] == l.line[i + 1]
  {
    var c := l.Comb(Settled(1.0));
    assert CombStore(c, x, fb, damp) == x + fb * c.Damped(damp);
    assert c.Damped(damp) == (1.0 - damp) * l.line[0] + damp * l.lp;
    hide CombStore, Comb.Damped;
  }

  lemma OutAt(fb: real, damp: real, l: SoundLoop, xs: seq<real>, n: nat)
    requires n < |xs|
    ensures LoopRun(fb, damp, l, xs).1[n] == LoopRun(fb, damp, l, xs[..n]).0.line[0]
  {
    hide Once;
    LoopNext(fb, damp, l, xs, n);
    OnceIs(fb, damp, LoopRun(fb, damp, l, xs[..n]).0, xs[n]);
    RunAppend<SoundLoop, real, real>(Circle(fb, damp), l, xs[..n + 1], xs[n + 1..]);
    assert xs[..n + 1] + xs[n + 1..] == xs;
  }

  lemma NothingYet(fb: real, damp: real, l: SoundLoop, xs: seq<real>)
    ensures LoopRun(fb, damp, l, xs[..0]) == (l, [])
  {
    assert xs[..0] == [];
  }

  /** The line is a delay: it holds what was stored in the last len samples, oldest first. */
  lemma {:induction false} LineHolds(fb: real, damp: real, len: nat, xs: seq<real>, n: nat)
    requires 0 < len && n <= |xs|
    ensures var line := LoopRun(fb, damp, Empty(len), xs[..n]).0.line;
            |line| == len && forall i :: 0 <= i < len ==> line[i] == StoredAt(fb, damp, len, xs, n - len + i)
    decreases n
  {
    hide Once, LoopRun;
    if n == 0 {
      NothingYet(fb, damp, Empty(len), xs);
    } else {
      LineHolds(fb, damp, len, xs, n - 1);
      LoopNext(fb, damp, Empty(len), xs, n - 1);
      OnceIs(fb, damp, LoopRun(fb, damp, Empty(len), xs[..n - 1]).0, xs[n - 1]);
    }
  }

  /** The low-pass in the loop: what is fed back next comes from the output and what was fed back last. */
  lemma LowPassed(fb: real, damp: real, len: nat, xs: seq<real>, n: nat)
    requires 0 < len && n < |xs|
    ensures Fed(fb, damp, len, xs, n + 1) ==
            (1.0 - damp) * LoopRun(fb, damp, Empty(len), xs).1[n] + damp * Fed(fb, damp, len, xs, n)
    ensures Fed(fb, damp, len, xs, 0) == 0.0
  {
    hide Once;
    LoopNext(fb, damp, Empty(len), xs, n);
    OnceIs(fb, damp, LoopRun(fb, damp, Empty(len), xs[..n]).0, xs[n]);
    OutAt(fb, damp, Empty(len), xs, n);
    NothingYet(fb, damp, Empty(len), xs);
    hide LoopRun;
  }

  lemma DelayedIs(fb: real, damp: real, len: nat, xs: seq<real>, n: nat)
    requires 0 < len && n < |xs|
    ensures LoopRun(fb, damp, Empty(len), xs).1[n] == StoredAt(fb, damp, len, xs, n - len)
  {
    hide LoopRun, StoredAt;
    OutAt(fb, damp, Empty(len), xs, n);
    LineHolds(fb, damp, len, xs, n);
  }

  lemma Eliminate(fb: real, damp: real, x: real, p: real, y: real, d: real, e: real, v: real, w: real)
    requires d == (1.0 - damp) * y + damp * e && v == x + fb * d && w == p + fb * e
    ensures v == x - damp * p + damp * w + fb * ((1.0 - damp) * y)
  {
    assert fb * d == fb * ((1.0 - damp) * y) + damp * (fb * e);
    assert damp * w == damp * p + damp * (fb * e);
  }

  /** The comb equation, from an empty line of L zeros, and zero before the start:
      y[n] = x[n - L] - damp x[n - L - 1] + damp y[n - 1] + fb (1 - damp) y[n - L]. */
  lemma CombEquation(fb: real, damp: real, len: nat, xs: seq<real>, n: nat)
    requires 0 < len && n < |xs|
    ensures var ys := LoopRun(fb, damp, Empty(len), xs).1;
            ys[n] == At(xs, n - len) - damp * At(xs, n - len - 1) + damp * At(ys, n - 1) +
                     fb * ((1.0 - damp) * At(ys, n - len))
  {
    hide LoopRun, Fed;
    var ys, m := LoopRun(fb, damp, Empty(len), xs).1, n - len;
    DelayedIs(fb, damp, len, xs, n);
    if n > 0 {
      DelayedIs(fb, damp, len, xs, n - 1);
    }
    if m >= 0 {
      LowPassed(fb, damp, len, xs, m);
      var e, d := Fed(fb, damp, len, xs, m), Fed(fb, damp, len, xs, m + 1);
      Eliminate(fb, damp, xs[m], if m > 0 then xs[m - 1] else 0.0, ys[m], d, e,
                ys[n], StoredAt(fb, damp, len, xs, m - 1));
    }
  }
}
