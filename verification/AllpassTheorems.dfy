/** What makes an all-pass section of the reverb an all-pass: at a constant gain it satisfies Schroeder's
    difference equation, and it neither loses nor adds energy (src/audio/FreeverbStage.cpp:55-61). */
module AllpassTheorems {
  import opened Transducers
  import opened Freeverb

  type Line = l: seq<real> | |l| > 0 witness [0.0]

  /** One sample through one section at gain g. */
  function Section(g: real): (Line, real) -> (Line, real) {
    (line: Line, x: real) => (AllpassFeed(line, g, x), AllpassOut(line, g, x))
  }

  function SectionRun(g: real, line: Line, xs: seq<real>): (res: (Line, seq<real>))
    ensures |res.1| == |xs|
  {
    Run<Line, real, real>(Section(g), line, xs)
  }

  lemma SectionNext(g: real, line: Line, xs: seq<real>, i: nat)
    requires i < |xs|
    ensures var before := SectionRun(g, line, xs[..i]);
            SectionRun(g, line, xs[..i + 1]) ==
              (AllpassFeed(before.0, g, xs[i]), before.1 + [AllpassOut(before.0, g, xs[i])])
  {
    RunNext<Line, real, real>(Section(g), line, xs, i);
  }

  // ---------------------------------------------------------------- energy

  function SquareSum(xs: seq<real>): real {
    if |xs| == 0 then 0.0 else SquareSum(xs[..|xs| - 1]) + xs[|xs| - 1] * xs[|xs| - 1]
  }

  lemma {:induction false} SquareSumAppend(xs: seq<real>, ys: seq<real>)
    ensures SquareSum(xs + ys) == SquareSum(xs) + SquareSum(ys)
    decreases |ys|
  {
    if |ys| == 0 {
      assert xs + ys == xs;
    } else {
      SquareSumAppend(xs, ys[..|ys| - 1]);
      assert (xs + ys)[..|xs + ys| - 1] == xs + ys[..|ys| - 1];
    }
  }

  lemma SquareSumOne(x: real)
    ensures SquareSum([x]) == x * x
  {
    assert [x][..0] == [];
  }

  /** Moving the delay line trades the square of what leaves it for the square of what enters. */
  lemma FeedTrades(line: Line, v: real)
    ensures SquareSum(line[1..] + [v]) == SquareSum(line) - line[0] * line[0] + v * v
  {
    hide SquareSum;
    SquareSumAppend([line[0]], line[1..]);
    assert [line[0]] + line[1..] == line;
    SquareSumAppend(line[1..], [v]);
    SquareSumOne(line[0]);
    SquareSumOne(v);
  }

  /** One sample: the input square is split between the output and the storage. */
  lemma SampleLossless(g: real, d: real, x: real, v: real, y: real)
    requires v == x + d * g && y == d - g * v
    ensures x * x + (1.0 - g * g) * (d * d) == y * y + (1.0 - g * g) * (v * v)
  {
    var dg := d * g;
    assert x * x == v * v - 2.0 * (v * dg) + dg * dg;
    var gv := g * v;
    assert y * y == d * d - 2.0 * (d * gv) + gv * gv;
    assert v * dg == d * gv;
    assert (1.0 - g * g) * (d * d) == d * d - dg * dg;
    assert (1.0 - g * g) * (v * v) == v * v - gv * gv;
  }

  lemma SquareSumNothing()
    ensures SquareSum([]) == 0.0
  {
  }

  lemma AddUp(k: real, sx: real, start: real, sy: real, stored: real, d: real, v: real, x: real, y: real)
    requires sx + k * start == sy + k * stored && x + k * d == y + k * v
    ensures (sx + x) + k * start == (sy + y) + k * (stored - d + v)
  {
    assert k * (stored - d + v) == k * stored - k * d + k * v;
  }

  lemma StoreIs(line: Line, g: real, x: real)
    ensures AllpassStore(line, g, x) == x + line[0] * g
    ensures AllpassOut(line, g, x) == line[0] - g * AllpassStore(line, g, x)
  {
  }

  /** Lossless: over any run, the energy that came in is the energy that went out plus (1 - g g) times what the
      delay line gained. */
  lemma {:induction false} Lossless(g: real, line: Line, xs: seq<real>)
    ensures var run := SectionRun(g, line, xs);
            SquareSum(xs) + (1.0 - g * g) * SquareSum(line) == SquareSum(run.1) + (1.0 - g * g) * SquareSum(run.0)
    decreases |xs|
  {
    hide AllpassStore, AllpassOut, SquareSum;
    SquareSumNothing();
    if |xs| > 0 {
      var n := |xs| - 1;
      Lossless(g, line, xs[..n]);
      SectionNext(g, line, xs, n);
      assert xs[..n + 1] == xs && xs[..n] + [xs[n]] == xs;
      var before := SectionRun(g, line, xs[..n]);
      var x, v, y := xs[n], AllpassStore(before.0, g, xs[n]), AllpassOut(before.0, g, xs[n]);
      SquareSumAppend(xs[..n], [x]);
      SquareSumOne(x);
      StoreIs(before.0, g, x);
      FeedTrades(before.0, v);
      SampleLossless(g, before.0[0], x, v, y);
      SquareSumAppend(before.1, [y]);
      SquareSumOne(y);
      AddUp(1.0 - g * g, SquareSum(xs[..n]), SquareSum(line), SquareSum(before.1), SquareSum(before.0),
            before.0[0] * before.0[0], v * v, x * x, y * y);
    } else {
      assert xs == [];
    }
  }

  // ---------------------------------------------------------------- the difference equation

  /** What a run stores, in order. */
  function Stores(g: real, line: Line, xs: seq<real>): (vs: seq<real>)
    ensures |vs| == |xs|
    decreases |xs|
  {
    if |xs| == 0 then []
    else
      var n := |xs| - 1;
      Stores(g, line, xs[..n]) + [AllpassStore(SectionRun(g, line, xs[..n]).0, g, xs[n])]
  }

  /** The delay line is exactly that: what was stored comes out |line| samples later. */
  lemma {:induction false} LineDelays(g: real, line: Line, xs: seq<real>)
    ensures SectionRun(g, line, xs).0 == (line + Stores(g, line, xs))[|xs|..]
    decreases |xs|
  {
    hide AllpassStore, AllpassOut;
    if |xs| > 0 {
      var n := |xs| - 1;
      LineDelays(g, line, xs[..n]);
      SectionNext(g, line, xs, n);
      assert xs[..n + 1] == xs;
    }
  }

  lemma {:induction false} StoresPrefix(g: real, line: Line, xs: seq<real>, n: nat)
    requires n <= |xs|
    ensures Stores(g, line, xs)[..n] == Stores(g, line, xs[..n])
    ensures n < |xs| ==> Stores(g, line, xs)[n] == AllpassStore(SectionRun(g, line, xs[..n]).0, g, xs[n])
    decreases |xs|
  {
    hide AllpassStore;
    if n < |xs| {
      var m := |xs| - 1;
      StoresPrefix(g, line, xs[..m], n);
      assert xs[..m][..n] == xs[..n];
    } else {
      assert xs[..n] == xs;
    }
  }

  /** A sample of the past: before the run, from the line as it was. */
  lemma DelayedIs(g: real, line: Line, xs: seq<real>, n: nat)
    requires n < |xs|
    ensures SectionRun(g, line, xs[..n]).0[0] == (line + Stores(g, line, xs))[n]
  {
    LineDelays(g, line, xs[..n]);
    StoresPrefix(g, line, xs, n);
  }

  lemma OutAt(g: real, line: Line, xs: seq<real>, n: nat)
    requires n < |xs|
    ensures SectionRun(g, line, xs).1[n] == AllpassOut(SectionRun(g, line, xs[..n]).0, g, xs[n])
  {
    hide AllpassOut;
    SectionNext(g, line, xs, n);
    RunAppend<Line, real, real>(Section(g), line, xs[..n + 1], xs[n + 1..]);
    assert xs[..n + 1] + xs[n + 1..] == xs;
  }

  lemma Combine(g: real, x: real, v: real, d: real, p: real, w: real, e: real)
    requires v == x + d * g && w == p + e * g && d == w
    ensures d - g * v == -(g * x) + p + g * (e - g * w)
  {
    assert g * v == g * x + g * (d * g);
    assert g * (e - g * w) == g * e - g * (g * w);
    assert g * (d * g) == g * (g * w);
  }

  /** Schroeder's equation: y[n] = -g x[n] + x[n - L] + g y[n - L]. */
  lemma SchroederEquation(g: real, line: Line, xs: seq<real>, n: nat)
    requires |line| <= n < |xs|
    ensures var ys := SectionRun(g, line, xs).1;
            ys[n] == -(g * xs[n]) + xs[n - |line|] + g * ys[n - |line|]
  {
    hide AllpassStore, AllpassOut;
    var m := n - |line|;
    var vs := Stores(g, line, xs);
    StoresPrefix(g, line, xs, n);
    StoresPrefix(g, line, xs, m);
    DelayedIs(g, line, xs, n);
    DelayedIs(g, line, xs, m);
    OutAt(g, line, xs, n);
    OutAt(g, line, xs, m);
    var d, e := SectionRun(g, line, xs[..n]).0, SectionRun(g, line, xs[..m]).0;
    StoreIs(d, g, xs[n]);
    StoreIs(e, g, xs[m]);
    assert d[0] == vs[m];
    Combine(g, xs[n], vs[n], d[0], xs[m], vs[m], e[0]);
  }
}
