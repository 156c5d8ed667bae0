/** Runs of a machine that turns one input at a time into one output: the shape of every stage of the chain.
    The step is a parameter, so what holds of runs in general is proved once. */
module Transducers {

  /** State after all inputs, and the outputs in order. */
  function Run<S, I, O>(step: (S, I) -> (S, O), s: S, xs: seq<I>): (res: (S, seq<O>))
    ensures |res.1| == |xs|
    decreases |xs|
  {
    if |xs| == 0 then (s, [])
    else
      var n := |xs| - 1;
      var before := Run(step, s, xs[..n]);
      var now := step(before.0, xs[n]);
      (now.0, before.1 + [now.1])
  }

  /** A run grows by one step. */
  lemma RunNext<S, I, O>(step: (S, I) -> (S, O), s: S, xs: seq<I>, i: nat)
    requires i < |xs|
    ensures var before := Run(step, s, xs[..i]);
            var now := step(before.0, xs[i]);
            Run(step, s, xs[..i + 1]) == (now.0, before.1 + [now.1])
  {
    assert xs[..i + 1][..i] == xs[..i];
  }

  /** Where a run is cut does not matter. */
  lemma {:induction false} RunAppend<S, I, O>(step: (S, I) -> (S, O), s: S, xs: seq<I>, ys: seq<I>)
    ensures Run(step, s, xs + ys).0 == Run(step, Run(step, s, xs).0, ys).0
    ensures Run(step, s, xs + ys).1 == Run(step, s, xs).1 + Run(step, Run(step, s, xs).0, ys).1
    decreases |ys|
  {
    if |ys| == 0 {
      assert xs + ys == xs;
    } else {
      var n := |ys| - 1;
      RunAppend(step, s, xs, ys[..n]);
      assert (xs + ys)[..|xs| + n] == xs + ys[..n];
    }
  }

  /** What every step keeps holds after every run, and what every step promises holds of every output. */
  lemma {:induction false} RunInvariant<S(!new), I(!new), O>(
    step: (S, I) -> (S, O), inv: S -> bool, allowed: I -> bool, good: O -> bool,
    s: S, xs: seq<I>)
    requires forall t, x {:trigger step(t, x)} :: inv(t) && allowed(x) ==> inv(step(t, x).0) && good(step(t, x).1)
    requires inv(s) && forall k :: 0 <= k < |xs| ==> allowed(xs[k])
    ensures inv(Run(step, s, xs).0)
    ensures forall k :: 0 <= k < |xs| ==> good(Run(step, s, xs).1[k])
    decreases |xs|
  {
    if |xs| > 0 {
      RunInvariant(step, inv, allowed, good, s, xs[..|xs| - 1]);
    }
  }

  /** One step of three runs keeps them related. */
  predicate StepRelated<S, I, O>(step: (S, I) -> (S, O), rel: (S, S, S) -> bool, outs: (O, O, O) -> bool,
                                 p: S, q: S, r: S, x: I, y: I, z: I)
  {
    && rel(step(p, x).0, step(q, y).0, step(r, z).0)
    && outs(step(p, x).1, step(q, y).1, step(r, z).1)
  }

  /** Three runs of one machine that stay related step by step are related after any number n of inputs. */
  lemma {:induction false} PrefixRelatedThrice<S(!new), I(!new), O>(
    step: (S, I) -> (S, O), rel: (S, S, S) -> bool, ins: (I, I, I) -> bool, outs: (O, O, O) -> bool,
    s: S, t: S, u: S, xs: seq<I>, ys: seq<I>, zs: seq<I>, n: nat)
    requires forall p, q, r, x, y, z {:trigger StepRelated(step, rel, outs, p, q, r, x, y, z)} ::
               rel(p, q, r) && ins(x, y, z) ==> StepRelated(step, rel, outs, p, q, r, x, y, z)
    requires rel(s, t, u) && n <= |xs| == |ys| == |zs| && forall k :: 0 <= k < n ==> ins(xs[k], ys[k], zs[k])
    ensures rel(Run(step, s, xs[..n]).0, Run(step, t, ys[..n]).0, Run(step, u, zs[..n]).0)
    ensures forall k :: 0 <= k < n ==>
              outs(Run(step, s, xs[..n]).1[k], Run(step, t, ys[..n]).1[k], Run(step, u, zs[..n]).1[k])
    decreases n
  {
    if n > 0 {
      var m := n - 1;
      assert xs[..n][..m] == xs[..m] && ys[..n][..m] == ys[..m] && zs[..n][..m] == zs[..m];
      PrefixRelatedThrice(step, rel, ins, outs, s, t, u, xs, ys, zs, m);
      assert StepRelated(step, rel, outs, Run(step, s, xs[..m]).0, Run(step, t, ys[..m]).0, Run(step, u, zs[..m]).0,
                         xs[m], ys[m], zs[m]);
    }
  }

  lemma RunRelatedThrice<S(!new), I(!new), O>(
    step: (S, I) -> (S, O), rel: (S, S, S) -> bool, ins: (I, I, I) -> bool, outs: (O, O, O) -> bool,
    s: S, t: S, u: S, xs: seq<I>, ys: seq<I>, zs: seq<I>)
    requires forall p, q, r, x, y, z {:trigger StepRelated(step, rel, outs, p, q, r, x, y, z)} ::
               rel(p, q, r) && ins(x, y, z) ==> StepRelated(step, rel, outs, p, q, r, x, y, z)
    requires rel(s, t, u) && |xs| == |ys| == |zs| && forall k :: 0 <= k < |xs| ==> ins(xs[k], ys[k], zs[k])
    ensures rel(Run(step, s, xs).0, Run(step, t, ys).0, Run(step, u, zs).0)
    ensures forall k :: 0 <= k < |xs| ==> outs(Run(step, s, xs).1[k], Run(step, t, ys).1[k], Run(step, u, zs).1[k])
  {
    PrefixRelatedThrice(step, rel, ins, outs, s, t, u, xs, ys, zs, |xs|);
    assert xs[..|xs|] == xs && ys[..|xs|] == ys && zs[..|xs|] == zs;
  }
}
