/** Interleaved audio: frame after frame, and in each frame one sample per channel. */
module Interleaving {
  /** Samples in a block. */
  function BlockSize(frames: nat, channels: nat): nat {
    frames * channels
  }

  lemma ProductNotNegative(a: nat, b: nat)
    ensures a * b >= 0
  {
  }

  lemma Expand(f: nat, gap: nat, channels: nat)
    ensures (f + 1 + gap) * channels == f * channels + channels + gap * channels
  {
  }

  lemma FrameGap(f: nat, g: nat, channels: nat)
    requires f < g
    ensures f * channels + channels <= g * channels
  {
    var gap: nat := g - f - 1;
    ProductNotNegative(gap, channels);
    assert g == f + 1 + gap;
    Expand(f, gap, channels);
  }

  /** Position f, ch of an interleaved buffer belongs to channel ch. */
  lemma ChannelOf(f: nat, ch: nat, channels: nat)
    requires ch < channels
    ensures (f * channels + ch) % channels == ch
  {
    var i := f * channels + ch;
    var q, r := i / channels, i % channels;
    assert i == q * channels + r;
    if q < f {
      FrameGap(q, f, channels);
    } else if f < q {
      FrameGap(f, q, channels);
    }
  }

  /** Frame f lies inside a block of more than f frames. */
  lemma WithinBlock(f: nat, frames: nat, channels: nat)
    requires f < frames
    ensures f * channels + channels <= BlockSize(frames, channels)
  {
    FrameGap(f, frames, channels);
  }

  lemma NextFrame(f: nat, channels: nat)
    ensures (f + 1) * channels == f * channels + channels
  {
  }

  /** Equal slices have equal elements, at the positions of the array. */
  lemma SliceValues(a: array<real>, at: nat, n: nat, xs: seq<real>)
    requires at <= n == |xs| && n <= a.Length && a[at..n] == xs[at..]
    ensures forall i :: at <= i < n ==> a[i] == xs[i]
  {
    forall i | at <= i < n ensures a[i] == xs[i] {
      assert a[i] == a[at..n][i - at] == xs[at..][i - at];
    }
  }

  lemma SlicesJoin(a: array<real>, i: nat, j: nat, k: nat)
    requires i <= j <= k <= a.Length
    ensures a[i..k] == a[i..j] + a[j..k]
  {
  }

  lemma ValuesSlice(a: array<real>, at: nat, n: nat, xs: seq<real>)
    requires at <= n == |xs| && n <= a.Length && forall i :: at <= i < n ==> a[i] == xs[i]
    ensures a[at..n] == xs[at..]
  {
  }

  /** Samples with the number of their channel. */
  function Tagged(xs: seq<real>, channels: nat): (t: seq<(nat, real)>)
    requires channels > 0
    ensures |t| == |xs| && forall i :: 0 <= i < |xs| ==> t[i] == (i % channels, xs[i])
  {
    seq(|xs|, i requires 0 <= i < |xs| => (i % channels, xs[i]))
  }

  /** Dry and wet samples side by side, with the number of their channel. */
  function TaggedPair(dry: seq<real>, wet: seq<real>, channels: nat): (t: seq<(nat, real, real)>)
    requires channels > 0 && |dry| == |wet|
    ensures |t| == |dry| && forall i :: 0 <= i < |dry| ==> t[i] == (i % channels, dry[i], wet[i])
  {
    seq(|dry|, i requires 0 <= i < |dry| => (i % channels, dry[i], wet[i]))
  }

  lemma WholeFrames(n: nat, i: nat, channels: nat)
    requires channels > 0 && n % channels == 0
    ensures (n + i) % channels == i % channels
  {
    var q := n / channels;
    assert n == q * channels;
    var p, r := i / channels, i % channels;
    assert i == p * channels + r;
    assert n + i == (q + p) * channels + r;
    ChannelOf(q + p, r, channels);
  }

  /** Whole frames followed by more samples: the channels of the second part count from its own start. */
  lemma TaggedAppend(xs: seq<real>, ys: seq<real>, channels: nat)
    requires channels > 0 && |xs| % channels == 0
    ensures Tagged(xs + ys, channels) == Tagged(xs, channels) + Tagged(ys, channels)
  {
    forall i | 0 <= i < |ys|
      ensures (|xs| + i) % channels == i % channels
    {
      WholeFrames(|xs|, i, channels);
    }
  }

  /** Mono and stereo blocks. */
  lemma OneOrTwo(frames: nat, channels: nat)
    requires 1 <= channels <= 2
    ensures BlockSize(frames, channels) == if channels == 1 then frames else 2 * frames
  {
  }
}
