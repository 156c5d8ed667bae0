/** Assembly of exact windows from the chunks that arrive (src/audio/FeatureStream.h). */
module FeatureStreams {
  import opened Options
  import opened Filterbanks
  import opened FeatureExtractors
  import opened Captures

  /** The chunk guard: anything else is ignored as if it had not come. */
  predicate Acceptable(c: AudioChunk) {
    && 1 <= c.frames <= CHUNK_FRAMES && 1 <= c.channels <= 2
    && c.sampleRate.Finite? && c.sampleRate.value >= 8000.0
  }

  function ChunkFrames(c: SoundChunk): (fs: seq<Frame>)
    requires Acceptable(c)
    ensures |fs| == c.frames
  {
    Frames(c.samples, c.frames, c.channels)
  }

  /** The two functions of the C library that feature extraction needs. */
  datatype Tools = Tools(tan: real -> real, sqrt: real -> real)

  datatype Stream = Stream(started: bool, next: nat, rate: real, channels: nat, gaps: nat, windows: nat,
                           extractor: SoundExtractor)

  function NewStream(t: Tools): Stream {
    Stream(false, 0, 0.0, 0, 0, 0, NewExtractor(t.tan, 48000.0, 1))
  }

  /** Whether a chunk does not continue what came before. */
  predicate Breaks(s: Stream, c: SoundChunk)
    requires Acceptable(c)
  {
    !s.started || c.sequence != s.next || s.rate != c.sampleRate.value || s.channels != c.channels
  }

  /** The features among the outcomes of frames. */
  function Emitted(outs: seq<Option<Features>>): (fs: seq<Features>)
    ensures |fs| <= |outs|
  {
    if |outs| == 0 then []
    else
      var n := |outs| - 1;
      if outs[n].Some? then Emitted(outs[..n]) + [outs[n].value] else Emitted(outs[..n])
  }

  function Newest(fs: seq<Features>): Option<Features> {
    if |fs| == 0 then None else Some(fs[|fs| - 1])
  }

  /** The extractor that a chunk starts with. */
  function Continued(t: Tools, s: Stream, c: SoundChunk): SoundExtractor
    requires Acceptable(c)
  {
    if Breaks(s, c) then NewExtractor(t.tan, c.sampleRate.value, c.channels) else s.extractor
  }

  /** One chunk: the newest window that it completes, if any. */
  function Absorb(t: Tools, s: Stream, c: SoundChunk): (Stream, Option<Features>) {
    if !Acceptable(c) then (s, None)
    else
      var run := Windows(t.sqrt, Continued(t, s, c), ChunkFrames(c));
      var fs := Emitted(run.1);
      (Stream(true, c.sequence + 1, c.sampleRate.value, c.channels,
              if s.started && Breaks(s, c) then s.gaps + 1 else s.gaps, s.windows + |fs|, run.0),
       Newest(fs))
  }

  lemma {:induction false} EmittedAppend(xs: seq<Option<Features>>, ys: seq<Option<Features>>)
    ensures Emitted(xs + ys) == Emitted(xs) + Emitted(ys)
    decreases |ys|
  {
    if |ys| == 0 {
      assert xs + ys == xs;
    } else {
      EmittedAppend(xs, ys[..|ys| - 1]);
      assert (xs + ys)[..|xs + ys| - 1] == xs + ys[..|ys| - 1];
    }
  }

  /** From c frames into a window, n further frames complete floor((c + n) / 1024) windows. */
  lemma {:induction false} EmittedCount(sqrt: real -> real, e: SoundExtractor, fs: seq<Frame>)
    ensures |Emitted(Windows(sqrt, e, fs).1)| == (e.sums.count + |fs|) / WINDOW
    decreases |fs|
  {
    hide Window;
    if |fs| > 0 {
      var n := |fs| - 1;
      EmittedCount(sqrt, e, fs[..n]);
      WindowsNext(sqrt, e, fs, n);
      assert fs[..n + 1] == fs;
      WindowsEvery1024(sqrt, e, fs);
      var outs := Windows(sqrt, e, fs).1;
      assert outs[..n] == Windows(sqrt, e, fs[..n]).1;
    }
  }

  /** A chunk is shorter than a window, so it completes at most one. */
  lemma AtMostOneWindow(t: Tools, s: Stream, c: SoundChunk)
    ensures Absorb(t, s, c).0.windows <= s.windows + 1
    ensures Absorb(t, s, c).1.Some? <==> Absorb(t, s, c).0.windows == s.windows + 1
  {
    if Acceptable(c) {
      EmittedCount(t.sqrt, Continued(t, s, c), ChunkFrames(c));
    }
  }

  // ---------------------------------------------------------------- part of a chunk at a time

  /** Up to the end of a window, a frame just adds to the sums. */
  lemma {:induction false} WithinWindow(sqrt: real -> real, e: SoundExtractor, fs: seq<Frame>, channels: nat)
    requires e.sums.count + |fs| < WINDOW && |fs| > 0 && forall i :: 0 <= i < |fs| ==> ChannelsOf(fs[i]) == channels
    ensures Windows(sqrt, e, fs).0 == TakeFrames(e, fs, channels) && Emitted(Windows(sqrt, e, fs).1) == []
    decreases |fs|
  {
    var n := |fs| - 1;
    hide Filtered, AddFrame, Measure;
    WindowsNext(sqrt, e, fs, n);
    assert fs[..n + 1] == fs;
    if n > 0 {
      WithinWindow(sqrt, e, fs[..n], channels);
      assert Windows(sqrt, e, fs).1[..n] == Windows(sqrt, e, fs[..n]).1;
    } else {
      assert Windows(sqrt, e, fs[..0]) == (e, []);
    }
  }

  /** The frame that fills a window. */
  lemma FillsWindow(sqrt: real -> real, e: SoundExtractor, fs: seq<Frame>, channels: nat)
    requires e.sums.count + |fs| == WINDOW && |fs| > 0 && forall i :: 0 <= i < |fs| ==> ChannelsOf(fs[i]) == channels
    ensures var t := TakeFrames(e, fs, channels);
            && Windows(sqrt, e, fs).0 == t.(sums := NoSums())
            && Emitted(Windows(sqrt, e, fs).1) == [Measure(sqrt, Centers(t.bank.design, t.rate), t.channels, t.sums)]
  {
    var n := |fs| - 1;
    hide Filtered, AddFrame, Measure;
    WindowsNext(sqrt, e, fs, n);
    assert fs[..n + 1] == fs;
    assert Windows(sqrt, e, fs).1[..n] == Windows(sqrt, e, fs[..n]).1;
    if n > 0 {
      WithinWindow(sqrt, e, fs[..n], channels);
    } else {
      assert Windows(sqrt, e, fs[..0]) == (e, []);
    }
  }

  /** One pass of the loop: as many frames as the window still takes. */
  lemma OnePass(sqrt: real -> real, e: SoundExtractor, fs: seq<Frame>, channels: nat)
    requires 0 < |fs| <= WINDOW - e.sums.count && forall i :: 0 <= i < |fs| ==> ChannelsOf(fs[i]) == channels
    ensures var t := TakeFrames(e, fs, channels);
            var run := Windows(sqrt, e, fs);
            if t.sums.count < WINDOW then run.0 == t && Emitted(run.1) == []
            else
              run.0 == t.(sums := NoSums()) &&
              Emitted(run.1) == [Measure(sqrt, Centers(t.bank.design, t.rate), t.channels, t.sums)]
  {
    if e.sums.count + |fs| < WINDOW {
      WithinWindow(sqrt, e, fs, channels);
    } else {
      FillsWindow(sqrt, e, fs, channels);
    }
  }

  lemma {:induction false} ChannelsDoNotMatter(e: Extractor, fs: seq<Frame>, channels: nat)
    requires e.sums.Valid()
    ensures TakeFrames(e, fs, channels) == TakeFrames(e.(channels := channels), fs, channels)
    decreases |fs|
  {
    if |fs| > 0 {
      ChannelsDoNotMatter(e, fs[..|fs| - 1], channels);
    }
  }

  /** An extractor that has noted the channel count of a block. */
  function Noted(e: Extractor, channels: nat): Extractor {
    e.(channels := channels)
  }

  lemma RefusedIs(t: Tools, s: Stream, c: SoundChunk)
    requires !Acceptable(c)
    ensures Absorb(t, s, c) == (s, None)
  {
  }

  lemma AbsorbIs(t: Tools, s: Stream, c: SoundChunk, after: Stream)
    requires Acceptable(c)
    requires var run := Windows(t.sqrt, Continued(t, s, c), ChunkFrames(c));
             after.extractor == run.0 && after.windows == s.windows + |Emitted(run.1)|
    requires after.started && after.next == c.sequence + 1 && after.rate == c.sampleRate.value &&
             after.channels == c.channels
    requires after.gaps == if s.started && Breaks(s, c) then s.gaps + 1 else s.gaps
    ensures Absorb(t, s, c) == (after, Newest(Emitted(Windows(t.sqrt, Continued(t, s, c), ChunkFrames(c)).1)))
  {
    hide Windows, Continued, Emitted;
  }

  lemma NewestOf(found: seq<Features>, window: Option<Features>)
    ensures Newest([]) == None && found + [] == found
    ensures window.Some? ==> Newest(found + [window.value]) == window
  {
  }

  lemma NoFramesYet(sqrt: real -> real, e: SoundExtractor, fs: seq<Frame>)
    ensures Windows(sqrt, e, fs[..0]) == (e, []) && Emitted(Windows(sqrt, e, fs[..0]).1) == []
  {
  }

  lemma PassesAdd(sqrt: real -> real, e: SoundExtractor, fs: seq<Frame>, i: nat, j: nat)
    requires i <= j <= |fs|
    ensures var head := Windows(sqrt, e, fs[..i]);
            var tail := Windows(sqrt, head.0, fs[i..j]);
            && Windows(sqrt, e, fs[..j]).0 == tail.0
            && Emitted(Windows(sqrt, e, fs[..j]).1) == Emitted(head.1) + Emitted(tail.1)
  {
    assert fs[..i] + fs[i..j] == fs[..j];
    WindowsAppend(sqrt, e, fs[..i], fs[i..j]);
    EmittedAppend(Windows(sqrt, e, fs[..i]).1, Windows(sqrt, Windows(sqrt, e, fs[..i]).0, fs[i..j]).1);
  }

  class FeatureStream {
    const tools: Tools
    const extractor: FeatureExtractor
    var initialized: bool
    var next: nat
    var gaps: nat
    var windows: nat
    var rate: real
    var channels: nat

    ghost const Repr: set<object>

    ghost predicate Valid()
      reads this, Repr
    {
      && Repr == {this} + extractor.Repr && extractor in extractor.Repr && this !in extractor.Repr &&
           extractor.Valid() && extractor.View().Valid() && extractor.framesAccumulated < WINDOW
      && extractor.filterbank.tan == tools.tan && extractor.sqrt == tools.sqrt
    }

    ghost function View(): Stream
      requires Valid()
      reads Repr
    {
      Stream(initialized, next, rate, channels, gaps, windows, extractor.View())
    }

    constructor (t: Tools)
      ensures Valid() && this in Repr && fresh(Repr) && tools == t && View() == NewStream(t)
    {
      hide FeatureExtractor.View, FeatureExtractor.Valid, NewBank;
      tools := t;
      var e := new FeatureExtractor(t.tan, t.sqrt);
      extractor := e;
      initialized, next, gaps, windows, rate, channels := false, 0, 0, 0, 0.0, 0;
      Repr := {this} + e.Repr;
    }

    /** Counters and position are forgotten; the extractor is left to the next chunk, which starts it again. */
    method Reset()
      requires Valid()
      modifies this
      ensures Valid() && View() == old(View()).(started := false, gaps := 0, windows := 0)
    {
      hide FeatureExtractor.View, FeatureExtractor.Valid;
      initialized := false;
      gaps, windows := 0, 0;
    }

    /** Frames [offset, offset + count) of a chunk, and the window they may complete. */
    method Pass(c: SoundChunk, offset: nat, count: nat, ghost e: SoundExtractor, ghost fs: seq<Frame>)
      returns (out: Option<Features>)
      requires Valid() && Acceptable(c) && offset + count <= c.frames && fs == ChunkFrames(c)[offset..offset + count]
      requires 0 < count <= WINDOW - extractor.framesAccumulated
      requires Noted(extractor.View(), c.channels) == Noted(e, c.channels)
      modifies extractor.Repr
      ensures Valid() && extractor.framesAccumulated < WINDOW
      ensures extractor.View() == Windows(tools.sqrt, e, fs).0
      ensures Emitted(Windows(tools.sqrt, e, fs).1) == if out.Some? then [out.value] else []
    {
      hide FeatureExtractor.Valid, TakeFrames, Windows, Measure, Centers, Emitted;
      Ordered(offset + count, c.frames, c.frames, c.channels);
      assert FramesFrom(c.samples, offset, count, c.channels) == fs;
      ChannelsDoNotMatter(extractor.View(), fs, c.channels);
      ChannelsDoNotMatter(e, fs, c.channels);
      OnePass(tools.sqrt, e, fs, c.channels);
      extractor.Process(c.samples, offset, count, c.channels);
      out := extractor.Finalize();
    }

    /** Start again where the chunk does not continue what came before. */
    method Follow(c: SoundChunk)
      requires Valid() && Acceptable(c)
      modifies Repr
      ensures Valid() && initialized && next == c.sequence + 1 && rate == c.sampleRate.value &&
              channels == c.channels && windows == old(windows)
      ensures gaps == if old(View()).started && Breaks(old(View()), c) then old(gaps) + 1 else old(gaps)
      ensures extractor.framesAccumulated < WINDOW
      ensures Noted(extractor.View(), c.channels) == Noted(Continued(tools, old(View()), c), c.channels)
    {
      hide FeatureExtractor.View, FeatureExtractor.Valid, NewBank;
      if !initialized || c.sequence != next || rate != c.sampleRate.value || channels != c.channels {
        if initialized { gaps := gaps + 1; }
        extractor.Init(c.sampleRate.value);
        initialized := true;
        rate, channels := c.sampleRate.value, c.channels;
      }
      next := c.sequence + 1;
    }

    method Consume(c: SoundChunk) returns (out: Option<Features>)
      requires Valid()
      modifies Repr
      ensures Valid() && (View(), out) == Absorb(tools, old(View()), c)
    {
      hide FeatureExtractor.Valid, FeatureExtractor.View, Windows, Frames, NewExtractor, Emitted, Newest;
      if !(1 <= c.frames <= CHUNK_FRAMES) || !(1 <= c.channels <= 2) || !c.sampleRate.Finite? ||
        c.sampleRate.value < 8000.0 {
        RefusedIs(tools, View(), c);
        return None;
      }
      hide Absorb, Continued, Breaks, Noted;
      ghost var before, e := View(), Continued(tools, View(), c);
      Follow(c);
      ghost var fs := ChunkFrames(c);
      NoFramesYet(tools.sqrt, e, fs);
      out := ConsumeFrames(c, e, fs);
      assert fs[..c.frames] == fs;
      AbsorbIs(tools, before, c, View());
    }

    /** The first n frames of a chunk are done, and `found` is what they completed. */
    ghost predicate Done(c: SoundChunk, e: SoundExtractor, fs: seq<Frame>, n: nat, found: seq<Features>)
      requires extractor.Valid()
      reads extractor, extractor.Repr
    {
      && n <= |fs|
      && Noted(extractor.View(), c.channels) == Noted(Windows(tools.sqrt, e, fs[..n]).0, c.channels)
      && (n > 0 ==> extractor.View() == Windows(tools.sqrt, e, fs[..n]).0)
      && found == Emitted(Windows(tools.sqrt, e, fs[..n]).1)
    }

    /** Each pass of the loop takes at least one frame, since a full window is measured at once. */
    method ConsumeFrames(c: SoundChunk, ghost e: SoundExtractor, ghost fs: seq<Frame>) returns (out: Option<Features>)
      requires Valid() && Acceptable(c) && fs == ChunkFrames(c) && Done(c, e, fs, 0, [])
      modifies extractor.Repr, this`windows
      ensures Valid() && Rest() == old(Rest())
      ensures Done(c, e, fs, c.frames, Emitted(Windows(tools.sqrt, e, fs).1))
      ensures out == Newest(Emitted(Windows(tools.sqrt, e, fs).1)) &&
              windows == old(windows) + |Emitted(Windows(tools.sqrt, e, fs).1)|
    {
      hide FeatureExtractor.Valid, FeatureExtractor.View, Windows, Emitted, Frames, Newest, Noted;
      ghost var found: seq<Features> := [];
      NewestOf([], None);
      out := None;
      var offset: nat := 0;
      while offset < c.frames
        invariant Valid() && offset <= c.frames && Rest() == old(Rest())
        invariant Done(c, e, fs, offset, found) && windows == old(windows) + |found| && out == Newest(found)
      {
        hide Done;
        var count := if c.frames - offset < WINDOW - extractor.framesAccumulated then c.frames - offset
          else WINDOW - extractor.framesAccumulated;
        var window;
        window, offset, found := PassNext(c, offset, count, e, fs, found);
        if window.Some? {
          out := window;
          CountWindow(c, e, fs, offset, found);
        }
      }
      assert fs[..offset] == fs;
    }

    method CountWindow(ghost c: SoundChunk, ghost e: SoundExtractor, ghost fs: seq<Frame>, ghost n: nat,
                       ghost found: seq<Features>)
      requires Valid() && Done(c, e, fs, n, found)
      modifies this`windows
      ensures Valid() && Done(c, e, fs, n, found) && windows == old(windows) + 1 && Rest() == old(Rest())
    {
      hide FeatureExtractor.Valid, FeatureExtractor.View;
      windows := windows + 1;
    }

    /** One pass, in terms of the whole chunk. */
    method PassNext(c: SoundChunk, offset: nat, count: nat, ghost e: SoundExtractor, ghost fs: seq<Frame>,
                    ghost found: seq<Features>)
      returns (window: Option<Features>, next: nat, ghost now: seq<Features>)
      requires Valid() && Acceptable(c) && offset + count <= c.frames && fs == ChunkFrames(c)
      requires 0 < count <= WINDOW - extractor.framesAccumulated && Done(c, e, fs, offset, found)
      modifies extractor.Repr
      ensures Valid() && next == offset + count && Done(c, e, fs, next, now)
      ensures if window.Some? then |now| == |found| + 1 && Newest(now) == window else now == found
    {
      hide FeatureExtractor.Valid, FeatureExtractor.View, Windows, Emitted, Frames, Noted;
      PassesAdd(tools.sqrt, e, fs, offset, offset + count);
      window := Pass(c, offset, count, Windows(tools.sqrt, e, fs[..offset]).0, fs[offset..offset + count]);
      next := offset + count;
      now := found + (if window.Some? then [window.value] else []);
    }

    ghost function Rest(): (bool, nat, nat, real, nat)
      reads this
    {
      (initialized, next, gaps, rate, channels)
    }
  }
}
