/** What window assembly promises over whole runs: windows of contiguous audio only, whatever the chunks. */
module StreamTheorems {
  import opened Options
  import opened Floats
  import opened Transducers
  import opened FeatureExtractors
  import opened Captures
  import opened FeatureStreams

  /** Chunk d goes on exactly where chunk c ends. */
  predicate Follows(c: SoundChunk, d: SoundChunk) {
    d.sequence == c.sequence + 1 && d.sampleRate == c.sampleRate && d.channels == c.channels
  }

  predicate Chain(cs: seq<SoundChunk>) {
    && (forall i :: 0 <= i < |cs| ==> Acceptable(cs[i]))
    && (forall i :: 0 < i < |cs| ==> Follows(cs[i - 1], cs[i]))
  }

  /** The longest unbroken stretch at the end of what arrived, ignored chunks left out. */
  function Stretch(cs: seq<SoundChunk>): (s: seq<SoundChunk>)
    ensures Chain(s) && |s| <= |cs|
  {
    if |cs| == 0 then []
    else
      var n := |cs| - 1;
      var before := Stretch(cs[..n]);
      if !Acceptable(cs[n]) then before
      else if |before| > 0 && Follows(before[|before| - 1], cs[n]) then before + [cs[n]]
      else [cs[n]]
  }

  function Accepted(cs: seq<SoundChunk>): (s: seq<SoundChunk>)
    ensures forall i :: 0 <= i < |s| ==> Acceptable(s[i])
  {
    if |cs| == 0 then []
    else if Acceptable(cs[|cs| - 1]) then Accepted(cs[..|cs| - 1]) + [cs[|cs| - 1]]
    else Accepted(cs[..|cs| - 1])
  }

  /** How often a chunk does not go on where the one before it ended. */
  function Jumps(cs: seq<SoundChunk>): nat {
    if |cs| <= 1 then 0
    else Jumps(cs[..|cs| - 1]) + (if Follows(cs[|cs| - 2], cs[|cs| - 1]) then 0 else 1)
  }

  function AllFrames(cs: seq<SoundChunk>): seq<Frame> {
    if |cs| == 0 then []
    else AllFrames(cs[..|cs| - 1]) + (if Acceptable(cs[|cs| - 1]) then ChunkFrames(cs[|cs| - 1]) else [])
  }

  function AbsorbStep(t: Tools): (Stream, SoundChunk) -> (Stream, Option<Features>) {
    (s: Stream, c: SoundChunk) => Absorb(t, s, c)
  }

  function AbsorbAll(t: Tools, s: Stream, cs: seq<SoundChunk>): (res: (Stream, seq<Option<Features>>))
    ensures |res.1| == |cs|
  {
    Run<Stream, SoundChunk, Option<Features>>(AbsorbStep(t), s, cs)
  }

  lemma AbsorbNext(t: Tools, s: Stream, cs: seq<SoundChunk>, i: nat)
    requires i < |cs|
    ensures var before := AbsorbAll(t, s, cs[..i]);
            var now := Absorb(t, before.0, cs[i]);
            AbsorbAll(t, s, cs[..i + 1]) == (now.0, before.1 + [now.1])
  {
    RunNext<Stream, SoundChunk, Option<Features>>(AbsorbStep(t), s, cs, i);
  }

  /** The extractor that a stretch starts with. */
  function Begun(t: Tools, c: SoundChunk): SoundExtractor
    requires Acceptable(c)
  {
    NewExtractor(t.tan, c.sampleRate.value, c.channels)
  }

  /** What a stream knows when `a` is what it accepted and `stretch` is the unbroken end of that. */
  predicate Agrees(t: Tools, s: Stream, stretch: seq<SoundChunk>, a: seq<SoundChunk>)
    requires Chain(stretch)
  {
    && s.gaps == Jumps(a)
    && if |stretch| == 0 then !s.started && |a| == 0
       else
         var last := stretch[|stretch| - 1];
         && s.started && |a| > 0 && a[|a| - 1] == last
         && s.next == last.sequence + 1 && Finite(s.rate) == last.sampleRate && s.channels == last.channels
         && s.extractor == Windows(t.sqrt, Begun(t, stretch[0]), AllFrames(stretch)).0
  }

  predicate Knows(t: Tools, s: Stream, cs: seq<SoundChunk>) {
    Agrees(t, s, Stretch(cs), Accepted(cs))
  }

  lemma OneMoreChunk(cs: seq<SoundChunk>, c: SoundChunk)
    ensures AllFrames(cs + [c]) == AllFrames(cs) + (if Acceptable(c) then ChunkFrames(c) else [])
    ensures Jumps(cs + [c]) == Jumps(cs) + (if |cs| == 0 || Follows(cs[|cs| - 1], c) then 0 else 1)
  {
    hide Acceptable, ChunkFrames, Follows;
    assert (cs + [c])[..|cs|] == cs;
  }

  lemma FramesOfOne(c: SoundChunk)
    requires Acceptable(c)
    ensures AllFrames([c]) == ChunkFrames(c)
  {
    OneMoreChunk([], c);
    assert [] + [c] == [c];
  }

  lemma ExtractorIs(t: Tools, s: Stream, stretch: seq<SoundChunk>, a: seq<SoundChunk>)
    requires Chain(stretch) && Agrees(t, s, stretch, a) && |stretch| > 0
    ensures s.extractor == Windows(t.sqrt, Begun(t, stretch[0]), AllFrames(stretch)).0
  {
  }

  lemma ChainMore(stretch: seq<SoundChunk>, c: SoundChunk)
    requires Chain(stretch) && Acceptable(c) && |stretch| > 0 && Follows(stretch[|stretch| - 1], c)
    ensures Chain(stretch + [c]) && Acceptable(stretch[0]) && (stretch + [c])[0] == stretch[0]
  {
  }

  /** What a chunk that does not break the stream does to it. */
  lemma AbsorbContinued(t: Tools, s: Stream, c: SoundChunk)
    requires Acceptable(c) && !Breaks(s, c)
    ensures var u := Absorb(t, s, c).0;
            && u.started && u.gaps == s.gaps && u.next == c.sequence + 1 && u.rate == c.sampleRate.value &&
                 u.channels == c.channels
            && u.extractor == Windows(t.sqrt, s.extractor, ChunkFrames(c)).0
  {
    hide Windows, Emitted, ChunkFrames;
  }

  /** A chunk that goes on where the stretch ends. */
  lemma AgreesContinued(t: Tools, s: Stream, stretch: seq<SoundChunk>, a: seq<SoundChunk>, c: SoundChunk)
    requires Chain(stretch) && Agrees(t, s, stretch, a) && Acceptable(c)
    requires |stretch| > 0 && Follows(stretch[|stretch| - 1], c)
    ensures Chain(stretch + [c]) && Agrees(t, Absorb(t, s, c).0, stretch + [c], a + [c])
  {
    hide Windows, ChunkFrames, NewExtractor, AllFrames, Begun, Chain, Absorb, Jumps;
    ChainMore(stretch, c);
    AbsorbContinued(t, s, c);
    ExtractorIs(t, s, stretch, a);
    OneMoreChunk(stretch, c);
    OneMoreChunk(a, c);
    WindowsAppend(t.sqrt, Begun(t, stretch[0]), AllFrames(stretch), ChunkFrames(c));
  }

  /** A chunk that does not. */
  lemma AgreesBroken(t: Tools, s: Stream, stretch: seq<SoundChunk>, a: seq<SoundChunk>, c: SoundChunk)
    requires Chain(stretch) && Agrees(t, s, stretch, a) && Acceptable(c)
    requires |stretch| == 0 || !Follows(stretch[|stretch| - 1], c)
    ensures Chain([c]) && Agrees(t, Absorb(t, s, c).0, [c], a + [c])
  {
    hide Windows, Emitted, Frames, NewExtractor, AllFrames, Jumps;
    OneMoreChunk(a, c);
    FramesOfOne(c);
  }

  lemma EndsNext(cs: seq<SoundChunk>, c: SoundChunk)
    ensures var before := Stretch(cs);
            Stretch(cs + [c]) ==
            if !Acceptable(c) then before
            else if |before| > 0 && Follows(before[|before| - 1], c) then before + [c] else [c]
    ensures Accepted(cs + [c]) == if Acceptable(c) then Accepted(cs) + [c] else Accepted(cs)
  {
    assert (cs + [c])[..|cs|] == cs;
  }

  lemma KnowsMore(t: Tools, s: Stream, cs: seq<SoundChunk>, c: SoundChunk)
    requires Knows(t, s, cs)
    ensures Knows(t, Absorb(t, s, c).0, cs + [c])
  {
    EndsNext(cs, c);
    hide Agrees, Stretch, Accepted;
    var stretch, a := Stretch(cs), Accepted(cs);
    if !Acceptable(c) {
      assert Absorb(t, s, c).0 == s;
    } else if |stretch| > 0 && Follows(stretch[|stretch| - 1], c) {
      AgreesContinued(t, s, stretch, a, c);
    } else {
      AgreesBroken(t, s, stretch, a, c);
    }
  }

  /** A stream as new, or after a reset: whatever its extractor holds, the next chunk starts it again. */
  predicate AtStart(s: Stream) {
    !s.started && s.gaps == 0
  }

  lemma NothingArrived(t: Tools, s: Stream)
    requires AtStart(s)
    ensures AbsorbAll(t, s, []) == (s, []) && Knows(t, s, [])
  {
  }

  /** After any chunks, the extractor holds what the frames of the last unbroken stretch make of a fresh
      extractor, and `gaps` counts the accepted chunks that did not go on from the one before. */
  lemma {:induction false} StreamKnows(t: Tools, s: Stream, cs: seq<SoundChunk>)
    requires AtStart(s)
    ensures Knows(t, AbsorbAll(t, s, cs).0, cs)
    decreases |cs|
  {
    hide Absorb, Windows, Knows;
    NothingArrived(t, s);
    if |cs| > 0 {
      var n := |cs| - 1;
      StreamKnows(t, s, cs[..n]);
      AbsorbNext(t, s, cs, n);
      assert cs[..n + 1] == cs && cs[..n] + [cs[n]] == cs;
      KnowsMore(t, AbsorbAll(t, s, cs[..n]).0, cs[..n], cs[n]);
    } else {
      assert cs == [];
    }
  }

  /** The windows of a stretch. */
  function WindowsOf(t: Tools, stretch: seq<SoundChunk>): seq<Features>
    requires Chain(stretch)
  {
    if |stretch| == 0 then [] else Emitted(Windows(t.sqrt, Begun(t, stretch[0]), AllFrames(stretch)).1)
  }

  function Perhaps(out: Option<Features>): seq<Features> {
    if out.Some? then [out.value] else []
  }

  lemma AbsorbedWindow(t: Tools, s: Stream, c: SoundChunk)
    requires Acceptable(c)
    ensures Emitted(Windows(t.sqrt, Continued(t, s, c), ChunkFrames(c)).1) == Perhaps(Absorb(t, s, c).1)
    ensures Absorb(t, s, c).0.gaps != s.gaps <==> s.started && Breaks(s, c)
  {
    AtMostOneWindow(t, s, c);
    hide Windows, Continued, Emitted;
    var fs := Emitted(Windows(t.sqrt, Continued(t, s, c), ChunkFrames(c)).1);
    assert |fs| <= 1;
  }

  lemma WindowsGrowContinued(t: Tools, s: Stream, stretch: seq<SoundChunk>, a: seq<SoundChunk>, c: SoundChunk)
    requires Chain(stretch) && Agrees(t, s, stretch, a) && Acceptable(c)
    requires |stretch| > 0 && Follows(stretch[|stretch| - 1], c)
    ensures Chain(stretch + [c]) && WindowsOf(t, stretch + [c]) == WindowsOf(t, stretch) + Perhaps(Absorb(t, s, c).1)
    ensures Absorb(t, s, c).0.gaps == s.gaps
  {
    hide Windows, ChunkFrames, NewExtractor, Jumps, Emitted, Absorb, AllFrames, Begun, Chain;
    ChainMore(stretch, c);
    assert Continued(t, s, c) == s.extractor && !Breaks(s, c);
    hide Agrees, Continued, Breaks;
    AbsorbedWindow(t, s, c);
    OneMoreChunk(stretch, c);
    var e, head, tail := Begun(t, stretch[0]), AllFrames(stretch), ChunkFrames(c);
    assert s.extractor == Windows(t.sqrt, e, head).0 by { ExtractorIs(t, s, stretch, a); }
    WindowsAppend(t.sqrt, e, head, tail);
    EmittedAppend(Windows(t.sqrt, e, head).1, Windows(t.sqrt, s.extractor, tail).1);
  }

  lemma WindowsGrowBroken(t: Tools, s: Stream, stretch: seq<SoundChunk>, a: seq<SoundChunk>, c: SoundChunk)
    requires Chain(stretch) && Agrees(t, s, stretch, a) && Acceptable(c)
    requires |stretch| == 0 || !Follows(stretch[|stretch| - 1], c)
    ensures Chain([c]) && WindowsOf(t, [c]) == Perhaps(Absorb(t, s, c).1)
    ensures Absorb(t, s, c).0.gaps != s.gaps <==> |stretch| > 0
  {
    hide Windows, Frames, NewExtractor, Jumps, Emitted, Absorb;
    AbsorbedWindow(t, s, c);
    FramesOfOne(c);
    hide AllFrames;
    assert Continued(t, s, c) == Begun(t, c);
  }

  /** What one chunk adds to the windows of its stretch. */
  lemma WindowsGrow(t: Tools, s: Stream, stretch: seq<SoundChunk>, a: seq<SoundChunk>, c: SoundChunk)
    requires Chain(stretch) && Agrees(t, s, stretch, a) && Acceptable(c)
    ensures var continues := |stretch| > 0 && Follows(stretch[|stretch| - 1], c);
            var next := if continues then stretch + [c] else [c];
            && Chain(next)
            && WindowsOf(t, next) == (if continues then WindowsOf(t, stretch) else []) + Perhaps(Absorb(t, s, c).1)
            && (Absorb(t, s, c).0.gaps != s.gaps <==> |stretch| > 0 && !continues)
  {
    hide WindowsOf, Absorb, Agrees;
    if |stretch| > 0 && Follows(stretch[|stretch| - 1], c) {
      WindowsGrowContinued(t, s, stretch, a, c);
    } else {
      WindowsGrowBroken(t, s, stretch, a, c);
    }
  }

  lemma ChainStretch(cs: seq<SoundChunk>, c: SoundChunk)
    requires Chain(cs + [c]) && Stretch(cs) == cs == Accepted(cs)
    ensures Chain(cs) && Stretch(cs + [c]) == cs + [c] == Accepted(cs + [c])
    ensures Acceptable(c) && (|cs| > 0 ==> Follows(cs[|cs| - 1], c))
  {
    EndsNext(cs, c);
    assert (cs + [c])[|cs|] == c;
    if |cs| > 0 {
      assert Follows((cs + [c])[|cs| - 1], (cs + [c])[|cs|]);
    }
    hide Stretch, Accepted;
  }

  lemma EmittedOneMore(outs: seq<Option<Features>>, out: Option<Features>)
    ensures Emitted(outs + [out]) == Emitted(outs) + Perhaps(out)
  {
    assert (outs + [out])[..|outs|] == outs;
  }

  lemma NoWindowsYet(t: Tools, stretch: seq<SoundChunk>)
    requires Chain(stretch)
    ensures |stretch| == 0 ==> WindowsOf(t, stretch) == [] && [] + stretch == stretch
  {
  }

  lemma ChainStep(t: Tools, s: Stream, cs: seq<SoundChunk>, c: SoundChunk)
    requires AtStart(s) && Chain(cs + [c]) && Stretch(cs) == cs == Accepted(cs)
    requires Chain(cs) && Emitted(AbsorbAll(t, s, cs).1) == WindowsOf(t, cs)
    ensures Stretch(cs + [c]) == cs + [c] == Accepted(cs + [c])
    ensures Emitted(AbsorbAll(t, s, cs + [c]).1) == WindowsOf(t, cs + [c])
  {
    hide Absorb, WindowsOf, Agrees, Chain, Stretch, Accepted, AbsorbAll, Emitted;
    ChainStretch(cs, c);
    StreamKnows(t, s, cs);
    var before := AbsorbAll(t, s, cs);
    WindowsGrow(t, before.0, cs, cs, c);
    assert (cs + [c])[..|cs|] == cs && (cs + [c])[..|cs| + 1] == cs + [c];
    AbsorbNext(t, s, cs + [c], |cs|);
    EmittedOneMore(before.1, Absorb(t, before.0, c).1);
    NoWindowsYet(t, cs);
  }

  /** The windows of an unbroken run of chunks, together. */
  lemma {:induction false} ChainWindows(t: Tools, s: Stream, cs: seq<SoundChunk>)
    requires AtStart(s) && Chain(cs)
    ensures Stretch(cs) == cs == Accepted(cs)
    ensures Emitted(AbsorbAll(t, s, cs).1) == WindowsOf(t, cs)
    decreases |cs|
  {
    if |cs| > 0 {
      var n := |cs| - 1;
      assert cs[..n + 1] == cs && cs[..n] + [cs[n]] == cs;
      ChainWindows(t, s, cs[..n]);
      ChainStep(t, s, cs[..n], cs[n]);
    }
  }

  /** Windows do not depend on how the audio was cut into chunks. Two unbroken runs of chunks of any sizes that
      carry the same frames at the same rate give the same windows, the same partial window and the same filter
      state; there are floor(n / 1024) windows, and n mod 1024 frames are left over. */
  lemma ChunkingDoesNotMatter(t: Tools, r: Stream, s: Stream, cs: seq<SoundChunk>, ds: seq<SoundChunk>)
    requires AtStart(r) && AtStart(s) && Chain(cs) && Chain(ds) && |cs| > 0 && |ds| > 0
    requires AllFrames(cs) == AllFrames(ds) && cs[0].sampleRate == ds[0].sampleRate && cs[0].channels == ds[0].channels
    ensures Emitted(AbsorbAll(t, r, cs).1) == Emitted(AbsorbAll(t, s, ds).1)
    ensures AbsorbAll(t, r, cs).0.extractor == AbsorbAll(t, s, ds).0.extractor
    ensures |Emitted(AbsorbAll(t, r, cs).1)| == |AllFrames(cs)| / WINDOW
    ensures AbsorbAll(t, r, cs).0.extractor.sums.count == |AllFrames(cs)| % WINDOW
  {
    hide Absorb, Windows, AllFrames, Jumps, Stretch, Accepted, Emitted, AbsorbAll, Chain;
    ChainWindows(t, r, cs);
    ChainWindows(t, s, ds);
    StreamKnows(t, r, cs);
    StreamKnows(t, s, ds);
    EmittedCount(t.sqrt, Begun(t, cs[0]), AllFrames(cs));
    WindowsEvery1024(t.sqrt, Begun(t, cs[0]), AllFrames(cs));
  }

  /** Windows number i up to j measure frames 1024 i up to 1024 j, on filters that have seen what came before. */
  lemma WindowsAreTheirFrames(t: Tools, e: SoundExtractor, fs: seq<Frame>, i: nat, j: nat)
    requires e.sums == NoSums() && i <= j && j * WINDOW <= |fs|
    ensures var before := Windows(t.sqrt, e, fs[..i * WINDOW]).0;
            var part := fs[i * WINDOW..j * WINDOW];
            && j <= |Emitted(Windows(t.sqrt, e, fs).1)|
            && before.sums.count == 0
            && Emitted(Windows(t.sqrt, e, fs).1)[i..j] == Emitted(Windows(t.sqrt, before, part).1)
  {
    hide Windows, Emitted;
    var lo, hi := i * WINDOW, j * WINDOW;
    var before := Windows(t.sqrt, e, fs[..lo]).0;
    PassesAdd(t.sqrt, e, fs, lo, hi);
    PassesAdd(t.sqrt, e, fs, hi, |fs|);
    assert fs[..|fs|] == fs;
    EmittedCount(t.sqrt, e, fs[..lo]);
    EmittedCount(t.sqrt, e, fs[..hi]);
    EmittedCount(t.sqrt, before, fs[lo..hi]);
    WindowsEvery1024(t.sqrt, e, fs[..lo]);
  }

  lemma NoFramesInNone()
    ensures AllFrames([]) == []
  {
  }

  lemma {:induction false} AllFramesAppend(cs: seq<SoundChunk>, ds: seq<SoundChunk>)
    ensures AllFrames(cs + ds) == AllFrames(cs) + AllFrames(ds)
    decreases |ds|
  {
    hide AllFrames, Jumps, Follows, Acceptable, ChunkFrames;
    if |ds| == 0 {
      assert cs + ds == cs;
      NoFramesInNone();
    } else {
      var n := |ds| - 1;
      AllFramesAppend(cs, ds[..n]);
      assert cs + ds == cs + ds[..n] + [ds[n]];
      OneMoreChunk(cs + ds[..n], ds[n]);
      OneMoreChunk(ds[..n], ds[n]);
      assert ds[..n] + [ds[n]] == ds;
    }
  }

  lemma MiddlePart(before: seq<Frame>, part: seq<Frame>, after: seq<Frame>)
    ensures (before + part + after)[|before|..|before| + |part|] == part
  {
  }

  /** The frames of a slice of chunks are a slice of the frames of all of them. */
  lemma FramesOfSlice(all: seq<SoundChunk>, first: nat, stretch: seq<SoundChunk>)
    requires first + |stretch| <= |all| && all[first..first + |stretch|] == stretch
    ensures var skipped := |AllFrames(all[..first])|;
            skipped + |AllFrames(stretch)| <= |AllFrames(all)| &&
            AllFrames(all)[skipped..skipped + |AllFrames(stretch)|] == AllFrames(stretch)
  {
    hide AllFrames;
    var next := first + |stretch|;
    AllFramesAppend(all[..first], stretch);
    assert all[..first] + stretch == all[..next];
    AllFramesAppend(all[..next], all[next..]);
    assert all[..next] + all[next..] == all;
    MiddlePart(AllFrames(all[..first]), AllFrames(stretch), AllFrames(all[next..]));
  }
}
