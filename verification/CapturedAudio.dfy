/** What the captured chunks hold: the audio that the callback was given, frame by frame
    (src/audio/DspChain.cpp:14-25, 92-103). */
module CapturedAudio {
  import opened Interleaving
  import opened Captures
  import opened FeatureExtractors
  import opened FeatureStreams
  import opened StreamTheorems
  import opened Classifiers
  import opened PresetTheorems
  import opened Pipelines

  /** Frame j of a part that starts with frame i. */
  lemma FrameOfPart(xs: seq<real>, i: nat, n: nat, channels: nat, j: nat)
    requires 1 <= channels <= 2 && i + j < n && BlockSize(i, channels) <= BlockSize(n, channels) <= |xs|
    ensures var part := xs[BlockSize(i, channels)..BlockSize(n, channels)];
            && HasFrame(part, j, channels) && HasFrame(xs, i + j, channels)
            && FrameAt(part, j, channels) == FrameAt(xs, i + j, channels)
  {
    OneOrTwo(i, channels);
    OneOrTwo(n, channels);
    OneOrTwo(j + 1, channels);
    OneOrTwo(i + j + 1, channels);
    hide BlockSize;
  }

  /** The first n frames are the first i of them and the frames of the rest. */
  lemma FramesSplit(xs: seq<real>, i: nat, n: nat, channels: nat)
    requires 1 <= channels <= 2 && i <= n && BlockSize(n, channels) <= |xs|
    ensures BlockSize(i, channels) <= BlockSize(n, channels)
    ensures var part := xs[BlockSize(i, channels)..BlockSize(n, channels)];
            && |part| == BlockSize(n - i, channels)
            && Frames(xs, n, channels) == Frames(xs, i, channels) + Frames(part, n - i, channels)
  {
    Ordered(i, n, n, channels);
    hide BlockSize, FrameAt;
    var part := xs[BlockSize(i, channels)..BlockSize(n, channels)];
    var whole, head, tail := Frames(xs, n, channels), Frames(xs, i, channels), Frames(part, n - i, channels);
    forall k | 0 <= k < n ensures whole[k] == (head + tail)[k] {
      if k >= i {
        FrameOfPart(xs, i, n, channels, k - i);
      }
    }
  }

  lemma NothingHeld(xs: seq<real>, channels: nat)
    requires 1 <= channels <= 2
    ensures BlockSize(0, channels) == 0 && Frames(xs, 0, channels) == [] && AllFrames([]) == []
  {
  }

  /** One chunk: it passes the guard, and holds the next frames. */
  lemma ChunkHolds(xs: seq<real>, frames: nat, channels: nat, rate: real, sequence: nat, n: nat)
    requires |xs| == BlockSize(frames, channels) && n * CHUNK_FRAMES < frames
    requires 1 <= channels <= 2 && rate >= 8000.0
    ensures var c := ChunkAt(xs, frames, channels, rate, sequence, n);
            var lo, hi := n * CHUNK_FRAMES, Least((n + 1) * CHUNK_FRAMES, frames);
            && Acceptable(c) && BlockSize(hi, channels) <= |xs|
            && Frames(xs, hi, channels) == Frames(xs, lo, channels) + ChunkFrames(c)
  {
    var lo, hi := n * CHUNK_FRAMES, Least((n + 1) * CHUNK_FRAMES, frames);
    ChunkIs(xs, frames, channels, rate, sequence, n);
    Ordered(lo, hi, frames, channels);
    FramesSplit(xs, lo, hi, channels);
    hide BlockSize, Frames;
  }

  /** Every chunk of a block of audio passes the guard, and together the first n of them hold its first frames. */
  lemma {:induction false} CutHoldsFrames(xs: seq<real>, frames: nat, channels: nat, rate: real, sequence: nat, n: nat)
    requires |xs| == BlockSize(frames, channels) && (n == 0 || (n - 1) * CHUNK_FRAMES < frames)
    requires 1 <= channels <= 2 && rate >= 8000.0
    ensures var cut := Cut(xs, frames, channels, rate, sequence, n);
            && (forall i :: 0 <= i < n ==> Acceptable(cut[i]))
            && BlockSize(Least(n * CHUNK_FRAMES, frames), channels) <= |xs|
            && AllFrames(cut) == Frames(xs, Least(n * CHUNK_FRAMES, frames), channels)
    decreases n
  {
    hide BlockSize, ChunkAt, Cut, AllFrames, Frames, Acceptable, ChunkFrames, Jumps, Follows, Samples;
    if n == 0 {
      Ordered(0, 0, frames, channels);
      NothingHeld(xs, channels);
    } else {
      CutHoldsFrames(xs, frames, channels, rate, sequence, n - 1);
      CutGrows(xs, frames, channels, rate, sequence, n - 1);
      ChunkHolds(xs, frames, channels, rate, sequence, n - 1);
      var before := Cut(xs, frames, channels, rate, sequence, n - 1);
      var c := ChunkAt(xs, frames, channels, rate, sequence, n - 1);
      OneMoreChunk(before, c);
    }
  }

  // ---------------------------------------------------------------- everything the callback was given

  /** A call of the callback with the capture on: its dry signal, and the rate at that time. */
  datatype Call = Call(samples: seq<real>, frames: nat, channels: nat, rate: real)
  {
    predicate Valid() {
      1 <= channels <= 2 && |samples| == BlockSize(frames, channels) && rate >= 8000.0
    }
  }

  type SoundCall = c: Call | c.Valid() witness Call([], 0, 1, 8000.0)

  /** All chunks that these calls number. */
  function Chunks(calls: seq<SoundCall>): seq<SoundChunk>
    decreases |calls|
  {
    if |calls| == 0 then []
    else
      var before, c := Chunks(calls[..|calls| - 1]), calls[|calls| - 1];
      before + Cut(c.samples, c.frames, c.channels, c.rate, |before|, ChunkCount(c.frames))
  }

  /** All frames that these calls were given. */
  function Given(calls: seq<SoundCall>): seq<Frame>
    decreases |calls|
  {
    if |calls| == 0 then []
    else
      var c := calls[|calls| - 1];
      Given(calls[..|calls| - 1]) + Frames(c.samples, c.frames, c.channels)
  }

  /** What one call adds. */
  lemma CallHolds(c: SoundCall, sequence: nat)
    ensures var cut := Cut(c.samples, c.frames, c.channels, c.rate, sequence, ChunkCount(c.frames));
            && AllFrames(cut) == Frames(c.samples, c.frames, c.channels)
            && forall i :: 0 <= i < |cut| ==> Acceptable(cut[i]) && cut[i].sequence == sequence + i
  {
    hide AllFrames, Frames, Samples, ChunkAt;
    CutHoldsFrames(c.samples, c.frames, c.channels, c.rate, sequence, ChunkCount(c.frames));
    CutIsWhole(c.samples, c.frames, c.channels, c.rate, sequence, ChunkCount(c.frames));
    hide Cut, BlockSize;
  }

  /** Chunks numbered in order, all of which pass the guard, and which hold these frames. */
  predicate Hold(cs: seq<SoundChunk>, fs: seq<Frame>) {
    Numbered(cs) && AllFrames(cs) == fs && forall k :: 0 <= k < |cs| ==> Acceptable(cs[k])
  }

  lemma HoldMore(cs: seq<SoundChunk>, fs: seq<Frame>, c: SoundCall)
    requires Hold(cs, fs)
    ensures Hold(cs + Cut(c.samples, c.frames, c.channels, c.rate, |cs|, ChunkCount(c.frames)),
                 fs + Frames(c.samples, c.frames, c.channels))
  {
    hide AllFrames, Frames, Acceptable, Cut, ChunkCount, BlockSize;
    CallHolds(c, |cs|);
    AllFramesAppend(cs, Cut(c.samples, c.frames, c.channels, c.rate, |cs|, ChunkCount(c.frames)));
  }

  /** The chunks of all calls hold exactly the frames that the callback was given, in order. */
  lemma {:induction false} ChunksHoldInput(calls: seq<SoundCall>)
    ensures Hold(Chunks(calls), Given(calls))
    decreases |calls|
  {
    if |calls| == 0 {
      NoFramesInNone();
    } else {
      hide Hold, Cut, Frames;
      ChunksHoldInput(calls[..|calls| - 1]);
      HoldMore(Chunks(calls[..|calls| - 1]), Given(calls[..|calls| - 1]), calls[|calls| - 1]);
    }
  }

  /** The frames of the first chunks are the first frames. */
  lemma FramesOfPrefix(some: seq<SoundChunk>, all: seq<SoundChunk>)
    requires some <= all
    ensures AllFrames(some) <= AllFrames(all)
  {
    hide AllFrames;
    AllFramesAppend(some, all[|some|..]);
    assert some + all[|some|..] == all;
  }

  /** The newest three windows are those of the 3072 frames from `start` on of what the callback was given, on an
      extractor `before` that has no window begun. */
  ghost predicate MeasuresInput(t: Tools, past: seq<Judged>, calls: seq<SoundCall>, start: nat,
                                before: SoundExtractor) {
    && |past| >= ENOUGH && start + ENOUGH * WINDOW <= |Given(calls)| && before.sums.count == 0
    && Plain(past)[|past| - ENOUGH..] ==
       Emitted(Windows(t.sqrt, before, Given(calls)[start..start + ENOUGH * WINDOW]).1)
  }

  lemma InputMeasured(t: Tools, past: seq<Judged>, stretch: seq<SoundChunk>, captured: seq<SoundChunk>, start: nat,
                      calls: seq<SoundCall>)
    requires FromFrames(t, past, stretch, captured, start) && captured <= Chunks(calls)
    ensures exists before :: MeasuresInput(t, past, calls, start, before)
  {
    hide Windows, Emitted, AllFrames, Given, Chunks;
    ChunksHoldInput(calls);
    FramesOfPrefix(captured, Chunks(calls));
    var lead := (|past| - ENOUGH) * WINDOW;
    var before := Windows(t.sqrt, Begun(t, stretch[0]), AllFrames(stretch)[..lead]).0;
    assert AllFrames(captured)[start..start + ENOUGH * WINDOW] == Given(calls)[start..start + ENOUGH * WINDOW];
    assert MeasuresInput(t, past, calls, start, before);
  }

  /** From the input of the callback to the preset, in every interleaving: if what was captured are the chunks that
      the callback makes of its calls, as far as it has come, then a preset that changes rests on three windows that
      measure exactly 3072 consecutive frames of what the callback was given. */
  lemma PresetRestsOnInput(t: Tools, l: Listener, preset: nat, states: seq<System>, events: seq<Event>, i: nat,
                           calls: seq<SoundCall>)
    requires Behaviour(t, l, preset, states, events) && i < |events| && JustStarted(l)
    requires states[i + 1].preset != states[i].preset && states[i + 1].captured <= Chunks(calls)
    ensures var s := states[i + 1];
            && Unanimous(History(t, l, s.heard), ENOUGH, s.preset)
            && exists start, before :: MeasuresInput(t, History(t, l, s.heard), calls, start, before)
  {
    var s := states[i + 1];
    hide Behaviour, Unanimous, History, Stretch, FromFrames, MeasuresInput;
    EveryPresetChange(t, l, preset, states, events, i);
    var start :| FromFrames(t, History(t, l, s.heard), Stretch(ChunksOf(s.heard)), s.captured, start);
    InputMeasured(t, History(t, l, s.heard), Stretch(ChunksOf(s.heard)), s.captured, start, calls);
  }
}
