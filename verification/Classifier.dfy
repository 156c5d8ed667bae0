/** From windows to presets: a decision tree and three windows of hysteresis (src/audio/Classifier.h,
    src/audio/Classifier.cpp). */
module Classifiers {
  import opened Options
  import opened Transducers
  import opened Floats
  import opened RingBuffers
  import opened FeatureExtractors
  import opened Captures
  import opened FeatureStreams

  const PERCUSSIVE: nat := 0
  const TONAL: nat := 1
  const AMBIENT: nat := 2
  const NO_CANDIDATE: nat := 255
  const ENOUGH: nat := 3

  /** Many zero crossings and a bright centre: percussive. Few, and dark: ambient. Anything else is tonal, and
      the test of the low band changes nothing about that. */
  function Classify(f: Features): (p: nat)
    requires |f.bandEnergy| == 4
    ensures p == PERCUSSIVE <==> f.zcr > 0.35 && f.centroid > 4000.0
    ensures p == AMBIENT <==> f.zcr < 0.1 && f.centroid < 1500.0
    ensures p == PERCUSSIVE || p == TONAL || p == AMBIENT
  {
    if f.zcr > 0.35 && f.centroid > 4000.0 then PERCUSSIVE
    else if f.zcr < 0.1 && f.centroid < 1500.0 then AMBIENT
    else
      var total := f.rms * f.rms;
      if total > 0.000001 && f.bandEnergy[0] > 0.4 * total then TONAL else TONAL
  }

  type SoundFeatures = f: Features | |f.bandEnergy| == 4 witness NoFeatures()

  /** The class of the newest windows, and how many of them agreed, up to three. */
  datatype Hysteresis = Hysteresis(candidate: nat, streak: nat)

  function NoStreak(): Hysteresis {
    Hysteresis(NO_CANDIDATE, 0)
  }

  /** A window counts unless it is silent or the preset is under manual control. */
  predicate Counts(f: Features, manual: bool) {
    !manual && f.rms >= 0.0001
  }

  /** One window: the state after it, and the preset that is stored, if any. */
  function Judge(h: Hysteresis, f: SoundFeatures, manual: bool): (Hysteresis, Option<nat>) {
    if !Counts(f, manual) then (NoStreak(), None)
    else
      var next := Classify(f);
      var streak := if next != h.candidate then 1 else h.streak + 1;
      if streak >= ENOUGH then (Hysteresis(next, ENOUGH), Some(next)) else (Hysteresis(next, streak), None)
  }

  datatype Listener = Listener(stream: Stream, h: Hysteresis)

  lemma {:induction false} EmittedSound(t: Tools, e: SoundExtractor, fs: seq<Frame>)
    ensures forall f :: f in Emitted(Windows(t.sqrt, e, fs).1) ==> |f.bandEnergy| == 4
    decreases |fs|
  {
    if |fs| > 0 {
      hide Measure, TakeFrame;
      var n := |fs| - 1;
      EmittedSound(t, e, fs[..n]);
      WindowsNext(t.sqrt, e, fs, n);
      assert fs[..n + 1] == fs;
      assert Windows(t.sqrt, e, fs).1[..n] == Windows(t.sqrt, e, fs[..n]).1;
    }
  }

  lemma WindowsAreSound(t: Tools, s: Stream, c: SoundChunk)
    ensures var out := Absorb(t, s, c).1; out.Some? ==> |out.value.bandEnergy| == 4
  {
    if Acceptable(c) {
      EmittedSound(t, Continued(t, s, c), ChunkFrames(c));
    }
  }

  /** One chunk, and whether manual control is on at that time. A gap in the audio starts the streak again,
      before the window that the chunk may complete is judged. */
  function Hear(t: Tools, l: Listener, x: (SoundChunk, bool)): (Listener, Option<nat>) {
    var a := Absorb(t, l.stream, x.0);
    var h := if a.0.gaps != l.stream.gaps then NoStreak() else l.h;
    if a.1.None? then (Listener(a.0, h), None)
    else
      WindowsAreSound(t, l.stream, x.0);
      var j := Judge(h, a.1.value, x.1);
      (Listener(a.0, j.0), j.1)
  }

  function HearStep(t: Tools): (Listener, (SoundChunk, bool)) -> (Listener, Option<nat>) {
    (l: Listener, x: (SoundChunk, bool)) => Hear(t, l, x)
  }

  /** A run over chunks; what comes out at each chunk is the preset stored, or nothing. */
  function HearAll(t: Tools, l: Listener, xs: seq<(SoundChunk, bool)>): (res: (Listener, seq<Option<nat>>))
    ensures |res.1| == |xs|
  {
    Run<Listener, (SoundChunk, bool), Option<nat>>(HearStep(t), l, xs)
  }

  lemma HearNext(t: Tools, l: Listener, xs: seq<(SoundChunk, bool)>, i: nat)
    requires i < |xs|
    ensures var before := HearAll(t, l, xs[..i]);
            var now := Hear(t, before.0, xs[i]);
            HearAll(t, l, xs[..i + 1]) == (now.0, before.1 + [now.1])
  {
    RunNext<Listener, (SoundChunk, bool), Option<nat>>(HearStep(t), l, xs, i);
  }

  function NewListener(t: Tools): Listener {
    Listener(NewStream(t), NoStreak())
  }

  /** Chunks under constant manual control. */
  function Under(cs: seq<SoundChunk>, manual: bool): (xs: seq<(SoundChunk, bool)>)
    ensures |xs| == |cs| && forall i :: 0 <= i < |cs| ==> xs[i] == (cs[i], manual)
  {
    seq(|cs|, i requires 0 <= i < |cs| => (cs[i], manual))
  }

  /** The preset after some stores. */
  function Latest(preset: nat, stores: seq<Option<nat>>): nat {
    if |stores| == 0 then preset
    else if stores[|stores| - 1].Some? then stores[|stores| - 1].value
    else Latest(preset, stores[..|stores| - 1])
  }

  lemma HearNothing(t: Tools, l: Listener)
    ensures HearAll(t, l, []) == (l, [])
  {
  }

  lemma HearUnder(t: Tools, l: Listener, all: seq<SoundChunk>, manual: bool, i: nat)
    requires i < |all|
    ensures var before := HearAll(t, l, Under(all[..i], manual));
            var now := Hear(t, before.0, (all[i], manual));
            HearAll(t, l, Under(all[..i + 1], manual)) == (now.0, before.1 + [now.1])
  {
    hide Hear;
    var xs := Under(all, manual);
    assert xs[..i] == Under(all[..i], manual) && xs[..i + 1] == Under(all[..i + 1], manual);
    HearNext(t, l, xs, i);
  }

  class Classifier {
    const queue: RingBuffer<SoundChunk>
    const stream: FeatureStream
    var preset: nat
    var manualOverride: bool
    var windows: nat
    var gaps: nat
    var candidate: nat
    var streak: nat

    ghost function Repr(): set<object> {
      {this, stream} + stream.Repr
    }

    ghost predicate Valid()
      reads this, stream, stream.Repr
    {
      this !in stream.Repr && stream in stream.Repr && stream.Valid()
    }

    ghost function View(): Listener
      requires Valid()
      reads this, stream, stream.Repr
    {
      Listener(stream.View(), Vote())
    }

    constructor (q: RingBuffer<SoundChunk>, t: Tools)
      ensures Valid() && fresh(Repr()) && queue == q && stream.tools == t && View() == NewListener(t)
      ensures preset == TONAL && !manualOverride
    {
      hide FeatureStream.Valid, FeatureStream.View, NewStream;
      queue := q;
      stream := new FeatureStream(t);
      preset, manualOverride, windows, gaps, candidate, streak := TONAL, false, 0, 0, NO_CANDIDATE, 0;
    }

    /** Pop until the queue is empty. */
    method Drain()
      requires queue.Valid()
      modifies queue`readIdx
      ensures queue.Valid() && queue.Contents() == []
    {
      hide RingBuffer.Contents;
      var ok, stale := queue.TryPop(AudioChunk([], 0, NaN, 0, 1));
      while ok
        invariant queue.Valid()
        invariant !ok ==> queue.Contents() == []
        decreases |queue.Contents()|, ok
      {
        ok, stale := queue.TryPop(stale);
      }
    }

    /** Before the worker runs: stale chunks are thrown away and everything starts again. */
    method Start()
      requires Valid() && queue.Valid() && queue !in Repr()
      modifies Repr(), queue
      ensures Valid() && queue.Valid() && queue.Contents() == []
      ensures View() == Listener(old(View()).stream.(started := false, gaps := 0, windows := 0), NoStreak())
      ensures windows == gaps == 0 && preset == old(preset)
    {
      hide FeatureStream.Valid, FeatureStream.View, RingBuffer.Contents;
      Drain();
      stream.Reset();
      candidate, streak := NO_CANDIDATE, 0;
      windows, gaps := 0, 0;
    }

    ghost function Vote(): Hysteresis
      reads this
    {
      Hysteresis(candidate, streak)
    }

    /** One window. */
    method JudgeWindow(f: SoundFeatures) returns (ghost stored: Option<nat>)
      modifies this`preset, this`candidate, this`streak
      ensures (Vote(), stored) == Judge(old(Vote()), f, manualOverride)
      ensures preset == if stored.Some? then stored.value else old(preset)
    {
      stored := None;
      if manualOverride || f.rms < 0.0001 {
        candidate, streak := NO_CANDIDATE, 0;
      } else {
        var next := Classify(f);
        hide Classify;
        if next != candidate {
          candidate, streak := next, 0;
        }
        streak := streak + 1;
        if streak >= ENOUGH {
          preset, streak := next, ENOUGH;
          stored := Some(next);
        }
      }
    }

    /** The stream takes the chunk; a gap in it ends the streak. */
    method Follow(c: SoundChunk) returns (out: Option<Features>)
      requires Valid()
      modifies stream.Repr, this`candidate, this`streak
      ensures Valid() && (stream.View(), out) == Absorb(stream.tools, old(stream.View()), c)
      ensures Vote() == if stream.View().gaps != old(stream.View()).gaps then NoStreak() else old(Vote())
    {
      hide FeatureStream.Valid, Absorb;
      var previousGaps := stream.gaps;
      out := stream.Consume(c);
      if stream.gaps != previousGaps {
        candidate, streak := NO_CANDIDATE, 0;
      }
    }

    /** One chunk. */
    method HearChunk(c: SoundChunk) returns (ghost stored: Option<nat>)
      requires Valid()
      modifies Repr()
      ensures Valid() && (View(), stored) == Hear(stream.tools, old(View()), (c, manualOverride))
      ensures preset == if stored.Some? then stored.value else old(preset)
      ensures manualOverride == old(manualOverride) && windows == old(windows) && gaps == old(gaps)
    {
      hide FeatureStream.Valid, FeatureStream.View, Absorb, Judge;
      WindowsAreSound(stream.tools, stream.View(), c);
      stored := None;
      var out := Follow(c);
      if out.Some? {
        stored := JudgeWindow(out.value);
      }
    }

    /** At most as many chunks as the queue can hold, so that a producer that goes on cannot keep the loop alive.
        Without one, everything that waits is heard. */
    method Poll() returns (ghost stores: seq<Option<nat>>)
      requires Valid() && queue.Valid() && queue.Repr() !! Repr()
      modifies Repr(), queue`readIdx
      ensures Valid() && queue.Valid() && queue.Contents() == []
      ensures HearAll(stream.tools, old(View()), Under(old(queue.Contents()), manualOverride)) == (View(), stores)
      ensures preset == Latest(old(preset), stores) && manualOverride == old(manualOverride)
      ensures windows == View().stream.windows && gaps == View().stream.gaps
    {
      hide FeatureStream.Valid, FeatureStream.View, RingBuffer.Contents, Latest, HearAll;
      stores := PollChunks();
      Publish();
    }

    method Publish()
      requires Valid()
      modifies this`windows, this`gaps
      ensures Valid() && View() == old(View())
      ensures windows == View().stream.windows && gaps == View().stream.gaps
    {
      windows, gaps := stream.windows, stream.gaps;
    }

    method PollChunks() returns (ghost stores: seq<Option<nat>>)
      requires Valid() && queue.Valid() && queue.Repr() !! Repr()
      modifies Repr(), queue`readIdx
      ensures Valid() && queue.Valid() && queue.Contents() == []
      ensures HearAll(stream.tools, old(View()), Under(old(queue.Contents()), manualOverride)) == (View(), stores)
      ensures preset == Latest(old(preset), stores) && manualOverride == old(manualOverride)
    {
      hide FeatureStream.Valid, FeatureStream.View, RingBuffer.Contents, Hear, HearAll, View;
      ghost var start, all, manual := View(), queue.Contents(), manualOverride;
      ghost var n := 0;
      stores := [];
      assert Under(all[..0], manual) == [];
      HearNothing(stream.tools, start);
      var chunk: SoundChunk := AudioChunk([], 0, NaN, 0, 1);
      var i := 0;
      while i < queue.Capacity()
        invariant Valid() && queue.Valid() && queue.Repr() !! Repr() && manualOverride == manual
        invariant 0 <= i <= |all| && queue.Contents() == all[i..]
        invariant HearAll(stream.tools, start, Under(all[..i], manual)) == (View(), stores)
        invariant preset == Latest(old(preset), stores)
      {
        var ok;
        ok, chunk := queue.TryPop(chunk);
        if !ok { break; }
        HearUnder(stream.tools, start, all, manual, i);
        ghost var stored := HearChunk(chunk);
        stores := stores + [stored];
        i := i + 1;
      }
      assert all[..i] == all;
    }
  }
}
