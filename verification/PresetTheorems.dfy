/** Why a preset was stored: over every run of chunks, exactly when three windows in a row agree, with nothing
    missing inside them. */
module PresetTheorems {
  import opened Options
  import opened FeatureExtractors
  import opened Captures
  import opened FeatureStreams
  import opened StreamTheorems
  import opened Classifiers

  function ChunksOf(xs: seq<(SoundChunk, bool)>): (cs: seq<SoundChunk>)
    ensures |cs| == |xs| && forall i :: 0 <= i < |xs| ==> cs[i] == xs[i].0
  {
    seq(|xs|, i requires 0 <= i < |xs| => xs[i].0)
  }

  /** A window, and whether manual control was on when it was judged. */
  type Judged = (SoundFeatures, bool)

  /** What is left of the past after a chunk. */
  function Base(broken: bool, past: seq<Judged>): seq<Judged> {
    if broken then [] else past
  }

  function Found(out: Option<Features>, manual: bool): seq<Judged>
    requires out.Some? ==> |out.value.bandEnergy| == 4
  {
    if out.Some? then [(out.value, manual)] else []
  }

  /** Windows judged since the last break in the audio. */
  function History(t: Tools, l: Listener, xs: seq<(SoundChunk, bool)>): seq<Judged>
    decreases |xs|
  {
    if |xs| == 0 then []
    else
      var n := |xs| - 1;
      var s := HearAll(t, l, xs[..n]).0.stream;
      var a := Absorb(t, s, xs[n].0);
      WindowsAreSound(t, s, xs[n].0);
      Base(a.0.gaps != s.gaps, History(t, l, xs[..n])) + Found(a.1, xs[n].1)
  }

  /** How many of the newest windows count and are of one class. */
  function Agreement(h: seq<Judged>): (n: nat)
    ensures n <= |h|
    decreases |h|
  {
    if |h| == 0 || !Counts(h[|h| - 1].0, h[|h| - 1].1) then 0
    else
      var k := |h| - 1;
      if Agreement(h[..k]) > 0 && Classify(h[k - 1].0) == Classify(h[k].0) then Agreement(h[..k]) + 1 else 1
  }

  /** The last k windows were judged without manual control, are not silent, and are all of class p. */
  predicate Unanimous(h: seq<Judged>, k: nat, p: nat) {
    k <= |h| &&
    forall i :: |h| - k <= i < |h| ==> h[i].0.rms >= 0.0001 && !h[i].1 && Classify(h[i].0) == p
  }

  /** That number is what it says. */
  lemma {:induction false} AgreementMeans(h: seq<Judged>, k: nat, p: nat)
    requires 1 <= k
    ensures Unanimous(h, k, p) <==> k <= Agreement(h) && Classify(h[|h| - 1].0) == p
    decreases |h|
  {
    hide Classify;
    if |h| > 0 {
      var n := |h| - 1;
      if k == 1 {
      } else {
        AgreementMeans(h[..n], k - 1, p);
        if n > 0 { AgreementMeans(h[..n], 1, p); }
      }
    }
  }

  /** The vote of the classifier is the agreement, counted up to three. */
  predicate VoteIs(h: Hysteresis, past: seq<Judged>) {
    var n := Agreement(past);
    h == if n == 0 then NoStreak() else Hysteresis(Classify(past[|past| - 1].0), if n < ENOUGH then n else ENOUGH)
  }

  lemma JudgeIs(h: Hysteresis, past: seq<Judged>, f: SoundFeatures, manual: bool)
    requires VoteIs(h, past)
    ensures var now := past + [(f, manual)];
            && VoteIs(Judge(h, f, manual).0, now)
            && Judge(h, f, manual).1 == if Agreement(now) >= ENOUGH then Some(Classify(f)) else None
  {
    hide Counts;
    var now := past + [(f, manual)];
    assert now[..|past|] == past;
    var c := Classify(f);
    assert c < 3;
    hide Classify;
  }

  function Plain(past: seq<Judged>): (fs: seq<Features>)
    ensures |fs| == |past| && forall i :: 0 <= i < |past| ==> fs[i] == past[i].0
  {
    seq(|past|, i requires 0 <= i < |past| => past[i].0)
  }

  /** What the classifier knows after some chunks. */
  predicate Informed(t: Tools, l: Listener, cs: seq<SoundChunk>, past: seq<Judged>) {
    && Knows(t, l.stream, cs) && VoteIs(l.h, past)
    && WindowsOf(t, Stretch(cs)) == Plain(past)
  }

  lemma PlainAppend(past: seq<Judged>, out: Option<Features>, manual: bool)
    requires out.Some? ==> |out.value.bandEnergy| == 4
    ensures Plain(past + Found(out, manual)) == Plain(past) + Perhaps(out)
  {
  }

  lemma NoPast()
    ensures Plain([]) == []
  {
  }

  lemma NothingFound(fs: seq<Features>)
    ensures fs + Perhaps(None) == fs
  {
  }

  lemma WindowsInformed(t: Tools, s: Stream, cs: seq<SoundChunk>, past: seq<Judged>, c: SoundChunk, manual: bool,
                        a: (Stream, Option<Features>))
    requires Knows(t, s, cs) && WindowsOf(t, Stretch(cs)) == Plain(past) && a == Absorb(t, s, c)
    requires a.1.Some? ==> |a.1.value.bandEnergy| == 4
    ensures WindowsOf(t, Stretch(cs + [c])) == Plain(Base(a.0.gaps != s.gaps, past) + Found(a.1, manual))
  {
    hide Agrees, Stretch, Accepted, WindowsOf, Absorb, Chain, Plain, Found, Perhaps;
    EndsNext(cs, c);
    PlainAppend(Base(a.0.gaps != s.gaps, past), a.1, manual);
    NoPast();
    if Acceptable(c) {
      NoWindowsYet(t, Stretch(cs));
      WindowsGrow(t, s, Stretch(cs), Accepted(cs), c);
    } else {
      RefusedIs(t, s, c);
      NothingFound(Plain(past));
    }
  }

  lemma NoStreakIs()
    ensures VoteIs(NoStreak(), [])
  {
  }

  lemma VoteInformed(t: Tools, l: Listener, past: seq<Judged>, c: SoundChunk, manual: bool,
                     a: (Stream, Option<Features>))
    requires VoteIs(l.h, past) && a == Absorb(t, l.stream, c) && (a.1.Some? ==> |a.1.value.bandEnergy| == 4)
    ensures var now := Base(a.0.gaps != l.stream.gaps, past) + Found(a.1, manual);
            var out := Hear(t, l, (c, manual));
            && out.0.stream == a.0 && VoteIs(out.0.h, now)
            && out.1 == if a.1.Some? && Agreement(now) >= ENOUGH then Some(Classify(now[|now| - 1].0)) else None
  {
    hide Absorb, Classify, Counts, Judge, VoteIs, Agreement;
    NoStreakIs();
    var h := if a.0.gaps != l.stream.gaps then NoStreak() else l.h;
    var base := Base(a.0.gaps != l.stream.gaps, past);
    if a.1.Some? {
      JudgeIs(h, base, a.1.value, manual);
    } else {
      assert base + [] == base;
    }
  }

  lemma InformedMore(t: Tools, l: Listener, cs: seq<SoundChunk>, past: seq<Judged>, c: SoundChunk, manual: bool,
                     a: (Stream, Option<Features>))
    requires Informed(t, l, cs, past) && a == Absorb(t, l.stream, c) && (a.1.Some? ==> |a.1.value.bandEnergy| == 4)
    ensures Informed(t, Hear(t, l, (c, manual)).0, cs + [c], Base(a.0.gaps != l.stream.gaps, past) + Found(a.1, manual))
  {
    hide Knows, Absorb, Hear, VoteIs, WindowsOf, Stretch;
    KnowsMore(t, l.stream, cs, c);
    WindowsInformed(t, l.stream, cs, past, c, manual, a);
    VoteInformed(t, l, past, c, manual, a);
  }

  /** A classifier as new, or after a start. */
  predicate JustStarted(l: Listener) {
    AtStart(l.stream) && l.h == NoStreak()
  }

  lemma NothingInformed(t: Tools, l: Listener)
    requires JustStarted(l)
    ensures Informed(t, l, [], [])
  {
  }

  lemma {:induction false} AlwaysInformed(t: Tools, l: Listener, xs: seq<(SoundChunk, bool)>)
    requires JustStarted(l)
    ensures Informed(t, HearAll(t, l, xs).0, ChunksOf(xs), History(t, l, xs))
    decreases |xs|
  {
    hide Informed, Hear, Absorb;
    if |xs| == 0 {
      NothingInformed(t, l);
      assert ChunksOf(xs) == [];
      HearNothing(t, l);
      assert xs == [];
    } else {
      var n := |xs| - 1;
      AlwaysInformed(t, l, xs[..n]);
      HearNext(t, l, xs, n);
      assert xs[..n + 1] == xs;
      assert ChunksOf(xs) == ChunksOf(xs[..n]) + [xs[n].0];
      var before := HearAll(t, l, xs[..n]).0;
      WindowsAreSound(t, before.stream, xs[n].0);
      InformedMore(t, before, ChunksOf(xs[..n]), History(t, l, xs[..n]), xs[n].0, xs[n].1,
                   Absorb(t, before.stream, xs[n].0));
    }
  }

  lemma InformedVote(t: Tools, l: Listener, cs: seq<SoundChunk>, past: seq<Judged>, c: SoundChunk, manual: bool,
                     a: (Stream, Option<Features>))
    requires Informed(t, l, cs, past) && a == Absorb(t, l.stream, c) && (a.1.Some? ==> |a.1.value.bandEnergy| == 4)
    ensures var now := Base(a.0.gaps != l.stream.gaps, past) + Found(a.1, manual);
            Hear(t, l, (c, manual)).1 == if a.1.Some? && Agreement(now) >= ENOUGH then Some(Classify(now[|now| - 1].0))
              else None
  {
    hide Knows, Absorb, Hear, VoteIs, WindowsOf, Stretch;
    VoteInformed(t, l, past, c, manual, a);
  }

  lemma HistoryNext(t: Tools, l: Listener, xs: seq<(SoundChunk, bool)>)
    requires |xs| > 0
    ensures var n := |xs| - 1;
            var s := HearAll(t, l, xs[..n]).0.stream;
            var a := Absorb(t, s, xs[n].0);
            && (a.1.Some? ==> |a.1.value.bandEnergy| == 4)
            && History(t, l, xs) == Base(a.0.gaps != s.gaps, History(t, l, xs[..n])) + Found(a.1, xs[n].1)
  {
    hide Absorb;
    WindowsAreSound(t, HearAll(t, l, xs[..|xs| - 1]).0.stream, xs[|xs| - 1].0);
  }

  lemma InformedWindows(t: Tools, l: Listener, cs: seq<SoundChunk>, past: seq<Judged>)
    requires Informed(t, l, cs, past)
    ensures Plain(past) == WindowsOf(t, Stretch(cs)) && |past| == |AllFrames(Stretch(cs))| / WINDOW
  {
    hide VoteIs, Knows, Windows;
    var stretch := Stretch(cs);
    if |stretch| > 0 {
      EmittedCount(t.sqrt, Begun(t, stretch[0]), AllFrames(stretch));
    }
  }

  /** A preset p is stored at a chunk exactly if the chunk completes a window, and that window and the two
      before it in the same unbroken stretch of audio were all heard, not silent, not under manual control, and
      of class p. The stretch is then at least 3072 frames long; its windows follow each other without gap or
      overlap, and no chunk is missing inside it. */
  lemma StoredExactlyIf(t: Tools, l: Listener, xs: seq<(SoundChunk, bool)>, p: nat)
    requires JustStarted(l) && |xs| > 0
    ensures var n := |xs| - 1;
            var past := History(t, l, xs);
            var stretch := Stretch(ChunksOf(xs));
            && (HearAll(t, l, xs).1[n] == Some(p) <==>
                  Absorb(t, HearAll(t, l, xs[..n]).0.stream, xs[n].0).1.Some? && Unanimous(past, ENOUGH, p))
            && Plain(past) == WindowsOf(t, stretch)
            && |past| == |AllFrames(stretch)| / WINDOW
  {
    hide Informed, Hear, Absorb, Classify, Counts, Agreement, Unanimous, History;
    var n := |xs| - 1;
    AlwaysInformed(t, l, xs[..n]);
    AlwaysInformed(t, l, xs);
    HearNext(t, l, xs, n);
    assert xs[..n + 1] == xs;
    var before := HearAll(t, l, xs[..n]).0;
    var a := Absorb(t, before.stream, xs[n].0);
    WindowsAreSound(t, before.stream, xs[n].0);
    InformedVote(t, before, ChunksOf(xs[..n]), History(t, l, xs[..n]), xs[n].0, xs[n].1, a);
    HistoryNext(t, l, xs);
    AgreementMeans(History(t, l, xs), ENOUGH, p);
    InformedWindows(t, HearAll(t, l, xs).0, ChunksOf(xs), History(t, l, xs));
  }
}
