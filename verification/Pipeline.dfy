/** The capture path from end to end: the audio callback numbers chunks and offers them to the queue, the
    classifier pops and hears them, and all of it may interleave at every atomic access
    (src/audio/DspChain.cpp:92-103, src/audio/SPSCRingBuffer.h, src/audio/Classifier.cpp:20-38). */
module Pipelines {
  import opened Options
  import opened Captures
  import opened FeatureExtractors
  import opened FeatureStreams
  import opened StreamTheorems
  import opened Classifiers
  import opened PresetTheorems
  import Ring = RingProtocol

  /** The queue, every chunk the callback has numbered so far, how many of them were refused, and every chunk the
      classifier has heard, with the manual control of that moment. Then the classifier's own variables: what it
      has made of that, the preset it has stored last, how many pops its current poll may still try (none between
      polls), and the counters it has published. */
  datatype System = System(queue: Ring.State<SoundChunk>, captured: seq<SoundChunk>, drops: nat,
                           heard: seq<(SoundChunk, bool)>, listener: Listener, preset: nat, left: nat,
                           windows: nat, gaps: nat)

  /** An access to the queue, where `manual` is what the classifier reads if it is about to judge; or the classifier
      wakes up for a poll. */
  datatype Event = Access(access: Ring.Event<SoundChunk>, manual: bool) | PollStarts

  function Start(l: Listener, preset: nat): System {
    System(Ring.Init(), [], 0, [], l, preset, 0, l.stream.windows, l.stream.gaps)
  }

  /** The callback numbers what it pushes. The classifier only pops, and only within a poll. */
  ghost predicate Enabled(s: System, e: Event) {
    match e
    case PollStarts => s.left == 0 && s.queue.consumer.Resting?
    case Access(access, _) =>
      && Ring.Enabled(s.queue, access) && !access.CountLoadsOther? && !access.CountLoadsOwn?
      && (access.PushLoadsOwn? ==> access.item.sequence == |s.captured|)
      && (access.PopLoadsOwn? ==> s.left > 0)
  }

  function Ended(s: System): System {
    s.(left := 0, windows := s.listener.stream.windows, gaps := s.listener.stream.gaps)
  }

  /** A chunk counts as captured when it gets its number, as dropped when the queue refuses it, and as heard when
      its pop is complete. A poll ends when the queue has nothing for it or after as many pops as the queue holds,
      and publishes its counters then. */
  ghost function Next(t: Tools, s: System, e: Event): System
    requires Enabled(s, e)
  {
    match e
    case PollStarts => s.(left := AUDIO_QUEUE - 1)
    case Access(access, manual) =>
      var q := Ring.Apply(AUDIO_QUEUE, s.queue, access);
      match access
      case PushLoadsOwn(item) => s.(queue := q, captured := s.captured + [item])
      case PushLoadsOther(_) => s.(queue := q, drops := if q.producer.Idle? then s.drops + 1 else s.drops)
      case PopLoadsOther(_) => if q.consumer.Resting? then Ended(s.(queue := q)) else s.(queue := q)
      case PopPublishes =>
        var x := (s.queue.consumer.got, manual);
        var h := Hear(t, s.listener, x);
        var n := s.(queue := q, heard := s.heard + [x], listener := h.0,
                    preset := if h.1.Some? then h.1.value else s.preset);
        if s.left <= 1 then Ended(n) else n.(left := s.left - 1)
      case _ => s.(queue := q)
  }

  /** A run of both threads from a started classifier and an empty queue. */
  ghost predicate Behaviour(t: Tools, l: Listener, preset: nat, states: seq<System>, events: seq<Event>) {
    && |states| == |events| + 1 && states[0] == Start(l, preset)
    && forall i :: 0 <= i < |events| ==> Enabled(states[i], events[i]) && states[i + 1] == Next(t, states[i], events[i])
  }

  /** Chunks in order of their numbers, each the one that was captured under that number. */
  ghost predicate Among(some: seq<SoundChunk>, captured: seq<SoundChunk>) {
    && (forall i :: 0 <= i < |some| ==> some[i].sequence < |captured| && captured[some[i].sequence] == some[i])
    && (forall i, j :: 0 <= i < j < |some| ==> some[i].sequence < some[j].sequence)
  }

  predicate Numbered(captured: seq<SoundChunk>) {
    forall k :: 0 <= k < |captured| ==> captured[k].sequence == k
  }

  /** The queue and the two counts of the callback. */
  ghost predicate Sound(s: System) {
    && Ring.Inv(s.queue, AUDIO_QUEUE)
    && Numbered(s.captured) && Among(s.queue.pushed, s.captured)
    && ChunksOf(s.heard) == s.queue.popped
    && |s.captured| == |s.queue.pushed| + s.drops + (if s.queue.producer.Idle? then 0 else 1)
    && (!s.queue.producer.Idle? ==>
          && s.queue.producer.item == s.captured[|s.captured| - 1]
          && forall i :: 0 <= i < |s.queue.pushed| ==> s.queue.pushed[i].sequence < |s.captured| - 1)
  }

  /** The classifier's variables are what hearing the chunks so far makes of them. */
  ghost predicate Tracks(t: Tools, l: Listener, preset: nat, s: System) {
    var all := HearAll(t, l, s.heard);
    && s.listener == all.0 && s.preset == Classifiers.Latest(preset, all.1)
    && s.left < AUDIO_QUEUE
    && (s.left == 0 ==> s.windows == s.listener.stream.windows && s.gaps == s.listener.stream.gaps)
    && (s.left == 0 ==> s.queue.consumer.Resting?)
  }

  lemma AmongMore(some: seq<SoundChunk>, captured: seq<SoundChunk>, c: SoundChunk)
    requires Among(some, captured) && Numbered(captured) && c.sequence == |captured|
    ensures Among(some, captured + [c]) && Numbered(captured + [c])
  {
  }

  lemma SoundPush(t: Tools, s: System, e: Event)
    requires Sound(s) && Enabled(s, e) && Ring.Inv(Next(t, s, e).queue, AUDIO_QUEUE) && e.Access?
    requires e.access.PushLoadsOwn? || e.access.PushLoadsOther? || e.access.PushPublishes?
    ensures Sound(Next(t, s, e))
  {
    hide Ring.Inv, Hear;
    if e.access.PushLoadsOwn? {
      AmongMore(s.queue.pushed, s.captured, e.access.item);
    }
  }

  lemma SoundOther(t: Tools, s: System, e: Event)
    requires Sound(s) && Enabled(s, e) && Ring.Inv(Next(t, s, e).queue, AUDIO_QUEUE) && e.Access?
    requires !e.access.PushLoadsOwn? && !e.access.PushLoadsOther? && !e.access.PushPublishes?
    ensures Sound(Next(t, s, e))
  {
    hide Ring.Inv, Hear;
  }

  lemma QueueStep(t: Tools, s: System, e: Event)
    requires Sound(s) && Enabled(s, e)
    ensures Ring.Inv(Next(t, s, e).queue, AUDIO_QUEUE)
  {
    hide Ring.Enabled, Ring.Apply, Ring.Inv, Among, Hear;
    if e.Access? {
      Ring.Step(s.queue, AUDIO_QUEUE, e.access);
    }
  }

  lemma SoundStep(t: Tools, s: System, e: Event)
    requires Sound(s) && Enabled(s, e)
    ensures Sound(Next(t, s, e))
  {
    QueueStep(t, s, e);
    hide Ring.Enabled, Ring.Apply, Ring.Inv, Among, Hear;
    if e.PollStarts? {
    } else if e.access.PushLoadsOwn? || e.access.PushLoadsOther? || e.access.PushPublishes? {
      SoundPush(t, s, e);
    } else {
      SoundOther(t, s, e);
    }
  }

  lemma RestsAfterPop(q: Ring.State<SoundChunk>)
    requires Ring.Enabled(q, Ring.PopPublishes)
    ensures Ring.Apply(AUDIO_QUEUE, q, Ring.PopPublishes).consumer.Resting?
  {
  }

  lemma HearOneMore(t: Tools, l: Listener, preset: nat, heard: seq<(SoundChunk, bool)>, x: (SoundChunk, bool))
    ensures var before, after := HearAll(t, l, heard), HearAll(t, l, heard + [x]);
            var now := Hear(t, before.0, x);
            && after.0 == now.0 && |after.1| == |heard| + 1 && after.1[|heard|] == now.1
            && Classifiers.Latest(preset, after.1) ==
               if now.1.Some? then now.1.value else Classifiers.Latest(preset, before.1)
  {
    hide Hear;
    var xs := heard + [x];
    HearNext(t, l, xs, |heard|);
    assert xs[..|heard|] == heard && xs[..|heard| + 1] == xs;
    assert HearAll(t, l, xs).1[..|heard|] == HearAll(t, l, heard).1;
    hide HearAll;
  }

  /** A pop that is complete is heard. */
  lemma TracksHeard(t: Tools, l: Listener, preset: nat, s: System, e: Event)
    requires Tracks(t, l, preset, s) && Enabled(s, e) && e.Access? && e.access.PopPublishes?
    ensures Tracks(t, l, preset, Next(t, s, e))
  {
    hide Hear, Ring.Apply, HearAll;
    var x := (s.queue.consumer.got, e.manual);
    HearOneMore(t, l, preset, s.heard, x);
    RestsAfterPop(s.queue);
  }

  lemma TracksStep(t: Tools, l: Listener, preset: nat, s: System, e: Event)
    requires Tracks(t, l, preset, s) && Enabled(s, e)
    ensures Tracks(t, l, preset, Next(t, s, e))
  {
    hide Hear, HearAll;
    if e.Access? && e.access.PopPublishes? {
      TracksHeard(t, l, preset, s, e);
    }
  }

  lemma StartSound(t: Tools, l: Listener, preset: nat)
    ensures Sound(Start(l, preset)) && Tracks(t, l, preset, Start(l, preset))
  {
    HearNothing(t, l);
  }

  lemma {:induction false} AlwaysSound(t: Tools, l: Listener, preset: nat, states: seq<System>, events: seq<Event>,
                                       i: nat)
    requires Behaviour(t, l, preset, states, events) && i < |states|
    ensures Sound(states[i]) && Tracks(t, l, preset, states[i])
    decreases i
  {
    hide Next, Sound, Tracks, Enabled;
    if i > 0 {
      AlwaysSound(t, l, preset, states, events, i - 1);
      SoundStep(t, states[i - 1], events[i - 1]);
      TracksStep(t, l, preset, states[i - 1], events[i - 1]);
    } else {
      StartSound(t, l, preset);
    }
  }

  // ---------------------------------------------------------------- conservation

  /** Every chunk that was captured was heard, waits in the queue, was counted as dropped, or is being offered
      at this moment. */
  lemma NothingVanishes(t: Tools, l: Listener, preset: nat, states: seq<System>, events: seq<Event>, i: nat)
    requires Behaviour(t, l, preset, states, events) && i < |states|
    ensures var s := states[i];
            var waiting := |s.queue.pushed| - |s.queue.popped|;
            && 0 <= waiting <= AUDIO_QUEUE - 1
            && |s.captured| == |s.heard| + waiting + s.drops + (if s.queue.producer.Idle? then 0 else 1)
  {
    AlwaysSound(t, l, preset, states, events, i);
    hide Tracks;
    assert |ChunksOf(states[i].heard)| == |states[i].heard|;
  }

  lemma RestsBetweenPolls(t: Tools, l: Listener, preset: nat, s: System)
    requires Tracks(t, l, preset, s)
    ensures s.left == 0 ==> s.queue.consumer.Resting?
  {
  }

  /** Within a poll, every step keeps what was heard and uses up the poll. */
  lemma HeardWithinPoll(t: Tools, s: System, e: Event)
    requires Enabled(s, e) && !e.PollStarts? && (s.left == 0 ==> s.queue.consumer.Resting?)
    ensures var n := Next(t, s, e);
            s.heard <= n.heard && |n.heard| + n.left <= |s.heard| + s.left
  {
    hide Ring.Apply, Hear;
  }

  lemma PollBegins(t: Tools, s: System)
    requires Enabled(s, PollStarts)
    ensures Next(t, s, PollStarts).heard == s.heard && Next(t, s, PollStarts).left == AUDIO_QUEUE - 1
  {
  }

  /** However fast the callback goes on, a poll hears at most as many chunks as the queue holds, and all it hears
      it hears in order, where the last poll left off. */
  lemma {:induction false} PollIsBounded(t: Tools, l: Listener, preset: nat, states: seq<System>, events: seq<Event>,
                                         i: nat, j: nat)
    requires Behaviour(t, l, preset, states, events) && i < j < |states| && events[i].PollStarts?
    requires forall k :: i < k < j ==> !events[k].PollStarts?
    ensures states[i].heard <= states[j].heard
    ensures |states[j].heard| + states[j].left <= |states[i].heard| + AUDIO_QUEUE - 1
    decreases j
  {
    hide Next, Enabled, Sound, Tracks;
    if j > i + 1 {
      PollIsBounded(t, l, preset, states, events, i, j - 1);
      AlwaysSound(t, l, preset, states, events, j - 1);
      RestsBetweenPolls(t, l, preset, states[j - 1]);
      HeardWithinPoll(t, states[j - 1], events[j - 1]);
    } else {
      PollBegins(t, states[i]);
    }
  }

  /** What was heard is in the order of capture, each chunk as it was captured, none twice. */
  lemma HeardInOrder(s: System)
    requires Sound(s)
    ensures Among(ChunksOf(s.heard), s.captured)
  {
    var popped, pushed := s.queue.popped, s.queue.pushed;
    assert popped <= pushed;
    forall i | 0 <= i < |popped| ensures popped[i] == pushed[i] {}
  }

  // ---------------------------------------------------------------- no window spans missing audio

  lemma {:induction false} StretchAmong(cs: seq<SoundChunk>, captured: seq<SoundChunk>)
    requires forall i :: 0 <= i < |cs| ==> cs[i].sequence < |captured| && captured[cs[i].sequence] == cs[i]
    ensures forall i :: 0 <= i < |Stretch(cs)| ==>
              Stretch(cs)[i].sequence < |captured| && captured[Stretch(cs)[i].sequence] == Stretch(cs)[i]
    decreases |cs|
  {
    if |cs| > 0 {
      StretchAmong(cs[..|cs| - 1], captured);
    }
  }

  lemma {:induction false} ChainNumbers(stretch: seq<SoundChunk>, i: nat)
    requires Chain(stretch) && i < |stretch|
    ensures stretch[i].sequence == stretch[0].sequence + i
    decreases i
  {
    if i > 0 {
      ChainNumbers(stretch, i - 1);
      assert Follows(stretch[i - 1], stretch[i]);
    }
  }

  /** An unbroken stretch is a slice of what was captured. */
  lemma StretchIsSlice(stretch: seq<SoundChunk>, captured: seq<SoundChunk>)
    requires Chain(stretch) && |stretch| > 0
    requires forall i :: 0 <= i < |stretch| ==>
               stretch[i].sequence < |captured| && captured[stretch[i].sequence] == stretch[i]
    ensures var first := stretch[0].sequence;
            first + |stretch| <= |captured| && captured[first..first + |stretch|] == stretch
  {
    forall i | 0 <= i < |stretch| ensures stretch[i].sequence == stretch[0].sequence + i {
      ChainNumbers(stretch, i);
    }
    assert stretch[|stretch| - 1].sequence < |captured|;
  }

  /** Where the newest three windows come from: `stretch` is a slice of the captured chunks, the windows judged since
      the last break are all windows of it, and the newest three measure the 3072 captured frames from `start` on,
      in one piece. */
  ghost predicate FromFrames(t: Tools, past: seq<Judged>, stretch: seq<SoundChunk>, captured: seq<SoundChunk>,
                             start: nat) {
    && Chain(stretch) && |stretch| > 0 && |past| >= ENOUGH && |past| == |AllFrames(stretch)| / WINDOW
    && var first := stretch[0].sequence;
       var lead := (|past| - ENOUGH) * WINDOW;
       && first + |stretch| <= |captured| && captured[first..first + |stretch|] == stretch
       && lead + ENOUGH * WINDOW <= |AllFrames(stretch)|
       && start == |AllFrames(captured[..first])| + lead
       && start + ENOUGH * WINDOW <= |AllFrames(captured)|
       && var before := Windows(t.sqrt, Begun(t, stretch[0]), AllFrames(stretch)[..lead]).0;
          before.sums.count == 0 &&
          Plain(past)[|past| - ENOUGH..] ==
          Emitted(Windows(t.sqrt, before, AllFrames(captured)[start..start + ENOUGH * WINDOW]).1)
  }

  lemma LongStretch(stretch: seq<SoundChunk>, past: seq<Judged>, p: nat)
    requires |past| == |AllFrames(stretch)| / WINDOW && Unanimous(past, ENOUGH, p)
    ensures |stretch| > 0 && |past| >= ENOUGH && |past| * WINDOW <= |AllFrames(stretch)|
  {
    assert |AllFrames(stretch)| / WINDOW >= ENOUGH;
  }

  lemma PartOfPart<T>(all: seq<T>, skipped: nat, part: seq<T>, lo: nat, hi: nat)
    requires skipped + |part| <= |all| && all[skipped..skipped + |part|] == part && lo <= hi <= |part|
    ensures all[skipped + lo..skipped + hi] == part[lo..hi]
  {
    var left, right := all[skipped + lo..skipped + hi], part[lo..hi];
    forall k | 0 <= k < |left| ensures left[k] == right[k] {
      assert part[lo + k] == all[skipped..skipped + |part|][lo + k];
    }
  }

  /** The newest three windows of a slice of chunks, in terms of all frames. */
  lemma NewestThree(t: Tools, past: seq<Judged>, stretch: seq<SoundChunk>, captured: seq<SoundChunk>, first: nat)
    requires Chain(stretch) && |stretch| > 0 && first == stretch[0].sequence
    requires first + |stretch| <= |captured| && captured[first..first + |stretch|] == stretch
    requires |past| >= ENOUGH && |past| == |AllFrames(stretch)| / WINDOW && |past| * WINDOW <= |AllFrames(stretch)|
    requires Plain(past) == Emitted(Windows(t.sqrt, Begun(t, stretch[0]), AllFrames(stretch)).1)
    ensures FromFrames(t, past, stretch, captured, |AllFrames(captured[..first])| + (|past| - ENOUGH) * WINDOW)
  {
    hide AllFrames, Windows, Emitted;
    var m, fs, skipped := |past|, AllFrames(stretch), |AllFrames(captured[..first])|;
    var lo, hi := (m - ENOUGH) * WINDOW, m * WINDOW;
    WindowsAreTheirFrames(t, Begun(t, stretch[0]), fs, m - ENOUGH, m);
    FramesOfSlice(captured, first, stretch);
    PartOfPart(AllFrames(captured), skipped, fs, lo, hi);
    assert Plain(past)[m - ENOUGH..] == Plain(past)[m - ENOUGH..m];
  }

  lemma SliceOf(t: Tools, past: seq<Judged>, cs: seq<SoundChunk>, captured: seq<SoundChunk>, p: nat)
    requires Among(cs, captured) && Unanimous(past, ENOUGH, p)
    requires |past| == |AllFrames(Stretch(cs))| / WINDOW && Plain(past) == WindowsOf(t, Stretch(cs))
    ensures exists start :: FromFrames(t, past, Stretch(cs), captured, start)
  {
    hide Stretch, AllFrames, Unanimous, FromFrames, Windows, Emitted;
    var stretch := Stretch(cs);
    LongStretch(stretch, past, p);
    StretchAmong(cs, captured);
    StretchIsSlice(stretch, captured);
    NewestThree(t, past, stretch, captured, stretch[0].sequence);
  }

  /** The event stores preset p. */
  ghost predicate Stores(t: Tools, s: System, e: Event, p: nat)
    requires Enabled(s, e)
  {
    e.Access? && e.access.PopPublishes? && Hear(t, s.listener, (s.queue.consumer.got, e.manual)).1 == Some(p)
  }

  /** Nothing else changes the preset. */
  lemma PresetChangesOnlyByStoring(t: Tools, s: System, e: Event)
    requires Enabled(s, e) && Next(t, s, e).preset != s.preset
    ensures Stores(t, s, e, Next(t, s, e).preset)
  {
    hide Hear, Ring.Apply;
  }

  lemma StoredLast(t: Tools, l: Listener, preset: nat, s: System, e: Event, p: nat)
    requires Tracks(t, l, preset, s) && Enabled(s, e) && Stores(t, s, e, p)
    ensures var n := Next(t, s, e);
            n.preset == p && |n.heard| > 0 && HearAll(t, l, n.heard).1[|n.heard| - 1] == Some(p)
  {
    hide Hear, Ring.Apply;
    var xs := s.heard + [(s.queue.consumer.got, e.manual)];
    HearNext(t, l, xs, |s.heard|);
    assert xs[..|s.heard|] == s.heard && xs[..|s.heard| + 1] == xs;
    hide HearAll;
  }

  /** End to end, in every interleaving: when an event stores preset p, the newest three windows measure exactly 3072
      consecutive captured frames, no chunk is missing inside them, and all three were heard without manual
      control, were not silent, and are of class p. */
  lemma EveryStoredPreset(t: Tools, l: Listener, preset: nat, states: seq<System>, events: seq<Event>, i: nat, p: nat)
    requires Behaviour(t, l, preset, states, events) && i < |events| && JustStarted(l)
    requires Stores(t, states[i], events[i], p)
    ensures states[i + 1].preset == p
    ensures var s := states[i + 1];
            && (exists start :: FromFrames(t, History(t, l, s.heard), Stretch(ChunksOf(s.heard)), s.captured, start))
            && Unanimous(History(t, l, s.heard), ENOUGH, p)
  {
    AlwaysSound(t, l, preset, states, events, i);
    AlwaysSound(t, l, preset, states, events, i + 1);
    var s := states[i + 1];
    StoredLast(t, l, preset, states[i], events[i], p);
    HeardInOrder(s);
    hide Sound, Tracks, Behaviour, Hear, HearAll, History, Absorb, WindowsOf, Unanimous, FromFrames, Among, Stretch,
         AllFrames;
    StoredExactlyIf(t, l, s.heard, p);
    SliceOf(t, History(t, l, s.heard), ChunksOf(s.heard), s.captured, p);
  }

  /** So in every interleaving, whenever the preset changes, that is what it rests on. */
  lemma EveryPresetChange(t: Tools, l: Listener, preset: nat, states: seq<System>, events: seq<Event>, i: nat)
    requires Behaviour(t, l, preset, states, events) && i < |events| && JustStarted(l)
    requires states[i + 1].preset != states[i].preset
    ensures var s := states[i + 1];
            && (exists start :: FromFrames(t, History(t, l, s.heard), Stretch(ChunksOf(s.heard)), s.captured, start))
            && Unanimous(History(t, l, s.heard), ENOUGH, s.preset)
  {
    hide Next, FromFrames, Unanimous, History, Stretch;
    PresetChangesOnlyByStoring(t, states[i], events[i]);
    EveryStoredPreset(t, l, preset, states, events, i, states[i + 1].preset);
  }

  // ---------------------------------------------------------------- gaps are dropped runs

  lemma SoundQueue(s: System)
    requires Sound(s)
    ensures s.queue.popped <= s.queue.pushed && ChunksOf(s.heard) == s.queue.popped
    ensures Numbered(s.captured) && Among(s.queue.pushed, s.captured)
  {
  }

  /** Between two chunks heard one after the other at least one was captured, and all of those were dropped: none of
      them ever entered the queue. */
  ghost predicate DroppedRun(s: System, k: nat)
    requires k + 1 < |s.heard|
  {
    var c, d := s.heard[k].0, s.heard[k + 1].0;
    && c.sequence + 1 < d.sequence < |s.captured|
    && forall m :: c.sequence < m < d.sequence ==> s.captured[m] !in s.queue.pushed
  }

  predicate NewFormat(c: SoundChunk, d: SoundChunk) {
    c.sampleRate != d.sampleRate || c.channels != d.channels
  }

  /** Chunks that were pushed one after the other have no pushed chunk between them. */
  lemma NonePushedBetween(pushed: seq<SoundChunk>, captured: seq<SoundChunk>, k: nat, m: nat)
    requires Numbered(captured) && Among(pushed, captured) && k + 1 < |pushed|
    requires pushed[k].sequence < m < pushed[k + 1].sequence
    ensures m < |captured| && captured[m] !in pushed
  {
    forall j | 0 <= j < |pushed| ensures pushed[j].sequence != m {
      if j < k {
        assert pushed[j].sequence < pushed[k].sequence;
      } else if j > k + 1 {
        assert pushed[k + 1].sequence < pushed[j].sequence;
      }
    }
    assert m < |captured| && captured[m].sequence == m;
  }

  lemma InOrder(pushed: seq<SoundChunk>, captured: seq<SoundChunk>, k: nat)
    requires Among(pushed, captured) && k + 1 < |pushed|
    ensures pushed[k].sequence < pushed[k + 1].sequence < |captured|
  {
  }

  /** Two chunks heard one after the other break the stream exactly if a run of chunks was dropped between them, or
      the format of the audio changed. */
  lemma BreakIsDroppedRun(s: System, k: nat)
    requires Sound(s) && k + 1 < |s.heard|
    ensures var c, d := s.heard[k].0, s.heard[k + 1].0;
            c.sequence < d.sequence && (!Follows(c, d) <==> DroppedRun(s, k) || NewFormat(c, d))
  {
    hide Sound, Numbered, Among;
    SoundQueue(s);
    var pushed := s.queue.pushed;
    var c, d := pushed[k], pushed[k + 1];
    assert ChunksOf(s.heard)[k] == c && ChunksOf(s.heard)[k + 1] == d;
    InOrder(pushed, s.captured, k);
    forall m | c.sequence < m < d.sequence ensures s.captured[m] !in pushed {
      NonePushedBetween(pushed, s.captured, k, m);
    }
  }

  lemma {:induction false} NoneIgnored(cs: seq<SoundChunk>)
    requires forall i :: 0 <= i < |cs| ==> Acceptable(cs[i])
    ensures Accepted(cs) == cs
    decreases |cs|
  {
    if |cs| > 0 {
      NoneIgnored(cs[..|cs| - 1]);
    }
  }

  /** The first n + 1 chunks heard: how many dropped runs and changes of format lie between them. */
  ghost function Interruptions(s: System, n: nat): nat
    requires n == 0 || n < |s.heard|
  {
    if n == 0 then 0
    else
      Interruptions(s, n - 1) +
      if DroppedRun(s, n - 1) || NewFormat(s.heard[n - 1].0, s.heard[n].0) then 1 else 0
  }

  lemma {:induction false} JumpsAreInterruptions(s: System, n: nat)
    requires Sound(s) && n < |s.heard|
    ensures Jumps(ChunksOf(s.heard)[..n + 1]) == Interruptions(s, n)
    decreases n
  {
    hide Sound, DroppedRun;
    var cs := ChunksOf(s.heard);
    OneMoreChunk(cs[..n], cs[n]);
    assert cs[..n] + [cs[n]] == cs[..n + 1];
    if n > 0 {
      JumpsAreInterruptions(s, n - 1);
      BreakIsDroppedRun(s, n - 1);
      assert cs[..n][n - 1] == s.heard[n - 1].0 && cs[n] == s.heard[n].0;
    }
  }

  lemma GapsAreJumps(t: Tools, l: Listener, cs: seq<SoundChunk>, past: seq<Judged>)
    requires Informed(t, l, cs, past) && Accepted(cs) == cs
    ensures l.stream.gaps == Jumps(cs)
  {
    hide Stretch, Accepted, WindowsOf, Jumps;
  }

  lemma PublishedGaps(t: Tools, l: Listener, preset: nat, s: System)
    requires Tracks(t, l, preset, s)
    ensures s.listener == HearAll(t, l, s.heard).0 && (s.left == 0 ==> s.gaps == s.listener.stream.gaps)
  {
  }

  lemma JumpsOfAll(s: System)
    requires Sound(s)
    ensures Jumps(ChunksOf(s.heard)) == if |s.heard| == 0 then 0 else Interruptions(s, |s.heard| - 1)
  {
    hide Sound, Interruptions;
    if |s.heard| > 0 {
      JumpsAreInterruptions(s, |s.heard| - 1);
      assert ChunksOf(s.heard)[..|s.heard|] == ChunksOf(s.heard);
    }
  }

  /** What the classifier publishes as gaps, in every interleaving: the number of dropped runs between chunks it has
      heard, and of changes of format, as long as every chunk it has heard passes the guard. */
  lemma GapsCountDroppedRuns(t: Tools, l: Listener, preset: nat, states: seq<System>, events: seq<Event>, i: nat)
    requires Behaviour(t, l, preset, states, events) && i < |states| && JustStarted(l)
    requires forall k :: 0 <= k < |states[i].heard| ==> Acceptable(states[i].heard[k].0)
    ensures var s := states[i];
            var runs := if |s.heard| == 0 then 0 else Interruptions(s, |s.heard| - 1);
            s.listener.stream.gaps == runs && (s.left == 0 ==> s.gaps == runs)
  {
    hide Behaviour, Sound, Tracks, JustStarted, HearAll, Informed, Interruptions, History, Jumps, Accepted;
    var s := states[i];
    AlwaysSound(t, l, preset, states, events, i);
    PublishedGaps(t, l, preset, s);
    AlwaysInformed(t, l, s.heard);
    NoneIgnored(ChunksOf(s.heard));
    GapsAreJumps(t, s.listener, ChunksOf(s.heard), History(t, l, s.heard));
    JumpsOfAll(s);
  }
}
