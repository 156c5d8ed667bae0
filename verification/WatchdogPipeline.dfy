/** The timing path from end to end: the audio callback records block timings while the watchdog polls, and all of
    it may interleave at every atomic access (src/audio/ComplexityController.h:22-25,
    src/audio/ComplexityController.cpp:57-78, src/audio/SPSCRingBuffer.h). */
module WatchdogPipelines {
  import opened Watchdogs
  import opened WatchdogTheorems
  import Ring = RingProtocol

  /** What the watchdog is about: nothing, taking the timings it has counted, judging them, or steering by them, with
      the drop counter as it was read. */
  datatype Phase = Asleep | Taking | Judging | Steering(read: nat)

  /** The queue; every timing the callback has set out to record, and for each finished record whether the queue
      refused it; whether the last refusal is not counted yet, and the drop counter. Then the watchdog: what it
      remembers and publishes, its phase, how many timings this poll has counted and which it has taken, and all
      polls so far. */
  datatype System = System(queue: Ring.State<Timing>, recorded: seq<Timing>, refused: seq<bool>, owing: bool,
                           drops: nat, watch: SoundWatch, phase: Phase, available: nat, batch: seq<Timing>,
                           polls: seq<PollInput>)

  /** An access to the queue; the callback counts a refusal; the watchdog reads the drop counter; or it reads the
      manual switch, where it finds `manual`, and stores the level. From that read to that store it touches nothing
      that another thread writes. A poll without usable timings reads neither, and does not depend on them here. */
  datatype Event = Access(access: Ring.Event<Timing>) | DropCounted | ReadsDrops | Steers(manual: bool)

  function Start(w: SoundWatch): System {
    System(Ring.Init(), [], [], false, w.seenDrops, w, Asleep, 0, [], [])
  }

  /** The callback finishes one record before the next. The watchdog counts first, and then takes no more than it
      has counted. */
  ghost predicate Enabled(s: System, e: Event) {
    match e
    case DropCounted => s.owing
    case ReadsDrops => s.phase.Judging?
    case Steers(_) => s.phase.Steering?
    case Access(access) =>
      && Ring.Enabled(s.queue, access)
      && (access.PushLoadsOwn? ==> !s.owing)
      && (access.CountLoadsOther? ==> s.phase.Asleep?)
      && (access.PopLoadsOwn? ==> s.phase.Taking?)
  }

  /** A pop that is refused ends the loop, and so does the last timing that was counted. */
  ghost function Next(t: SoundTuning, s: System, e: Event): System
    requires Enabled(s, e)
  {
    match e
    case DropCounted => s.(drops := s.drops + 1, owing := false)
    case ReadsDrops => s.(phase := Steering(s.drops))
    case Steers(manual) =>
      var p := PollInput(s.batch, s.phase.read, manual);
      s.(watch := PollOnce(t, s.watch, p), polls := s.polls + [p], phase := Asleep, batch := [])
    case Access(access) =>
      var q := Ring.Apply(TIMINGS, s.queue, access);
      match access
      case PushLoadsOwn(item) => s.(queue := q, recorded := s.recorded + [item])
      case PushLoadsOther(_) =>
        if q.producer.Idle? then s.(queue := q, owing := true, refused := s.refused + [true]) else s.(queue := q)
      case PushPublishes => s.(queue := q, refused := s.refused + [false])
      case CountLoadsOwn =>
        s.(queue := q, available := q.promised, phase := if q.promised == 0 then Judging else Taking)
      case PopLoadsOther(_) => s.(queue := q, phase := if q.consumer.Resting? then Judging else s.phase)
      case PopPublishes =>
        s.(queue := q, batch := s.batch + [s.queue.consumer.got],
           phase := if |s.batch| + 1 < s.available then Taking else Judging)
      case _ => s.(queue := q)
  }

  /** A run of both threads from a started watchdog and an empty queue. */
  ghost predicate Behaviour(t: SoundTuning, w: SoundWatch, states: seq<System>, events: seq<Event>) {
    && |states| == |events| + 1 && states[0] == Start(w)
    && forall i :: 0 <= i < |events| ==> Enabled(states[i], events[i]) && states[i + 1] == Next(t, states[i], events[i])
  }

  /** The timings that the queue did not refuse. */
  function Kept(recorded: seq<Timing>, refused: seq<bool>): seq<Timing>
    requires |refused| <= |recorded|
    decreases |refused|
  {
    if |refused| == 0 then []
    else
      var n := |refused| - 1;
      Kept(recorded, refused[..n]) + if refused[n] then [] else [recorded[n]]
  }

  function Refusals(refused: seq<bool>): nat {
    if |refused| == 0 then 0
    else Refusals(refused[..|refused| - 1]) + if refused[|refused| - 1] then 1 else 0
  }

  function Batches(polls: seq<PollInput>): seq<Timing> {
    if |polls| == 0 then [] else Batches(polls[..|polls| - 1]) + polls[|polls| - 1].batch
  }

  // ---------------------------------------------------------------- the invariant

  /** The callback's side: what the queue accepted is what was recorded without the refusals, and the refusals are
      counted, all but at most one. */
  ghost predicate Accounted(w: SoundWatch, s: System) {
    && |s.recorded| == |s.refused| + (if s.queue.producer.Idle? then 0 else 1)
    && s.queue.pushed == Kept(s.recorded, s.refused)
    && (!s.queue.producer.Idle? ==> s.queue.producer.item == s.recorded[|s.refused|])
    && w.seenDrops + Refusals(s.refused) == s.drops + (if s.owing then 1 else 0)
    && (s.owing ==> s.queue.producer.Idle?)
  }

  /** The watchdog's side: what it has popped is what its polls have seen, and what it still has to take is what
      its count promised. */
  ghost predicate Taken(s: System) {
    && Batches(s.polls) + s.batch == s.queue.popped
    && s.available < TIMINGS
    && (s.phase.Asleep? ==> s.batch == [] && (s.queue.consumer.Resting? || s.queue.consumer.Counting?))
    && (s.phase.Taking? ==>
          && |s.batch| + s.queue.promised == s.available && s.queue.promised > 0
          && !s.queue.consumer.Counting?)
    && (s.phase.Judging? || s.phase.Steering? ==> |s.batch| == s.available && s.queue.consumer.Resting?)
  }

  /** The watchdog's variables are what its polls have made of them. */
  ghost predicate Watched(t: SoundTuning, w: SoundWatch, s: System) {
    s.watch == After(t, w, s.polls, |s.polls|)
  }

  ghost predicate Sound(t: SoundTuning, w: SoundWatch, s: System) {
    Ring.Inv(s.queue, TIMINGS) && Accounted(w, s) && Taken(s) && Watched(t, w, s)
  }

  lemma KeptNext(recorded: seq<Timing>, refused: seq<bool>, no: bool)
    requires |refused| < |recorded|
    ensures Kept(recorded, refused + [no]) == Kept(recorded, refused) + if no then [] else [recorded[|refused|]]
    ensures Refusals(refused + [no]) == Refusals(refused) + if no then 1 else 0
  {
    assert (refused + [no])[..|refused|] == refused;
  }

  lemma {:induction false} KeptMore(recorded: seq<Timing>, more: Timing, refused: seq<bool>)
    requires |refused| <= |recorded|
    ensures Kept(recorded + [more], refused) == Kept(recorded, refused)
    decreases |refused|
  {
    if |refused| > 0 {
      KeptMore(recorded, more, refused[..|refused| - 1]);
    }
  }

  lemma AccountedStep(t: SoundTuning, w: SoundWatch, s: System, e: Event)
    requires Accounted(w, s) && Enabled(s, e)
    ensures Accounted(w, Next(t, s, e))
  {
    hide PollOnce, Kept, Refusals;
    if e.Access? {
      match e.access
      case PushLoadsOwn(item) => KeptMore(s.recorded, item, s.refused);
      case PushLoadsOther(_) => KeptNext(s.recorded, s.refused, true);
      case PushPublishes => KeptNext(s.recorded, s.refused, false);
      case _ =>
    }
  }

  lemma TakenPop(t: SoundTuning, s: System, e: Event)
    requires Taken(s) && Enabled(s, e) && e.Access?
    requires e.access.PopLoadsOwn? || e.access.PopLoadsOther? || e.access.PopPublishes?
    requires e.access.PopLoadsOther? && s.queue.promised > 0 ==> Next(t, s, e).queue.consumer.MayRead?
    ensures Taken(Next(t, s, e))
  {
    hide PollOnce, Batches;
  }

  lemma TakenOther(t: SoundTuning, s: System, e: Event)
    requires Taken(s) && Enabled(s, e) && e.Access?
    requires !e.access.PopLoadsOwn? && !e.access.PopLoadsOther? && !e.access.PopPublishes?
    requires e.access.CountLoadsOwn? ==> Next(t, s, e).queue.promised < TIMINGS
    ensures Taken(Next(t, s, e))
  {
    hide PollOnce, Batches;
  }

  /** What the watchdog needs to know of the queue: a count fits, and no pop within the count is refused. */
  lemma QueueFacts(s: System, access: Ring.Event<Timing>)
    requires Ring.Inv(s.queue, TIMINGS) && Ring.Enabled(s.queue, access)
    ensures var q := Ring.Apply(TIMINGS, s.queue, access);
            && (access.CountLoadsOwn? ==> q.promised < TIMINGS)
            && (access.PopLoadsOther? && s.queue.promised > 0 ==> q.consumer.MayRead?)
  {
    if access.CountLoadsOwn? {
      Ring.CountStep(s.queue, TIMINGS, access);
    } else if access.PopLoadsOther? {
      Ring.ItemMeans(s.queue, TIMINGS, access.entry);
    }
  }

  lemma BatchesNext(polls: seq<PollInput>, p: PollInput)
    ensures Batches(polls + [p]) + [] == Batches(polls) + p.batch
  {
    assert (polls + [p])[..|polls|] == polls;
  }

  lemma TakenStep(t: SoundTuning, s: System, e: Event)
    requires Ring.Inv(s.queue, TIMINGS) && Taken(s) && Enabled(s, e)
    ensures Taken(Next(t, s, e))
  {
    hide Ring.Inv, PollOnce, Batches;
    if e.Access? {
      QueueFacts(s, e.access);
      if e.access.PopLoadsOwn? || e.access.PopLoadsOther? || e.access.PopPublishes? {
        TakenPop(t, s, e);
      } else {
        TakenOther(t, s, e);
      }
    } else if e.Steers? {
      BatchesNext(s.polls, PollInput(s.batch, s.phase.read, e.manual));
    }
  }

  lemma {:induction false} SamePolls(t: SoundTuning, w: SoundWatch, some: seq<PollInput>, all: seq<PollInput>, n: nat)
    requires some <= all && n <= |some|
    ensures After(t, w, all, n) == After(t, w, some, n)
    decreases n
  {
    hide PollOnce;
    if n > 0 {
      SamePolls(t, w, some, all, n - 1);
    }
  }

  lemma WatchedStep(t: SoundTuning, w: SoundWatch, s: System, e: Event)
    requires Watched(t, w, s) && Enabled(s, e)
    ensures Watched(t, w, Next(t, s, e))
  {
    hide PollOnce, After;
    if e.Steers? {
      var polls := s.polls + [PollInput(s.batch, s.phase.read, e.manual)];
      AfterNext(t, w, polls, |s.polls|);
      SamePolls(t, w, s.polls, polls, |s.polls|);
    }
  }

  lemma QueueStep(t: SoundTuning, s: System, e: Event)
    requires Ring.Inv(s.queue, TIMINGS) && Enabled(s, e)
    ensures Ring.Inv(Next(t, s, e).queue, TIMINGS)
  {
    hide Ring.Enabled, Ring.Apply, Ring.Inv, PollOnce;
    if e.Access? {
      Ring.Step(s.queue, TIMINGS, e.access);
    }
  }

  lemma StartSound(t: SoundTuning, w: SoundWatch)
    ensures Sound(t, w, Start(w))
  {
  }

  /** Every state of every interleaving is sound. */
  lemma {:induction false} AlwaysSound(t: SoundTuning, w: SoundWatch, states: seq<System>, events: seq<Event>, i: nat)
    requires Behaviour(t, w, states, events) && i < |states|
    ensures Sound(t, w, states[i])
    decreases i
  {
    hide Next, Enabled, Ring.Inv, Accounted, Taken, Watched;
    if i > 0 {
      AlwaysSound(t, w, states, events, i - 1);
      QueueStep(t, states[i - 1], events[i - 1]);
      AccountedStep(t, w, states[i - 1], events[i - 1]);
      TakenStep(t, states[i - 1], events[i - 1]);
      WatchedStep(t, w, states[i - 1], events[i - 1]);
    } else {
      StartSound(t, w);
    }
  }

  // ---------------------------------------------------------------- what it means

  lemma {:induction false} KeptCount(recorded: seq<Timing>, refused: seq<bool>)
    requires |refused| <= |recorded|
    ensures |Kept(recorded, refused)| + Refusals(refused) == |refused|
    decreases |refused|
  {
    if |refused| > 0 {
      KeptCount(recorded, refused[..|refused| - 1]);
    }
  }

  /** Every timing that was recorded is in exactly one poll or in the current batch, waits in the queue, was
      refused and counted as dropped, or is just being offered or counted; and the polls have seen what the queue
      accepted, in order. */
  lemma EveryTimingCounts(t: SoundTuning, w: SoundWatch, states: seq<System>, events: seq<Event>, i: nat)
    requires Behaviour(t, w, states, events) && i < |states|
    ensures var s := states[i];
            var seen := Batches(s.polls) + s.batch;
            var waiting := |s.queue.pushed| - |seen|;
            && |s.refused| <= |s.recorded| && seen <= Kept(s.recorded, s.refused) && 0 <= waiting <= TIMINGS - 1
            && |s.recorded| == |seen| + waiting + (s.drops - w.seenDrops) +
                 (if s.owing then 1 else 0) + (if s.queue.producer.Idle? then 0 else 1)
  {
    AlwaysSound(t, w, states, events, i);
    var s := states[i];
    KeptCount(s.recorded, s.refused);
    hide Kept, Refusals, Batches, Watched;
  }

  lemma SoundMeans(t: SoundTuning, w: SoundWatch, s: System)
    requires Sound(t, w, s)
    ensures Taken(s) && Batches(s.polls) + s.batch == s.queue.popped <= s.queue.pushed
    ensures !s.phase.Asleep? ==> |s.batch| <= s.available
    ensures s.phase.Judging? || s.phase.Steering? ==> |s.batch| == s.available
  {
    hide Watched, Accounted, Batches;
  }

  /** A pop within the count succeeds. */
  lemma PopSucceeds(t: SoundTuning, w: SoundWatch, s: System, e: Event)
    requires Sound(t, w, s) && Enabled(s, e) && !s.phase.Asleep? && e.Access? && e.access.PopLoadsOther?
    ensures Next(t, s, e).queue.consumer.MayRead?
  {
    QueueFacts(s, e.access);
    hide Ring.Inv, Watched, Accounted, Batches, PollOnce;
  }

  /** From its count to its judgement, a poll counts no more and starts no other poll. */
  lemma PollGoesOn(t: SoundTuning, s: System, e: Event)
    requires Taken(s) && Enabled(s, e) && !e.Steers? && !s.phase.Asleep?
    ensures var n := Next(t, s, e);
            !n.phase.Asleep? && n.polls == s.polls && n.available == s.available && s.queue.pushed <= n.queue.pushed
  {
    hide PollOnce, Batches;
  }

  /** A count is the number of timings that wait, as far as the watchdog can see. */
  lemma CountBegins(t: SoundTuning, w: SoundWatch, s: System)
    requires Sound(t, w, s) && Enabled(s, Access(Ring.CountLoadsOwn))
    ensures var n := Next(t, s, Access(Ring.CountLoadsOwn));
            && !n.phase.Asleep? && n.polls == s.polls && s.batch == [] && n.queue.pushed == s.queue.pushed
            && |s.queue.popped| + n.available <= |s.queue.pushed| && n.available < TIMINGS
            && Batches(s.polls) == s.queue.popped
  {
    Ring.CountStep(s.queue, TIMINGS, Ring.CountLoadsOwn);
    hide PollOnce, Batches, Watched, Accounted;
  }

  lemma {:induction false} SinceCount(t: SoundTuning, w: SoundWatch, states: seq<System>, events: seq<Event>, i: nat,
                                      j: nat)
    requires Behaviour(t, w, states, events) && i < j < |states|
    requires events[i] == Access(Ring.CountLoadsOwn) && forall k :: i < k < j ==> !events[k].Steers?
    ensures var s := states[j];
            && !s.phase.Asleep? && s.polls == states[i].polls && s.available == states[i + 1].available
            && states[i].queue.pushed <= s.queue.pushed
    decreases j
  {
    hide Next, Enabled, Sound, Taken;
    AlwaysSound(t, w, states, events, i);
    CountBegins(t, w, states[i]);
    if j > i + 1 {
      SinceCount(t, w, states, events, i, j - 1);
      AlwaysSound(t, w, states, events, j - 1);
      SoundMeans(t, w, states[j - 1]);
      PollGoesOn(t, states[j - 1], events[j - 1]);
    }
  }

  lemma JudgesWhen(s: System, e: Event)
    requires Enabled(s, e)
    ensures e.Steers? ==> s.phase.Steering?
  {
  }

  lemma PartOfQueue<T>(before: seq<T>, after: seq<T>, popped: seq<T>, batch: seq<T>, n: nat)
    requires before <= after && popped + batch <= after && |popped| + n <= |before| && |batch| <= n
    ensures batch <= before[|popped|..|popped| + n]
  {
    forall k | 0 <= k < |batch| ensures batch[k] == before[|popped|..|popped| + n][k] {
      assert (popped + batch)[|popped| + k] == after[|popped| + k];
    }
  }

  /** However fast the callback goes on, no pop of a poll is refused, so a poll ends by its count alone: when it
      judges, its batch is exactly the timings it has counted, the oldest of those that waited at that time, and
      they fit its arrays. */
  lemma PollTakesWhatItCounted(t: SoundTuning, w: SoundWatch, states: seq<System>, events: seq<Event>, i: nat, j: nat)
    requires Behaviour(t, w, states, events) && i < j < |events|
    requires events[i] == Access(Ring.CountLoadsOwn) && forall k :: i < k < j ==> !events[k].Steers?
    ensures var from, n := |states[i].queue.popped|, states[i + 1].available;
            && from + n <= |states[i].queue.pushed| && n < TIMINGS
            && states[j].batch <= states[i].queue.pushed[from..from + n]
            && (events[j].Steers? ==> states[j].batch == states[i].queue.pushed[from..from + n])
            && (events[j].Access? && events[j].access.PopLoadsOther? ==> states[j + 1].queue.consumer.MayRead?)
  {
    hide Next, Sound, Taken, Batches, Enabled;
    AlwaysSound(t, w, states, events, i);
    AlwaysSound(t, w, states, events, j);
    SinceCount(t, w, states, events, i, j);
    CountBegins(t, w, states[i]);
    SoundMeans(t, w, states[j]);
    if events[j].Access? && events[j].access.PopLoadsOther? {
      PopSucceeds(t, w, states[j], events[j]);
    }
    JudgesWhen(states[j], events[j]);
    PartOfQueue(states[i].queue.pushed, states[j].queue.pushed, states[i].queue.popped, states[j].batch,
                states[i + 1].available);
  }

  // ---------------------------------------------------------------- raising the level

  /** The drop counter never falls: no poll has read less than an earlier one, or more than the counter shows. */
  ghost predicate DropsRead(s: System) {
    && (forall k :: 0 <= k < |s.polls| ==> s.polls[k].drops <= s.drops)
    && (s.phase.Steering? ==>
          s.phase.read <= s.drops && forall k :: 0 <= k < |s.polls| ==> s.polls[k].drops <= s.phase.read)
    && (forall j, k :: 0 <= j <= k < |s.polls| ==> s.polls[j].drops <= s.polls[k].drops)
  }

  lemma DropsStep(t: SoundTuning, s: System, e: Event)
    requires DropsRead(s) && Enabled(s, e)
    ensures DropsRead(Next(t, s, e))
  {
    hide PollOnce;
  }

  lemma {:induction false} DropsGrow(t: SoundTuning, w: SoundWatch, states: seq<System>, events: seq<Event>, i: nat)
    requires Behaviour(t, w, states, events) && i < |states|
    ensures DropsRead(states[i])
    decreases i
  {
    hide Next, Enabled;
    if i > 0 {
      hide DropsRead;
      DropsGrow(t, w, states, events, i - 1);
      DropsStep(t, states[i - 1], events[i - 1]);
    }
  }

  lemma SpareReads(t: SoundTuning, w: SoundWatch, p: PollInput)
    requires Spare(t, p)
    ensures PollOnce(t, w, p).seenDrops == p.drops
  {
    PollCases(t, w, p);
    hide PollOnce;
  }

  /** In a streak of polls with time to spare, all polls have read the same drop counter. */
  lemma {:induction false} StreakReadsOneCount(t: SoundTuning, w: SoundWatch, polls: seq<PollInput>, n: nat, k: nat,
                                               i: nat)
    requires Streak(t, w, polls, n, k) && n - k <= i < n
    ensures polls[i].drops == polls[n - 1].drops
    decreases n - i
  {
    hide PollOnce, Spare;
    if i + 1 < n {
      StreakReadsOneCount(t, w, polls, n, k, i + 1);
      AfterNext(t, w, polls, i);
      SpareReads(t, After(t, w, polls, i), polls[i]);
    }
  }

  /** The newest ten polls had time to spare, and all of them have read the same drop counter; what was dropped since
      the newest read may have been counted already. */
  ghost predicate TenSparePolls(t: SoundTuning, s: System) {
    && |s.polls| >= RECOVERIES && s.polls[|s.polls| - 1].drops <= s.drops
    && forall k :: |s.polls| - RECOVERIES <= k < |s.polls| ==>
         Spare(t, s.polls[k]) && s.polls[k].drops == s.polls[|s.polls| - 1].drops
  }

  /** Nothing but a judgement changes what the watchdog remembers. */
  lemma OnlySteering(t: SoundTuning, w: SoundWatch, s: System, e: Event)
    requires Sound(t, w, s) && Enabled(s, e) && Next(t, s, e).watch != s.watch && Sound(t, w, Next(t, s, e))
    ensures e.Steers?
    ensures var polls := Next(t, s, e).polls;
            && |polls| == |s.polls| + 1 && s.watch == After(t, w, polls, |s.polls|)
            && Next(t, s, e).watch == After(t, w, polls, |polls|)
  {
    hide PollOnce, After, Accounted, Taken, Ring.Inv;
    if e.Steers? {
      SamePolls(t, w, s.polls, Next(t, s, e).polls, |s.polls|);
    }
  }

  /** In every interleaving, a poll that raises the level raises it by one to four, and its last ten polls were
      under no manual control, took timings and measured time to spare, and no drop was counted from the moment the
      first of the ten read the counter to the moment the last one did. */
  lemma RaiseInAnyInterleaving(t: SoundTuning, w: SoundWatch, states: seq<System>, events: seq<Event>, i: nat)
    requires Behaviour(t, w, states, events) && i < |events| && w.control.recovery == 0
    requires states[i + 1].watch.level > states[i].watch.level
    ensures events[i].Steers? && states[i + 1].watch.level <= states[i].watch.level + 4
    ensures TenSparePolls(t, states[i + 1])
  {
    hide Sound, PollOnce, After, Spare;
    AlwaysSound(t, w, states, events, i);
    AlwaysSound(t, w, states, events, i + 1);
    var polls, n := states[i + 1].polls, |states[i].polls|;
    OnlySteering(t, w, states[i], events[i]);
    DropsGrow(t, w, states, events, i + 1);
    RaiseNeedsTenSparePolls(t, w, polls, n);
    forall k | n + 1 - RECOVERIES <= k < n + 1 ensures Spare(t, polls[k]) && polls[k].drops == polls[n].drops {
      StreakReadsOneCount(t, w, polls, n + 1, RECOVERIES, k);
    }
  }
}
