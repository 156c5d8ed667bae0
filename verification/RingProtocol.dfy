/** The queue under two threads (src/audio/SPSCRingBuffer.h:19-40).

    One producer runs `try_push`, one consumer runs `try_pop` and `available`, and every load, store and slot
    access is a step of its own, in any interleaving. Memory is weak: a store to an index is appended to the
    list of everything that index has ever held, and a load by the other thread may return any entry that is
    not older than the last one that thread has seen. The slots are not atomic: a read may return whatever
    some write left there, as long as no later write to that slot happens before the read. */
module RingProtocol {
  import opened Interleaving
  import opened RingBuffers

  /** A store to an index: its value, and how many slot accesses its thread had finished by then. An acquiring
      load that returns this entry makes that many accesses happen before it. */
  datatype Store = Store(value: nat, accesses: nat)

  datatype Producer<T> =
    | Idle
    | HasIndex(item: T, w: nat)
    | HasRoom(item: T, w: nat)
    | Writing(item: T, w: nat)
    | Written(item: T, w: nat)

  datatype Consumer<T> =
    | Resting
    | AtIndex(r: nat)
    | MayRead(r: nat)
    | Reading(r: nat)
    | HasItem(r: nat, got: T)
    | Counting(w: nat)

  datatype State<T> = State(
    writeIdx: seq<Store>,       // all stores to the write index, oldest first
    readIdx: seq<Store>,        // all stores to the read index, oldest first
    seenRead: nat,              // newest entry of readIdx that the producer has seen
    seenWrite: nat,             // newest entry of writeIdx that the consumer has seen
    writes: seq<(nat, T)>,      // finished slot writes: slot and item
    takes: seq<nat>,            // finished slot takes
    producer: Producer<T>,
    consumer: Consumer<T>,
    promised: nat,              // items that the last count promised and that were not popped since
    pushed: seq<T>,             // items whose push succeeded
    popped: seq<T>)             // items whose pop succeeded

  function Init<T>(): State<T> {
    State([Store(0, 0)], [Store(0, 0)], 0, 0, [], [], Idle, Resting, 0, [], [])
  }

  /** The step that happens next; a number says which entry a load returns, or which write a read returns. */
  datatype Event<T> =
    | PushLoadsOwn(item: T)
    | PushLoadsOther(entry: nat)
    | PushStarts
    | PushEnds
    | PushPublishes
    | PopLoadsOwn
    | PopLoadsOther(entry: nat)
    | PopStarts
    | PopEnds(write: nat)
    | PopPublishes
    | CountLoadsOther(entry: nat)
    | CountLoadsOwn

  /** What a load of the other thread's index may return. */
  predicate Loadable(index: seq<Store>, seen: nat, entry: nat) {
    seen <= entry < |index|
  }

  /** Write number k is one whose item a read of slot r may return, if the first `ordered` writes happen before
      it: no later one of those went to the same slot. */
  ghost predicate Readable<T>(writes: seq<(nat, T)>, r: nat, ordered: nat, k: nat) {
    && k < |writes| && writes[k].0 == r
    && forall j :: k < j < |writes| && j < ordered ==> writes[j].0 != r
  }

  ghost predicate Enabled<T>(s: State<T>, e: Event<T>) {
    match e
    case PushLoadsOwn(_) => s.producer.Idle? && |s.writeIdx| > 0
    case PushLoadsOther(entry) => s.producer.HasIndex? && Loadable(s.readIdx, s.seenRead, entry)
    case PushStarts => s.producer.HasRoom?
    case PushEnds => s.producer.Writing?
    case PushPublishes => s.producer.Written?
    case PopLoadsOwn => s.consumer.Resting? && |s.readIdx| > 0
    case PopLoadsOther(entry) => s.consumer.AtIndex? && Loadable(s.writeIdx, s.seenWrite, entry)
    case PopStarts => s.consumer.MayRead?
    case PopEnds(write) =>
      && s.consumer.Reading? && s.seenWrite < |s.writeIdx|
      && Readable(s.writes, s.consumer.r, s.writeIdx[s.seenWrite].accesses, write)
    case PopPublishes => s.consumer.HasItem?
    case CountLoadsOther(entry) => s.consumer.Resting? && Loadable(s.writeIdx, s.seenWrite, entry)
    case CountLoadsOwn => s.consumer.Counting? && |s.readIdx| > 0
  }

  ghost function Apply<T>(capacity: nat, s: State<T>, e: Event<T>): State<T>
    requires capacity > 0 && Enabled(s, e)
  {
    match e
    case PushLoadsOwn(item) => s.(producer := HasIndex(item, s.writeIdx[|s.writeIdx| - 1].value))
    case PushLoadsOther(entry) =>
      if (s.producer.w + 1) % capacity == s.readIdx[entry].value
      then s.(seenRead := entry, producer := Idle)
      else s.(seenRead := entry, producer := HasRoom(s.producer.item, s.producer.w))
    case PushStarts => s.(producer := Writing(s.producer.item, s.producer.w))
    case PushEnds => s.(writes := s.writes + [(s.producer.w, s.producer.item)],
                        producer := Written(s.producer.item, s.producer.w))
    case PushPublishes =>
      s.(writeIdx := s.writeIdx + [Store((s.producer.w + 1) % capacity, |s.writes|)],
         pushed := s.pushed + [s.producer.item],
         producer := Idle)
    case PopLoadsOwn => s.(consumer := AtIndex(s.readIdx[|s.readIdx| - 1].value))
    case PopLoadsOther(entry) =>
      if s.consumer.r == s.writeIdx[entry].value
      then s.(seenWrite := entry, consumer := Resting)
      else s.(seenWrite := entry, consumer := MayRead(s.consumer.r))
    case PopStarts => s.(consumer := Reading(s.consumer.r))
    case PopEnds(write) => s.(takes := s.takes + [s.consumer.r], consumer := HasItem(s.consumer.r, s.writes[write].1))
    case PopPublishes =>
      s.(readIdx := s.readIdx + [Store((s.consumer.r + 1) % capacity, |s.takes|)],
         popped := s.popped + [s.consumer.got],
         promised := if s.promised == 0 then 0 else s.promised - 1,
         consumer := Resting)
    case CountLoadsOther(entry) => s.(seenWrite := entry, consumer := Counting(s.writeIdx[entry].value))
    case CountLoadsOwn =>
      s.(promised := (s.consumer.w - s.readIdx[|s.readIdx| - 1].value) % capacity, consumer := Resting)
  }

  /** A run from the empty queue: any events, each enabled when it happens. */
  ghost predicate Behaviour<T(!new)>(capacity: nat, states: seq<State<T>>, events: seq<Event<T>>)
    requires capacity > 0
  {
    && |states| == |events| + 1 && states[0] == Init()
    && forall i :: 0 <= i < |events| ==>
         Enabled(states[i], events[i]) && states[i + 1] == Apply(capacity, states[i], events[i])
  }

  // ---------------------------------------------------------------- the invariant

  /** An index counts turns: its n-th store holds n, reduced, and comes after n accesses. */
  predicate Counts(index: seq<Store>, capacity: nat)
    requires capacity > 0
  {
    |index| > 0 && forall i :: 0 <= i < |index| ==> index[i] == Store(i % capacity, i)
  }

  /** Slot accesses go round. */
  ghost predicate WritesInTurn<T>(writes: seq<(nat, T)>, pushed: seq<T>, capacity: nat)
    requires capacity > 0
  {
    && |pushed| <= |writes|
    && (forall k :: 0 <= k < |writes| ==> writes[k].0 == k % capacity)
    && (forall k :: 0 <= k < |pushed| ==> writes[k].1 == pushed[k])
  }

  predicate TakesInTurn(takes: seq<nat>, capacity: nat)
    requires capacity > 0
  {
    forall k :: 0 <= k < |takes| ==> takes[k] == k % capacity
  }

  ghost predicate ProducerOk<T>(s: State<T>, capacity: nat)
    requires capacity > 0
  {
    var w := |s.pushed|;
    && (s.producer.Idle? || s.producer.w == w % capacity)
    && (s.producer.HasRoom? || s.producer.Writing? || s.producer.Written? ==> w + 1 < s.seenRead + capacity)
    && |s.writes| == (if s.producer.Written? then w + 1 else w)
    && (s.producer.Written? ==> s.writes[w].1 == s.producer.item)
  }

  ghost predicate ConsumerOk<T>(s: State<T>, capacity: nat)
    requires capacity > 0
  {
    var r := |s.popped|;
    && (s.consumer.Resting? || s.consumer.Counting? || s.consumer.r == r % capacity)
    && (s.consumer.MayRead? || s.consumer.Reading? || s.consumer.HasItem? ==> r < s.seenWrite)
    && |s.takes| == (if s.consumer.HasItem? then r + 1 else r)
    && (s.consumer.HasItem? && r < |s.pushed| ==> s.consumer.got == s.pushed[r])
    && (s.consumer.Counting? ==> s.seenWrite < |s.writeIdx| && s.consumer.w == s.writeIdx[s.seenWrite].value)
    && r + s.promised <= s.seenWrite
  }

  ghost predicate Inv<T>(s: State<T>, capacity: nat)
    requires capacity > 0
  {
    && Counts(s.writeIdx, capacity) && |s.writeIdx| == |s.pushed| + 1
    && Counts(s.readIdx, capacity) && |s.readIdx| == |s.popped| + 1
    && s.seenRead <= |s.popped| <= s.seenWrite <= |s.pushed| < s.seenRead + capacity
    && s.popped <= s.pushed
    && WritesInTurn(s.writes, s.pushed, capacity) && TakesInTurn(s.takes, capacity)
    && ProducerOk(s, capacity) && ConsumerOk(s, capacity)
  }

  /** The consumer's view leaves one write that a read may return: that of the item due. */
  lemma OnlyTheDueItem<T>(s: State<T>, capacity: nat, k: nat)
    requires capacity >= 2 && Inv(s, capacity) && s.consumer.Reading?
    requires Readable(s.writes, s.consumer.r, s.writeIdx[s.seenWrite].accesses, k)
    ensures k == |s.popped| && s.writes[k].1 == s.pushed[|s.popped|]
  {
    var r := |s.popped|;
    assert r < s.writeIdx[s.seenWrite].accesses && s.writes[r].0 == s.consumer.r;
    if k >= r {
      SlotUnique(k, r, capacity);
    }
  }

  /** If the next write slot is not the seen read slot, there is room. */
  lemma RoomMeans<T>(s: State<T>, capacity: nat, entry: nat)
    requires capacity >= 2 && Inv(s, capacity) && s.producer.HasIndex? && Loadable(s.readIdx, s.seenRead, entry)
    ensures (s.producer.w + 1) % capacity == s.readIdx[entry].value <==> |s.pushed| + 1 == entry + capacity
  {
    var w := |s.pushed|;
    NextSlot(w, capacity);
    if (w + 1) % capacity == entry % capacity {
      if w + 1 < entry + capacity {
        SlotUnique(w + 1, entry, capacity);
      }
    }
    TurnAway(entry, capacity);
  }

  lemma PushStep<T>(s: State<T>, capacity: nat, e: Event<T>)
    requires capacity >= 2 && Inv(s, capacity) && Enabled(s, e)
    requires e.PushLoadsOwn? || e.PushLoadsOther? || e.PushStarts? || e.PushEnds?
    ensures Inv(Apply(capacity, s, e), capacity)
  {
    NextSlot(|s.pushed|, capacity);
    if e.PushLoadsOther? {
      RoomMeans(s, capacity, e.entry);
    }
  }

  lemma OneMoreStore(index: seq<Store>, capacity: nat)
    requires capacity > 0 && Counts(index, capacity)
    ensures Counts(index + [Store(|index| % capacity, |index|)], capacity)
  {
  }

  lemma OneMorePushed<T>(writes: seq<(nat, T)>, pushed: seq<T>, item: T, capacity: nat)
    requires capacity > 0 && WritesInTurn(writes, pushed, capacity)
    requires |pushed| < |writes| && writes[|pushed|].1 == item
    ensures WritesInTurn(writes, pushed + [item], capacity)
  {
  }

  lemma PublishStep<T>(s: State<T>, capacity: nat)
    requires capacity >= 2 && Inv(s, capacity) && s.producer.Written?
    ensures Inv(Apply(capacity, s, PushPublishes), capacity)
  {
    NextSlot(|s.pushed|, capacity);
    OneMoreStore(s.writeIdx, capacity);
    OneMorePushed(s.writes, s.pushed, s.producer.item, capacity);
    hide Counts, WritesInTurn, TakesInTurn;
  }

  /** If the seen write slot is not the next read slot, there is an item. */
  lemma ItemMeans<T>(s: State<T>, capacity: nat, entry: nat)
    requires capacity >= 2 && Inv(s, capacity) && s.consumer.AtIndex? && Loadable(s.writeIdx, s.seenWrite, entry)
    ensures s.consumer.r == s.writeIdx[entry].value <==> entry == |s.popped|
  {
    if |s.popped| % capacity == entry % capacity {
      SlotUnique(entry, |s.popped|, capacity);
    }
  }

  lemma PopStep<T>(s: State<T>, capacity: nat, e: Event<T>)
    requires capacity >= 2 && Inv(s, capacity) && Enabled(s, e)
    requires e.PopLoadsOwn? || e.PopLoadsOther? || e.PopStarts? || e.PopEnds?
    ensures Inv(Apply(capacity, s, e), capacity)
  {
    if e.PopEnds? {
      OnlyTheDueItem(s, capacity, e.write);
    } else if e.PopLoadsOther? {
      ItemMeans(s, capacity, e.entry);
    }
  }

  lemma RetireStep<T>(s: State<T>, capacity: nat)
    requires capacity >= 2 && Inv(s, capacity) && s.consumer.HasItem?
    ensures Inv(Apply(capacity, s, PopPublishes), capacity)
  {
    NextSlot(|s.popped|, capacity);
    OneMoreStore(s.readIdx, capacity);
    hide Counts, WritesInTurn, TakesInTurn;
  }

  /** The masked difference of two indices is the distance of their counters. */
  lemma Distance(a: nat, b: nat, capacity: nat)
    requires capacity >= 2 && b <= a < b + capacity
    ensures (a % capacity - b % capacity) % capacity == a - b
  {
    var q, r := b / capacity, b % capacity;
    var d := a - b;
    assert b == q * capacity + r;
    if r + d < capacity {
      assert a == q * capacity + (r + d);
      ChannelOf(q, r + d, capacity);
      WrapIs(d, 0, capacity);
    } else {
      NextFrame(q, capacity);
      assert a == (q + 1) * capacity + (r + d - capacity);
      ChannelOf(q + 1, r + d - capacity, capacity);
      WrapBack(r + d - capacity, r, capacity);
    }
  }

  lemma CountStep<T>(s: State<T>, capacity: nat, e: Event<T>)
    requires capacity >= 2 && Inv(s, capacity) && Enabled(s, e) && (e.CountLoadsOther? || e.CountLoadsOwn?)
    ensures Inv(Apply(capacity, s, e), capacity)
    ensures e.CountLoadsOwn? ==> Apply(capacity, s, e).promised == s.seenWrite - |s.popped|
  {
    if e.CountLoadsOwn? {
      Distance(s.seenWrite, |s.popped|, capacity);
    }
  }

  lemma PublishEnabled<T>(s: State<T>)
    ensures Enabled(s, PushPublishes) ==> s.producer.Written?
    ensures Enabled(s, PopPublishes) ==> s.consumer.HasItem?
  {
  }

  lemma Step<T>(s: State<T>, capacity: nat, e: Event<T>)
    requires capacity >= 2 && Inv(s, capacity) && Enabled(s, e)
    ensures Inv(Apply(capacity, s, e), capacity)
  {
    hide Inv, Enabled, Apply;
    match e
    case PushLoadsOwn(_) => PushStep(s, capacity, e);
    case PushLoadsOther(_) => PushStep(s, capacity, e);
    case PushStarts => PushStep(s, capacity, e);
    case PushEnds => PushStep(s, capacity, e);
    case PushPublishes => PublishEnabled(s); PublishStep(s, capacity);
    case PopLoadsOwn => PopStep(s, capacity, e);
    case PopLoadsOther(_) => PopStep(s, capacity, e);
    case PopStarts => PopStep(s, capacity, e);
    case PopEnds(_) => PopStep(s, capacity, e);
    case PopPublishes => PublishEnabled(s); RetireStep(s, capacity);
    case CountLoadsOther(_) => CountStep(s, capacity, e);
    case CountLoadsOwn => CountStep(s, capacity, e);
  }

  /** Every state of every run is sound. */
  lemma {:induction false} Always<T(!new)>(capacity: nat, states: seq<State<T>>, events: seq<Event<T>>, i: nat)
    requires capacity >= 2 && Behaviour(capacity, states, events) && i < |states|
    ensures Inv(states[i], capacity)
    decreases i
  {
    if i > 0 {
      Always(capacity, states, events, i - 1);
      hide Inv, Enabled, Apply;
      Step(states[i - 1], capacity, events[i - 1]);
    }
  }

  // ---------------------------------------------------------------- what the queue promises

  /** First in, first out, nothing lost and nothing twice: in every interleaving, what was popped is a prefix of
      what was pushed, and at most capacity - 1 items wait. */
  lemma FirstInFirstOut<T(!new)>(capacity: nat, states: seq<State<T>>, events: seq<Event<T>>, i: nat)
    requires capacity >= 2 && Behaviour(capacity, states, events) && i < |states|
    ensures states[i].popped <= states[i].pushed
    ensures |states[i].pushed| - |states[i].popped| <= capacity - 1
  {
    Always(capacity, states, events, i);
  }

  /** No data race. While the producer writes a slot, the consumer does not read it, and every earlier read of
      that slot happens before the write. While the consumer reads a slot, every write there ever was to that
      slot happens before the read. */
  lemma NoRace<T(!new)>(capacity: nat, states: seq<State<T>>, events: seq<Event<T>>, i: nat)
    requires capacity >= 2 && Behaviour(capacity, states, events) && i < |states|
    ensures var s := states[i];
            && s.seenRead < |s.readIdx| && s.seenWrite < |s.writeIdx|
            && (s.producer.Writing? && s.consumer.Reading? ==> s.producer.w != s.consumer.r)
            && (s.producer.Writing? ==> forall j :: 0 <= j < |s.takes| && s.takes[j] == s.producer.w ==>
                j < s.readIdx[s.seenRead].accesses)
            && (s.consumer.Reading? ==> forall k :: 0 <= k < |s.writes| && s.writes[k].0 == s.consumer.r ==>
                k < s.writeIdx[s.seenWrite].accesses)
  {
    Always(capacity, states, events, i);
    var s := states[i];
    var w, r := |s.pushed|, |s.popped|;
    if s.producer.Writing? {
      if s.consumer.Reading? && s.producer.w == s.consumer.r {
        SlotUnique(w, r, capacity);
      }
      forall j | 0 <= j < |s.takes| && s.takes[j] == s.producer.w
        ensures j < s.seenRead
      {
        if j >= s.seenRead { SlotUnique(w, j, capacity); }
      }
    }
    if s.consumer.Reading? {
      forall k | 0 <= k < |s.writes| && s.writes[k].0 == s.consumer.r
        ensures k < s.seenWrite
      {
        if k >= s.seenWrite { SlotUnique(k, r, capacity); }
      }
    }
  }

  /** Whatever a weakly ordered read may return is the item that is due. */
  lemma ReadsAreDetermined<T(!new)>(capacity: nat, states: seq<State<T>>, events: seq<Event<T>>, i: nat)
    requires capacity >= 2 && Behaviour(capacity, states, events) && i < |events| && events[i].PopEnds?
    ensures |states[i].popped| < |states[i].pushed|
    ensures states[i + 1].consumer.HasItem? && states[i + 1].consumer.got == states[i].pushed[|states[i].popped|]
  {
    Always(capacity, states, events, i);
    OnlyTheDueItem(states[i], capacity, events[i].write);
  }

  /** A push is refused exactly if, by the read index that it saw, the queue is full; a pop is refused exactly
      if, by the write index that it saw, the queue is empty. */
  lemma RefusedExactlyWhen<T(!new)>(capacity: nat, states: seq<State<T>>, events: seq<Event<T>>, i: nat)
    requires capacity >= 2 && Behaviour(capacity, states, events) && i < |events|
    ensures events[i].PushLoadsOther? ==>
              (states[i + 1].producer.Idle? <==> |states[i].pushed| - events[i].entry == capacity - 1)
    ensures events[i].PopLoadsOther? ==> (states[i + 1].consumer.Resting? <==> events[i].entry == |states[i].popped|)
  {
    Always(capacity, states, events, i);
    if events[i].PushLoadsOther? {
      RoomMeans(states[i], capacity, events[i].entry);
    }
    if events[i].PopLoadsOther? {
      ItemMeans(states[i], capacity, events[i].entry);
    }
  }

  /** A count is at most what waits, at most capacity - 1, and as long as fewer items than counted were popped
      since, a pop succeeds, however old the index that it loads. */
  lemma CountedPopsSucceed<T(!new)>(capacity: nat, states: seq<State<T>>, events: seq<Event<T>>, i: nat)
    requires capacity >= 2 && Behaviour(capacity, states, events) && i < |events|
    ensures events[i].CountLoadsOwn? ==>
            states[i + 1].promised <= |states[i].pushed| - |states[i].popped| <= capacity - 1
    ensures events[i].PopLoadsOther? && states[i].promised > 0 ==> states[i + 1].consumer.MayRead?
  {
    Always(capacity, states, events, i);
    if events[i].CountLoadsOwn? {
      CountStep(states[i], capacity, events[i]);
    }
    if events[i].PopLoadsOther? {
      ItemMeans(states[i], capacity, events[i].entry);
    }
  }

  /** A push that sees the newest read index is accepted exactly while fewer than capacity - 1 items wait: no
      slot but one is ever lost. */
  lemma NoSlotIsLost<T(!new)>(capacity: nat, states: seq<State<T>>, events: seq<Event<T>>, i: nat)
    requires capacity >= 2 && Behaviour(capacity, states, events) && i < |events|
    requires events[i].PushLoadsOther? && events[i].entry == |states[i].readIdx| - 1
    ensures states[i + 1].producer.HasRoom? <==> |states[i].pushed| - |states[i].popped| < capacity - 1
  {
    Always(capacity, states, events, i);
    RoomMeans(states[i], capacity, events[i].entry);
  }
}
