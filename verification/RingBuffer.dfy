/** The lock-free queue between the audio callback and a background thread, used by one thread
    (src/audio/SPSCRingBuffer.h). Masking with a power of two minus one is the remainder. What two threads
    can do to it at the same time is in RingProtocol.dfy. */
module RingBuffers {
  import opened Interleaving

  /** Two counters less than a turn apart that share a slot are equal. */
  lemma SlotUnique(a: nat, b: nat, capacity: nat)
    requires b <= a < b + capacity && a % capacity == b % capacity
    ensures a == b
  {
    var p, q := a / capacity, b / capacity;
    assert a == p * capacity + a % capacity && b == q * capacity + b % capacity;
    if q < p {
      FrameGap(q, p, capacity);
    }
  }

  lemma TurnAway(i: nat, capacity: nat)
    requires capacity > 0
    ensures (i + capacity) % capacity == i % capacity
  {
    var q, r := i / capacity, i % capacity;
    assert i == q * capacity + r;
    NextFrame(q, capacity);
    ChannelOf(q + 1, r, capacity);
  }

  /** Adding whole turns, or less than a turn to an index. */
  lemma WrapIs(i: nat, n: nat, capacity: nat)
    requires i < capacity && n <= capacity
    ensures (i + n) % capacity == if i + n < capacity then i + n else i + n - capacity
  {
    if i + n >= capacity {
      TurnAway(i + n - capacity, capacity);
    }
  }

  /** The slot after that of counter i. */
  lemma NextSlot(i: nat, capacity: nat)
    requires capacity >= 2
    ensures (i % capacity + 1) % capacity == (i + 1) % capacity
  {
    var q, r := i / capacity, i % capacity;
    assert i == q * capacity + r;
    WrapIs(r, 1, capacity);
    if r + 1 < capacity {
      ChannelOf(q, r + 1, capacity);
    } else {
      NextFrame(q, capacity);
      ChannelOf(q + 1, 0, capacity);
    }
  }

  lemma WrapBack(w: nat, r: nat, capacity: nat)
    requires w < r < capacity
    ensures (w - r) % capacity == w + capacity - r
  {
  }

  class RingBuffer<T> {
    const buffer: array<T>
    var writeIdx: nat
    var readIdx: nat

    ghost predicate Valid()
      reads this
    {
      buffer.Length >= 2 && writeIdx < buffer.Length && readIdx < buffer.Length
    }

    ghost function Repr(): set<object> {
      {this, buffer}
    }

    ghost function Count(): nat
      requires Valid()
      reads this
    {
      if readIdx <= writeIdx then writeIdx - readIdx else writeIdx + buffer.Length - readIdx
    }

    /** Position of the i-th unread item. */
    ghost function Slot(i: nat): (s: nat)
      requires Valid() && i < buffer.Length
      reads this
      ensures s < buffer.Length
    {
      if readIdx + i < buffer.Length then readIdx + i else readIdx + i - buffer.Length
    }

    /** The unread items, oldest first. */
    ghost function Contents(): (items: seq<T>)
      requires Valid()
      reads this, buffer
      ensures |items| == Count() < buffer.Length
    {
      seq(Count(), i requires Valid() && 0 <= i < Count() reads this, buffer => buffer[Slot(i)])
    }

    constructor (capacity: nat, filler: T)
      requires capacity >= 2
      ensures Valid() && fresh(Repr()) && buffer.Length == capacity && Contents() == []
    {
      buffer := new T[capacity](i => filler);
      writeIdx, readIdx := 0, 0;
    }

    method TryPush(item: T) returns (ok: bool)
      requires Valid()
      modifies Repr()
      ensures Valid() && (ok <==> old(|Contents()|) < buffer.Length - 1)
      ensures Contents() == if ok then old(Contents()) + [item] else old(Contents())
    {
      var w := writeIdx;
      var next := (w + 1) % buffer.Length;
      WrapIs(w, 1, buffer.Length);
      if next == readIdx { return false; }
      buffer[w] := item;
      writeIdx := next;
      return true;
    }

    /** On failure the item of the caller is left as it was. */
    method TryPop(item: T) returns (ok: bool, out: T)
      requires Valid()
      modifies this`readIdx
      ensures Valid() && (ok <==> old(Contents()) != [])
      ensures if ok then old(Contents()) == [out] + Contents() else out == item && Contents() == old(Contents())
    {
      var r := readIdx;
      if r == writeIdx { return false, item; }
      out := buffer[r];
      WrapIs(r, 1, buffer.Length);
      readIdx := (r + 1) % buffer.Length;
      return true, out;
    }

    method Available() returns (n: nat)
      requires Valid()
      ensures n == |Contents()|
    {
      var w, r := writeIdx, readIdx;
      if r <= w {
        WrapIs(w - r, 0, buffer.Length);
      } else {
        WrapBack(w, r, buffer.Length);
      }
      n := (w - r) % buffer.Length;
    }

    function Capacity(): nat
      requires buffer.Length >= 1
    {
      buffer.Length - 1
    }
  }
}
