/** How the audio callback hands its input to the classifier (src/audio/AudioChunk.h,
    src/audio/DspChain.cpp:92-103). */
module Captures {
  import opened Interleaving
  import opened RingBuffers
  import opened Floats

  const CHUNK_FRAMES: nat := 256
  const AUDIO_QUEUE: nat := 256

  /** Up to 256 frames of interleaved audio; `samples` holds the frames * channels samples that count. */
  datatype AudioChunk = AudioChunk(samples: seq<real>, sequence: nat, sampleRate: Float, frames: nat, channels: nat)

  /** A chunk of one or two channels has room for all the samples it says it has. */
  type SoundChunk = c: AudioChunk | 1 <= c.channels <= 2 ==> BlockSize(c.frames, c.channels) <= |c.samples|
    witness AudioChunk([], 0, NaN, 0, 1)

  /** The callback's side of the capture: the number of the next chunk, the chunks refused, the chunks waiting. */
  datatype Tap = Tap(sequence: nat, drops: nat, waiting: seq<SoundChunk>)

  /** A chunk takes a number whether the queue accepts it or not. */
  function Offer(t: Tap, capacity: nat, chunk: SoundChunk): Tap {
    if |t.waiting| + 1 < capacity then Tap(t.sequence + 1, t.drops, t.waiting + [chunk])
    else Tap(t.sequence + 1, t.drops + 1, t.waiting)
  }

  function OfferAll(t: Tap, capacity: nat, chunks: seq<SoundChunk>): Tap {
    if |chunks| == 0 then t
    else
      var n := |chunks| - 1;
      Offer(OfferAll(t, capacity, chunks[..n]), capacity, chunks[n])
  }

  lemma Ordered(lo: nat, hi: nat, frames: nat, channels: nat)
    requires lo <= hi <= frames
    ensures BlockSize(lo, channels) <= BlockSize(hi, channels) <= BlockSize(frames, channels)
    ensures BlockSize(hi, channels) - BlockSize(lo, channels) == BlockSize(hi - lo, channels)
  {
    assert (hi - lo) * channels >= 0 && (frames - hi) * channels >= 0;
  }

  /** Chunk number i of a block: frames 256 i up to at most 256 of them. */
  function ChunkAt(xs: seq<real>, frames: nat, channels: nat, rate: real, sequence: nat, i: nat): SoundChunk
    requires |xs| == BlockSize(frames, channels) && i * CHUNK_FRAMES < frames
  {
    var lo := i * CHUNK_FRAMES;
    var hi := if lo + CHUNK_FRAMES <= frames then lo + CHUNK_FRAMES else frames;
    Ordered(lo, hi, frames, channels);
    AudioChunk(xs[BlockSize(lo, channels)..BlockSize(hi, channels)], sequence + i, Finite(rate), hi - lo, channels)
  }

  /** The first n chunks of a block. */
  function Cut(xs: seq<real>, frames: nat, channels: nat, rate: real, sequence: nat, n: nat): (chunks: seq<SoundChunk>)
    requires |xs| == BlockSize(frames, channels) && (n == 0 || (n - 1) * CHUNK_FRAMES < frames)
    ensures |chunks| == n
    ensures forall i :: 0 <= i < n ==> chunks[i] == ChunkAt(xs, frames, channels, rate, sequence, i)
  {
    seq(n, i requires 0 <= i < n => ChunkAt(xs, frames, channels, rate, sequence, i))
  }

  function ChunkCount(frames: nat): (n: nat)
    ensures n == 0 || (n - 1) * CHUNK_FRAMES < frames
    ensures n * CHUNK_FRAMES >= frames
  {
    (frames + CHUNK_FRAMES - 1) / CHUNK_FRAMES
  }

  function Samples(chunks: seq<SoundChunk>): seq<real>
    decreases |chunks|
  {
    if |chunks| == 0 then [] else Samples(chunks[..|chunks| - 1]) + chunks[|chunks| - 1].samples
  }

  lemma NoFrames(channels: nat)
    ensures BlockSize(0, channels) == 0
  {
  }

  lemma NoSamples()
    ensures Samples([]) == []
  {
  }

  function Least(a: nat, b: nat): nat {
    if a <= b then a else b
  }

  /** One chunk more. */
  lemma CutGrows(xs: seq<real>, frames: nat, channels: nat, rate: real, sequence: nat, n: nat)
    requires |xs| == BlockSize(frames, channels) && n * CHUNK_FRAMES < frames
    ensures var cut, next := Cut(xs, frames, channels, rate, sequence, n),
            ChunkAt(xs, frames, channels, rate, sequence, n);
            && Cut(xs, frames, channels, rate, sequence, n + 1) == cut + [next]
            && Samples(cut + [next]) == Samples(cut) + next.samples
  {
    hide ChunkAt;
    var cut, next := Cut(xs, frames, channels, rate, sequence, n), ChunkAt(xs, frames, channels, rate, sequence, n);
    assert (cut + [next])[..n] == cut;
  }

  lemma ChunkIs(xs: seq<real>, frames: nat, channels: nat, rate: real, sequence: nat, n: nat)
    requires |xs| == BlockSize(frames, channels) && n * CHUNK_FRAMES < frames
    ensures var c := ChunkAt(xs, frames, channels, rate, sequence, n);
            var lo, hi := n * CHUNK_FRAMES, Least((n + 1) * CHUNK_FRAMES, frames);
            && 1 <= c.frames <= CHUNK_FRAMES && c.sequence == sequence + n
            && |c.samples| == BlockSize(c.frames, channels)
            && BlockSize(lo, channels) <= BlockSize(hi, channels) <= |xs|
            && c.samples == xs[BlockSize(lo, channels)..BlockSize(hi, channels)]
  {
    hide BlockSize;
    Ordered(n * CHUNK_FRAMES, Least((n + 1) * CHUNK_FRAMES, frames), frames, channels);
  }

  /** Cutting loses nothing and repeats nothing: the chunks of a block hold its samples in order, none of them
      is empty or too long, and their numbers follow each other. */
  lemma {:induction false} CutIsWhole(xs: seq<real>, frames: nat, channels: nat, rate: real, sequence: nat, n: nat)
    requires |xs| == BlockSize(frames, channels) && (n == 0 || (n - 1) * CHUNK_FRAMES < frames)
    ensures var cut := Cut(xs, frames, channels, rate, sequence, n);
            var done := Least(n * CHUNK_FRAMES, frames);
            && BlockSize(done, channels) <= |xs| && Samples(cut) == xs[..BlockSize(done, channels)]
            && forall i :: 0 <= i < n ==>
                 && 1 <= cut[i].frames <= CHUNK_FRAMES && cut[i].sequence == sequence + i
                 && |cut[i].samples| == BlockSize(cut[i].frames, channels)
    decreases n
  {
    hide BlockSize, Cut, ChunkAt, Samples;
    if n == 0 {
      NoFrames(channels);
      NoSamples();
      Ordered(0, 0, frames, channels);
    } else {
      CutIsWhole(xs, frames, channels, rate, sequence, n - 1);
      CutGrows(xs, frames, channels, rate, sequence, n - 1);
      ChunkIs(xs, frames, channels, rate, sequence, n - 1);
      var lo, hi := (n - 1) * CHUNK_FRAMES, Least(n * CHUNK_FRAMES, frames);
      assert xs[..BlockSize(hi, channels)] ==
             xs[..BlockSize(lo, channels)] + xs[BlockSize(lo, channels)..BlockSize(hi, channels)];
    }
  }

  /** Every chunk offered is waiting or counted as dropped, and the ones waiting keep their order. */
  lemma {:induction false} OfferConserves(t: Tap, capacity: nat, chunks: seq<SoundChunk>)
    requires |t.waiting| < capacity
    ensures var u := OfferAll(t, capacity, chunks);
            && u.sequence == t.sequence + |chunks|
            && |u.waiting| < capacity && t.waiting <= u.waiting
            && |chunks| == (|u.waiting| - |t.waiting|) + (u.drops - t.drops)
            && u.waiting[|t.waiting|..] <= chunks
            && (u.drops > t.drops ==> |u.waiting| == capacity - 1)
    decreases |chunks|
  {
    if |chunks| > 0 {
      OfferConserves(t, capacity, chunks[..|chunks| - 1]);
    }
  }

  lemma OfferNumbers(t: Tap, capacity: nat, chunk: SoundChunk)
    ensures Offer(t, capacity, chunk).sequence == t.sequence + 1
  {
  }

  lemma OfferNothing(t: Tap, capacity: nat)
    ensures OfferAll(t, capacity, []) == t
  {
  }

  lemma OfferNext(t: Tap, capacity: nat, xs: seq<real>, frames: nat, channels: nat, rate: real, sequence: nat, i: nat)
    requires |xs| == BlockSize(frames, channels) && i * CHUNK_FRAMES < frames
    ensures OfferAll(t, capacity, Cut(xs, frames, channels, rate, sequence, i + 1)) ==
            Offer(OfferAll(t, capacity, Cut(xs, frames, channels, rate, sequence, i)), capacity,
                  ChunkAt(xs, frames, channels, rate, sequence, i))
  {
    hide BlockSize, Offer;
    assert Cut(xs, frames, channels, rate, sequence, i + 1)[..i] == Cut(xs, frames, channels, rate, sequence, i);
  }

  /** What a block does to the tap. */
  function Captured(t: Tap, enabled: bool, capacity: nat, xs: seq<real>, frames: nat, channels: nat, rate: real): Tap
    requires |xs| == BlockSize(frames, channels)
  {
    if enabled then OfferAll(t, capacity, Cut(xs, frames, channels, rate, t.sequence, ChunkCount(frames))) else t
  }

  class CaptureTap {
    const queue: RingBuffer<SoundChunk>
    var sequence: nat
    var drops: nat

    ghost function Repr(): set<object> {
      {this} + queue.Repr()
    }

    ghost predicate Valid()
      reads this, queue
    {
      this !in queue.Repr() && queue.Valid()
    }

    ghost function View(): Tap
      requires Valid()
      reads this, queue, queue.buffer
    {
      Tap(sequence, drops, queue.Contents())
    }

    constructor (q: RingBuffer<SoundChunk>)
      requires q.Valid()
      ensures Valid() && queue == q && View() == Tap(0, 0, q.Contents())
    {
      queue := q;
      sequence, drops := 0, 0;
    }

    /** Number one chunk and offer it. */
    method OfferChunk(samples: seq<real>, rate: real, frames: nat, channels: nat)
      requires Valid() && |samples| == BlockSize(frames, channels)
      modifies Repr()
      ensures Valid() && View() == Offer(old(View()), queue.buffer.Length,
                                         AudioChunk(samples, old(sequence), Finite(rate), frames, channels))
    {
      var chunk := AudioChunk(samples, sequence, Finite(rate), frames, channels);
      sequence := sequence + 1;
      var ok := queue.TryPush(chunk);
      if !ok { drops := drops + 1; }
    }

    /** The chunk that starts at frame `offset`. */
    method PushNext(dry: array<real>, rate: real, frames: nat, channels: nat, offset: nat, ghost first: nat,
                    ghost i: nat)
      returns (count: nat)
      requires Valid() && dry !in Repr() && BlockSize(frames, channels) <= dry.Length
      requires offset == i * CHUNK_FRAMES < frames && sequence == first + i
      modifies Repr()
      ensures Valid() && sequence == first + i + 1 && offset + count == Least((i + 1) * CHUNK_FRAMES, frames)
      ensures View() == Offer(old(View()), queue.buffer.Length,
                              ChunkAt(dry[..BlockSize(frames, channels)], frames, channels, rate, first, i))
    {
      hide BlockSize, Offer;
      count := if frames - offset < CHUNK_FRAMES then frames - offset else CHUNK_FRAMES;
      Ordered(offset, offset + count, frames, channels);
      var samples := dry[BlockSize(offset, channels)..BlockSize(offset + count, channels)];
      assert samples ==
             dry[..BlockSize(frames, channels)][BlockSize(offset, channels)..BlockSize(offset + count, channels)];
      OfferChunk(samples, rate, count, channels);
      OfferNumbers(old(View()), queue.buffer.Length,
                   ChunkAt(dry[..BlockSize(frames, channels)], frames, channels, rate, first, i));
    }

    /** The dry signal of one block, in chunks. */
    method PushAudio(dry: array<real>, rate: real, frames: nat, channels: nat)
      requires Valid() && dry !in Repr() && BlockSize(frames, channels) <= dry.Length
      modifies Repr()
      ensures Valid()
      ensures View() == Captured(old(View()), true, queue.buffer.Length, dry[..BlockSize(frames, channels)], frames,
                                 channels, rate)
    {
      hide BlockSize, OfferAll, ChunkAt;
      ghost var xs := dry[..BlockSize(frames, channels)];
      ghost var start, first, capacity := View(), sequence, queue.buffer.Length;
      ghost var i := 0;
      OfferNothing(start, capacity);
      var offset := 0;
      while offset < frames
        invariant Valid() && dry !in Repr() && dry[..BlockSize(frames, channels)] == xs
        invariant offset == Least(i * CHUNK_FRAMES, frames) && (i == 0 || (i - 1) * CHUNK_FRAMES < frames)
        invariant sequence == first + i
        invariant View() == OfferAll(start, capacity, Cut(xs, frames, channels, rate, first, i))
      {
        OfferNext(start, capacity, xs, frames, channels, rate, first, i);
        var count := PushNext(dry, rate, frames, channels, offset, first, i);
        offset := offset + count;
        i := i + 1;
      }
      assert i == ChunkCount(frames);
    }
  }

  // ---------------------------------------------------------------- whole blocks

  lemma {:induction false} OfferAllAppend(t: Tap, capacity: nat, c: seq<SoundChunk>, d: seq<SoundChunk>)
    ensures OfferAll(t, capacity, c + d) == OfferAll(OfferAll(t, capacity, c), capacity, d)
    decreases |d|
  {
    if |d| == 0 {
      assert c + d == c;
    } else {
      OfferAllAppend(t, capacity, c, d[..|d| - 1]);
      assert (c + d)[..|c + d| - 1] == c + d[..|d| - 1];
    }
  }

  lemma {:induction false} OfferAllNumbers(t: Tap, capacity: nat, chunks: seq<SoundChunk>)
    ensures OfferAll(t, capacity, chunks).sequence == t.sequence + |chunks|
    decreases |chunks|
  {
    if |chunks| > 0 {
      OfferAllNumbers(t, capacity, chunks[..|chunks| - 1]);
    }
  }

  lemma ChunkOfFirst(xs: seq<real>, ys: seq<real>, f: nat, g: nat, channels: nat, rate: real, sequence: nat, i: nat)
    requires |xs| == BlockSize(f, channels) && |ys| == BlockSize(g, channels) && |xs + ys| == BlockSize(f + g, channels)
    requires f % CHUNK_FRAMES == 0 && i < f / CHUNK_FRAMES
    ensures ChunkAt(xs + ys, f + g, channels, rate, sequence, i) == ChunkAt(xs, f, channels, rate, sequence, i)
  {
    hide BlockSize;
    var lo := i * CHUNK_FRAMES;
    Ordered(lo, lo + CHUNK_FRAMES, f, channels);
    assert (xs + ys)[BlockSize(lo, channels)..BlockSize(lo + CHUNK_FRAMES, channels)] ==
           xs[BlockSize(lo, channels)..BlockSize(lo + CHUNK_FRAMES, channels)];
  }

  lemma ChunkOfSecond(xs: seq<real>, ys: seq<real>, f: nat, g: nat, channels: nat, rate: real, sequence: nat, i: nat)
    requires |xs| == BlockSize(f, channels) && |ys| == BlockSize(g, channels) && |xs + ys| == BlockSize(f + g, channels)
    requires f % CHUNK_FRAMES == 0 && i * CHUNK_FRAMES < g
    ensures ChunkAt(xs + ys, f + g, channels, rate, sequence, f / CHUNK_FRAMES + i) ==
            ChunkAt(ys, g, channels, rate, sequence + f / CHUNK_FRAMES, i)
  {
    hide BlockSize;
    var lo := i * CHUNK_FRAMES;
    var hi := if lo + CHUNK_FRAMES <= g then lo + CHUNK_FRAMES else g;
    Ordered(lo, hi, g, channels);
    Ordered(f, f + lo, f + g, channels);
    Ordered(f, f + hi, f + g, channels);
    assert (f / CHUNK_FRAMES + i) * CHUNK_FRAMES == f + lo;
    assert (xs + ys)[BlockSize(f + lo, channels)..BlockSize(f + hi, channels)] ==
           ys[BlockSize(lo, channels)..BlockSize(hi, channels)];
  }

  /** Blocks of whole chunks may be captured apart or together. */
  lemma CapturedAppend(t: Tap, enabled: bool, capacity: nat, xs: seq<real>, ys: seq<real>, f: nat, g: nat,
                       channels: nat, rate: real)
    requires |xs| == BlockSize(f, channels) && |ys| == BlockSize(g, channels) && |xs + ys| == BlockSize(f + g, channels)
    requires f % CHUNK_FRAMES == 0
    ensures Captured(t, enabled, capacity, xs + ys, f + g, channels, rate) ==
            Captured(Captured(t, enabled, capacity, xs, f, channels, rate), enabled, capacity, ys, g, channels, rate)
  {
    hide BlockSize, ChunkAt, OfferAll;
    var c, d := ChunkCount(f), ChunkCount(g);
    assert c == f / CHUNK_FRAMES && ChunkCount(f + g) == c + d;
    var first, second := Cut(xs, f, channels, rate, t.sequence, c), Cut(ys, g, channels, rate, t.sequence + c, d);
    var all := Cut(xs + ys, f + g, channels, rate, t.sequence, c + d);
    forall i | 0 <= i < c + d ensures all[i] == (first + second)[i] {
      if i < c {
        ChunkOfFirst(xs, ys, f, g, channels, rate, t.sequence, i);
      } else {
        ChunkOfSecond(xs, ys, f, g, channels, rate, t.sequence, i - c);
      }
    }
    assert all == first + second;
    OfferAllAppend(t, capacity, first, second);
    OfferAllNumbers(t, capacity, first);
  }

  lemma CapturedNothing(t: Tap, enabled: bool, capacity: nat, channels: nat, rate: real)
    requires BlockSize(0, channels) == 0
    ensures Captured(t, enabled, capacity, [], 0, channels, rate) == t
  {
  }
}
