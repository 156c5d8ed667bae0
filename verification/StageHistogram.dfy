/** Cost histogram of a stage, and percentiles read off it (src/audio/StageHistogram.h,
    src/audio/StageHistogram.cpp). */
module StageHistograms {
  import opened Percentiles

  const NUM_BUCKETS: nat := 4096
  const MAX_NS: nat := 4096000
  const BUCKET_NS: nat := 1000

  /** Bucket of a time; the last one takes everything above. */
  function Bucket(ns: nat): (b: nat)
    ensures b < NUM_BUCKETS
    ensures ns < MAX_NS ==> b * BUCKET_NS <= ns < b * BUCKET_NS + BUCKET_NS
    ensures ns >= MAX_NS ==> b == NUM_BUCKETS - 1
  {
    if ns / BUCKET_NS >= NUM_BUCKETS then NUM_BUCKETS - 1 else ns / BUCKET_NS
  }

  /** Times recorded in buckets below b. */
  function CountBelow(times: seq<nat>, b: nat): (n: nat)
    ensures n <= |times|
  {
    if |times| == 0 then 0
    else CountBelow(times[..|times| - 1], b) + if Bucket(times[|times| - 1]) < b then 1 else 0
  }

  function CountIn(times: seq<nat>, b: nat): (n: nat)
    ensures n <= |times|
  {
    if |times| == 0 then 0
    else CountIn(times[..|times| - 1], b) + if Bucket(times[|times| - 1]) == b then 1 else 0
  }

  /** Times that are at most v. */
  function NotAbove(times: seq<nat>, v: nat): (n: nat)
    ensures n <= |times|
  {
    if |times| == 0 then 0
    else NotAbove(times[..|times| - 1], v) + if times[|times| - 1] <= v then 1 else 0
  }

  function Under(times: seq<nat>, v: nat): (n: nat)
    ensures n <= |times|
  {
    if |times| == 0 then 0
    else Under(times[..|times| - 1], v) + if times[|times| - 1] < v then 1 else 0
  }

  function Largest(times: seq<nat>): (m: nat)
    ensures forall t :: t in times ==> t <= m
    ensures |times| > 0 ==> m in times
  {
    if |times| == 0 then 0
    else
      var m := Largest(times[..|times| - 1]);
      var t := times[|times| - 1];
      assert forall u :: u in times ==> u in times[..|times| - 1] || u == t;
      if t > m then t else m
  }

  function Overflowed(times: seq<nat>): (n: nat)
    ensures n <= |times|
  {
    if |times| == 0 then 0
    else Overflowed(times[..|times| - 1]) + if times[|times| - 1] >= MAX_NS then 1 else 0
  }

  /** v is the nearest-rank value: at least `rank` times are no larger, fewer are smaller. */
  predicate IsRanked(times: seq<nat>, rank: nat, v: nat) {
    v in times && NotAbove(times, v) >= rank && Under(times, v) < rank
  }

  lemma {:induction false} UnderIsNotAbove(times: seq<nat>, v: nat)
    ensures v > 0 ==> Under(times, v) == NotAbove(times, v - 1)
    ensures Under(times, 0) == 0
    ensures NotAbove(times, v) > Under(times, v) ==> v in times
    decreases |times|
  {
    if |times| > 0 { UnderIsNotAbove(times[..|times| - 1], v); }
  }

  lemma {:induction false} AllNotAbove(times: seq<nat>, v: nat)
    requires forall i :: 0 <= i < |times| ==> times[i] <= v
    ensures NotAbove(times, v) == |times|
    decreases |times|
  {
    if |times| > 0 { AllNotAbove(times[..|times| - 1], v); }
  }

  /** Looking down from a value that reaches the rank. */
  function LookDown(times: seq<nat>, rank: nat, v: nat): (w: nat)
    requires 1 <= rank && NotAbove(times, v) >= rank
    ensures IsRanked(times, rank, w)
  {
    UnderIsNotAbove(times, v);
    if v > 0 && NotAbove(times, v - 1) >= rank then LookDown(times, rank, v - 1) else v
  }

  /** The true nearest-rank value. */
  function Ranked(times: seq<nat>, rank: nat): (v: nat)
    requires 1 <= rank <= |times|
    ensures IsRanked(times, rank, v)
  {
    assert forall i :: 0 <= i < |times| ==> times[i] in times;
    AllNotAbove(times, Largest(times));
    LookDown(times, rank, Largest(times))
  }

  lemma {:induction false} UnderAbove(times: seq<nat>, v: nat, w: nat)
    requires v < w
    ensures NotAbove(times, v) <= Under(times, w)
    decreases |times|
  {
    if |times| > 0 { UnderAbove(times[..|times| - 1], v, w); }
  }

  /** There is only one such value. */
  lemma RankedIsUnique(times: seq<nat>, rank: nat, v: nat)
    requires 1 <= rank <= |times| && IsRanked(times, rank, v)
    ensures v == Ranked(times, rank)
  {
    hide Ranked, NotAbove, Under;
    var w := Ranked(times, rank);
    if v < w { UnderAbove(times, v, w); }
    if w < v { UnderAbove(times, w, v); }
  }

  // ---------------------------------------------------------------- counting

  lemma {:induction false} BelowNext(times: seq<nat>, b: nat)
    ensures CountBelow(times, b + 1) == CountBelow(times, b) + CountIn(times, b)
    decreases |times|
  {
    if |times| > 0 { BelowNext(times[..|times| - 1], b); }
  }

  lemma {:induction false} BelowAll(times: seq<nat>)
    ensures CountBelow(times, NUM_BUCKETS) == |times| && CountBelow(times, 0) == 0
    decreases |times|
  {
    if |times| > 0 { BelowAll(times[..|times| - 1]); }
  }

  /** Buckets keep the order of times. */
  lemma BucketOrder(s: nat, t: nat)
    ensures s <= t ==> Bucket(s) <= Bucket(t)
  {
  }

  /** Counting times and counting buckets, compared. */
  lemma {:induction false} CountsCompare(times: seq<nat>, v: nat)
    ensures CountBelow(times, Bucket(v)) <= Under(times, v) && NotAbove(times, v) <= CountBelow(times, Bucket(v) + 1)
    decreases |times|
  {
    if |times| > 0 {
      var t := times[|times| - 1];
      CountsCompare(times[..|times| - 1], v);
      BucketOrder(v, t);
      BucketOrder(t, v);
    }
  }

  lemma {:induction false} BelowMonotone(times: seq<nat>, b: nat, c: nat)
    requires b <= c
    ensures CountBelow(times, b) <= CountBelow(times, c)
    decreases |times|
  {
    if |times| > 0 { BelowMonotone(times[..|times| - 1], b, c); }
  }

  /** The first bucket at which the running count reaches the rank is the bucket of the nearest-rank value. */
  lemma ScanFinds(times: seq<nat>, rank: nat, v: nat, b: nat)
    requires IsRanked(times, rank, v)
    requires CountBelow(times, b) < rank <= CountBelow(times, b + 1)
    ensures b == Bucket(v)
  {
    CountsCompare(times, v);
    if b + 1 <= Bucket(v) { BelowMonotone(times, b + 1, Bucket(v)); }
    if Bucket(v) + 1 <= b { BelowMonotone(times, Bucket(v) + 1, b); }
  }

  lemma {:induction false} OverflowCounts(times: seq<nat>, v: nat)
    ensures v < MAX_NS ==> NotAbove(times, v) + Overflowed(times) <= |times|
    ensures v >= MAX_NS ==> Under(times, v) + Overflowed(times) >= |times|
    ensures v in times && v >= MAX_NS ==> Overflowed(times) > 0
    decreases |times|
  {
    if |times| > 0 {
      OverflowCounts(times[..|times| - 1], v);
      assert v in times ==> v in times[..|times| - 1] || v == times[|times| - 1];
    }
  }

  // ---------------------------------------------------------------- what a percentile says

  /** The answer for the share a / b. */
  function Answer(times: seq<nat>, v: nat): nat {
    if Bucket(v) == NUM_BUCKETS - 1 && Overflowed(times) > 0 then MAX_NS else Bucket(v) * BUCKET_NS + BUCKET_NS / 2
  }

  /** Below the ceiling the answer is within one bucket of the true value, and within half a bucket unless it is
      the ceiling itself. From the ceiling on, it is the ceiling. */
  lemma AnswerIsClose(times: seq<nat>, rank: nat, v: nat)
    requires IsRanked(times, rank, v)
    ensures v < MAX_NS ==> v as int - BUCKET_NS <= Answer(times, v) <= v + BUCKET_NS
    ensures v < MAX_NS && Answer(times, v) != MAX_NS ==>
            v as int - BUCKET_NS / 2 <= Answer(times, v) <= v + BUCKET_NS / 2
    ensures v >= MAX_NS ==> Answer(times, v) == MAX_NS
  {
    OverflowCounts(times, v);
  }

  /** When the answer is the ceiling, it is a lower bound of the true value exactly if more times overflowed than
      lie above the rank. */
  lemma CeilingIsLowerBoundExactlyIf(times: seq<nat>, rank: nat, v: nat)
    requires IsRanked(times, rank, v) && 1 <= rank <= |times| && Answer(times, v) == MAX_NS
    ensures Answer(times, v) <= v <==> Overflowed(times) > |times| - rank
  {
    OverflowCounts(times, v);
  }

  /** The other case is real: of two times, one in the last bucket and one beyond it, the median is the first, and
      the answer is above it. */
  lemma CeilingCanBeTooHigh()
    ensures IsRanked([4095000, 5000000], Rank(1, 2, 2), 4095000)
    ensures Answer([4095000, 5000000], 4095000) == MAX_NS > 4095000
  {
    var times := [4095000, 5000000];
    assert times[..1] == [4095000] && [4095000][..0] == [];
    assert times[1] == 5000000;
  }

  // ---------------------------------------------------------------- the object

  lemma CountNext(times: seq<nat>, t: nat)
    ensures forall b :: CountIn(times + [t], b) == CountIn(times, b) + if Bucket(t) == b then 1 else 0
    ensures Overflowed(times + [t]) == Overflowed(times) + if t >= MAX_NS then 1 else 0
    ensures Largest(times + [t]) == if t > Largest(times) then t else Largest(times)
  {
    assert (times + [t])[..|times|] == times;
  }

  lemma BucketIs(ns: nat)
    ensures Bucket(ns) == if ns / BUCKET_NS >= NUM_BUCKETS then NUM_BUCKETS - 1 else ns / BUCKET_NS
  {
  }

  function BucketSum(buckets: seq<nat>, n: nat): nat
    requires n <= |buckets|
  {
    if n == 0 then 0 else BucketSum(buckets, n - 1) + buckets[n - 1]
  }

  lemma {:induction false} BucketsSumTo(buckets: seq<nat>, times: seq<nat>, n: nat)
    requires n <= |buckets| && forall b :: 0 <= b < |buckets| ==> buckets[b] == CountIn(times, b)
    ensures BucketSum(buckets, n) == CountBelow(times, n)
    decreases n
  {
    if n == 0 {
      BelowAll(times);
    } else {
      BucketsSumTo(buckets, times, n - 1);
      BelowNext(times, n - 1);
    }
  }

  class StageHistogram {
    const buckets: array<nat>
    var maximum: nat
    var overflow: nat
    var total: nat
    ghost var times: seq<nat>

    /** The counters are counts over everything recorded. */
    ghost predicate Valid()
      reads this, buckets
    {
      && buckets.Length == NUM_BUCKETS && total == |times|
      && overflow == Overflowed(times) && maximum == Largest(times)
      && forall b :: 0 <= b < NUM_BUCKETS ==> buckets[b] == CountIn(times, b)
    }

    constructor ()
      ensures Valid() && fresh(buckets) && times == []
    {
      buckets := new nat[NUM_BUCKETS](i => 0);
      maximum, overflow, total, times := 0, 0, 0, [];
    }

    /** Negative durations count as zero. */
    method Record(dt: int)
      requires Valid()
      modifies this, buckets
      ensures Valid() && times == old(times) + [if dt < 0 then 0 else dt]
    {
      hide Bucket, CountIn, Overflowed, Largest;
      var ns: nat := if dt < 0 then 0 else dt;
      CountNext(times, ns);
      BucketIs(ns);
      if ns > maximum { maximum := ns; }
      if ns >= MAX_NS { overflow := overflow + 1; }
      var idx := ns / BUCKET_NS;
      if idx >= NUM_BUCKETS { idx := NUM_BUCKETS - 1; }
      buckets[idx] := buckets[idx] + 1;
      total := total + 1;
      times := times + [ns];
    }

    /** The scan always ends at a bucket, and its answer is that of the nearest-rank value of everything recorded.
        With nothing recorded the answer is zero. */
    method Percentile(a: nat, b: nat) returns (answer: nat)
      requires Valid() && 0 < a <= b
      ensures answer == if total == 0 then 0 else Answer(times, Ranked(times, Rank(a, b, total)))
    {
      hide Bucket, CountIn, CountBelow, Overflowed, Largest, Rank, IsRanked, Ranked;
      var n := total;
      if n == 0 { return 0; }
      var rank := Rank(a, b, n);
      ghost var v := Ranked(times, rank);
      BelowAll(times);
      var cumulative, i := 0, 0;
      while i < NUM_BUCKETS
        invariant 0 <= i <= NUM_BUCKETS && cumulative == CountBelow(times, i) < rank
      {
        BelowNext(times, i);
        cumulative := cumulative + buckets[i];
        if cumulative >= rank {
          ScanFinds(times, rank, v, i);
          if i == NUM_BUCKETS - 1 && overflow > 0 { return MAX_NS; }
          return i * BUCKET_NS + BUCKET_NS / 2;
        }
        i := i + 1;
      }
      assert false;
    }

    /** Everything recorded is in some bucket. */
    lemma BucketsSum(n: nat)
      requires Valid() && n <= NUM_BUCKETS
      ensures BucketSum(buckets[..], n) == CountBelow(times, n)
      ensures BucketSum(buckets[..], NUM_BUCKETS) == total
    {
      BucketsSumTo(buckets[..], times, n);
      BucketsSumTo(buckets[..], times, NUM_BUCKETS);
      BelowAll(times);
    }
  }
}
