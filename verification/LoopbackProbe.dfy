/** The round-trip probe of the loopback benchmark (bench/LoopbackProbe.h): it plays short pulses and listens for
    them. Here the loop is closed through a delay of d frames, for every d. */
module LoopbackProbes {
  import opened Options
  import opened RealFacts
  import opened Transducers
  import opened Interleaving

  const PULSE: real := 0.2
  const THRESHOLD: real := 0.08

  /** A probe: distance of pulses, how long it listens for each, and how far it has come. */
  datatype Probe = Probe(interval: nat, timeout: nat, delays: seq<int>,
                         frame: nat, sentAt: nat, emitted: nat, pending: bool, previous: real)
  {
    predicate Valid() {
      interval > 0 && emitted <= |delays| && sentAt <= frame && (pending ==> emitted > 0)
    }
  }

  type SoundProbe = p: Probe | p.Valid() witness Probe(1, 0, [], 0, 0, 0, false, 0.0)

  /** Whether a sample is the echo that the probe is waiting for: a rise over the threshold, in time. */
  predicate Hears(p: Probe, sample: real) {
    && p.pending && p.frame > p.sentAt && p.frame - p.sentAt <= p.timeout
    && Abs(sample) >= THRESHOLD && Abs(p.previous) < THRESHOLD
  }

  /** One frame: listen first, then send if it is time. */
  function Tick(p: SoundProbe, sample: real): (SoundProbe, real) {
    var heard := Hears(p, sample);
    var delays := if heard then p.delays[p.emitted - 1 := p.frame - p.sentAt] else p.delays;
    var pending := p.pending && !heard && p.frame - p.sentAt <= p.timeout;
    var sends := p.frame % p.interval == 0 && p.emitted < |p.delays|;
    (if sends then Probe(p.interval, p.timeout, delays, p.frame + 1, p.frame, p.emitted + 1, true, sample)
     else Probe(p.interval, p.timeout, delays, p.frame + 1, p.sentAt, p.emitted, pending, sample),
     if sends then PULSE else 0.0)
  }

  function TickRun(p: SoundProbe, xs: seq<real>): (res: (SoundProbe, seq<real>))
    ensures |res.1| == |xs|
  {
    Run<SoundProbe, real, real>(Tick, p, xs)
  }

  predicate Done(p: Probe) {
    p.emitted == |p.delays| && p.frame > p.sentAt + p.interval
  }

  function Unheard(count: nat): (delays: seq<int>)
    ensures |delays| == count && forall k :: 0 <= k < count ==> delays[k] == -1
  {
    seq(count, k => -1)
  }

  function NewProbe(count: nat, rate: nat): SoundProbe
    requires rate >= 4
  {
    Probe(rate / 4, rate / 5, Unheard(count), 0, 0, 0, false, 0.0)
  }

  lemma TickNext(p: SoundProbe, xs: seq<real>, i: nat)
    requires i < |xs|
    ensures var before := TickRun(p, xs[..i]);
            var now := Tick(before.0, xs[i]);
            TickRun(p, xs[..i + 1]) == (now.0, before.1 + [now.1])
  {
    RunNext<SoundProbe, real, real>(Tick, p, xs, i);
  }

  // ---------------------------------------------------------------- the closed loop

  /** Pulse distance, listening time and number of pulses; a delay of d frames is m intervals and r frames. */
  datatype Setup = Setup(interval: nat, timeout: nat, count: nat, d: nat)
  {
    predicate Valid() {
      timeout < interval && d >= 1
    }

    function M(): nat
      requires Valid()
    {
      (d - 1) / interval
    }

    function R(): (r: nat)
      requires Valid()
      ensures 1 <= r <= interval
    {
      (d - 1) % interval + 1
    }
  }

  /** What is sent at frame f, and what comes back. */
  function Sent(s: Setup, f: int): real
    requires s.Valid()
  {
    if f >= 0 && f % s.interval == 0 && f / s.interval < s.count then PULSE else 0.0
  }

  function Echo(s: Setup, f: nat): real
    requires s.Valid()
  {
    Sent(s, f - s.d)
  }

  /** Pulse k is answered in time, with what is left of the delay after whole intervals. */
  predicate Answered(s: Setup, k: nat)
    requires s.Valid()
  {
    s.R() <= s.timeout && k >= s.M()
  }

  function Recorded(s: Setup, k: nat): int
    requires s.Valid()
  {
    if Answered(s, k) then s.R() else -1
  }

  /** Delays recorded after offset o of interval q. */
  function Records(s: Setup, q: nat, o: nat): (delays: seq<int>)
    requires s.Valid()
    ensures |delays| == s.count
  {
    seq(s.count, k requires 0 <= k < s.count =>
      if k < q || (k == q && o >= s.R()) then Recorded(s, k) else -1)
  }

  /** The probe after the frame at offset o of interval q. */
  function Then(s: Setup, q: nat, o: nat): Probe
    requires s.Valid() && o < s.interval
  {
    if q < s.count then
      Probe(s.interval, s.timeout, Records(s, q, o), q * s.interval + o + 1, q * s.interval, q + 1,
            o <= s.timeout && !(Answered(s, q) && o >= s.R()), Echo(s, q * s.interval + o))
    else
      Probe(s.interval, s.timeout, Records(s, q, o), q * s.interval + o + 1,
            if s.count == 0 then 0 else (s.count - 1) * s.interval, s.count, false, Echo(s, q * s.interval + o))
  }

  lemma Cancel(p: nat, q: nat, interval: nat)
    requires interval > 0 && p * interval == q * interval
    ensures p == q
  {
    assert (p - q) * interval == 0;
  }

  /** Whole intervals and an offset. */
  lemma Divided(q: nat, o: nat, interval: nat)
    requires o < interval
    ensures (q * interval + o) / interval == q && (q * interval + o) % interval == o
  {
    ChannelOf(q, o, interval);
    var f := q * interval + o;
    Cancel(f / interval, q, interval);
  }

  /** Where echoes are: only at the offset that the delay leaves over, and there from interval m on. */
  lemma EchoAt(s: Setup, q: nat, o: nat)
    requires s.Valid() && o < s.interval
    ensures Echo(s, q * s.interval + o) == PULSE || Echo(s, q * s.interval + o) == 0.0
    ensures o < s.interval && o != s.R() && (s.R() < s.interval || o > 0) ==> Echo(s, q * s.interval + o) == 0.0
    ensures o == s.R() ==> (Echo(s, q * s.interval + o) == PULSE <==> s.M() <= q < s.M() + s.count)
  {
    var i, m, r := s.interval, s.M(), s.R();
    assert s.d == m * i + r;
    var f := q * i + o - s.d;
    if q < m {
      FrameGap(q, m, i);
    } else {
      assert f == (q - m) * i + (o - r) by { assert q * i - m * i == (q - m) * i; }
      if o >= r {
        Divided(q - m, o - r, i);
      } else if q > m {
        NextFrame(q - m - 1, i);
        Divided(q - m - 1, o + i - r, i);
      }
    }
  }

  lemma FramesBefore(p: nat, q: nat, interval: nat)
    requires p <= q
    ensures p * interval <= q * interval
  {
    if p < q { FrameGap(p, q, interval); }
  }

  lemma ThenIsSound(s: Setup, q: nat, o: nat)
    requires s.Valid() && o < s.interval
    ensures Then(s, q, o).Valid()
  {
    if q >= s.count && s.count > 0 {
      FramesBefore(s.count - 1, q, s.interval);
    }
  }

  /** The next frame of the same interval. */
  lemma SameInterval(s: Setup, q: nat, o: nat)
    requires s.Valid() && o + 1 < s.interval
    ensures Then(s, q, o).Valid()
    ensures Tick(Then(s, q, o), Echo(s, q * s.interval + (o + 1))) == (Then(s, q, o + 1), 0.0)
  {
    ThenIsSound(s, q, o);
    EchoAt(s, q, o);
    EchoAt(s, q, o + 1);
    Divided(q, o + 1, s.interval);
    hide Echo;
    var p, x := Then(s, q, o), Echo(s, q * s.interval + (o + 1));
    assert p.frame == q * s.interval + (o + 1);
    if q < s.count {
      assert p.frame - p.sentAt == o + 1;
      assert Hears(p, x) <==> o + 1 == s.R() && Answered(s, q);
      assert Tick(p, x).0.delays == Records(s, q, o + 1);
    } else {
      assert Records(s, q, o) == Records(s, q, o + 1);
    }
  }

  /** The first frame of the next interval. */
  lemma NextInterval(s: Setup, q: nat)
    requires s.Valid()
    ensures Then(s, q, s.interval - 1).Valid()
    ensures Tick(Then(s, q, s.interval - 1), Echo(s, (q + 1) * s.interval + 0)) ==
            (Then(s, q + 1, 0), if q + 1 < s.count then PULSE else 0.0)
  {
    ThenIsSound(s, q, s.interval - 1);
    NextFrame(q, s.interval);
    Divided(q + 1, 0, s.interval);
    hide Echo;
    var p, x := Then(s, q, s.interval - 1), Echo(s, (q + 1) * s.interval + 0);
    assert p.frame == (q + 1) * s.interval;
    if q < s.count {
      assert p.frame - p.sentAt == s.interval;
    }
    assert Records(s, q, s.interval - 1) == Records(s, q + 1, 0);
  }

  /** The frames of a closed loop: what comes in is what went out d frames before. */
  ghost predicate ClosedLoop(p: SoundProbe, d: nat, inputs: seq<real>)
    requires d >= 1
  {
    forall t :: 0 <= t < |inputs| ==> inputs[t] == if t < d then 0.0 else TickRun(p, inputs).1[t - d]
  }

  function Begin(s: Setup): SoundProbe
    requires s.Valid()
  {
    Probe(s.interval, s.timeout, Unheard(s.count), 0, 0, 0, false, 0.0)
  }

  /** The very first frame. */
  lemma FirstFrame(s: Setup)
    requires s.Valid()
    ensures Echo(s, 0) == 0.0 && Tick(Begin(s), 0.0) == (Then(s, 0, 0), Sent(s, 0))
  {
    assert Records(s, 0, 0) == Unheard(s.count);
  }

  /** Interval and offset of frame f. */
  function Place(f: nat, interval: nat): (p: (nat, nat))
    requires interval > 0
    ensures p.1 < interval && p.0 * interval + p.1 == f
  {
    if f == 0 then (0, 0)
    else
      var p := Place(f - 1, interval);
      NextFrame(p.0, interval);
      if p.1 + 1 < interval then (p.0, p.1 + 1) else (p.0 + 1, 0)
  }

  /** The probe after frame f of the loop. */
  function ThenAt(s: Setup, f: nat): Probe
    requires s.Valid()
  {
    var p := Place(f, s.interval);
    Then(s, p.0, p.1)
  }

  /** One frame of the loop, at any time. */
  lemma LoopStep(s: Setup, f: nat)
    requires s.Valid()
    ensures ThenAt(s, f).Valid()
    ensures Tick(ThenAt(s, f), Echo(s, f + 1)) == (ThenAt(s, f + 1), Sent(s, f + 1))
  {
    hide Then, Tick, Echo;
    var p := Place(f, s.interval);
    if p.1 + 1 < s.interval {
      SameInterval(s, p.0, p.1);
      Divided(p.0, p.1 + 1, s.interval);
    } else {
      NextInterval(s, p.0);
      Divided(p.0 + 1, 0, s.interval);
    }
  }

  lemma RunPrefix(p: SoundProbe, xs: seq<real>, n: nat)
    requires n <= |xs|
    ensures TickRun(p, xs).1[..n] == TickRun(p, xs[..n]).1
  {
    RunAppend<SoundProbe, real, real>(Tick, p, xs[..n], xs[n..]);
    assert xs[..n] + xs[n..] == xs;
  }

  lemma FirstPlace(s: Setup)
    requires s.Valid()
    ensures ThenAt(s, 0) == Then(s, 0, 0)
  {
  }

  lemma NoTicks(p: SoundProbe)
    ensures TickRun(p, []) == (p, [])
  {
  }

  /** A probe that hears its own echoes, frame by frame: where it is, and what it has sent. */
  lemma {:induction false} EchoState(s: Setup, inputs: seq<real>, n: nat)
    requires s.Valid() && n <= |inputs| && forall t :: 0 <= t < n ==> inputs[t] == Echo(s, t)
    ensures n > 0 ==> TickRun(Begin(s), inputs[..n]).0 == ThenAt(s, n - 1)
    ensures forall t :: 0 <= t < n ==> TickRun(Begin(s), inputs).1[t] == Sent(s, t)
    decreases n
  {
    hide Tick, ThenAt, Sent, Begin;
    FirstPlace(s);
    if n > 0 {
      EchoState(s, inputs, n - 1);
      TickNext(Begin(s), inputs, n - 1);
      RunPrefix(Begin(s), inputs, n);
      var t := n - 1;
      FirstFrame(s);
      if t == 0 {
        assert inputs[..0] == [];
        NoTicks(Begin(s));
      } else {
        LoopStep(s, t - 1);
      }
      assert TickRun(Begin(s), inputs).1[t] == TickRun(Begin(s), inputs[..n]).1[t];
    }
  }

  /** In a closed loop, what comes in is echoes. */
  lemma {:induction false} LoopEchoes(s: Setup, inputs: seq<real>, n: nat)
    requires s.Valid() && ClosedLoop(Begin(s), s.d, inputs) && n <= |inputs|
    ensures forall t :: 0 <= t < n ==> inputs[t] == Echo(s, t)
    decreases n
  {
    hide Begin, TickRun;
    if n > 0 {
      LoopEchoes(s, inputs, n - 1);
      EchoState(s, inputs, n - 1);
    }
  }

  lemma LoopState(s: Setup, inputs: seq<real>, n: nat)
    requires s.Valid() && ClosedLoop(Begin(s), s.d, inputs) && n <= |inputs|
    ensures n > 0 ==> TickRun(Begin(s), inputs[..n]).0 == ThenAt(s, n - 1)
  {
    LoopEchoes(s, inputs, n);
    EchoState(s, inputs, n);
  }

  /** For every delay there is a closed loop of any length. */
  lemma LoopExists(s: Setup, n: nat)
    requires s.Valid()
    ensures ClosedLoop(Begin(s), s.d, seq(n, t requires 0 <= t < n => Echo(s, t)))
  {
    EchoState(s, seq(n, t requires 0 <= t < n => Echo(s, t)), n);
    hide Begin, TickRun;
  }

  lemma DoneAt(s: Setup, f: nat)
    requires s.Valid()
    ensures Done(ThenAt(s, f)) <==> f + 1 > (if s.count == 0 then 1 else s.count) * s.interval
  {
    hide Echo, Records;
    var p := Place(f, s.interval);
    if p.0 < s.count {
      FramesBefore(p.0 + 1, s.count, s.interval);
      NextFrame(p.0, s.interval);
    } else if s.count > 0 {
      FramesBefore(s.count, p.0, s.interval);
      NextFrame(s.count - 1, s.interval);
    }
  }

  /** In the loop, `done` becomes true for good right after the interval of the last pulse is over. */
  lemma DoneExactlyWhen(s: Setup, inputs: seq<real>, n: nat)
    requires s.Valid() && ClosedLoop(Begin(s), s.d, inputs) && n <= |inputs|
    ensures Done(TickRun(Begin(s), inputs[..n]).0) <==> n > (if s.count == 0 then 1 else s.count) * s.interval
  {
    LoopState(s, inputs, n);
    if n == 0 {
      assert inputs[..0] == [];
      NoTicks(Begin(s));
    } else {
      hide TickRun, ClosedLoop;
      DoneAt(s, n - 1);
    }
  }

  /** Once done, pulse k has recorded the delay left over after whole intervals, if that is at most the timeout and
      if pulse k is not too early to hear one; otherwise it still says -1. */
  lemma Verdict(s: Setup, inputs: seq<real>)
    requires s.Valid() && ClosedLoop(Begin(s), s.d, inputs) && |inputs| > s.count * s.interval && |inputs| > 0
    ensures var delays := TickRun(Begin(s), inputs).0.delays;
            |delays| == s.count && forall k :: 0 <= k < s.count ==> delays[k] == Recorded(s, k)
  {
    LoopState(s, inputs, |inputs|);
    assert inputs[..|inputs|] == inputs;
    hide TickRun, ClosedLoop, Echo;
    var p := Place(|inputs| - 1, s.interval);
    if p.0 < s.count {
      FramesBefore(p.0 + 1, s.count, s.interval);
      NextFrame(p.0, s.interval);
    }
  }

  /** A delay of at most one interval is left over whole; a longer one leaves less. */
  lemma Short(s: Setup)
    requires s.Valid()
    ensures if s.d <= s.interval then s.M() == 0 && s.R() == s.d else s.R() < s.d && s.timeout < s.d
  {
  }

  lemma RecordedAll(s: Setup, delays: seq<int>)
    requires s.Valid() && s.count > 0 && |delays| == s.count && forall k :: 0 <= k < s.count ==>
             delays[k] == Recorded(s, k)
    ensures (forall k :: 0 <= k < s.count ==> delays[k] == s.d) <==> s.d <= s.timeout
    ensures s.timeout < s.d <= s.interval ==> forall k :: 0 <= k < s.count ==> delays[k] == -1
    ensures forall k :: 0 <= k < s.count ==> delays[k] == -1 || delays[k] == s.R()
  {
    Short(s);
    hide Setup.M, Setup.R;
    assert delays[0] == Recorded(s, 0);
  }

  /** Through any pure delay of d frames: every pulse records exactly d if and only if d is at most the timeout.
      A delay between timeout and interval is never mistaken for anything; a longer one either is not heard
      either, or is heard as what it leaves over after whole intervals. */
  lemma ExactIffInTime(count: nat, rate: nat, d: nat, inputs: seq<real>)
    requires rate >= 20 && d >= 1 && count > 0
    requires ClosedLoop(NewProbe(count, rate), d, inputs) && |inputs| > count * (rate / 4)
    ensures var p := TickRun(NewProbe(count, rate), inputs).0;
            && Done(p) && |p.delays| == count
            && ((forall k :: 0 <= k < count ==> p.delays[k] == d) <==> d <= rate / 5)
            && (rate / 5 < d <= rate / 4 ==> forall k :: 0 <= k < count ==> p.delays[k] == -1)
            && forall k :: 0 <= k < count ==> p.delays[k] == -1 || p.delays[k] == (d - 1) % (rate / 4) + 1
  {
    var s := Setup(rate / 4, rate / 5, count, d);
    assert Begin(s) == NewProbe(count, rate);
    hide TickRun, ClosedLoop, Done;
    assert inputs[..|inputs|] == inputs;
    Verdict(s, inputs);
    DoneExactlyWhen(s, inputs, |inputs|);
    RecordedAll(s, TickRun(Begin(s), inputs).0.delays);
  }

  // ---------------------------------------------------------------- the object

  function Received(input: Option<seq<real>>, frames: nat): (xs: seq<real>)
    requires input.Some? ==> frames <= |input.value|
    ensures |xs| == frames
  {
    if input.Some? then input.value[..frames] else seq(frames, i => 0.0)
  }

  class LoopbackProbe {
    const delays: array<int>
    const interval: nat
    const timeout: nat
    var frame: nat
    var sentAt: nat
    var emitted: nat
    var pending: bool
    var previous: real

    ghost predicate Valid()
      reads this
    {
      interval > 0 && emitted <= delays.Length && sentAt <= frame && (pending ==> emitted > 0)
    }

    ghost function View(): SoundProbe
      requires Valid()
      reads this, delays
    {
      Probe(interval, timeout, delays[..], frame, sentAt, emitted, pending, previous)
    }

    constructor (count: nat, rate: nat)
      requires rate >= 4
      ensures Valid() && fresh(delays) && View() == NewProbe(count, rate)
    {
      delays := new int[count](k => -1);
      interval, timeout := rate / 4, rate / 5;
      frame, sentAt, emitted, pending, previous := 0, 0, 0, false, 0.0;
    }

    /** One frame. */
    method ProcessFrame(sample: real) returns (out: real)
      requires Valid()
      modifies this, delays
      ensures Valid() && (View(), out) == Tick(old(View()), sample)
    {
      if pending && frame > sentAt && frame - sentAt <= timeout && Abs(sample) >= THRESHOLD &&
        Abs(previous) < THRESHOLD {
        delays[emitted - 1] := frame - sentAt;
        pending := false;
      }
      if pending && frame - sentAt > timeout {
        pending := false;
      }
      previous := sample;
      out := 0.0;
      if frame % interval == 0 && emitted < delays.Length {
        out := PULSE;
        sentAt := frame;
        emitted := emitted + 1;
        pending := true;
      }
      frame := frame + 1;
    }

    /** A block; without input it hears silence. */
    method Process(input: array?<real>, output: array<real>, frames: nat)
      requires Valid() && (input != null ==> frames <= input.Length) && frames <= output.Length
      modifies this, delays, output
      ensures Valid()
      ensures TickRun(old(View()), Received(old(if input == null then None else Some(input[..])), frames)) ==
              (View(), output[..frames])
      ensures output[frames..] == old(output[frames..])
    {
      hide Tick;
      ghost var xs := Received(if input == null then None else Some(input[..]), frames);
      ghost var tail := output[frames..];
      NoTicks(View());
      assert xs[..0] == [] && output[..0] == [];
      for i := 0 to frames
        invariant Valid() && TickRun(old(View()), xs[..i]) == (View(), output[..i])
        invariant output[frames..] == tail
        invariant input != null ==> forall k :: i <= k < frames ==> input[k] == xs[k]
      {
        TickNext(old(View()), xs, i);
        ghost var done := output[..i];
        var sample := if input != null then input[i] else 0.0;
        var out := ProcessFrame(sample);
        output[i] := out;
        assert output[..i + 1] == done + [out];
      }
      assert xs[..frames] == xs;
    }

    predicate IsDone()
      requires Valid()
      reads this, delays
      ensures IsDone() <==> Done(View())
    {
      emitted == delays.Length && frame > sentAt + interval
    }
  }

  /** Blocks may be cut anywhere. */
  lemma BlocksDoNotMatter(p: SoundProbe, xs: seq<real>, ys: seq<real>)
    ensures var head := TickRun(p, xs);
            var tail := TickRun(head.0, ys);
            TickRun(p, xs + ys) == (tail.0, head.1 + tail.1)
  {
    RunAppend<SoundProbe, real, real>(Tick, p, xs, ys);
  }
}
