/** The complexity controller: block timings in, complexity level out (src/audio/ComplexityController.h,
    src/audio/ComplexityController.cpp). */
module Watchdogs {
  import opened RealFacts
  import opened Floats
  import opened Percentiles
  import opened RingBuffers

  const TIMINGS: nat := 4096
  const RECOVERIES: nat := 10

  datatype Timing = Timing(cost: Float, budget: Float)

  /** What the setters set: gains, the share of the deadline to aim for, the poll period. */
  datatype Tuning = Tuning(kp: real, ki: real, kd: real, fraction: real, pollMs: nat)
  {
    predicate Valid() {
      && 0.0 <= kp <= 2.0 && 0.0 <= ki <= 2.0 && 0.0 <= kd <= 2.0
      && 0.1 <= fraction <= 0.9 && 10 <= pollMs <= 1000
    }
  }

  type SoundTuning = t: Tuning | t.Valid() witness Tuning(0.5, 0.01, 0.1, 0.6, 100)

  /** What the control loop remembers between polls. */
  datatype Control = Control(integral: real, previous: real, recovery: nat, havePrevious: bool)

  function Reset(): Control {
    Control(0.0, 0.0, 0, false)
  }

  function Ceil(x: real): int {
    -((-x).Floor)
  }

  /** Positive while there is time to spare. The ratio is clamped to [0, 10]. */
  function Error(t: Tuning, ratio: real): real {
    t.fraction - Clamp(ratio, 0.0, 10.0)
  }

  function Seconds(t: Tuning): real {
    t.pollMs as real / 1000.0
  }

  /** Conditional anti-windup: the integral does not run on while the level cannot follow. */
  function Integrated(t: Tuning, integral: real, error: real, level: nat): real {
    if (level == 0 && error < 0.0) || (level == 255 && error > 0.0) then integral
    else Clamp(integral + error * Seconds(t), -1.0, 1.0)
  }

  function Derivative(t: SoundTuning, c: Control, error: real): real {
    if c.havePrevious then (error - c.previous) / Seconds(t) else 0.0
  }

  /** Controller output in levels. */
  function Output(kp: real, ki: real, kd: real, error: real, integral: real, derivative: real): real {
    255.0 * (kp * error + ki * integral + kd * derivative)
  }

  function Effort(t: SoundTuning, c: Control, error: real, integral: real): real {
    Output(t.kp, t.ki, t.kd, error, integral, Derivative(t, c, error))
  }

  function ClampLevel(x: int): (n: nat)
    ensures n <= 255
  {
    if x < 0 then 0 else if x > 255 then 255 else x
  }

  /** One control step on a clamped error: down by 1 to 32 levels when over target, up by 1 to 4 after ten steps
      with at least a tenth of the deadline to spare, otherwise nothing. */
  function Steer(t: SoundTuning, c: Control, level: nat, error: real): (Control, nat)
    requires level <= 255
  {
    var integral := Integrated(t, c.integral, error, level);
    var effort := Effort(t, c, error, integral);
    if error < 0.0 then (Control(integral, error, 0, true), ClampLevel(level + Clamp(effort, -32.0, -1.0).Floor))
    else if error > 0.1 then
      if c.recovery + 1 >= RECOVERIES
      then (Control(0.0, error, 0, true), ClampLevel(level + Ceil(Clamp(effort, 1.0, 4.0))))
      else (Control(integral, error, c.recovery + 1, true), level)
    else (Control(0.0, error, 0, true), level)
  }

  /** `update`: measurements that are no use reset the loop and leave the level alone. */
  function Regulate(t: SoundTuning, c: Control, level: nat, manual: bool, cost: Float, budget: Float): (Control, nat)
    requires level <= 255
  {
    if manual || !cost.Finite? || !budget.Finite? || budget.value <= 0.0 || cost.value < 0.0 then (Reset(), level)
    else Steer(t, c, level, Error(t, cost.value / budget.value))
  }

  // ---------------------------------------------------------------- polls

  predicate Usable(s: Timing) {
    s.cost.Finite? && s.budget.Finite? && s.cost.value >= 0.0 && s.budget.value > 0.0
  }

  function Costs(batch: seq<Timing>): (cs: seq<real>) {
    if |batch| == 0 then []
    else if Usable(batch[|batch| - 1]) then Costs(batch[..|batch| - 1]) + [batch[|batch| - 1].cost.value]
    else Costs(batch[..|batch| - 1])
  }

  function Ratios(batch: seq<Timing>): (rs: seq<real>)
    ensures |rs| == |Costs(batch)| <= |batch|
    ensures forall r :: r in rs ==> r >= 0.0
  {
    if |batch| == 0 then []
    else if Usable(batch[|batch| - 1]) then
      var s := batch[|batch| - 1];
      SignOfFactor(s.cost.value / s.budget.value, s.budget.value);
      Ratios(batch[..|batch| - 1]) + [s.cost.value / s.budget.value]
    else Ratios(batch[..|batch| - 1])
  }

  /** The controller between polls: loop state, level, drops already seen, and what it publishes. */
  datatype Watch = Watch(control: Control, level: nat, seenDrops: nat, p99: real, p999: real, samples: nat)
  {
    predicate Valid() {
      level <= 255
    }
  }

  type SoundWatch = w: Watch | w.Valid() witness Watch(Reset(), 128, 0, 0.0, 0.0, 0)

  /** What a poll finds: the timings that were waiting, the drop counter, and the manual switch. */
  datatype PollInput = PollInput(batch: seq<Timing>, drops: nat, manual: bool)

  lemma SteerKeepsLevel(t: SoundTuning, c: Control, level: nat, error: real)
    requires level <= 255
    ensures Steer(t, c, level, error).1 <= 255
  {
    hide Effort, Integrated;
  }

  /** A poll without usable timings publishes zeros and resets the loop. Otherwise a drop not seen before resets
      the loop first, and the 99th percentile of the per-block ratios steers. */
  function PollOnce(t: SoundTuning, w: SoundWatch, p: PollInput): (r: SoundWatch) {
    var costs, ratios := Costs(p.batch), Ratios(p.batch);
    if |costs| == 0 then w.(control := Reset(), p99 := 0.0, p999 := 0.0, samples := 0)
    else
      var c := if p.drops != w.seenDrops then Reset() else w.control;
      var u := Regulate(t, c, w.level, p.manual, Finite(NearestRank(ratios, 99, 100)), Finite(1.0));
      SteerKeepsLevel(t, c, w.level, Error(t, NearestRank(ratios, 99, 100) / 1.0));
      Watch(u.0, u.1, p.drops, NearestRank(costs, 99, 100), NearestRank(costs, 999, 1000), |costs|)
  }

  /** The watch after the first n polls. */
  function After(t: SoundTuning, w: SoundWatch, polls: seq<PollInput>, n: nat): SoundWatch
    requires n <= |polls|
  {
    if n == 0 then w else PollOnce(t, After(t, w, polls, n - 1), polls[n - 1])
  }

  // ---------------------------------------------------------------- the object

  function Bounded(x: Float): real {
    if x.Finite? then Clamp(x.value, 0.0, 2.0) else 0.0
  }

  function ClampInt(x: int, lo: int, hi: int): int {
    if x < lo then lo else if hi < x then hi else x
  }

  lemma PollOfNothing(t: SoundTuning, w: SoundWatch, p: PollInput)
    requires Costs(p.batch) == []
    ensures PollOnce(t, w, p) == w.(control := Reset(), p99 := 0.0, p999 := 0.0, samples := 0)
  {
  }

  lemma CollectNothing()
    ensures Costs([]) == [] && Ratios([]) == []
  {
  }

  lemma CollectNext(all: seq<Timing>, i: nat)
    requires i < |all|
    ensures Costs(all[..i + 1]) == if Usable(all[i]) then Costs(all[..i]) + [all[i].cost.value] else Costs(all[..i])
    ensures Ratios(all[..i + 1]) == if Usable(all[i]) then Ratios(all[..i]) + [all[i].cost.value / all[i].budget.value]
            else Ratios(all[..i])
  {
    assert all[..i + 1][..i] == all[..i];
  }

  lemma UsableMeans(s: Timing)
    requires Usable(s)
    ensures s.cost.Finite? && s.budget.Finite? && s.budget.value > 0.0
  {
  }

  class ComplexityController {
    const timings: RingBuffer<Timing>
    var level: nat
    var manual: bool
    var drops: nat
    var missed: nat
    var p99: real
    var p999: real
    var samples: nat
    var kp: real
    var ki: real
    var kd: real
    var fraction: real
    var pollMs: nat
    var integral: real
    var previous: real
    var recovery: nat
    var havePrevious: bool
    var seenDrops: nat

    ghost predicate Valid()
      reads this, timings
    {
      && this !in timings.Repr() && timings.Valid() && timings.buffer.Length == TIMINGS
      && level <= 255 && Tuning(kp, ki, kd, fraction, pollMs).Valid()
    }

    ghost function TuningView(): SoundTuning
      requires Valid()
      reads this, timings
    {
      Tuning(kp, ki, kd, fraction, pollMs)
    }

    ghost function ControlView(): Control
      reads this
    {
      Control(integral, previous, recovery, havePrevious)
    }

    ghost function View(): SoundWatch
      requires Valid()
      reads this, timings
    {
      Watch(ControlView(), level, seenDrops, p99, p999, samples)
    }

    constructor (q: RingBuffer<Timing>)
      requires q.Valid() && q.buffer.Length == TIMINGS
      ensures Valid() && timings == q && TuningView() == Tuning(0.5, 0.01, 0.1, 0.6, 100)
      ensures View() == Watch(Reset(), 128, 0, 0.0, 0.0, 0) && drops == missed == 0 && !manual
    {
      timings := q;
      level, manual, drops, missed, p99, p999, samples := 128, false, 0, 0, 0.0, 0.0, 0;
      kp, ki, kd, fraction, pollMs := 0.5, 0.01, 0.1, 0.6, 100;
      integral, previous, recovery, havePrevious, seenDrops := 0.0, 0.0, 0, false, 0;
    }

    method SetGains(p: Float, i: Float, d: Float)
      requires Valid()
      modifies this`kp, this`ki, this`kd
      ensures Valid() && TuningView() == old(TuningView()).(kp := Bounded(p), ki := Bounded(i), kd := Bounded(d))
    {
      kp, ki, kd := Bounded(p), Bounded(i), Bounded(d);
    }

    method SetPollInterval(ms: nat)
      requires Valid()
      modifies this`pollMs
      ensures Valid() && TuningView() == old(TuningView()).(pollMs := ClampInt(ms, 10, 1000))
    {
      pollMs := ClampInt(ms, 10, 1000);
    }

    method SetTargetFraction(x: Float)
      requires Valid()
      modifies this`fraction
      ensures Valid() && TuningView() ==
              old(TuningView()).(fraction := if x.Finite? then Clamp(x.value, 0.1, 0.9) else 0.6)
    {
      fraction := if x.Finite? then Clamp(x.value, 0.1, 0.9) else 0.6;
    }

    /** From the audio thread, once per block: a block that took longer than it lasts is counted, and its timing
        is queued or counted as dropped. */
    method Record(cost: Float, budget: Float)
      requires Valid()
      modifies this`missed, this`drops, timings.Repr()
      ensures Valid() && missed == old(missed) + (if Greater(cost, budget) then 1 else 0)
      ensures |old(timings.Contents())| < TIMINGS - 1 ==>
                timings.Contents() == old(timings.Contents()) + [Timing(cost, budget)] && drops == old(drops)
      ensures |old(timings.Contents())| == TIMINGS - 1 ==>
                timings.Contents() == old(timings.Contents()) && drops == old(drops) + 1
    {
      if Greater(cost, budget) { missed := missed + 1; }
      var ok := timings.TryPush(Timing(cost, budget));
      if !ok { drops := drops + 1; }
    }

    method ResetControl()
      modifies this`integral, this`previous, this`recovery, this`havePrevious
      ensures ControlView() == Reset()
    {
      integral, previous := 0.0, 0.0;
      recovery := 0;
      havePrevious := false;
    }

    /** The terms of the controller output. */
    method Act(error: real) returns (effort: real)
      requires Valid()
      modifies this`integral, this`previous, this`havePrevious
      ensures Valid() && previous == error && havePrevious
      ensures integral == Integrated(TuningView(), old(integral), error, level)
      ensures effort == Effort(TuningView(), old(ControlView()), error, integral)
    {
      var dt := pollMs as real / 1000.0;
      assert dt == Seconds(TuningView());
      var derivative := if havePrevious then (error - previous) / dt else 0.0;
      assert derivative == Derivative(TuningView(), ControlView(), error);
      hide Derivative, Output, Clamp, Seconds;
      previous := error;
      havePrevious := true;
      if !((level == 0 && error < 0.0) || (level == 255 && error > 0.0)) {
        integral := Clamp(integral + error * dt, -1.0, 1.0);
      }
      effort := Output(kp, ki, kd, error, integral, derivative);
    }

    method Update(cost: Float, budget: Float)
      requires Valid()
      modifies this`integral, this`previous, this`recovery, this`havePrevious, this`level
      ensures Valid() && TuningView() == old(TuningView())
      ensures (ControlView(), level) == Regulate(TuningView(), old(ControlView()), old(level), manual, cost, budget)
    {
      if manual || !cost.Finite? || !budget.Finite? || budget.value <= 0.0 || cost.value < 0.0 {
        ResetControl();
        return;
      }
      var error := fraction - Clamp(cost.value / budget.value, 0.0, 10.0);
      assert error == Error(TuningView(), cost.value / budget.value);
      hide Integrated, Effort, Error;
      var effort := Act(error);
      var delta := 0;
      if error < 0.0 {
        recovery := 0;
        delta := Clamp(effort, -32.0, -1.0).Floor;
      } else if error > 0.1 {
        recovery := recovery + 1;
        if recovery >= RECOVERIES {
          delta := Ceil(Clamp(effort, 1.0, 4.0));
          recovery := 0;
          integral := 0.0;
        }
      } else {
        recovery := 0;
        integral := 0.0;
      }
      level := ClampLevel(level + delta);
    }

    /** Before the worker runs: stale timings are thrown away, and the loop starts again. */
    method Start()
      requires Valid()
      modifies this`integral, this`previous, this`recovery, this`havePrevious, this`seenDrops, timings`readIdx
      ensures Valid() && timings.Contents() == [] && ControlView() == Reset() && seenDrops == drops
    {
      hide RingBuffer.Contents;
      var ok, stale := timings.TryPop(Timing(Finite(0.0), Finite(0.0)));
      while ok
        invariant Valid()
        invariant !ok ==> timings.Contents() == []
        decreases |timings.Contents()|, ok
      {
        ok, stale := timings.TryPop(stale);
      }
      ResetControl();
      seenDrops := drops;
    }

    /** One usable timing. */
    static method Keep(costs: array<real>, ratios: array<real>, n: nat, cost: real, ratio: real)
      requires costs != ratios && n < costs.Length && n < ratios.Length
      modifies costs, ratios
      ensures costs[..n + 1] == old(costs[..n]) + [cost] && ratios[..n + 1] == old(ratios[..n]) + [ratio]
    {
      costs[n] := cost;
      ratios[n] := ratio;
    }

    /** Take the timings that were waiting when the poll began, at most 4095, and keep the usable ones. */
    method Collect(costs: array<real>, ratios: array<real>) returns (n: nat)
      requires Valid() && costs != ratios && costs.Length == ratios.Length == TIMINGS
      requires costs !in timings.Repr() && ratios !in timings.Repr()
      modifies timings`readIdx, costs, ratios
      ensures Valid() && timings.Contents() == [] && n < TIMINGS
      ensures costs[..n] == Costs(old(timings.Contents())) && ratios[..n] == Ratios(old(timings.Contents()))
    {
      hide RingBuffer.Contents, Ratios, Costs, Usable;
      ghost var all := timings.Contents();
      CollectNothing();
      n := 0;
      assert costs[..0] == [] && ratios[..0] == [] && all[..0] == [];
      var sample := Timing(Finite(0.0), Finite(0.0));
      var available := timings.Available();
      for i := 0 to available
        invariant Valid() && n <= i && timings.Contents() == all[i..]
        invariant costs[..n] == Costs(all[..i]) && ratios[..n] == Ratios(all[..i])
      {
        var ok;
        ok, sample := timings.TryPop(sample);
        assert ok && sample == all[i];
        CollectNext(all, i);
        if Usable(sample) {
          UsableMeans(sample);
          Keep(costs, ratios, n, sample.cost.value, sample.cost.value / sample.budget.value);
          n := n + 1;
        }
      }
      assert all[..available] == all;
    }

    /** Nothing usable: publish zeros, reset. */
    method PollNothing()
      requires Valid()
      modifies this
      ensures Valid() && TuningView() == old(TuningView()) && drops == old(drops) && manual == old(manual) &&
              missed == old(missed)
      ensures View() == old(View()).(control := Reset(), p99 := 0.0, p999 := 0.0, samples := 0)
    {
      p99, p999, samples := 0.0, 0.0, 0;
      ResetControl();
    }

    /** Sort, publish the percentiles, and steer by the 99th of the ratios. A truncated window, in which timings
        were dropped, cannot justify raising the level. */
    method PollSome(costs: seq<real>, ratios: seq<real>, ghost batch: seq<Timing>)
      requires Valid() && costs == Costs(batch) && ratios == Ratios(batch) && |costs| > 0
      modifies this
      ensures Valid() && TuningView() == old(TuningView()) && drops == old(drops) && manual == old(manual) &&
              missed == old(missed)
      ensures View() == PollOnce(TuningView(), old(View()), PollInput(batch, drops, manual))
    {
      hide Costs, Ratios, Sort, Rank, Regulate;
      samples := |costs|;
      var sorted := Sort(costs);
      p99, p999 := sorted[Rank(99, 100, |costs|) - 1], sorted[Rank(999, 1000, |costs|) - 1];
      if drops != seenDrops {
        ResetControl();
        seenDrops := drops;
      }
      var ratio := Sort(ratios)[Rank(99, 100, |ratios|) - 1];
      Update(Finite(ratio), Finite(1.0));
    }

    method Poll()
      requires Valid()
      modifies this, timings`readIdx
      ensures Valid() && timings.Contents() == []
      ensures TuningView() == old(TuningView()) && drops == old(drops) && manual == old(manual) && missed == old(missed)
      ensures View() == PollOnce(TuningView(), old(View()), PollInput(old(timings.Contents()), drops, manual))
    {
      hide RingBuffer.Contents, Costs, Ratios, PollOnce;
      ghost var batch := timings.Contents();
      if Costs(batch) == [] {
        PollOfNothing(TuningView(), View(), PollInput(batch, drops, manual));
      }
      var costs := new real[TIMINGS](i => 0.0);
      var ratios := new real[TIMINGS](i => 0.0);
      var n := Collect(costs, ratios);
      if n == 0 {
        PollNothing();
      } else {
        PollSome(costs[..n], ratios[..n], batch);
      }
    }
  }
}
