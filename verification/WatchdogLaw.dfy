/** The control law of the complexity controller, over the history of polls: proportional, integral and derivative
    terms of the measured errors (src/audio/ComplexityController.cpp:37-55). */
module WatchdogLaw {
  import opened RealFacts
  import opened Percentiles
  import opened Watchdogs
  import opened WatchdogTheorems

  /** The share of the deadline that poll p leaves to spare, measured against the target; ratios above ten count
      as ten. */
  function Spared(t: SoundTuning, p: PollInput): real
    requires |Costs(p.batch)| > 0
  {
    t.fraction - if Ratio(p) > 10.0 then 10.0 else Ratio(p)
  }

  /** Seconds between polls. */
  function Period(t: SoundTuning): (d: real)
    ensures d > 0.0
  {
    t.pollMs as real / 1000.0
  }

  predicate Measured(polls: seq<PollInput>) {
    forall i :: 0 <= i < |polls| ==> |Costs(polls[i].batch)| > 0
  }

  /** e_0 + .. + e_(n-1) */
  function Total(t: SoundTuning, polls: seq<PollInput>, n: nat): real
    requires Measured(polls) && n <= |polls|
  {
    if n == 0 then 0.0 else Total(t, polls, n - 1) + Spared(t, polls[n - 1])
  }

  function Limited(x: real): real {
    if x < -1.0 then -1.0 else if x > 1.0 then 1.0 else x
  }

  /** The integral in the making: what it was and the period times the sum of errors, kept to [-1, 1]. */
  function Making(t: SoundTuning, before: real, total: real): real {
    Limited(before + Period(t) * total)
  }

  /** The integral term goes on from what it was, and keeps to [-1, 1]. */
  function Kept(t: SoundTuning, w: SoundWatch, polls: seq<PollInput>, n: nat): real
    requires Measured(polls) && n <= |polls|
  {
    Making(t, w.control.integral, Total(t, polls, n))
  }

  function Rise(t: SoundTuning, e: real, before: real): real {
    (e - before) / Period(t)
  }

  /** The slope of the error; after a reset there is none at the first poll. */
  function Slope(t: SoundTuning, w: SoundWatch, polls: seq<PollInput>, n: nat): real
    requires Measured(polls) && n < |polls|
  {
    if n > 0 then Rise(t, Spared(t, polls[n]), Spared(t, polls[n - 1]))
    else if w.control.havePrevious then Rise(t, Spared(t, polls[0]), w.control.previous)
    else 0.0
  }

  /** The three terms together, in levels. */
  function Drive(t: SoundTuning, e: real, integral: real, slope: real): real {
    255.0 * (t.kp * e + t.ki * integral + t.kd * slope)
  }

  /** The law, in levels: 255 (kp e_n + ki (I + T (e_0 + .. + e_n)) + kd (e_n - e_(n-1)) / T), where I is the integral
      before, and the sum is clamped. */
  function Pid(t: SoundTuning, w: SoundWatch, polls: seq<PollInput>, n: nat): real
    requires Measured(polls) && n < |polls|
  {
    Drive(t, Spared(t, polls[n]), Kept(t, w, polls, n + 1), Slope(t, w, polls, n))
  }

  // ---------------------------------------------------------------- one poll

  /** No manual control, and no drop that was not seen before. */
  predicate Automatic(w: SoundWatch, polls: seq<PollInput>) {
    forall i :: 0 <= i < |polls| ==> !polls[i].manual && polls[i].drops == w.seenDrops
  }

  lemma ErrorIsSpared(t: SoundTuning, p: PollInput)
    requires |Costs(p.batch)| > 0
    ensures Error(t, Ratio(p)) == Spared(t, p) && Ratio(p) / 1.0 == Ratio(p) >= 0.0
  {
    hide Ratio, Costs;
    RatioNotNegative(p);
    ErrorMeans(t, Ratio(p));
  }

  lemma PollSteers(t: SoundTuning, w: SoundWatch, p: PollInput)
    requires |Costs(p.batch)| > 0 && !p.manual && p.drops == w.seenDrops
    ensures var r := PollOnce(t, w, p);
            && (r.control, r.level) == Steer(t, w.control, w.level, Spared(t, p)) && r.seenDrops == w.seenDrops
  {
    hide Costs, Ratios, Steer, Error, Spared, NearestRank;
    ErrorIsSpared(t, p);
  }

  function Raised(t: SoundTuning, integral: real, e: real): real {
    Clamp(integral + e * Period(t), -1.0, 1.0)
  }

  /** The integral after one more error. */
  function Gathered(t: SoundTuning, c: Control, level: nat, e: real): real {
    if (level == 0 && e < 0.0) || (level == 255 && e > 0.0) then c.integral else Raised(t, c.integral, e)
  }

  /** One control step in these terms. */
  lemma SteerLaw(t: SoundTuning, c: Control, level: nat, e: real)
    requires level <= 255
    ensures var i := Gathered(t, c, level, e);
            var u := Drive(t, e, i, if c.havePrevious then Rise(t, e, c.previous) else 0.0);
            var s := Steer(t, c, level, e);
            && (e < 0.0 ==> s == (Control(i, e, 0, true), ClampLevel(level + Clamp(u, -32.0, -1.0).Floor)))
            && (e > 0.1 && c.recovery + 1 < RECOVERIES ==> s == (Control(i, e, c.recovery + 1, true), level))
            && (e > 0.1 && c.recovery + 1 >= RECOVERIES ==>
                  s == (Control(0.0, e, 0, true), ClampLevel(level + Ceil(Clamp(u, 1.0, 4.0)))))
  {
    assert Seconds(t) == Period(t);
    var i := Gathered(t, c, level, e);
    assert i == Integrated(t, c.integral, e, level);
    assert Effort(t, c, e, i) == Drive(t, e, i, if c.havePrevious then Rise(t, e, c.previous) else 0.0);
    hide Effort, Drive, Gathered, Integrated, Clamp;
  }

  // ---------------------------------------------------------------- runs of polls

  lemma SparedSigns(t: SoundTuning, p: PollInput)
    ensures Overloaded(t, p) ==> |Costs(p.batch)| > 0 && Spared(t, p) < 0.0
    ensures Spare(t, p) ==> |Costs(p.batch)| > 0 && Spared(t, p) > 0.1
  {
  }

  /** Adding to a clamped sum and clamping again is adding and clamping once, as long as all that is added has one
      sign. */
  lemma ClampOnce(before: real, total: real, d: real, more: real)
    requires Abs(before) <= 1.0 && (more == total + d)
    requires (total <= 0.0 && d <= 0.0) || (total >= 0.0 && d >= 0.0)
    ensures Clamp(Clamp(before + total, -1.0, 1.0) + d, -1.0, 1.0) == Clamp(before + more, -1.0, 1.0)
  {
  }

  lemma TermSign(p: real, e: real, total: real)
    requires p > 0.0
    ensures p * (total + e) == p * total + p * e && e * p == p * e
    ensures e < 0.0 ==> p * e < 0.0
    ensures e > 0.0 ==> p * e > 0.0
  {
    SignOfFactor(e, p);
    SignOfFactor(-e, p);
  }

  lemma {:induction false} TotalSign(t: SoundTuning, polls: seq<PollInput>, n: nat)
    requires Measured(polls) && n <= |polls|
    ensures (forall i :: 0 <= i < n ==> Spared(t, polls[i]) < 0.0) ==> Period(t) * Total(t, polls, n) <= 0.0
    ensures (forall i :: 0 <= i < n ==> Spared(t, polls[i]) > 0.0) ==> Period(t) * Total(t, polls, n) >= 0.0
    decreases n
  {
    hide Spared, Period;
    if n > 0 {
      TotalSign(t, polls, n - 1);
      TermSign(Period(t), Spared(t, polls[n - 1]), Total(t, polls, n - 1));
    }
  }

  /** What the loop remembers then: the clamped sum of all errors, the last of them, and how many polls had time to
      spare. */
  ghost predicate Remembers(t: SoundTuning, w: SoundWatch, polls: seq<PollInput>, n: nat)
    requires n <= |polls| && Measured(polls)
  {
    var a := After(t, w, polls, n);
    && a.seenDrops == w.seenDrops && a.control.integral == Kept(t, w, polls, n)
    && (n > 0 ==> a.control.havePrevious && a.control.previous == Spared(t, polls[n - 1]))
    && (n == 0 ==> a == w)
  }

  /** All errors so far and the next one have one sign. */
  predicate OneSign(t: SoundTuning, polls: seq<PollInput>, n: nat)
    requires Measured(polls) && n < |polls|
  {
    || (forall i :: 0 <= i <= n ==> Spared(t, polls[i]) < 0.0)
    || (forall i :: 0 <= i <= n ==> Spared(t, polls[i]) > 0.0)
  }

  lemma {:induction false} SumSign(t: SoundTuning, polls: seq<PollInput>, n: nat)
    requires n < |polls| && Measured(polls) && OneSign(t, polls, n)
    ensures var sum, d := Period(t) * Total(t, polls, n), Period(t) * Spared(t, polls[n]);
            (sum <= 0.0 && d <= 0.0) || (sum >= 0.0 && d >= 0.0)
  {
    hide Spared, Period;
    TotalSign(t, polls, n);
    TermSign(Period(t), Spared(t, polls[n]), Total(t, polls, n));
    hide Total;
  }

  lemma LimitedMore(t: SoundTuning, before: real, total: real, e: real, more: real)
    requires Abs(before) <= 1.0 && more == total + e
    requires var p := Period(t); (p * total <= 0.0 && p * e <= 0.0) || (p * total >= 0.0 && p * e >= 0.0)
    ensures Making(t, before, more) == Raised(t, Making(t, before, total), e)
  {
    hide Period;
    TermSign(Period(t), e, total);
    ClampOnce(before, Period(t) * total, Period(t) * e, Period(t) * more);
  }

  lemma {:induction false} KeptMore(t: SoundTuning, w: SoundWatch, polls: seq<PollInput>, n: nat)
    requires n < |polls| && Measured(polls) && Abs(w.control.integral) <= 1.0 && OneSign(t, polls, n)
    ensures Kept(t, w, polls, n + 1) == Raised(t, Kept(t, w, polls, n), Spared(t, polls[n]))
  {
    hide Spared, Period, OneSign, Making, Raised, Abs;
    SumSign(t, polls, n);
    LimitedMore(t, w.control.integral, Total(t, polls, n), Spared(t, polls[n]), Total(t, polls, n + 1));
  }

  lemma {:induction false} KeptNothing(t: SoundTuning, w: SoundWatch, polls: seq<PollInput>)
    requires Measured(polls) && Abs(w.control.integral) <= 1.0
    ensures Kept(t, w, polls, 0) == w.control.integral
  {
  }

  predicate CanFollow(level: nat, e: real) {
    !(level == 0 && e < 0.0) && !(level == 255 && e > 0.0)
  }

  lemma GatheredIs(t: SoundTuning, c: Control, level: nat, e: real)
    requires CanFollow(level, e)
    ensures Gathered(t, c, level, e) == Raised(t, c.integral, e)
  {
    hide Raised;
  }

  /** The terms of the next control step, in terms of the history. */
  lemma {:induction false} NextTerms(t: SoundTuning, w: SoundWatch, polls: seq<PollInput>, n: nat)
    requires n < |polls| && Measured(polls) && Abs(w.control.integral) <= 1.0 && Remembers(t, w, polls, n)
    requires OneSign(t, polls, n) && CanFollow(After(t, w, polls, n).level, Spared(t, polls[n]))
    ensures var a, e := After(t, w, polls, n), Spared(t, polls[n]);
            var i := Gathered(t, a.control, a.level, e);
            && i == Kept(t, w, polls, n + 1)
            && Drive(t, e, i, if a.control.havePrevious then Rise(t, e, a.control.previous) else 0.0) ==
               Pid(t, w, polls, n)
  {
    hide Spared, Period, Kept, After, PollOnce, Total, OneSign, Gathered, Raised, Drive, Rise;
    KeptMore(t, w, polls, n);
    GatheredIs(t, After(t, w, polls, n).control, After(t, w, polls, n).level, Spared(t, polls[n]));
  }

  /** One poll in such a stretch: the level after it, and what is remembered. */
  lemma {:induction false} PushStep(t: SoundTuning, w: SoundWatch, polls: seq<PollInput>, n: nat)
    requires n < |polls| && Measured(polls) && Automatic(w, polls) && Abs(w.control.integral) <= 1.0
    requires Remembers(t, w, polls, n)
    requires OneSign(t, polls, n) && CanFollow(After(t, w, polls, n).level, Spared(t, polls[n]))
    ensures var a, b, e, u := After(t, w, polls, n), After(t, w, polls, n + 1), Spared(t, polls[n]),
            Pid(t, w, polls, n);
            && (e < 0.0 ==>
                  && Remembers(t, w, polls, n + 1)
                  && b.level == ClampLevel(a.level + Clamp(u, -32.0, -1.0).Floor))
            && (e > 0.1 && a.control.recovery + 1 < RECOVERIES ==>
                  Remembers(t, w, polls, n + 1) && b.level == a.level && b.control.recovery == a.control.recovery + 1)
            && (e > 0.1 && a.control.recovery + 1 >= RECOVERIES ==>
                  b.level == ClampLevel(a.level + Ceil(Clamp(u, 1.0, 4.0))))
  {
    hide Spared, Period, Kept, After, PollOnce, Total, OneSign, CanFollow, Pid, Gathered, Drive, Rise, Steer;
    var a, e := After(t, w, polls, n), Spared(t, polls[n]);
    NextTerms(t, w, polls, n);
    AfterNext(t, w, polls, n);
    PollSteers(t, a, polls[n]);
    SteerLaw(t, a.control, a.level, e);
  }

  lemma {:induction false} RemembersStart(t: SoundTuning, w: SoundWatch, polls: seq<PollInput>)
    requires Measured(polls) && Abs(w.control.integral) <= 1.0
    ensures Remembers(t, w, polls, 0)
  {
    KeptNothing(t, w, polls);
  }

  lemma StepsDown(u: real)
    ensures Clamp(u, -32.0, -1.0).Floor == if u < -32.0 then -32 else if u > -1.0 then -1 else u.Floor
  {
  }

  /** Over target, from any state: every poll lowers the level by the law, rounded down, by 1 to 32 levels, and not
      below zero. */
  lemma {:induction false} LowersByTheLaw(t: SoundTuning, w: SoundWatch, polls: seq<PollInput>, n: nat)
    requires n < |polls| && Measured(polls) && Automatic(w, polls) && Abs(w.control.integral) <= 1.0
    requires forall i :: 0 <= i <= n ==> Overloaded(t, polls[i]) && After(t, w, polls, i).level > 0
    ensures Remembers(t, w, polls, n)
    ensures var u := Pid(t, w, polls, n);
            var step := if u < -32.0 then -32 else if u > -1.0 then -1 else u.Floor;
            After(t, w, polls, n + 1).level ==
            if After(t, w, polls, n).level + step < 0 then 0 else After(t, w, polls, n).level + step
    decreases n
  {
    hide Spared, Kept, After, PollOnce, Pid, Remembers, Overloaded;
    forall i: nat | i <= n ensures Spared(t, polls[i]) < 0.0 {
      SparedSigns(t, polls[i]);
    }
    if n == 0 {
      RemembersStart(t, w, polls);
    } else {
      LowersByTheLaw(t, w, polls, n - 1);
      PushStep(t, w, polls, n - 1);
    }
    PushStep(t, w, polls, n);
    StepsDown(Pid(t, w, polls, n));
  }

  /** The least whole number that is not below u. */
  function RoundedUp(u: real): (n: int)
    ensures n as real - 1.0 < u <= n as real
  {
    if u.Floor as real == u then u.Floor else u.Floor + 1
  }

  lemma StepsUp(u: real)
    ensures Ceil(Clamp(u, 1.0, 4.0)) == if u < 1.0 then 1 else if u > 4.0 then 4 else RoundedUp(u)
  {
  }

  /** With time to spare, after a reset or a raise: nine polls wait, and the tenth raises the level by the law,
      rounded up, by 1 to 4 levels, and not above 255. */
  lemma {:induction false} WaitsToRaise(t: SoundTuning, w: SoundWatch, polls: seq<PollInput>, n: nat)
    requires n < |polls| && n < RECOVERIES && Measured(polls) && Automatic(w, polls) && Abs(w.control.integral) <= 1.0
    requires w.control.recovery == 0 && w.level < 255 && forall i :: 0 <= i <= n ==> Spare(t, polls[i])
    ensures Remembers(t, w, polls, n) && After(t, w, polls, n).level == w.level
    ensures After(t, w, polls, n).control.recovery == n
    ensures n + 1 == RECOVERIES ==>
              var u := Pid(t, w, polls, n);
              var step := if u < 1.0 then 1 else if u > 4.0 then 4 else RoundedUp(u);
              After(t, w, polls, n + 1).level == if w.level + step > 255 then 255 else w.level + step
    decreases n
  {
    hide Spared, Kept, After, PollOnce, Pid, Spare;
    forall i: nat | i <= n ensures Spared(t, polls[i]) > 0.1 {
      SparedSigns(t, polls[i]);
    }
    if n == 0 {
      AfterNothing(t, w, polls);
      RemembersStart(t, w, polls);
    } else {
      WaitsToRaise(t, w, polls, n - 1);
      PushStep(t, w, polls, n - 1);
    }
    PushStep(t, w, polls, n);
    StepsUp(Pid(t, w, polls, n));
  }

  /** The integral does not run on while the level cannot follow. */
  lemma IntegralWaits(t: SoundTuning, w: SoundWatch, p: PollInput)
    requires p.drops == w.seenDrops
    requires (w.level == 0 && Overloaded(t, p)) ||
             (w.level == 255 && Spare(t, p) && w.control.recovery + 1 < RECOVERIES)
    ensures PollOnce(t, w, p).control.integral == w.control.integral && PollOnce(t, w, p).level == w.level
  {
    SparedSigns(t, p);
    PollSteers(t, w, p);
    SteerLaw(t, w.control, w.level, Spared(t, p));
    hide PollOnce, Spared, Steer, Drive, Clamp;
    PollCases(t, w, p);
  }

  // ---------------------------------------------------------------- what is measured

  /** A timing with finite numbers, no negative cost and a positive budget that took at most, or less than, the
      share v of its budget. */
  predicate Took(s: Timing, v: real, strictly: bool) {
    && s.cost.Finite? && s.budget.Finite? && s.cost.value >= 0.0 && s.budget.value > 0.0
    && if strictly then s.cost.value < v * s.budget.value else s.cost.value <= v * s.budget.value
  }

  function HowMany(batch: seq<Timing>, v: real, strictly: bool): nat {
    if |batch| == 0 then 0
    else HowMany(batch[..|batch| - 1], v, strictly) + if Took(batch[|batch| - 1], v, strictly) then 1 else 0
  }

  function HowManyUsable(batch: seq<Timing>): nat {
    if |batch| == 0 then 0
    else
      var s := batch[|batch| - 1];
      HowManyUsable(batch[..|batch| - 1]) +
      if s.cost.Finite? && s.budget.Finite? && s.cost.value >= 0.0 && s.budget.value > 0.0 then 1 else 0
  }

  lemma {:induction false} CountsAppend(xs: seq<real>, x: real, v: real)
    ensures AtMost(xs + [x], v) == AtMost(xs, v) + if x <= v then 1 else 0
    ensures Below(xs + [x], v) == Below(xs, v) + if x < v then 1 else 0
    decreases |xs|
  {
    if |xs| == 0 {
      assert xs + [x] == [x] && [x][1..] == [];
    } else {
      CountsAppend(xs[1..], x, v);
      assert (xs + [x])[1..] == xs[1..] + [x];
    }
  }

  lemma CountNothing(v: real)
    ensures AtMost([], v) == Below([], v) == 0
  {
  }

  lemma ShareMeans(cost: real, budget: real, v: real)
    requires budget > 0.0
    ensures cost / budget <= v <==> cost <= v * budget
    ensures cost / budget < v <==> cost < v * budget
  {
    var q := cost / budget;
    QuotientTimes(cost, budget);
    if q < v {
      MulStrict(q, v, budget);
    } else if q > v {
      MulStrict(v, q, budget);
    }
  }

  /** The ratios of a batch count its usable timings by the share of the budget that they took. */
  lemma {:induction false} RatiosCount(batch: seq<Timing>, v: real)
    ensures |Ratios(batch)| == HowManyUsable(batch)
    ensures AtMost(Ratios(batch), v) == HowMany(batch, v, false)
    ensures Below(Ratios(batch), v) == HowMany(batch, v, true)
    decreases |batch|
  {
    hide AtMost, Below;
    if |batch| == 0 {
      CountNothing(v);
    } else {
      var n, s := |batch| - 1, batch[|batch| - 1];
      RatiosCount(batch[..n], v);
      if Usable(s) {
        ShareMeans(s.cost.value, s.budget.value, v);
        CountsAppend(Ratios(batch[..n]), s.cost.value / s.budget.value, v);
      }
    }
  }

  /** What a poll steers by: the least share of the budget that at least 99 % of the usable timings kept to, in the
      sense that fewer than 99 % stayed below it. */
  lemma RatioMeans(p: PollInput)
    requires |Costs(p.batch)| > 0
    ensures HowMany(p.batch, Ratio(p), false) * 100 >= 99 * HowManyUsable(p.batch)
    ensures HowMany(p.batch, Ratio(p), true) * 100 < 99 * HowManyUsable(p.batch)
  {
    NearestRankMeans(Ratios(p.batch), 99, 100);
    RatiosCount(p.batch, Ratio(p));
    hide AtMost, Below, NearestRank, Ratios, Costs;
  }

  /** Usable timings of at most, or less than, v microseconds. */
  function HowManyOf(batch: seq<Timing>, v: real, strictly: bool): nat {
    if |batch| == 0 then 0
    else
      var s := batch[|batch| - 1];
      HowManyOf(batch[..|batch| - 1], v, strictly) +
      if s.cost.Finite? && s.budget.Finite? && s.cost.value >= 0.0 && s.budget.value > 0.0 &&
         (s.cost.value < v || (!strictly && s.cost.value == v)) then 1 else 0
  }

  lemma {:induction false} CostsCount(batch: seq<Timing>, v: real)
    ensures |Costs(batch)| == HowManyUsable(batch)
    ensures AtMost(Costs(batch), v) == HowManyOf(batch, v, false)
    ensures Below(Costs(batch), v) == HowManyOf(batch, v, true)
    decreases |batch|
  {
    hide AtMost, Below;
    if |batch| == 0 {
      CountNothing(v);
    } else {
      var n, s := |batch| - 1, batch[|batch| - 1];
      CostsCount(batch[..n], v);
      if Usable(s) {
        CountsAppend(Costs(batch[..n]), s.cost.value, v);
      }
    }
  }

  /** What a poll publishes: at least 99 % of the usable timings took at most P99, and fewer than 99 % took less; the
      same for P999 with 99.9 %. */
  lemma PublishedMeans(t: SoundTuning, w: SoundWatch, p: PollInput)
    requires |Costs(p.batch)| > 0
    ensures var r, n := PollOnce(t, w, p), HowManyUsable(p.batch);
            && r.samples == n > 0
            && HowManyOf(p.batch, r.p99, false) * 100 >= 99 * n && HowManyOf(p.batch, r.p99, true) * 100 < 99 * n
            && HowManyOf(p.batch, r.p999, false) * 1000 >= 999 * n && HowManyOf(p.batch, r.p999, true) * 1000 < 999 * n
  {
    hide PollOnce, AtMost, Below, Costs, HowManyOf;
    PublishedPercentiles(t, w, p);
    CostsCount(p.batch, PollOnce(t, w, p).p99);
    CostsCount(p.batch, PollOnce(t, w, p).p999);
  }
}
