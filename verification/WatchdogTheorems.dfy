/** What the complexity controller promises over runs of polls, for every choice of gains, target and period. */
module WatchdogTheorems {
  import opened RealFacts
  import opened Percentiles
  import opened Watchdogs

  /** The ratio that steers after a poll with usable timings. */
  function Ratio(p: PollInput): real
    requires |Costs(p.batch)| > 0
  {
    NearestRank(Ratios(p.batch), 99, 100)
  }

  /** A poll with time to spare: it saw timings, is not under manual control, and was more than a tenth of the
      deadline below target. */
  predicate Spare(t: SoundTuning, p: PollInput) {
    |Costs(p.batch)| > 0 && !p.manual && Ratio(p) < t.fraction - 0.1
  }

  /** A poll over target. */
  predicate Overloaded(t: SoundTuning, p: PollInput) {
    |Costs(p.batch)| > 0 && !p.manual && Ratio(p) > t.fraction
  }

  lemma RatioNotNegative(p: PollInput)
    requires |Costs(p.batch)| > 0
    ensures Ratio(p) >= 0.0
  {
    NearestRankMeans(Ratios(p.batch), 99, 100);
  }

  lemma FloorBetween(x: real, lo: int, hi: int)
    requires lo as real <= x <= hi as real
    ensures lo <= x.Floor <= hi && lo <= Ceil(x) <= hi
  {
  }

  lemma ErrorMeans(t: SoundTuning, ratio: real)
    requires ratio >= 0.0
    ensures ratio / 1.0 == ratio
    ensures (Error(t, ratio) < 0.0 <==> ratio > t.fraction) && (Error(t, ratio) > 0.1 <==> ratio < t.fraction - 0.1)
  {
  }

  lemma SteerCases(t: SoundTuning, c: Control, level: nat, error: real)
    requires level <= 255
    ensures var s := Steer(t, c, level, error);
            && s.1 <= 255
            && (error < 0.0 ==> s.0.recovery == 0 && if level == 0 then s.1 == 0 else level - 32 <= s.1 < level)
            && (error > 0.1 && c.recovery + 1 < RECOVERIES ==> s.0.recovery == c.recovery + 1 && s.1 == level)
            && (error > 0.1 && c.recovery + 1 >= RECOVERIES ==>
                  s.0.recovery == 0 && if level < 255 then level < s.1 <= level + 4 else s.1 == 255)
            && (0.0 <= error <= 0.1 ==> s.0.recovery == 0 && s.1 == level)
  {
    hide Effort, Integrated;
    var effort := Effort(t, c, error, Integrated(t, c.integral, error, level));
    FloorBetween(Clamp(effort, -32.0, -1.0), -32, -1);
    FloorBetween(Clamp(effort, 1.0, 4.0), 1, 4);
  }

  /** One poll: what happens to level and recovery count in each of the cases. */
  lemma PollCases(t: SoundTuning, w: SoundWatch, p: PollInput)
    ensures var r := PollOnce(t, w, p);
            var before := if p.drops != w.seenDrops then 0 else w.control.recovery;
            && (!Spare(t, p) ==> r.control.recovery == 0 && r.level <= w.level)
            && (Spare(t, p) && before + 1 < RECOVERIES ==> r.control.recovery == before + 1 && r.level == w.level)
            && (Spare(t, p) && before + 1 >= RECOVERIES ==>
                  r.control.recovery == 0 &&
                    (if w.level < 255 then w.level < r.level <= w.level + 4 else r.level == 255))
            && (Overloaded(t, p) ==> if w.level == 0 then r.level == 0 else w.level - 32 <= r.level < w.level)
            && (!Overloaded(t, p) ==> r.level >= w.level)
            && (|Costs(p.batch)| > 0 ==> r.seenDrops == p.drops)
            && (|Costs(p.batch)| == 0 ==> r.seenDrops == w.seenDrops)
  {
    hide NearestRank, Costs, Ratios, Steer, Error;
    if |Costs(p.batch)| > 0 {
      var c := if p.drops != w.seenDrops then Reset() else w.control;
      RatioNotNegative(p);
      ErrorMeans(t, Ratio(p));
      SteerCases(t, c, w.level, Error(t, Ratio(p)));
    }
  }

  lemma AfterNext(t: SoundTuning, w: SoundWatch, polls: seq<PollInput>, n: nat)
    requires n < |polls|
    ensures After(t, w, polls, n + 1) == PollOnce(t, After(t, w, polls, n), polls[n])
  {
    hide PollOnce;
  }

  lemma AfterNothing(t: SoundTuning, w: SoundWatch, polls: seq<PollInput>)
    ensures After(t, w, polls, 0) == w
  {
  }

  // ---------------------------------------------------------------- raising is slow

  /** The last k polls before poll n had time to spare, and only the first of them may have met a new drop. */
  predicate Streak(t: SoundTuning, w: SoundWatch, polls: seq<PollInput>, n: nat, k: nat) {
    && k <= n <= |polls|
    && (forall i :: n - k <= i < n ==> Spare(t, polls[i]))
    && (forall i :: n - k < i < n ==> polls[i].drops == After(t, w, polls, i).seenDrops)
  }

  /** What a poll does to the recovery count. */
  lemma PollCounts(t: SoundTuning, w: SoundWatch, p: PollInput)
    requires w.control.recovery < RECOVERIES
    ensures var r := PollOnce(t, w, p).control.recovery;
            && r < RECOVERIES
            && (r == 0 || (Spare(t, p) && (r == 1 || (r == w.control.recovery + 1 && p.drops == w.seenDrops))))
  {
    PollCases(t, w, p);
    hide PollOnce, Spare, Overloaded;
  }

  lemma EmptyStreak(t: SoundTuning, w: SoundWatch, polls: seq<PollInput>)
    ensures Streak(t, w, polls, 0, 0)
  {
  }

  lemma StreakGrows(t: SoundTuning, w: SoundWatch, polls: seq<PollInput>, n: nat, k: nat)
    requires n < |polls| && Streak(t, w, polls, n, k)
    ensures Streak(t, w, polls, n + 1, 0)
    ensures Spare(t, polls[n]) ==> Streak(t, w, polls, n + 1, 1)
    ensures Spare(t, polls[n]) && polls[n].drops == After(t, w, polls, n).seenDrops ==>
            Streak(t, w, polls, n + 1, k + 1)
  {
    hide Spare, After;
  }

  /** The recovery count is the length of the streak since the last raise. */
  lemma {:induction false} RecoveryIsStreak(t: SoundTuning, w: SoundWatch, polls: seq<PollInput>, n: nat)
    requires n <= |polls| && w.control.recovery == 0
    ensures Streak(t, w, polls, n, After(t, w, polls, n).control.recovery) &&
            After(t, w, polls, n).control.recovery < RECOVERIES
    decreases n
  {
    hide PollOnce, After, Streak;
    EmptyStreak(t, w, polls);
    AfterNothing(t, w, polls);
    if n > 0 {
      RecoveryIsStreak(t, w, polls, n - 1);
      AfterNext(t, w, polls, n - 1);
      var v := After(t, w, polls, n - 1);
      PollCounts(t, v, polls[n - 1]);
      StreakGrows(t, w, polls, n - 1, v.control.recovery);
    }
  }

  /** What a poll does to the level: ten steps of recovery buy one raise of at most four levels. */
  lemma PollRaises(t: SoundTuning, w: SoundWatch, p: PollInput)
    requires w.control.recovery < RECOVERIES
    ensures var r := PollOnce(t, w, p);
            var raised := if r.level > w.level then 1 else 0;
            && r.control.recovery < RECOVERIES && r.level <= w.level + 4 * raised
            && RECOVERIES * raised + r.control.recovery <= w.control.recovery + 1
  {
    PollCases(t, w, p);
    hide PollOnce, Spare, Overloaded;
  }

  /** A poll that raises the level raises it by one to four, and ends ten polls in a row that all saw timings,
      were not under manual control and had time to spare, with no new drop in the last nine of them. */
  lemma RaiseNeedsTenSparePolls(t: SoundTuning, w: SoundWatch, polls: seq<PollInput>, n: nat)
    requires n < |polls| && w.control.recovery == 0
    requires After(t, w, polls, n + 1).level > After(t, w, polls, n).level
    ensures After(t, w, polls, n + 1).level <= After(t, w, polls, n).level + 4
    ensures Streak(t, w, polls, n + 1, RECOVERIES)
  {
    hide PollOnce, Spare, Overloaded, Streak;
    RecoveryIsStreak(t, w, polls, n);
    PollCases(t, After(t, w, polls, n), polls[n]);
    StreakGrows(t, w, polls, n, After(t, w, polls, n).control.recovery);
  }

  function Raises(t: SoundTuning, w: SoundWatch, polls: seq<PollInput>, n: nat): nat
    requires n <= |polls|
  {
    if n == 0 then 0
    else Raises(t, w, polls, n - 1) + if After(t, w, polls, n).level > After(t, w, polls, n - 1).level then 1 else 0
  }

  lemma {:induction false} TenPollsPerRaise(t: SoundTuning, w: SoundWatch, polls: seq<PollInput>, n: nat)
    requires n <= |polls| && w.control.recovery < RECOVERIES
    ensures var r := Raises(t, w, polls, n);
            && After(t, w, polls, n).control.recovery < RECOVERIES
            && RECOVERIES * r + After(t, w, polls, n).control.recovery <= w.control.recovery + n
            && After(t, w, polls, n).level <= w.level + 4 * r
    decreases n
  {
    hide PollOnce, After;
    AfterNothing(t, w, polls);
    if n > 0 {
      TenPollsPerRaise(t, w, polls, n - 1);
      AfterNext(t, w, polls, n - 1);
      PollRaises(t, After(t, w, polls, n - 1), polls[n - 1]);
    }
  }

  lemma WholeTens(r: nat, m: nat)
    requires RECOVERIES * r <= m
    ensures r <= m / RECOVERIES
  {
  }

  /** Whatever is measured, n polls from recovery count r raise the level by at most 4 floor((r + n) / 10). */
  lemma RaisesSlowly(t: SoundTuning, w: SoundWatch, polls: seq<PollInput>, n: nat)
    requires n <= |polls| && w.control.recovery < RECOVERIES
    ensures After(t, w, polls, n).level <= w.level + 4 * ((w.control.recovery + n) / RECOVERIES)
  {
    hide After, Raises;
    TenPollsPerRaise(t, w, polls, n);
    WholeTens(Raises(t, w, polls, n), w.control.recovery + n);
  }

  lemma PollSpares(t: SoundTuning, w: SoundWatch, p: PollInput)
    requires w.control.recovery < RECOVERIES && Spare(t, p) && p.drops == w.seenDrops
    ensures var r := PollOnce(t, w, p);
            && r.seenDrops == w.seenDrops && r.control.recovery < RECOVERIES
            && (r.level == 255 || RECOVERIES * r.level + r.control.recovery >= RECOVERIES * w.level +
                w.control.recovery + 1)
            && (w.level == 255 ==> r.level == 255)
  {
    PollCases(t, w, p);
    hide PollOnce;
  }

  /** While every poll has time to spare and no new drop turns up, the level does come back: at least one level
      every ten polls, up to the top. */
  lemma {:induction false} ComesBack(t: SoundTuning, w: SoundWatch, polls: seq<PollInput>, n: nat)
    requires n <= |polls| && w.control.recovery < RECOVERIES
    requires forall i :: 0 <= i < n ==> Spare(t, polls[i]) && polls[i].drops == w.seenDrops
    ensures var a := After(t, w, polls, n);
            && a.seenDrops == w.seenDrops && a.control.recovery < RECOVERIES
            && (a.level == 255 ||
                RECOVERIES * a.level + a.control.recovery >= RECOVERIES * w.level + w.control.recovery + n)
    decreases n
  {
    hide PollOnce, After;
    AfterNothing(t, w, polls);
    if n > 0 {
      ComesBack(t, w, polls, n - 1);
      AfterNext(t, w, polls, n - 1);
      PollSpares(t, After(t, w, polls, n - 1), polls[n - 1]);
    }
  }

  /** So from any level, 2560 such polls are always enough. */
  lemma ReachesTheTop(t: SoundTuning, w: SoundWatch, polls: seq<PollInput>)
    requires w.control.recovery < RECOVERIES && |polls| >= RECOVERIES * (256 - w.level)
    requires forall i :: 0 <= i < |polls| ==> Spare(t, polls[i]) && polls[i].drops == w.seenDrops
    ensures After(t, w, polls, |polls|).level == 255
  {
    ComesBack(t, w, polls, |polls|);
  }

  // ---------------------------------------------------------------- falling is fast

  lemma PollLowers(t: SoundTuning, w: SoundWatch, p: PollInput)
    requires Overloaded(t, p)
    ensures if w.level == 0 then PollOnce(t, w, p).level == 0 else w.level - 32 <= PollOnce(t, w, p).level < w.level
  {
    PollCases(t, w, p);
    hide PollOnce;
  }

  /** Under sustained overload every poll lowers the level by 1 to 32 until it is zero, and there it stays: it
      is zero after at most `level` polls, whatever the gains and the history. */
  lemma {:induction false} OverloadEmptiesTheLevel(t: SoundTuning, w: SoundWatch, polls: seq<PollInput>, n: nat)
    requires n <= |polls| && forall i :: 0 <= i < n ==> Overloaded(t, polls[i])
    ensures After(t, w, polls, n).level <= if n <= w.level then w.level - n else 0
    ensures After(t, w, polls, n).level >= w.level - 32 * n
    decreases n
  {
    hide PollOnce, After, Overloaded;
    AfterNothing(t, w, polls);
    if n > 0 {
      OverloadEmptiesTheLevel(t, w, polls, n - 1);
      AfterNext(t, w, polls, n - 1);
      PollLowers(t, After(t, w, polls, n - 1), polls[n - 1]);
    }
  }

  lemma IntegralBounded(t: SoundTuning, c: Control, level: nat, error: real)
    requires level <= 255 && Abs(c.integral) <= 1.0
    ensures Abs(Steer(t, c, level, error).0.integral) <= 1.0
  {
    hide Effort, Seconds;
  }

  lemma PollIntegral(t: SoundTuning, w: SoundWatch, p: PollInput)
    requires Abs(w.control.integral) <= 1.0
    ensures Abs(PollOnce(t, w, p).control.integral) <= 1.0
  {
    hide NearestRank, Costs, Ratios, Steer, Error;
    if |Costs(p.batch)| > 0 {
      var c := if p.drops != w.seenDrops then Reset() else w.control;
      IntegralBounded(t, c, w.level, Error(t, NearestRank(Ratios(p.batch), 99, 100) / 1.0));
    }
  }

  /** The integral never leaves [-1, 1]. */
  lemma {:induction false} IntegralStaysBounded(t: SoundTuning, w: SoundWatch, polls: seq<PollInput>, n: nat)
    requires n <= |polls| && Abs(w.control.integral) <= 1.0
    ensures Abs(After(t, w, polls, n).control.integral) <= 1.0
    decreases n
  {
    hide PollOnce, After;
    AfterNothing(t, w, polls);
    if n > 0 {
      IntegralStaysBounded(t, w, polls, n - 1);
      AfterNext(t, w, polls, n - 1);
      PollIntegral(t, After(t, w, polls, n - 1), polls[n - 1]);
    }
  }

  // ---------------------------------------------------------------- what is published

  /** The published percentiles are percentiles: at least 99 % of the usable costs are at most P99 and fewer than
      99 % are below it, the same for P999 with 99.9 %, and P99 is never above P999. */
  lemma PublishedPercentiles(t: SoundTuning, w: SoundWatch, p: PollInput)
    requires |Costs(p.batch)| > 0
    ensures var r := PollOnce(t, w, p);
            var cs := Costs(p.batch);
            && r.samples == |cs| && r.p99 in cs && r.p999 in cs && r.p99 <= r.p999
            && AtMost(cs, r.p99) * 100 >= 99 * |cs| && Below(cs, r.p99) * 100 < 99 * |cs|
            && AtMost(cs, r.p999) * 1000 >= 999 * |cs| && Below(cs, r.p999) * 1000 < 999 * |cs|
  {
    var cs := Costs(p.batch);
    NearestRankMeans(cs, 99, 100);
    NearestRankMeans(cs, 999, 1000);
    NearestRankMonotone(cs, 99, 100, 999, 1000);
    hide NearestRank, Costs, AtMost, Below, Regulate;
  }
}
