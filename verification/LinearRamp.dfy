/** Linear parameter ramps (src/audio/LinearRamp.h).

    A ramp is kept as an increment and a countdown. What can be observed of it is smaller: the value it
    shows, the value it heads for, and how many samples it still needs. `Ramp` is that view; the class
    keeps the increment and is proved to move exactly as the view does, landing on its target exactly. */
module LinearRamps {
  import opened RealFacts

  datatype Ramp = Ramp(value: real, target: real, remaining: nat)
  {
    /** A ramp with nothing left to do has arrived. */
    predicate Valid() {
      remaining == 0 ==> value == target
    }

    function Retarget(goal: real, frames: nat): Ramp {
      if goal == target then this else Ramp(value, goal, if frames == 0 then 1 else frames)
    }

    /** One sample: cover an equal share of the distance that is left. */
    function Next(): Ramp {
      if remaining == 0 then this
      else Ramp(value + (target - value) / (remaining as real), target, remaining - 1)
    }

    function After(samples: nat): Ramp
      decreases samples
    {
      if samples == 0 then this else Next().After(samples - 1)
    }

    /** Both the value and the target lie in [lo, hi]. */
    predicate Within(lo: real, hi: real) {
      lo <= value <= hi && lo <= target <= hi
    }
  }

  function Settled(v: real): Ramp {
    Ramp(v, v, 0)
  }

  /** A share of a distance lies between nothing and the whole distance. */
  lemma ShareBetween(d: real, n: real)
    requires n >= 1.0
    ensures d >= 0.0 ==> 0.0 <= d / n <= d
    ensures d <= 0.0 ==> d <= d / n <= 0.0
    ensures d > 0.0 ==> d / n > 0.0
    ensures d < 0.0 ==> d / n < 0.0
    ensures d != 0.0 && n > 1.0 ==> d / n != d
  {
    var q := d / n;
    QuotientTimes(d, n);
    if d > 0.0 {
      DivMono(0.0, d, n);
      MulMono(1.0, n, q);
      if n > 1.0 { MulStrict(1.0, n, q); }
    } else if d < 0.0 {
      DivMono(d, 0.0, n);
      MulMono(1.0, n, -q);
      if n > 1.0 { MulStrict(1.0, n, -q); }
    }
  }

  /** Moving never leaves the interval that holds value and target, and keeps arrival exact. */
  lemma NextStays(r: Ramp, lo: real, hi: real)
    requires r.Valid() && r.Within(lo, hi)
    ensures r.Next().Valid() && r.Next().Within(lo, hi) && r.Next().target == r.target
  {
    if r.remaining > 0 {
      ShareBetween(r.target - r.value, r.remaining as real);
    }
  }

  lemma NextValid(r: Ramp)
    requires r.Valid()
    ensures r.Next().Valid() && r.Next().target == r.target
  {
    NextStays(r, Min(r.value, r.target), Max(r.value, r.target));
  }

  /** Strictly below its target, a ramp shows a larger value at once. */
  lemma NextLeavesStart(r: Ramp)
    requires r.Valid() && r.value < r.target
    ensures r.value < r.Next().value <= r.target
  {
    ShareBetween(r.target - r.value, r.remaining as real);
  }

  /** Strictly above its target, a ramp stays strictly above it until its very last sample. */
  lemma NextReachesOnlyAtTheEnd(r: Ramp)
    requires r.Valid() && r.value > r.target
    ensures r.Next().value == r.target <==> r.remaining == 1
    ensures r.Next().value >= r.target
  {
    ShareBetween(r.target - r.value, r.remaining as real);
  }

  lemma SplitProduct(q: real, k: real)
    ensures q + q * (k - 1.0) == q * k
  {
  }

  /** After one share is covered, the shares of what is left are as large as before. */
  lemma ShareKept(d: real, n: real)
    requires n > 1.0
    ensures (d - d / n) / (n - 1.0) == d / n
  {
    var q := d / n;
    QuotientTimes(d, n);
    assert q * (n - 1.0) == d - q;
    QuotientUnique(q, n - 1.0, d - q);
  }

  /** The ramp is the straight line: after k of its n samples it has covered exactly k/n of the distance. */
  lemma {:induction false} StraightLine(r: Ramp, k: nat)
    requires r.Valid() && k <= r.remaining
    ensures r.After(k).remaining == r.remaining - k && r.After(k).target == r.target
    ensures r.remaining > 0 ==> r.After(k).value == r.value + (r.target - r.value) / (r.remaining as real) * (k as real)
    decreases k
  {
    if k > 0 {
      NextValid(r);
      var s := r.Next();
      StraightLine(s, k - 1);
      var d, n := r.target - r.value, r.remaining as real;
      if r.remaining > 1 {
        ShareKept(d, n);
        assert s.remaining as real == n - 1.0;
        assert s.target - s.value == d - d / n;
        SplitProduct(d / n, k as real);
      }
    }
  }

  lemma {:induction false} OneMoreSample(r: Ramp, k: nat)
    ensures r.After(k + 1) == r.After(k).Next()
    decreases k
  {
    if k > 0 {
      OneMoreSample(r.Next(), k - 1);
    }
  }

  /** A new goal is reached in as many samples as were asked for, along a straight line from where the ramp is. */
  lemma Glides(r: Ramp, goal: real, frames: nat, k: nat)
    requires r.Valid() && goal != r.target && k <= if frames == 0 then 1 else frames
    ensures var n := if frames == 0 then 1 else frames;
            var s := r.Retarget(goal, frames).After(k);
            && s.remaining == n - k && s.target == goal
            && s.value == r.value + (goal - r.value) / (n as real) * (k as real)
  {
    StraightLine(r.Retarget(goal, frames), k);
    hide Ramp.After;
  }

  /** After all its samples a ramp rests on its target exactly, and stays there. */
  lemma {:induction false} Lands(r: Ramp, k: nat)
    requires r.Valid() && k >= r.remaining
    ensures r.After(k) == Settled(r.target)
    decreases k
  {
    if k > 0 {
      NextValid(r);
      Lands(r.Next(), k - 1);
    }
  }

  lemma GlidesThenRests(r: Ramp, goal: real, frames: nat, k: nat)
    requires r.Valid() && goal != r.target
    ensures var n := if frames == 0 then 1 else frames;
            var s := r.Retarget(goal, frames).After(k);
            && (k <= n ==> s.value == r.value + (goal - r.value) / (n as real) * (k as real))
            && (k >= n ==> s == Settled(goal))
  {
    hide Ramp.After;
    var n := if frames == 0 then 1 else frames;
    if k <= n {
      Glides(r, goal, frames, k);
    }
    if k >= n {
      Lands(r.Retarget(goal, frames), k);
    }
  }

  class LinearRamp {
    var value: real
    var target: real
    var step: real
    var remaining: nat

    /** The increment is the share of the distance that each remaining sample covers. */
    ghost predicate Valid()
      reads this
    {
      && (remaining == 0 ==> value == target)
      && (remaining > 0 ==> step * (remaining as real) == target - value)
    }

    ghost function View(): Ramp
      reads this
    {
      Ramp(value, target, remaining)
    }

    constructor (initial: real)
      ensures Valid() && View() == Settled(initial)
    {
      value, target, step, remaining := initial, initial, 0.0, 0;
    }

    method Snap(v: real)
      modifies this
      ensures Valid() && View() == Settled(v)
    {
      value, target := v, v;
      remaining := 0;
    }

    method Target(goal: real, frames: nat)
      requires Valid()
      modifies this
      ensures Valid() && View() == old(View()).Retarget(goal, frames)
    {
      if goal == target { return; }
      target := goal;
      remaining := if frames != 0 then frames else 1;
      step := (target - value) / (remaining as real);
    }

    method Next() returns (v: real)
      requires Valid()
      modifies this
      ensures Valid() && View() == old(View()).Next() && v == value
    {
      if remaining != 0 {
        QuotientUnique(step, remaining as real, target - value);
        assert step * (remaining as real) - step == step * (remaining as real - 1.0);
        remaining := remaining - 1;
        if remaining == 0 {
          value := target;
        } else {
          value := value + step;
        }
      }
      v := value;
    }
  }
}
