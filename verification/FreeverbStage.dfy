/** One channel of the reverb as it is implemented (src/audio/FreeverbStage.h, src/audio/FreeverbStage.cpp),
    proved to behave as the delay-line description in Freeverb.dfy. */
module FreeverbStages {
  import opened LinearRamps
  import opened RealFacts
  import opened Freeverb

  const MAX_DELAY: nat := 2048

  /** The samples a ring buffer of length `len` will deliver, next one first, when reading starts at `idx` and
      the first `hidden` reads (`fresh` in the source) are replaced by silence. */
  ghost function Line(buf: seq<real>, idx: nat, len: nat, hidden: nat): (line: seq<real>)
    requires idx < len <= |buf|
    ensures |line| == len
  {
    seq(len, j requires 0 <= j < len =>
      if j < hidden then 0.0 else buf[if idx + j < len then idx + j else idx + j - len])
  }

  function Successor(idx: nat, len: nat): (n: nat)
    requires idx < len
    ensures n < len
  {
    if idx + 1 == len then 0 else idx + 1
  }

  /** Overwriting the slot just read moves the line on by one sample, stale contents or not. */
  lemma LineMoves(buf: seq<real>, idx: nat, len: nat, hidden: nat, v: real)
    requires idx < len <= |buf| && hidden <= len
    ensures Line(buf[idx := v], Successor(idx, len), len, if hidden == 0 then 0 else hidden - 1) ==
            Line(buf, idx, len, hidden)[1..] + [v]
  {
  }

  /** With the whole line to be overwritten first, nothing of the old contents is left. */
  lemma FreshLine(buf: seq<real>, idx: nat, len: nat)
    requires idx < len <= |buf|
    ensures Line(buf, idx, len, len) == Zeros(len)
  {
  }

  lemma SilentLine(buf: seq<real>, idx: nat, len: nat)
    requires idx < len <= |buf| && forall i :: 0 <= i < |buf| ==> buf[i] == 0.0
    ensures Line(buf, idx, len, 0) == Zeros(len)
  {
  }

  method NextIndex(idx: nat, len: nat) returns (n: nat)
    requires idx < len
    ensures n == Successor(idx, len)
  {
    n := idx + 1;
    while n >= len
      invariant n == idx + 1 || (n == 0 && idx + 1 == len)
    {
      n := n - len;
    }
  }

  method Clear(b: array<real>)
    modifies b
    ensures forall i :: 0 <= i < b.Length ==> b[i] == 0.0
  {
    for i := 0 to b.Length
      invariant forall j :: 0 <= j < i ==> b[j] == 0.0
    {
      b[i] := 0.0;
    }
  }

  /** Weights run between zero and one, and do not linger at zero. */
  predicate BetweenOffAndOn(w: Ramp) {
    && w.Valid() && 0.0 <= w.value <= 1.0
    && (w.target == 0.0 || w.target == 1.0)
    && (w.value == w.target == 0.0 ==> w.remaining == 0)
  }

  lemma WeightMoves(w: Ramp)
    requires BetweenOffAndOn(w)
    ensures BetweenOffAndOn(w.Next())
    ensures w.Next().value == 0.0 ==> w.Next() == Settled(0.0)
  {
    NextStays(w, 0.0, 1.0);
    if w.value > w.target { NextReachesOnlyAtTheEnd(w); }
    if w.value < w.target { NextLeavesStart(w); }
  }

  lemma FeedAgrees(g: Comb, x: real, fb: real, damp: real, damped: real, stored: real)
    requires damped == g.Damped(damp) && stored == x + fb * damped
    ensures CombAudio(g, x, fb, damp) == g.Feed(stored, damped)
  {
    hide Comb.Damped, Comb.Feed;
    assert stored == CombStore(g, x, fb, damp);
    hide CombStore;
  }

  /** One comb: ring buffer, low-pass state, the countdown that hides stale samples, and its weight. */
  class CombFilter {
    const len: nat
    const buf: array<real>
    const weight: LinearRamp
    var idx: nat
    var lp: real
    var hidden: nat

    ghost function Repr(): set<object> {
      {this, buf, weight}
    }

    ghost predicate Valid()
      reads Repr()
    {
      && buf.Length == MAX_DELAY && 0 < len <= MAX_DELAY
      && idx < len && hidden <= len
      && weight.Valid()
    }

    /** A weight of zero has settled at zero. This fails only between `Arm` and `Process`. */
    ghost predicate Rested()
      reads weight
    {
      weight.value == 0.0 ==> weight.View() == Settled(0.0)
    }

    /** Everything stored, whether it can still be heard or not. */
    ghost function Raw(): Comb
      requires Valid()
      reads Repr()
    {
      On(Line(buf[..], idx, len, hidden), lp, weight.View())
    }

    /** What the comb is to its listener: with a weight of zero its storage is no part of it. */
    ghost function View(): Comb
      requires Valid()
      reads Repr()
    {
      if weight.value == 0.0 then Off else Raw()
    }

    /** Nothing is stored. */
    ghost predicate Silent()
      reads this, buf
    {
      hidden == 0 && lp == 0.0 && forall i :: 0 <= i < buf.Length ==> buf[i] == 0.0
    }

    ghost predicate UnitWeight()
      reads weight
    {
      BetweenOffAndOn(weight.View())
    }

    constructor (n: nat)
      requires 0 < n <= MAX_DELAY
      ensures Valid() && Rested() && Silent() && UnitWeight() && len == n && fresh(Repr())
    {
      len := n;
      buf := new real[MAX_DELAY](i => 0.0);
      weight := new LinearRamp(0.0);
      idx, lp, hidden := 0, 0.0, 0;
    }

    method Reset()
      requires Valid()
      modifies this, buf
      ensures Valid() && Silent()
    {
      hidden, idx, lp := 0, 0, 0.0;
      Clear(buf);
    }

    method Snap(wanted: bool)
      requires Valid() && Silent()
      modifies weight
      ensures Valid() && Rested() && UnitWeight()
      ensures View() == if wanted then On(Zeros(len), 0.0, Settled(1.0)) else Off
    {
      weight.Snap(if wanted then 1.0 else 0.0);
      SilentLine(buf[..], idx, len);
    }

    /** The number of wanted combs has changed. A comb that returns from silence will overwrite its whole
        delay before reading it. */
    method Arm(returning: bool, wanted: bool, frames: nat)
      requires Valid() && Rested() && UnitWeight()
      requires View().Off? && wanted ==> returning
      modifies this`hidden, this`lp, weight
      ensures Valid() && UnitWeight()
      ensures Raw().Fade() == old(View()).Gate(len, true, wanted, frames)
    {
      FreshLine(buf[..], idx, len);
      if returning && wanted && weight.value == 0.0 {
        hidden := len;
        lp := 0.0;
      }
      weight.Target(if wanted then 1.0 else 0.0, frames);
    }

    /** The slot just read takes the new sample, and reading moves on. */
    method Store(v: real, ghost g: Comb)
      requires Valid() && g.On? && g.line == Line(buf[..], idx, len, hidden)
      modifies this`idx, this`hidden, buf
      ensures Valid() && Line(buf[..], idx, len, hidden) == g.line[1..] + [v]
    {
      LineMoves(buf[..], idx, len, hidden, v);
      if hidden != 0 { hidden := hidden - 1; }
      buf[idx] := v;
      idx := NextIndex(idx, len);
    }

    /** One sample. A comb whose weight is zero does no work at all. */
    method Process(x: real, fb: real, damp: real) returns (w: real, delayed: real)
      requires Valid() && UnitWeight()
      modifies Repr()
      ensures Valid() && Rested() && UnitWeight()
      ensures View() == CombAudio(old(Raw()).Fade(), x, fb, damp)
      ensures w == old(Raw()).Fade().Weight() && delayed == old(Raw()).Fade().Delayed()
    {
      WeightMoves(weight.View());
      ghost var g := old(Raw()).Fade();
      w := weight.Next();
      delayed := 0.0;
      if w == 0.0 { return; }
      delayed := if hidden != 0 then 0.0 else buf[idx];
      var damped := (1.0 - damp) * delayed + damp * lp;
      assert g.Delayed() == delayed;
      assert g.Damped(damp) == damped;
      var stored := x + fb * damped;
      FeedAgrees(g, x, fb, damp, damped, stored);
      lp := damped;
      Store(stored, g);
      assert View() == On(g.line[1..] + [stored], damped, g.weight);
    }
  }

  /** One all-pass section. */
  class AllpassFilter {
    const len: nat
    const buf: array<real>
    var idx: nat

    ghost function Repr(): set<object> {
      {this, buf}
    }

    ghost predicate Valid()
      reads Repr()
    {
      buf.Length == MAX_DELAY && 0 < len <= MAX_DELAY && idx < len
    }

    ghost function View(): (line: seq<real>)
      requires Valid()
      reads Repr()
      ensures |line| == len
    {
      Line(buf[..], idx, len, 0)
    }

    constructor (n: nat)
      requires 0 < n <= MAX_DELAY
      ensures Valid() && View() == Zeros(n) && len == n && fresh(Repr())
    {
      len := n;
      buf := new real[MAX_DELAY](i => 0.0);
      idx := 0;
    }

    method Reset()
      requires Valid()
      modifies Repr()
      ensures Valid() && View() == Zeros(len)
    {
      Clear(buf);
      idx := 0;
    }

    method Process(x: real, g: real) returns (y: real)
      requires Valid()
      modifies Repr()
      ensures Valid() && View() == AllpassFeed(old(View()), g, x) && y == AllpassOut(old(View()), g, x)
    {
      ghost var stored := AllpassStore(View(), g, x);
      LineMoves(buf[..], idx, len, 0, stored);
      var delayed := buf[idx];
      assert delayed == View()[0];
      assert x + delayed * g == stored;
      buf[idx] := x + delayed * g;
      assert buf[..] == old(buf[..])[idx := stored];
      y := delayed - g * buf[idx];
      idx := NextIndex(idx, len);
    }
  }

  ghost predicate Apart(c: CombFilter, d: CombFilter) {
    c != d && c.buf != d.buf && c.weight != d.weight
  }

  /** A comb as it is built. */
  ghost predicate Ready(f: CombFilter, c: nat)
    requires c < NUM_COMBS
    reads f.Repr()
  {
    f.len == CombLen(c) && f.Valid() && f.Rested() && f.UnitWeight() && f.Silent()
  }

  lemma DotStart(ws: seq<real>, ds: seq<real>)
    ensures Sum(ws, 0) == 0.0 && Dot(ws, ds, 0) == 0.0
  {
  }

  lemma DotStep(ws: seq<real>, ds: seq<real>, c: nat, w: real, d: real)
    requires c < |ws| == |ds| && w == ws[c] && d == ds[c]
    ensures Sum(ws, c + 1) == Sum(ws, c) + w
    ensures w != 0.0 ==> Dot(ws, ds, c + 1) == Dot(ws, ds, c) + w * d
    ensures w == 0.0 ==> Dot(ws, ds, c + 1) == Dot(ws, ds, c)
  {
  }

  /** At this sample the comb will be g. */
  ghost predicate Waiting(f: CombFilter, g: Comb)
    reads f.Repr()
  {
    f.Valid() && f.UnitWeight() && f.Raw().Fade() == g
  }

  /** The comb was g at this sample and has moved on. */
  ghost predicate Moved(f: CombFilter, g: Comb, x: real, fb: real, damp: real)
    reads f.Repr()
  {
    f.Valid() && f.UnitWeight() && f.Rested() && f.View() == CombAudio(g, x, fb, damp)
  }

  lemma WaitingNext(f: CombFilter)
    requires f.Valid() && f.UnitWeight()
    ensures Waiting(f, f.Raw().Fade())
  {
  }

  lemma WaitingMeans(f: CombFilter, g: Comb)
    requires Waiting(f, g)
    ensures f.Valid() && f.UnitWeight() && f.Raw().Fade() == g
  {
  }

  lemma MovedIs(f: CombFilter, g: Comb, x: real, fb: real, damp: real)
    requires f.Valid() && f.UnitWeight() && f.Rested() && f.View() == CombAudio(g, x, fb, damp)
    ensures Moved(f, g, x, fb, damp)
  {
  }

  lemma MovedMeans(f: CombFilter, g: Comb, x: real, fb: real, damp: real)
    requires Moved(f, g, x, fb, damp)
    ensures f.Valid() && f.UnitWeight() && f.Rested() && f.View() == CombAudio(g, x, fb, damp)
  {
  }

  /** The four combs of one channel. */
  class CombBank {
    const combs: seq<CombFilter>
    ghost const Repr: set<object>

    ghost predicate Parts() {
      && this in Repr && |combs| == NUM_COMBS
      && (forall c :: 0 <= c < NUM_COMBS ==> combs[c].len == CombLen(c) && combs[c].Repr() <= Repr)
      && (forall c, d :: 0 <= c < d < NUM_COMBS ==> Apart(combs[c], combs[d]))
    }

    ghost predicate Valid()
      reads Repr
    {
      Parts() && forall c :: 0 <= c < NUM_COMBS ==> combs[c].Valid() && combs[c].UnitWeight()
    }

    ghost predicate Rested()
      requires Valid()
      reads Repr
    {
      forall c :: 0 <= c < NUM_COMBS ==> combs[c].Rested()
    }

    ghost predicate Silent()
      requires Valid()
      reads Repr
    {
      forall c :: 0 <= c < NUM_COMBS ==> combs[c].Silent()
    }

    ghost function View(): (v: seq<Comb>)
      requires Valid()
      reads Repr
      ensures |v| == NUM_COMBS && forall c :: 0 <= c < NUM_COMBS ==> v[c] == combs[c].View()
    {
      [combs[0].View(), combs[1].View(), combs[2].View(), combs[3].View()]
    }

    /** The combs as they will be at this sample, once their weights have moved. */
    ghost function Next(): (v: seq<Comb>)
      requires Valid()
      reads Repr
      ensures |v| == NUM_COMBS && forall c :: 0 <= c < NUM_COMBS ==> v[c] == combs[c].Raw().Fade()
    {
      [combs[0].Raw().Fade(), combs[1].Raw().Fade(), combs[2].Raw().Fade(), combs[3].Raw().Fade()]
    }

    constructor (c0: CombFilter, c1: CombFilter, c2: CombFilter, c3: CombFilter)
      requires Ready(c0, 0) && Ready(c1, 1) && Ready(c2, 2) && Ready(c3, 3)
      requires Apart(c0, c1) && Apart(c0, c2) && Apart(c0, c3) && Apart(c1, c2) && Apart(c1, c3) && Apart(c2, c3)
      ensures Valid() && Rested() && Silent()
      ensures Repr == {this} + c0.Repr() + c1.Repr() + c2.Repr() + c3.Repr()
    {
      combs := [c0, c1, c2, c3];
      Repr := {this} + c0.Repr() + c1.Repr() + c2.Repr() + c3.Repr();
    }

    method Reset()
      requires Valid()
      modifies Repr
      ensures Valid() && Silent()
    {
      for c := 0 to NUM_COMBS
        invariant Valid()
        invariant forall d :: 0 <= d < c ==> combs[d].Silent()
      {
        combs[c].Reset();
      }
    }

    /** First sample after a reset: wanted combs are fully on. */
    method Snap(active: nat)
      requires Valid() && Silent()
      modifies Repr
      ensures Valid() && Rested()
      ensures forall c :: 0 <= c < NUM_COMBS ==>
                View()[c] == if c < active then On(Zeros(CombLen(c)), 0.0, Settled(1.0)) else Off
    {
      for c := 0 to NUM_COMBS
        invariant Valid()
        invariant forall d :: c <= d < NUM_COMBS ==> combs[d].Silent()
        invariant forall d :: 0 <= d < c ==> combs[d].Rested()
        invariant forall d :: 0 <= d < c ==>
                    combs[d].View() == if d < active then On(Zeros(CombLen(d)), 0.0, Settled(1.0)) else Off
      {
        combs[c].Snap(c < active);
      }
    }

    /** The number of wanted combs has changed from `previous` to `active`. */
    method Arm(previous: nat, active: nat, frames: nat)
      requires Valid() && Rested()
      requires forall c :: 0 <= c < NUM_COMBS && c < previous ==> combs[c].View().On?
      modifies Repr
      ensures Valid()
      ensures forall c :: 0 <= c < NUM_COMBS ==>
                Next()[c] == old(View())[c].Gate(CombLen(c), true, c < active, frames)
    {
      hide Comb.Gate, CombAudio, Comb.Fade, Line, BetweenOffAndOn;
      for c := 0 to NUM_COMBS
        invariant Valid()
        invariant forall d :: c <= d < NUM_COMBS ==> combs[d].Rested() && combs[d].View() == old(combs[d].View())
        invariant forall d :: 0 <= d < c ==>
                    combs[d].Raw().Fade() == old(combs[d].View()).Gate(CombLen(d), true, d < active, frames)
      {
        combs[c].Arm(c >= previous && c < active, c < active, frames);
      }
    }

    /** Comb number c takes its sample; the others are not touched. */
    method ProcessOne(c: nat, ghost gs: seq<Comb>, x: real, fb: real, damp: real) returns (w: real, delayed: real)
      requires Parts() && c < NUM_COMBS == |gs|
      requires forall d :: c <= d < NUM_COMBS ==> Waiting(combs[d], gs[d])
      requires forall d :: 0 <= d < c ==> Moved(combs[d], gs[d], x, fb, damp)
      modifies combs[c].Repr()
      ensures forall d :: c < d < NUM_COMBS ==> Waiting(combs[d], gs[d])
      ensures forall d :: 0 <= d <= c ==> Moved(combs[d], gs[d], x, fb, damp)
      ensures w == gs[c].Weight() && delayed == gs[c].Delayed()
    {
      WaitingMeans(combs[c], gs[c]);
      hide CombAudio, Comb.Fade, Line, BetweenOffAndOn, Waiting;
      w, delayed := combs[c].Process(x, fb, damp);
      MovedIs(combs[c], gs[c], x, fb, damp);
    }

    /** One sample through all combs. */
    method Process(x: real, fb: real, damp: real) returns (mix: real, normalization: real)
      requires Valid()
      modifies Repr
      ensures Valid() && Rested()
      ensures forall c :: 0 <= c < NUM_COMBS ==> View()[c] == CombAudio(old(Next())[c], x, fb, damp)
      ensures normalization == Sum(Weights(old(Next())), NUM_COMBS)
      ensures mix == Dot(Weights(old(Next())), Delays(old(Next())), NUM_COMBS)
    {
      hide Comb.Gate, CombAudio, Comb.Fade, Line, BetweenOffAndOn, Moved, Waiting, Dot, Sum;
      ghost var gs := Next();
      ghost var ws, ds := Weights(gs), Delays(gs);
      mix, normalization := 0.0, 0.0;
      DotStart(ws, ds);
      assert forall d :: 0 <= d < NUM_COMBS ==> Waiting(combs[d], gs[d]) by {
        forall d | 0 <= d < NUM_COMBS ensures Waiting(combs[d], gs[d]) { WaitingNext(combs[d]); }
      }
      for c := 0 to NUM_COMBS
        invariant forall d :: c <= d < NUM_COMBS ==> Waiting(combs[d], gs[d])
        invariant forall d :: 0 <= d < c ==> Moved(combs[d], gs[d], x, fb, damp)
        invariant normalization == Sum(ws, c) && mix == Dot(ws, ds, c)
      {
        var w, delayed := ProcessOne(c, gs, x, fb, damp);
        DotStep(ws, ds, c, w, delayed);
        normalization := normalization + w;
        if w != 0.0 { mix := mix + w * delayed; }
      }
      forall d | 0 <= d < NUM_COMBS
        ensures combs[d].Valid() && combs[d].UnitWeight() && combs[d].Rested() &&
                combs[d].View() == CombAudio(gs[d], x, fb, damp)
      {
        MovedMeans(combs[d], gs[d], x, fb, damp);
      }
    }
  }

  /** While the wanted count stays, weights only fade on. */
  lemma UnchangedGate(bank: CombBank, c: nat, wanted: bool, frames: nat)
    requires bank.Valid() && bank.Rested() && c < NUM_COMBS
    ensures bank.Next()[c] == bank.View()[c].Gate(CombLen(c), false, wanted, frames)
  {
  }

  method NewComb(c: nat) returns (f: CombFilter)
    requires c < NUM_COMBS
    ensures Ready(f, c) && fresh(f.Repr())
  {
    f := new CombFilter(CombLen(c));
  }

  method NewCombs() returns (c0: CombFilter, c1: CombFilter, c2: CombFilter, c3: CombFilter)
    ensures Ready(c0, 0) && Ready(c1, 1) && Ready(c2, 2) && Ready(c3, 3)
    ensures Apart(c0, c1) && Apart(c0, c2) && Apart(c0, c3) && Apart(c1, c2) && Apart(c1, c3) && Apart(c2, c3)
    ensures fresh(c0.Repr() + c1.Repr() + c2.Repr() + c3.Repr())
  {
    hide Ready;
    c0 := NewComb(0);
    c1 := NewComb(1);
    c2 := NewComb(2);
    c3 := NewComb(3);
  }

  method NewCombBank() returns (bank: CombBank)
    ensures bank.Valid() && bank.Rested() && bank.Silent() && fresh(bank.Repr)
  {
    hide Ready, Apart, CombBank.Valid, CombBank.Rested, CombBank.Silent;
    var c0, c1, c2, c3 := NewCombs();
    bank := new CombBank(c0, c1, c2, c3);
  }

  /** The three parameter ramps of a channel. */
  class ParameterRamps {
    const feedback: LinearRamp
    const damping: LinearRamp
    const allpass: LinearRamp

    ghost function Repr(): set<object> {
      {feedback, damping, allpass}
    }

    ghost predicate Valid()
      reads Repr()
    {
      && feedback.Valid() && damping.Valid() && allpass.Valid()
      && feedback != damping && damping != allpass && feedback != allpass
    }

    ghost function View(): (Ramp, Ramp, Ramp)
      reads Repr()
    {
      (feedback.View(), damping.View(), allpass.View())
    }

    constructor ()
      ensures Valid() && fresh(Repr())
    {
      feedback := new LinearRamp(0.84);
      damping := new LinearRamp(0.2);
      allpass := new LinearRamp(0.6);
    }

    method Snap(f: real, d: real, g: real)
      requires Valid()
      modifies Repr()
      ensures Valid() && View() == (Settled(f), Settled(d), Settled(g))
    {
      feedback.Snap(f);
      damping.Snap(d);
      allpass.Snap(g);
    }

    method Advance(f: real, d: real, g: real, frames: nat) returns (fb: real, damp: real, ap: real)
      requires Valid()
      modifies Repr()
      ensures Valid()
      ensures View() == (old(View()).0.Retarget(f, frames).Next(), old(View()).1.Retarget(d, frames).Next(),
                         old(View()).2.Retarget(g, frames).Next())
      ensures fb == View().0.value && damp == View().1.value && ap == View().2.value
    {
      feedback.Target(f, frames);
      damping.Target(d, frames);
      allpass.Target(g, frames);
      fb := feedback.Next();
      damp := damping.Next();
      ap := allpass.Next();
    }
  }

  /** The two all-pass sections in series. */
  class AllpassChain {
    const sections: seq<AllpassFilter>
    ghost const Repr: set<object>

    ghost predicate Valid()
      reads Repr
    {
      && this in Repr && |sections| == NUM_ALLPASS
      && sections[0] != sections[1] && sections[0].buf != sections[1].buf
      && forall a :: 0 <= a < NUM_ALLPASS ==>
           sections[a].Repr() <= Repr && sections[a].Valid() && sections[a].len == AllpassLen(a)
    }

    ghost function View(): (v: seq<seq<real>>)
      requires Valid()
      reads Repr
      ensures |v| == NUM_ALLPASS
      ensures forall a :: 0 <= a < NUM_ALLPASS ==> v[a] == sections[a].View() && |v[a]| == AllpassLen(a)
    {
      [sections[0].View(), sections[1].View()]
    }

    ghost predicate Silent()
      requires Valid()
      reads Repr
    {
      forall a :: 0 <= a < NUM_ALLPASS ==> View()[a] == Zeros(AllpassLen(a))
    }

    constructor ()
      ensures Valid() && Silent() && fresh(Repr)
    {
      var a0 := new AllpassFilter(556);
      var a1 := new AllpassFilter(441);
      sections := [a0, a1];
      Repr := {this} + a0.Repr() + a1.Repr();
    }

    method Reset()
      requires Valid()
      modifies Repr
      ensures Valid() && Silent()
    {
      for a := 0 to NUM_ALLPASS
        invariant Valid()
        invariant forall b :: 0 <= b < a ==> sections[b].View() == Zeros(AllpassLen(b))
      {
        sections[a].Reset();
      }
    }

    method Process(x: real, g: real) returns (y: real)
      requires Valid()
      modifies Repr
      ensures Valid()
      ensures View() == FeedLines(old(View()), g, x) && y == Through(old(View()), g, x, NUM_ALLPASS)
    {
      hide AllpassOut, AllpassFeed;
      ghost var lines := View();
      y := x;
      for a := 0 to NUM_ALLPASS
        invariant Valid() && y == Through(lines, g, x, a)
        invariant forall b :: a <= b < NUM_ALLPASS ==> sections[b].View() == lines[b]
        invariant forall b :: 0 <= b < a ==> sections[b].View() == AllpassFeed(lines[b], g, Through(lines, g, x, b))
      {
        y := sections[a].Process(y, g);
      }
    }
  }

  lemma PrimedTank(s: Settings, combs: seq<Comb>, lines: seq<seq<real>>)
    requires s.Valid() && |combs| == NUM_COMBS && |lines| == NUM_ALLPASS
    requires forall c :: 0 <= c < NUM_COMBS ==>
             combs[c] == if c < s.activeCombs then On(Zeros(CombLen(c)), 0.0, Settled(1.0)) else Off
    requires forall a :: 0 <= a < NUM_ALLPASS ==> lines[a] == Zeros(AllpassLen(a))
    ensures Primed(combs, lines, Settled(s.feedback), Settled(s.damping), Settled(s.allpassG), s.activeCombs) ==
            Freeverb.Prime(s)
  {
    assert combs == Freeverb.Prime(s).combs;
    assert lines == Freeverb.Prime(s).lines;
  }

  lemma WantedAreOn(bank: CombBank, p: Tank)
    requires p.Primed? && p.Valid() && bank.Valid() && p.combs == bank.View()
    ensures forall c :: 0 <= c < NUM_COMBS && c < p.wanted ==> bank.combs[c].View().On?
  {
    forall c | 0 <= c < NUM_COMBS && c < p.wanted ensures bank.combs[c].View().On? {
      assert p.combs[c].Ok(c, p.wanted) && p.combs[c] == bank.combs[c].View();
    }
  }

  lemma ControlIs(r: Reverb, p: Tank, combs: seq<Comb>)
    requires r.Valid() && p == (if r.tank.Primed? then r.tank else Freeverb.Prime(r.settings)) && |combs| == NUM_COMBS
    requires forall c :: 0 <= c < NUM_COMBS ==>
               combs[c] == p.combs[c].Gate(CombLen(c), r.settings.activeCombs != p.wanted, c < r.settings.activeCombs,
                                           r.settings.rampFrames)
    ensures Control(r).combs == combs && Control(r).lines == p.lines && Control(r).wanted == r.settings.activeCombs
    ensures Control(r).fb == p.fb.Retarget(r.settings.feedback, r.settings.rampFrames).Next()
    ensures Control(r).damp == p.damp.Retarget(r.settings.damping, r.settings.rampFrames).Next()
    ensures Control(r).ap == p.ap.Retarget(r.settings.allpassG, r.settings.rampFrames).Next()
  {
    hide Comb.Gate;
    assert Control(r).combs == combs;
  }

  lemma AudioIs(t: Tank, x: real, combs: seq<Comb>, lines: seq<seq<real>>)
    requires t.Valid() && t.Primed? && |combs| == NUM_COMBS
    requires forall c :: 0 <= c < NUM_COMBS ==> combs[c] == CombAudio(t.combs[c], x, t.fb.value, t.damp.value)
    requires lines == FeedLines(t.lines, t.ap.value, BankOut(t))
    ensures Audio(t, x) == t.(combs := combs, lines := lines)
  {
    hide CombAudio, FeedLines, BankOut;
    assert Audio(t, x).combs == combs;
  }

  lemma UnprimedIsSound(s: Settings)
    requires s.Valid()
    ensures Reverb(s, Unprimed).Valid()
  {
  }

  /** One channel. The parallel arrays of the original are grouped by comb and by all-pass section. */
  class Model {
    const bank: CombBank
    const allpasses: AllpassChain
    const ramps: ParameterRamps
    var activeCombs: nat
    var previousCombs: nat
    var rampFrames: nat
    var primed: bool
    var feedback: real
    var damping: real
    var allpassG: real
    var wet: real

    ghost function Repr(): set<object> {
      {this} + bank.Repr + allpasses.Repr + ramps.Repr()
    }

    /** The parts share nothing. */
    ghost predicate Separate() {
      && bank.Repr !! allpasses.Repr && bank.Repr !! ramps.Repr() && allpasses.Repr !! ramps.Repr()
      && this !in bank.Repr && this !in allpasses.Repr && this !in ramps.Repr()
    }

    ghost predicate PartsValid()
      reads bank.Repr, allpasses.Repr, ramps.Repr()
    {
      bank.Valid() && allpasses.Valid() && ramps.Valid()
    }

    ghost function SettingsView(): Settings
      reads this
    {
      Settings(feedback, damping, allpassG, activeCombs, rampFrames, wet)
    }

    ghost function TankView(): Tank
      requires PartsValid()
      reads this`previousCombs, bank.Repr, allpasses.Repr, ramps.Repr()
    {
      Primed(bank.View(), allpasses.View(), ramps.View().0, ramps.View().1, ramps.View().2, previousCombs)
    }

    /** The channel as its delay-line description sees it. */
    ghost function View(): Reverb
      requires PartsValid()
      reads this, bank.Repr, allpasses.Repr, ramps.Repr()
    {
      Reverb(SettingsView(), if primed then TankView() else Unprimed)
    }

    ghost predicate Valid()
      reads Repr()
    {
      && Separate() && PartsValid() && View().Valid()
      && (primed ==> bank.Rested())
      && (!primed ==> bank.Silent() && allpasses.Silent())
    }

    constructor (b: CombBank, a: AllpassChain, r: ParameterRamps)
      requires b.Valid() && a.Valid() && r.Valid() && b.Silent() && a.Silent()
      requires b.Repr !! a.Repr && b.Repr !! r.Repr() && a.Repr !! r.Repr()
      ensures Valid() && View() == NewReverb(DEFAULTS)
      ensures bank == b && allpasses == a && ramps == r
    {
      hide CombBank.Valid, CombBank.Silent, CombBank.Rested, AllpassChain.Valid, AllpassChain.Silent, Tank.Valid,
           ParameterRamps.Valid;
      bank, allpasses, ramps := b, a, r;
      activeCombs, previousCombs, rampFrames, primed := 4, 4, 480, false;
      feedback, damping, allpassG, wet := 0.84, 0.2, 0.6, 0.5;
      UnprimedIsSound(DEFAULTS);
    }

    method SetComplexity(level: nat)
      requires Valid() && level <= 255
      modifies this`activeCombs
      ensures Valid() && View() == old(View()).(settings := old(View()).settings.(activeCombs := ActiveCombs(level)))
    {
      hide PartsValid, TankView, Tank.Valid;
      activeCombs := 1 + level * 3 / 255;
    }

    method SetParameters(f: real, d: real, g: real)
      requires Valid()
      modifies this`feedback, this`damping, this`allpassG
      ensures Valid() && View() ==
              old(View()).(settings := old(View()).settings.(feedback := f, damping := d, allpassG := g))
    {
      hide PartsValid, TankView, Tank.Valid;
      feedback, damping, allpassG := f, d, g;
    }

    method SetRampFrames(frames: nat)
      requires Valid()
      modifies this`rampFrames
      ensures Valid() && View() == old(View()).(settings := old(View()).settings.(rampFrames := frames))
    {
      hide PartsValid, TankView, Tank.Valid;
      rampFrames := frames;
    }

    /** Everything heard so far is forgotten; the settings stay. */
    method ResetState()
      requires Valid()
      modifies Repr()
      ensures Valid() && View() == Reverb(old(View()).settings, Unprimed)
    {
      hide CombBank.Valid, CombBank.Silent, AllpassChain.Valid, AllpassChain.Silent, Tank.Valid, TankView,
           ParameterRamps.Valid;
      primed := false;
      UnprimedIsSound(SettingsView());
      bank.Reset();
      allpasses.Reset();
    }

    method SnapAll()
      requires Valid() && !primed
      modifies bank.Repr, ramps.Repr()
      ensures PartsValid() && bank.Rested()
      ensures ramps.View() == (Settled(feedback), Settled(damping), Settled(allpassG))
      ensures Primed(bank.View(), allpasses.View(), Settled(feedback), Settled(damping), Settled(allpassG),
                     activeCombs) ==
              Freeverb.Prime(SettingsView())
    {
      hide CombBank.Valid, CombBank.Silent, CombBank.Rested, AllpassChain.Valid, AllpassChain.Silent,
           ParameterRamps.Valid, Tank.Valid, Freeverb.Prime;
      ramps.Snap(feedback, damping, allpassG);
      bank.Snap(activeCombs);
      AllpassesSilent();
      PrimedTank(SettingsView(), bank.View(), allpasses.View());
    }

    /** First sample after construction or reset: all ramps jump to their targets. */
    method Prime()
      requires Valid() && !primed
      modifies Repr()
      ensures Valid() && primed && SettingsView() == old(SettingsView())
      ensures TankView() == Freeverb.Prime(SettingsView())
    {
      hide PartsValid, CombBank.Valid, CombBank.Rested, CombBank.Silent, AllpassChain.Valid, AllpassChain.Silent,
           ParameterRamps.Valid, Tank.Valid, Freeverb.Prime;
      SnapAll();
      previousCombs := activeCombs;
      primed := true;
    }

    /** The control part of a sample: afterwards the combs are about to be what `Control` says. */
    method FollowSettings() returns (fb: real, damp: real, ap: real)
      requires Valid()
      modifies Repr()
      ensures Separate() && PartsValid() && primed && SettingsView() == old(SettingsView()) &&
              previousCombs == activeCombs
      ensures Primed(bank.Next(), allpasses.View(), ramps.View().0, ramps.View().1, ramps.View().2, previousCombs) ==
              Control(old(View()))
      ensures fb == ramps.View().0.value && damp == ramps.View().1.value && ap == ramps.View().2.value
    {
      hide CombBank.Valid, CombBank.Silent, CombBank.Rested, AllpassChain.Valid, AllpassChain.Silent,
           ParameterRamps.Valid, Tank.Valid, Freeverb.Prime, Comb.Gate;
      ghost var r := View();
      ghost var p := if primed then TankView() else Freeverb.Prime(SettingsView());
      if !primed { Prime(); }
      fb, damp, ap := ramps.Advance(feedback, damping, allpassG, rampFrames);
      FollowCount(p);
      ControlIs(r, p, bank.Next());
    }

    /** The combs follow the wanted count. */
    method FollowCount(ghost p: Tank)
      requires Separate() && PartsValid() && bank.Rested() && 1 <= activeCombs <= NUM_COMBS
      requires p.Primed? && p.Valid() && p.combs == bank.View() && p.wanted == previousCombs
      modifies this`previousCombs, bank.Repr
      ensures PartsValid() && previousCombs == activeCombs
      ensures forall c :: 0 <= c < NUM_COMBS ==>
                bank.Next()[c] == p.combs[c].Gate(CombLen(c), activeCombs != p.wanted, c < activeCombs, rampFrames)
    {
      hide CombBank.Valid, CombBank.Rested, AllpassChain.Valid, ParameterRamps.Valid, Comb.Gate;
      if activeCombs != previousCombs {
        WantedAreOn(bank, p);
        bank.Arm(previousCombs, activeCombs, rampFrames);
        previousCombs := activeCombs;
      } else {
        forall c | 0 <= c < NUM_COMBS
          ensures bank.Next()[c] == p.combs[c].Gate(CombLen(c), false, c < activeCombs, rampFrames)
        {
          UnchangedGate(bank, c, c < activeCombs, rampFrames);
        }
      }
    }

    /** The audio part of a sample, for a tank `t` whose control part is done. */
    method RunAudio(x: real, fb: real, damp: real, ap: real, ghost t: Tank) returns (y: real)
      requires Separate() && PartsValid() && t.Valid() && t.Primed?
      requires bank.Next() == t.combs && allpasses.View() == t.lines
      requires fb == t.fb.value && damp == t.damp.value && ap == t.ap.value
      modifies bank.Repr, allpasses.Repr
      ensures PartsValid() && bank.Rested()
      ensures t.(combs := bank.View(), lines := allpasses.View()) == Audio(t, x)
      ensures y == Through(t.lines, t.ap.value, BankOut(t), NUM_ALLPASS)
    {
      hide CombBank.Valid, CombBank.Silent, CombBank.Rested, AllpassChain.Valid, AllpassChain.Silent,
           ParameterRamps.Valid, Tank.Valid, CombAudio, FeedLines, Through, Dot, Sum;
      WeightSumAtLeastOne(t, NUM_COMBS);
      var mix, normalization := bank.Process(x, fb, damp);
      y := mix / normalization;
      assert y == BankOut(t);
      y := allpasses.Process(y, ap);
      AudioIs(t, x, bank.View(), allpasses.View());
    }

    /** One sample of one channel: the delay-line description, step for step. */
    method ProcessChannel(x: real) returns (y: real)
      requires Valid()
      modifies Repr()
      ensures Valid() && View() == Step(old(View()), x).0 && y == Step(old(View()), x).1
    {
      hide CombBank.Valid, CombBank.Silent, CombBank.Rested, AllpassChain.Valid, AllpassChain.Silent,
           ParameterRamps.Valid, Tank.Valid, Control, Audio, Through, BankOut;
      ghost var t := Control(View());
      var fb, damp, ap := FollowSettings();
      y := RunAudio(x, fb, damp, ap, t);
      y := y * wet;
    }

    lemma AllpassesSilent()
      requires allpasses.Valid() && allpasses.Silent()
      ensures |allpasses.View()| == NUM_ALLPASS
      ensures forall a :: 0 <= a < NUM_ALLPASS ==> allpasses.View()[a] == Zeros(AllpassLen(a))
    {
    }
  }

  method NewModel() returns (m: Model)
    ensures m.Valid() && m.View() == NewReverb(DEFAULTS) && fresh(m.Repr())
  {
    hide CombBank.Valid, CombBank.Silent, CombBank.Rested, AllpassChain.Valid, AllpassChain.Silent,
         ParameterRamps.Valid,
      Model.Valid, Model.View;
    var b := NewCombBank();
    var a := new AllpassChain();
    var r := new ParameterRamps();
    m := new Model(b, a, r);
  }
}
