/** The reverb stage: one channel model for each of two channels (src/audio/FreeverbStage.h,
    src/audio/FreeverbStage.cpp). */
module FreeverbPairs {
  import opened Transducers
  import opened Interleaving
  import opened Freeverb
  import opened FreeverbStages

  const MAX_CHANNELS: nat := 2

  type Pair = (SoundReverb, SoundReverb)

  /** One sample of channel x.0, which is served by model x.0 mod 2. */
  function PairSample(p: Pair, x: (nat, real)): (Pair, real) {
    if x.0 % MAX_CHANNELS == 0 then
      var r: (SoundReverb, real) := Step(p.0, x.1);
      ((r.0, p.1), r.1)
    else
      var r: (SoundReverb, real) := Step(p.1, x.1);
      ((p.0, r.0), r.1)
  }

  function PairRun(p: Pair, xs: seq<(nat, real)>): (res: (Pair, seq<real>))
    ensures |res.1| == |xs|
  {
    Run<Pair, (nat, real), real>(PairSample, p, xs)
  }

  lemma PairRunNothing(p: Pair)
    ensures PairRun(p, []) == (p, [])
  {
  }

  lemma PairRunNext(p: Pair, xs: seq<(nat, real)>, i: nat)
    requires i < |xs|
    ensures var before := PairRun(p, xs[..i]);
            var now := PairSample(before.0, xs[i]);
            PairRun(p, xs[..i + 1]) == (now.0, before.1 + [now.1])
  {
    RunNext<Pair, (nat, real), real>(PairSample, p, xs, i);
  }

  class FreeverbStage {
    const models: seq<Model>
    ghost const Repr: set<object>

    ghost predicate Valid()
      reads Repr
    {
      && this in Repr && |models| == MAX_CHANNELS
      && models[0].Repr() <= Repr && models[1].Repr() <= Repr && models[0].Repr() !! models[1].Repr()
      && this !in models[0].Repr() && this !in models[1].Repr()
      && models[0].Valid() && models[1].Valid()
    }

    ghost function View(): Pair
      requires Valid()
      reads Repr
    {
      (models[0].View(), models[1].View())
    }

    constructor (a: Model, b: Model)
      requires a.Valid() && b.Valid() && a.Repr() !! b.Repr()
      ensures Valid() && models == [a, b] && Repr == {this} + a.Repr() + b.Repr()
      ensures View() == (a.View(), b.View())
    {
      hide Model.Valid, Model.View;
      models := [a, b];
      Repr := {this} + a.Repr() + b.Repr();
    }

    method SetComplexity(level: nat)
      requires Valid() && level <= 255
      modifies Repr
      ensures Valid() && View() == old((View().0.(settings := View().0.settings.(activeCombs := ActiveCombs(level))),
                                        View().1.(settings := View().1.settings.(activeCombs := ActiveCombs(level)))))
    {
      hide Model.Valid, Model.View;
      models[0].SetComplexity(level);
      models[1].SetComplexity(level);
    }

    method SetParameters(f: real, d: real, g: real)
      requires Valid()
      modifies Repr
      ensures Valid()
      ensures View() == old((View().0.(settings := View().0.settings.(feedback := f, damping := d, allpassG := g)),
                             View().1.(settings := View().1.settings.(feedback := f, damping := d, allpassG := g))))
    {
      hide Model.Valid, Model.View;
      models[0].SetParameters(f, d, g);
      models[1].SetParameters(f, d, g);
    }

    method SetRampFrames(frames: nat)
      requires Valid()
      modifies Repr
      ensures Valid() && View() == old((View().0.(settings := View().0.settings.(rampFrames := frames)),
                                        View().1.(settings := View().1.settings.(rampFrames := frames))))
    {
      hide Model.Valid, Model.View;
      models[0].SetRampFrames(frames);
      models[1].SetRampFrames(frames);
    }

    method Reset()
      requires Valid()
      modifies Repr
      ensures Valid() && View() == old((Reverb(View().0.settings, Unprimed), Reverb(View().1.settings, Unprimed)))
    {
      hide Model.Valid, Model.View;
      models[0].ResetState();
      models[1].ResetState();
    }

    /** One sample of channel ch. */
    method ProcessSample(ch: nat, x: real) returns (y: real)
      requires Valid()
      modifies Repr
      ensures Valid() && (View(), y) == PairSample(old(View()), (ch, x))
    {
      hide Model.Valid, Model.View, Step;
      var m := if ch < MAX_CHANNELS then ch else ch % MAX_CHANNELS;
      y := models[m].ProcessChannel(x);
    }

    /** One block of interleaved audio. The output may be the input array. Without channels nothing happens. */
    method Process(input: array<real>, output: array<real>, frames: nat, channels: nat)
      requires Valid() && input !in Repr && output !in Repr
      requires BlockSize(frames, channels) <= input.Length && BlockSize(frames, channels) <= output.Length
      modifies Repr, output
      ensures Valid()
      ensures channels > 0 ==>
                PairRun(old(View()), Tagged(old(input[..BlockSize(frames, channels)]), channels)) ==
                (View(), output[..BlockSize(frames, channels)])
      ensures channels == 0 ==> View() == old(View())
      ensures output[BlockSize(frames, channels)..] == old(output[BlockSize(frames, channels)..])
    {
      hide PairSample, PairRun, Model.Valid;
      ghost var n := BlockSize(frames, channels);
      ghost var xs := input[..n];
      ghost var inputs := if channels == 0 then [] else Tagged(xs, channels);
      ghost var p := View();
      PairRunNothing(p);
      ProcessFrames(input, output, frames, channels, n, xs, inputs);
    }

    method ProcessFrames(input: array<real>, output: array<real>, frames: nat, channels: nat,
                         ghost n: nat, ghost xs: seq<real>, ghost inputs: seq<(nat, real)>)
      requires Valid() && input !in Repr && output !in Repr
      requires n == BlockSize(frames, channels) && n <= input.Length && n <= output.Length && xs == input[..n]
      requires inputs == if channels == 0 then [] else Tagged(xs, channels)
      modifies Repr, output
      ensures Valid() && PairRun(old(View()), inputs) == (View(), output[..n])
      ensures output[n..] == old(output[n..])
    {
      hide PairSample, PairRun, View, Model.Valid;
      ghost var p := View();
      PairRunNothing(p);
      assert inputs[..0] == [] && output[..0] == [];
      ghost var tail := output[n..];
      var at := 0;
      for f := 0 to frames
        invariant Valid() && at == f * channels <= n
        invariant PairRun(p, inputs[..at]) == (View(), output[..at])
        invariant output[n..] == tail && input[at..n] == xs[at..]
      {
        WithinBlock(f, frames, channels);
        ProcessFrame(input, output, at, channels, n, f, p, xs, inputs);
        NextFrame(f, channels);
        at := at + channels;
      }
      assert inputs[..n] == inputs;
    }

    /** The samples of one frame, in terms of the run over the whole block. */
    method ProcessFrame(input: array<real>, output: array<real>, at: nat, channels: nat, ghost n: nat, ghost f: nat,
                        ghost p: Pair, ghost xs: seq<real>, ghost inputs: seq<(nat, real)>)
      requires Valid() && input !in Repr && output !in Repr
      requires at == f * channels && at + channels <= n == |xs| && n <= input.Length && n <= output.Length
      requires input[at..n] == xs[at..] && inputs == if channels == 0 then [] else Tagged(xs, channels)
      requires PairRun(p, inputs[..at]) == (View(), output[..at])
      modifies Repr, output
      ensures Valid() && PairRun(p, inputs[..at + channels]) == (View(), output[..at + channels])
      ensures output[n..] == old(output[n..]) && input[at + channels..n] == xs[at + channels..]
    {
      hide PairSample, PairRun, View, Valid, BlockSize;
      for ch := 0 to channels
        invariant Valid() && PairRun(p, inputs[..at + ch]) == (View(), output[..at + ch])
        invariant output[n..] == old(output[n..]) && input[at + ch..n] == xs[at + ch..]
      {
        ChannelOf(f, ch, channels);
        ProcessAt(input, output, at + ch, ch, n, p, xs, inputs);
      }
    }

    /** One sample, at position i of the block. */
    method ProcessAt(input: array<real>, output: array<real>, i: nat, ch: nat, ghost n: nat,
                     ghost p: Pair, ghost xs: seq<real>, ghost inputs: seq<(nat, real)>)
      requires Valid() && input !in Repr && output !in Repr
      requires i < n == |xs| == |inputs| && n <= input.Length && n <= output.Length
      requires input[i..n] == xs[i..] && inputs[i] == (ch, xs[i])
      requires PairRun(p, inputs[..i]) == (View(), output[..i])
      modifies Repr, output
      ensures Valid() && PairRun(p, inputs[..i + 1]) == (View(), output[..i + 1])
      ensures output[n..] == old(output[n..]) && input[i + 1..n] == xs[i + 1..]
    {
      hide PairSample, PairRun, View, Valid;
      PairRunNext(p, inputs, i);
      assert input[i] == input[i..n][0] == xs[i];
      assert input[i + 1..n] == input[i..n][1..] == xs[i..][1..] == xs[i + 1..];
      ghost var done := output[..i];
      var y := ProcessSample(ch, input[i]);
      output[i] := y;
      assert output[..i + 1] == done + [y];
    }
  }

  method NewFreeverbStage() returns (stage: FreeverbStage)
    ensures stage.Valid() && fresh(stage.Repr) && stage.View() == (NewReverb(DEFAULTS), NewReverb(DEFAULTS))
  {
    hide Model.Valid, Model.View;
    var a := NewModel();
    var b := NewModel();
    stage := new FreeverbStage(a, b);
  }
}
