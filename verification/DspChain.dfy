/** The signal chain as the audio callback runs it: whole blocks, in chunks of at most 4096 frames, through one
    stage after the other, with scratch buffers in between (src/audio/DspChain.h, src/audio/DspChain.cpp,
    src/audio/DspChainControl.cpp, src/audio/PassthroughCallback.cpp). */
module DspChains {
  import opened Interleaving
  import opened RealFacts
  import opened Freeverb
  import opened FreeverbPairs
  import opened MixerStages
  import opened LimiterStages
  import opened ChainReference
  import opened ChainTheorems
  import opened Floats
  import opened Captures
  import opened RingBuffers

  const MAX_FRAMES: nat := 4096
  const BUF_ELEMS: nat := 8192

  /** What the reader makes of its input: a copy, or silence where there is no input. */
  ghost function Heard(input: array?<real>, base: nat, n: nat): (xs: seq<real>)
    requires input != null ==> base + n <= input.Length
    reads input
    ensures |xs| == n
  {
    if input == null then Zeros(n) else input[base..base + n]
  }

  /** The reader stage. */
  method Read(input: array?<real>, base: nat, dry: array<real>, n: nat)
    requires n <= dry.Length && input != dry && (input != null ==> base + n <= input.Length)
    modifies dry
    ensures dry[..n] == Heard(input, base, n)
  {
    if input != null {
      for i := 0 to n
        invariant forall k :: 0 <= k < i ==> dry[k] == input[base + k]
      {
        dry[i] := input[base + i];
      }
    } else {
      for i := 0 to n
        invariant forall k :: 0 <= k < i ==> dry[k] == 0.0
      {
        dry[i] := 0.0;
      }
    }
  }

  datatype Snapshot = Snapshot(chain: Chain, words: SoundControls, tap: Tap, enabled: bool, rate: real)

  /** One block under constant control words: what it does to the chain, to the tap and to the output. */
  function Play(m: Maths, s: Snapshot, capacity: nat, xs: seq<real>, frames: nat, channels: nat):
    (res: (Snapshot, seq<real>))
    requires channels > 0 && |xs| == BlockSize(frames, channels)
    ensures |res.1| == |xs|
  {
    var r := ChainReference.Process(m, s.chain, s.words, xs, channels);
    (s.(chain := r.0, tap := Captured(s.tap, s.enabled, capacity, xs, frames, channels, s.rate)), r.1)
  }

  lemma MixerSound(m: MixerStage)
    requires m.Valid()
    ensures m.View().Valid() && m in m.Repr
  {
  }

  lemma LimiterSound(l: LimiterStage)
    requires l.Valid()
    ensures l.View().Valid() && l in l.Repr
  {
  }

  ghost function Together(reverb: FreeverbStage, mixer: MixerStage, limiter: LimiterStage): Audio
    requires reverb.Valid() && mixer.Valid() && limiter.Valid()
    reads reverb.Repr, mixer.Repr, limiter.Repr
  {
    MixerSound(mixer);
    LimiterSound(limiter);
    Audio(reverb.View(), mixer.View(), limiter.View())
  }

  function RampFrames(rate: real): (n: nat)
    requires rate >= 0.0
    ensures n as real <= rate / 100.0 < n as real + 1.0
  {
    (rate / 100.0).Floor
  }

  lemma StillHeard(input: array?<real>, base: nat, next: nat, n: nat, xs: seq<real>)
    requires base <= next <= n == |xs|
    requires if input == null then xs == Zeros(n) else n <= input.Length && input[base..n] == xs[base..n]
    ensures xs[base..next] == Heard(input, base, next - base)
    ensures input != null ==> forall k :: next <= k < n ==> input[k] == xs[k]
  {
    if input != null {
      assert input[base..next] == input[base..n][..next - base];
      forall k | next <= k < n ensures input[k] == xs[k] {
        assert input[base..n][k - base] == xs[base..n][k - base];
      }
    }
  }

  lemma WholeBlocks(frames: nat, channels: nat)
    requires channels > 0
    ensures BlockSize(frames, channels) % channels == 0
  {
    ChannelOf(frames, 0, channels);
  }

  /** What the callback does to sound and capture is the same in one block or in two, if the first is made of
      whole capture chunks. */
  lemma PlayAppend(m: Maths, s: Snapshot, capacity: nat, xs: seq<real>, ys: seq<real>, f: nat, g: nat, h: nat,
                   channels: nat)
    requires channels > 0 && |xs| == BlockSize(f, channels) && |ys| == BlockSize(g, channels)
    requires f % CHUNK_FRAMES == 0 && h == f + g
    ensures |xs + ys| == BlockSize(h, channels)
    ensures var first := Play(m, s, capacity, xs, f, channels);
            var second := Play(m, first.0, capacity, ys, g, channels);
            Play(m, s, capacity, xs + ys, h, channels) == (second.0, first.1 + second.1)
  {
    hide BlockSize, ChainReference.Process, Captured;
    Ordered(f, h, h, channels);
    WholeBlocks(f, channels);
    SplitBlock(m, s.chain, s.words, xs, ys, channels);
    CapturedAppend(s.tap, s.enabled, capacity, xs, ys, f, g, channels, s.rate);
  }

  lemma PlayNext(m: Maths, s: Snapshot, capacity: nat, xs: seq<real>, base: nat, next: nat, done: nat, count: nat,
                 now: nat, channels: nat)
    requires channels > 0 && done % MAX_FRAMES == 0 && now == done + count
    requires base == BlockSize(done, channels) && next == BlockSize(now, channels) &&
             next == base + BlockSize(count, channels) <= |xs|
    ensures var first := Play(m, s, capacity, xs[..base], done, channels);
            var second := Play(m, first.0, capacity, xs[base..next], count, channels);
            Play(m, s, capacity, xs[..next], now, channels) == (second.0, first.1 + second.1)
  {
    hide Play, BlockSize;
    PlayAppend(m, s, capacity, xs[..base], xs[base..next], done, count, now, channels);
    assert xs[..base] + xs[base..next] == xs[..next];
  }

  ghost predicate Ignored(output: array?<real>, frames: nat, channels: nat) {
    output == null || frames == 0 || channels == 0 || channels > 2
  }

  lemma ChunkFits(frames: nat, channels: nat)
    requires 0 < frames <= MAX_FRAMES && 1 <= channels <= 2
    ensures 0 < BlockSize(frames, channels) <= BUF_ELEMS
  {
  }

  lemma PlayNothing(m: Maths, s: Snapshot, capacity: nat, channels: nat)
    requires channels > 0
    ensures BlockSize(0, channels) == 0
    ensures Play(m, s, capacity, [], 0, channels) == (s, [])
  {
    NoFrames(channels);
    CapturedNothing(s.tap, s.enabled, capacity, channels, s.rate);
  }

  lemma NotCaptured(t: Tap, capacity: nat, xs: seq<real>, frames: nat, channels: nat, rate: real)
    requires |xs| == BlockSize(frames, channels)
    ensures Captured(t, false, capacity, xs, frames, channels, rate) == t
  {
  }

  method NewBuffers() returns (d: array<real>, w: array<real>, m: array<real>)
    ensures fresh(d) && fresh(w) && fresh(m) && d != w && d != m && w != m
    ensures d.Length == w.Length == m.Length == BUF_ELEMS
  {
    d := new real[BUF_ELEMS](i => 0.0);
    w := new real[BUF_ELEMS](i => 0.0);
    m := new real[BUF_ELEMS](i => 0.0);
  }

  class DspChain {
    const reverb: FreeverbStage
    const mixer: MixerStage
    const limiter: LimiterStage
    const tap: CaptureTap
    const dryBuf: array<real>
    const wetBuf: array<real>
    const mixBuf: array<real>
    var presetWord: nat
    var complexityWord: nat
    var classifierEnabled: bool
    var sampleRate: real
    var lastPreset: nat
    ghost const Repr: set<object>

    ghost predicate Apart() {
      && Repr == {this, dryBuf, wetBuf, mixBuf} + reverb.Repr + mixer.Repr + limiter.Repr + tap.Repr()
      && mixer in mixer.Repr && limiter in limiter.Repr && dryBuf != wetBuf && dryBuf != mixBuf && wetBuf != mixBuf
      && {this, dryBuf, wetBuf, mixBuf} !! (reverb.Repr + mixer.Repr + limiter.Repr + tap.Repr())
      && reverb.Repr !! mixer.Repr && reverb.Repr !! limiter.Repr && reverb.Repr !! tap.Repr()
      && mixer.Repr !! limiter.Repr && mixer.Repr !! tap.Repr() && limiter.Repr !! tap.Repr()
      && dryBuf.Length == wetBuf.Length == mixBuf.Length == BUF_ELEMS
    }

    ghost predicate Valid()
      reads Repr, reverb.Repr, mixer.Repr, limiter.Repr, tap.Repr()
    {
      && Apart() && reverb.Valid() && mixer.Valid() && limiter.Valid() && tap.Valid()
      && presetWord <= 255 && complexityWord <= 255
    }

    ghost function Tools(): Maths {
      Maths(mixer.cosine, mixer.sine, limiter.tanh)
    }

    ghost function Words(): Controls
      reads this
    {
      Controls(presetWord, complexityWord)
    }

    ghost function MixerView(): SoundMixer
      requires mixer.Valid()
      reads mixer.Repr
    {
      MixerSound(mixer);
      mixer.View()
    }

    ghost function LimiterView(): SoundLimiter
      requires limiter.Valid()
      reads limiter.Repr
    {
      LimiterSound(limiter);
      limiter.View()
    }

    ghost function StagesView(): Audio
      requires reverb.Valid() && mixer.Valid() && limiter.Valid()
      reads reverb.Repr, mixer.Repr, limiter.Repr
    {
      Audio(reverb.View(), MixerView(), LimiterView())
    }

    ghost function View(): Chain
      requires Valid()
      reads Repr, reverb.Repr, mixer.Repr, limiter.Repr, tap.Repr()
    {
      Chain(StagesView(), lastPreset)
    }

    constructor (reverb: FreeverbStage, mixer: MixerStage, limiter: LimiterStage, tap: CaptureTap)
      requires reverb.Valid() && mixer.Valid() && limiter.Valid() && tap.Valid()
      requires reverb.Repr !! mixer.Repr && reverb.Repr !! limiter.Repr && reverb.Repr !! tap.Repr()
      requires mixer.Repr !! limiter.Repr && mixer.Repr !! tap.Repr() && limiter.Repr !! tap.Repr()
      ensures Valid() && this.reverb == reverb && this.mixer == mixer && this.limiter == limiter && this.tap == tap
      ensures fresh(Repr - reverb.Repr - mixer.Repr - limiter.Repr - tap.Repr())
      ensures View() == Chain(old(Together(reverb, mixer, limiter)), NO_PRESET) && Words() == Controls(1, 128)
      ensures tap.View() == old(tap.View()) && !classifierEnabled && sampleRate == 48000.0
    {
      hide FreeverbStage.Valid, FreeverbStage.View, MixerStage.Valid, MixerStage.View, LimiterStage.Valid,
           LimiterStage.View, CaptureTap.Valid, CaptureTap.View;
      MixerSound(mixer);
      LimiterSound(limiter);
      this.reverb, this.mixer, this.limiter, this.tap := reverb, mixer, limiter, tap;
      var d, w, m := NewBuffers();
      dryBuf, wetBuf, mixBuf := d, w, m;
      Repr := {this, d, w, m} + reverb.Repr + mixer.Repr + limiter.Repr + tap.Repr();
      presetWord, complexityWord, classifierEnabled, sampleRate, lastPreset := 1, 128, false, 48000.0, NO_PRESET;
    }

    method ApplyPreset()
      requires Valid()
      modifies Repr
      ensures Valid() && View() == ChainReference.ApplyPreset(old(View()), presetWord)
      ensures Words() == old(Words()) && tap.View() == old(tap.View()) && classifierEnabled == old(classifierEnabled) &&
              sampleRate == old(sampleRate)
    {
      hide FreeverbStage.Valid, FreeverbStage.View, MixerStage.Valid, MixerStage.View, LimiterStage.Valid,
           LimiterStage.View, CaptureTap.Valid, CaptureTap.View;
      var preset := presetWord;
      if preset >= PRESET_COUNT { return; }
      if preset == lastPreset { return; }
      lastPreset := preset;
      var p := Preset(preset);
      reverb.SetParameters(p.feedback, p.damping, p.allpassG);
      limiter.SetKneeBlend(p.kneeBlend);
      mixer.SetCrossfadeMode(p.crossfadeMode);
    }

    method ApplyComplexity()
      requires Valid()
      modifies Repr
      ensures Valid() && View() == ChainReference.ApplyComplexity(old(View()), complexityWord)
      ensures Words() == old(Words()) && tap.View() == old(tap.View()) && classifierEnabled == old(classifierEnabled) &&
              sampleRate == old(sampleRate)
    {
      hide FreeverbStage.Valid, FreeverbStage.View, MixerStage.Valid, MixerStage.View, LimiterStage.Valid,
           LimiterStage.View, CaptureTap.Valid, CaptureTap.View;
      reverb.SetComplexity(complexityWord);
    }

    /** The part of the state that the stages have nothing to do with. */
    ghost function Rest(): (nat, nat, bool, real, nat)
      reads this
    {
      (presetWord, complexityWord, classifierEnabled, sampleRate, lastPreset)
    }

    method RunReverb(frames: nat, channels: nat, ghost n: nat)
      requires Valid() && channels > 0 && n == BlockSize(frames, channels)
      requires n <= dryBuf.Length && n <= wetBuf.Length && n <= mixBuf.Length
      modifies reverb.Repr, wetBuf
      ensures Valid() && Rest() == old(Rest()) && mixer.View() == old(mixer.View()) &&
              limiter.View() == old(limiter.View()) && tap.View() == old(tap.View())
      ensures dryBuf[..] == old(dryBuf[..])
      ensures PairRun(old(reverb.View()), Tagged(dryBuf[..n], channels)) ==
              (reverb.View(), wetBuf[..n])
    {
      hide FreeverbStage.Valid, FreeverbStage.View, MixerStage.Valid, MixerStage.View, LimiterStage.Valid,
           LimiterStage.View, CaptureTap.Valid, CaptureTap.View;
      hide PairRun;
      reverb.Process(dryBuf, wetBuf, frames, channels);
    }

    method RunMixer(frames: nat, channels: nat, ghost n: nat)
      requires Valid() && channels > 0 && 0 < n == BlockSize(frames, channels)
      requires n <= dryBuf.Length && n <= wetBuf.Length && n <= mixBuf.Length
      modifies mixer.Repr, mixBuf
      ensures Valid() && Rest() == old(Rest()) && reverb.View() == old(reverb.View()) &&
              limiter.View() == old(limiter.View()) && tap.View() == old(tap.View())
      ensures dryBuf[..] == old(dryBuf[..])
      ensures MixRun(mixer.cosine, mixer.sine, old(MixerView()),
                     TaggedPair(dryBuf[..n], old(wetBuf[..n]), channels)) ==
              (MixerView(), mixBuf[..n])
    {
      hide FreeverbStage.Valid, FreeverbStage.View, MixerStage.Valid, MixerStage.View, LimiterStage.Valid,
           LimiterStage.View, CaptureTap.Valid, CaptureTap.View;
      hide MixRun, Mixer.Aim;
      MixerSound(mixer);
      ghost var before: SoundMixer := mixer.View();
      MixerStages.AimAbsorbed(before, mixer.cosine, mixer.sine, TaggedPair(dryBuf[..n], wetBuf[..n], channels));
      mixer.Mix(dryBuf, wetBuf, mixBuf, frames, channels);
      MixerSound(mixer);
    }

    method RunLimiter(output: array<real>, base: nat, frames: nat, channels: nat, ghost n: nat)
      requires Valid() && channels > 0 && 0 < n == BlockSize(frames, channels)
      requires n <= dryBuf.Length && n <= wetBuf.Length && n <= mixBuf.Length
      requires output !in Repr && base + n <= output.Length
      modifies limiter.Repr, output
      ensures Valid() && Rest() == old(Rest()) && reverb.View() == old(reverb.View()) &&
              mixer.View() == old(mixer.View()) && tap.View() == old(tap.View())
      ensures dryBuf[..] == old(dryBuf[..])
      ensures LimitRun(limiter.tanh, old(LimiterView()), Tagged(old(mixBuf[..n]), channels)) ==
              (LimiterView(), output[base..base + n])
      ensures output[..base] == old(output[..base])
      ensures output[base + n..] == old(output[base + n..])
    {
      hide FreeverbStage.Valid, FreeverbStage.View, MixerStage.Valid, MixerStage.View, LimiterStage.Valid,
           LimiterStage.View, CaptureTap.Valid, CaptureTap.View;
      hide LimitRun, Limiter.Aim;
      LimiterSound(limiter);
      ghost var before: SoundLimiter := limiter.View();
      LimiterStages.AimAbsorbed(limiter.tanh, before, Tagged(mixBuf[..n], channels));
      limiter.Process(mixBuf, output, base, frames, channels);
      LimiterSound(limiter);
    }

    /** The chunk in the dry buffer, through reverb, mixer and limiter, to the output. */
    method RunStages(output: array<real>, base: nat, frames: nat, channels: nat, ghost n: nat, ghost xs: seq<real>)
      requires Valid() && channels > 0 && 0 < n == BlockSize(frames, channels)
      requires n <= dryBuf.Length && n <= wetBuf.Length && n <= mixBuf.Length && dryBuf[..n] == xs
      requires output !in Repr && base + n <= output.Length
      modifies reverb.Repr, wetBuf, mixer.Repr, mixBuf, limiter.Repr, output
      ensures Valid() && Rest() == old(Rest()) && tap.View() == old(tap.View()) && dryBuf[..n] == xs
      ensures ChainRun(Tools(), old(StagesView()), Tagged(xs, channels)) == (StagesView(), output[base..base + n])
      ensures output[..base] == old(output[..base]) && output[base + n..] == old(output[base + n..])
    {
      hide FreeverbStage.Valid, FreeverbStage.View, MixerStage.Valid, MixerStage.View, LimiterStage.Valid,
           LimiterStage.View, CaptureTap.Valid, CaptureTap.View;
      hide PairRun, MixRun, LimitRun, ChainRun;
      StagesInStep(Tools(), StagesView(), xs, channels);
      RunReverb(frames, channels, n);
      RunMixer(frames, channels, n);
      RunLimiter(output, base, frames, channels, n);
    }

    /** Everything that can be observed of the chain between two blocks. */
    ghost function Whole(): Snapshot
      requires Valid()
      reads Repr, reverb.Repr, mixer.Repr, limiter.Repr, tap.Repr()
    {
      Snapshot(View(), Words(), tap.View(), classifierEnabled, sampleRate)
    }

    /** The first frames of a block have been played since `start`, and have left the output up to `base`. */
    ghost predicate Reached(start: Snapshot, xs: seq<real>, base: nat, frames: nat, channels: nat, output: array<real>)
      requires Valid() && channels > 0 && base == BlockSize(frames, channels) <= |xs| && base <= output.Length
      reads Repr, reverb.Repr, mixer.Repr, limiter.Repr, tap.Repr(), output
    {
      Play(Tools(), start, tap.queue.buffer.Length, xs[..base], frames, channels) == (Whole(), output[..base])
    }

    /** Read the control words, then run one chunk. */
    method ProcessChunk(input: array?<real>, output: array<real>, base: nat, frames: nat, channels: nat, ghost n: nat,
                        ghost xs: seq<real>)
      requires Valid() && channels > 0 && 0 < n == BlockSize(frames, channels) <= BUF_ELEMS
      requires input !in Repr && (input != null ==> base + n <= input.Length) && xs == Heard(input, base, n)
      requires output !in Repr && base + n <= output.Length
      modifies Repr, output
      ensures Valid() && Play(Tools(), old(Whole()), tap.queue.buffer.Length, xs, frames, channels) ==
              (Whole(), output[base..base + n])
      ensures output[..base] == old(output[..base]) && output[base + n..] == old(output[base + n..])
    {
      hide FreeverbStage.Valid, FreeverbStage.View, MixerStage.Valid, MixerStage.View, LimiterStage.Valid,
           LimiterStage.View, CaptureTap.Valid, CaptureTap.View;
      hide ChainRun, ChainReference.ApplyPreset, ChainReference.ApplyComplexity, Captured;
      ApplyPreset();
      ApplyComplexity();
      Read(input, base, dryBuf, BlockSize(frames, channels));
      RunStages(output, base, frames, channels, n, xs);
      Capture(frames, channels, n);
    }

    /** Hand the dry signal to the classifier, if it is on. */
    method Capture(frames: nat, channels: nat, ghost n: nat)
      requires Valid() && n == BlockSize(frames, channels) && n <= dryBuf.Length
      modifies tap.Repr()
      ensures Valid() && Rest() == old(Rest()) && StagesView() == old(StagesView())
      ensures tap.View() == Captured(old(tap.View()), classifierEnabled, tap.queue.buffer.Length, dryBuf[..n], frames,
                                     channels, sampleRate)
    {
      hide FreeverbStage.Valid, FreeverbStage.View, MixerStage.Valid, MixerStage.View, LimiterStage.Valid,
           LimiterStage.View, CaptureTap.Valid, CaptureTap.View;
      hide Captured;
      NotCaptured(tap.View(), tap.queue.buffer.Length, dryBuf[..n], frames, channels, sampleRate);
      if classifierEnabled {
        tap.PushAudio(dryBuf, sampleRate, frames, channels);
      }
    }

    /** One call of the audio callback. Without output, without frames, or with a channel count other than one
        or two, it does nothing at all. The output may be the input array. */
    method Process(input: array?<real>, output: array?<real>, frames: nat, channels: nat)
      requires Valid() && input !in Repr && output !in Repr
      requires input != null ==> BlockSize(frames, channels) <= input.Length
      requires output != null ==> BlockSize(frames, channels) <= output.Length
      modifies Repr, output
      ensures Valid()
      ensures Ignored(output, frames, channels) ==>
                Whole() == old(Whole()) && (output != null ==> output[..] == old(output[..]))
      ensures !Ignored(output, frames, channels) ==>
                && Play(Tools(), old(Whole()), tap.queue.buffer.Length,
                        old(Heard(input, 0, BlockSize(frames, channels))), frames, channels) ==
                   (Whole(), output[..BlockSize(frames, channels)])
                && output[BlockSize(frames, channels)..] == old(output[BlockSize(frames, channels)..])
    {
      if output == null || frames == 0 || channels == 0 || channels > 2 { return; }
      ProcessAll(input, output, frames, channels, BlockSize(frames, channels),
                 Heard(input, 0, BlockSize(frames, channels)));
    }

    method ProcessAll(input: array?<real>, output: array<real>, frames: nat, channels: nat, ghost n: nat,
                      ghost xs: seq<real>)
      requires Valid() && 1 <= channels <= 2 && n == BlockSize(frames, channels)
      requires input !in Repr && (input != null ==> n <= input.Length) && xs == Heard(input, 0, n)
      requires output !in Repr && n <= output.Length
      modifies Repr, output
      ensures Valid() && Play(Tools(), old(Whole()), tap.queue.buffer.Length, xs, frames, channels) ==
              (Whole(), output[..n])
      ensures output[n..] == old(output[n..])
    {
      hide Whole, Valid, Play, Tools, BlockSize;
      ghost var start, before := Whole(), output[..];
      PlayNothing(Tools(), start, tap.queue.buffer.Length, channels);
      assert xs[..0] == [] && output[..0] == [];
      var left: nat, base: nat := frames, 0;
      while left > 0
        invariant Valid() && left <= frames && base == BlockSize(frames - left, channels) <= n
        invariant left == 0 || (frames - left) % MAX_FRAMES == 0
        invariant Reached(start, xs, base, frames - left, channels, output)
        invariant output[base..] == before[base..] && (input != null ==> input[base..n] == xs[base..n])
      {
        var count := if left < MAX_FRAMES then left else MAX_FRAMES;
        Ordered(frames - left, frames - left + count, frames, channels);
        ProcessNext(input, output, base, count, channels, base + BlockSize(count, channels), n, xs, start,
                    frames - left, frames - left + count);
        left, base := left - count, base + BlockSize(count, channels);
      }
      assert xs[..n] == xs;
    }

    /** One chunk, in terms of the whole block. */
    method ProcessNext(input: array?<real>, output: array<real>, base: nat, count: nat, channels: nat, ghost next: nat,
                       ghost n: nat, ghost xs: seq<real>, ghost start: Snapshot, ghost done: nat, ghost now: nat)
      requires Valid() && 1 <= channels <= 2 && 0 < count <= MAX_FRAMES && done % MAX_FRAMES == 0 && now == done + count
      requires base == BlockSize(done, channels) && next == BlockSize(now, channels) &&
               next == base + BlockSize(count, channels)
      requires next <= n == |xs| && output !in Repr && n <= output.Length
      requires input !in Repr
      requires if input == null then xs == Zeros(n) else n <= input.Length && input[base..n] == xs[base..n]
      requires Reached(start, xs, base, done, channels, output)
      modifies Repr, output
      ensures Valid() && Reached(start, xs, next, now, channels, output)
      ensures output[next..] == old(output[next..])
      ensures input != null ==> input[next..n] == xs[next..n]
    {
      hide Whole, Valid, Play, Tools, BlockSize, Heard;
      ghost var ys, out := xs[base..next], output[..base];
      ChunkFits(count, channels);
      StillHeard(input, base, next, n, xs);
      PlayNext(Tools(), start, tap.queue.buffer.Length, xs, base, next, done, count, now, channels);
      ProcessChunk(input, output, base, count, channels, next - base, ys);
      assert output[..next] == out + output[base..next];
      assert input != null ==> forall k :: next <= k < n ==> input[k] == old(input[k]);
    }

    method Reset()
      requires Valid()
      modifies Repr
      ensures Valid() && Whole() == old(Whole()).(chain := ChainReference.Reset(old(View())))
    {
      hide FreeverbStage.Valid, FreeverbStage.View, MixerStage.Valid, MixerStage.View, LimiterStage.Valid,
           LimiterStage.View, CaptureTap.Valid, CaptureTap.View;
      reverb.Reset();
      mixer.Reset();
      limiter.Reset();
      lastPreset := NO_PRESET;
    }

    /** All stages get one ramp length. */
    method SetRamps(frames: nat)
      requires Valid()
      modifies reverb.Repr, mixer.Repr, limiter.Repr
      ensures Valid() && Rest() == old(Rest()) && tap.View() == old(tap.View())
      ensures View() == Ramped(old(View()), frames)
    {
      hide FreeverbStage.Valid, FreeverbStage.View, MixerStage.Valid, MixerStage.View, LimiterStage.Valid,
           LimiterStage.View, CaptureTap.Valid, CaptureTap.View;
      reverb.SetRampFrames(frames);
      mixer.SetRampFrames(frames);
      limiter.SetRampFrames(frames);
    }

    /** A rate out of range is clamped, and one that is no number is taken as 48 kHz. Ramps take ten
        milliseconds. */
    method SetSampleRate(rate: Float)
      requires Valid()
      modifies Repr
      ensures Valid() && 8000.0 <= sampleRate <= 192000.0
      ensures sampleRate == if rate.Finite? then Clamp(rate.value, 8000.0, 192000.0) else 48000.0
      ensures Whole() == old(Whole()).(chain := Ramped(old(View()), RampFrames(sampleRate)), rate := sampleRate)
    {
      hide FreeverbStage.Valid, FreeverbStage.View, MixerStage.Valid, MixerStage.View, LimiterStage.Valid,
           LimiterStage.View, CaptureTap.Valid, CaptureTap.View, Ramped;
      sampleRate := if rate.Finite? then Clamp(rate.value, 8000.0, 192000.0) else 48000.0;
      SetRamps(RampFrames(sampleRate));
    }
  }

  method NewTap() returns (tap: CaptureTap)
    ensures tap.Valid() && fresh(tap.Repr()) && tap.View() == Tap(0, 0, [])
  {
    var queue := new RingBuffer<SoundChunk>(AUDIO_QUEUE, AudioChunk([], 0, Finite(48000.0), 0, 1));
    tap := new CaptureTap(queue);
  }

  /** A chain as built: tonal preset, middle complexity, no capture, 48 kHz. */
  function Fresh(): Snapshot {
    Snapshot(NewChain(0.5, 1.0, 480), Controls(1, 128), Tap(0, 0, []), false, 48000.0)
  }

  lemma FreshChain()
    ensures NewChain(0.5, 1.0, 480) ==
            Chain(Audio((NewReverb(DEFAULTS), NewReverb(DEFAULTS)), NewMixer(0.5, 0.0, 480), NewLimiter(0.0, 1.0, 480)),
                  NO_PRESET)
  {
    assert DEFAULTS.(rampFrames := 480) == DEFAULTS;
  }

  method NewDspChain(m: Maths) returns (chain: DspChain)
    ensures chain.Valid() && fresh(chain.Repr) && chain.Tools() == m && chain.Whole() == Fresh()
  {
    hide FreeverbStage.Valid, FreeverbStage.View, MixerStage.Valid, MixerStage.View, LimiterStage.Valid,
         LimiterStage.View, CaptureTap.Valid, CaptureTap.View;
    hide NewChain, NewReverb, NewMixer, NewLimiter, DspChain.Apart, DspChain.Valid, DspChain.MixerView,
         DspChain.LimiterView, DspChain.View, DspChain.Words;
    var reverb := NewFreeverbStage();
    var mixer := new MixerStage(m.cosine, m.sine);
    var limiter := new LimiterStage(m.tanh);
    var tap := NewTap();
    chain := new DspChain(reverb, mixer, limiter, tap);
    FreshChain();
  }
}
