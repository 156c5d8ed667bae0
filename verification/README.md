# TalosDSP: a verified model of the audio path and its two background loops

TalosDSP runs one real-time signal chain (reader, Freeverb, mixer, limiter) inside an audio callback. Two
background threads adapt it: a classifier listens to the captured input through a lock-free queue and picks a
preset, and a watchdog looks at block timings and sets the complexity of the reverb. This project models that
system in Dafny and proves what it promises over whole runs.

`dafny verify dfyconfig.toml` checks everything.

## How it is organised

Every part appears twice. One form is a value machine: a datatype, a step function, and runs of it
(`Transducers.dfy`). It says what happens without saying how it is stored. The other form is the program: classes
with the fields of the source, updated in place, whose methods are proved to do exactly what the machine does. The
theorems are about the machines, for every run, every schedule of control changes and every input.

| files | part |
|---|---|
| `LinearRamp`, `RealFacts`, `Transducers`, `Interleaving`, `Floats`, `Options` | ramps, arithmetic, runs, interleaved audio |
| `Freeverb`, `FreeverbStage`, `FreeverbPair` | reverb: plain delay lines, and ring buffers that refine them |
| `FreeverbTheorems`, `FreeverbGlides`, `AllpassTheorems`, `CombTheorems`, `FreeverbDiagram` | bounds, superposition, settling, fades, energy, the equations of its filters, and how it is wired |
| `MixerStage`, `LimiterStage` | the other two stages |
| `ChainReference`, `ChainTheorems`, `ChainSuperposition`, `ChainReset`, `ResetHeard`, `DspChain` | the chain sample by sample, the chain as the callback runs it, what it promises, and what a reset leaves behind |
| `RingBuffer`, `RingProtocol` | the queue for one thread, and under two threads with weak memory |
| `Capture`, `FeatureStream`, `StreamTheorems`, `Classifier`, `PresetTheorems`, `Pipeline`, `CapturedAudio` | captured chunks, windows, presets, end to end |
| `Biquad`, `BiquadTones`, `Filterbank`, `FilterbankTones` | filter sections and the bank of four bands, and what they do to tones of every frequency |
| `FeatureExtractor`, `FeatureTheorems`, `FeatureMeaning` | feature extraction, and what the features say about the samples |
| `Watchdog`, `WatchdogTheorems`, `WatchdogLaw`, `WatchdogPipeline`, `Percentiles` | the complexity controller, its control law, and the same beside a live callback |
| `StageHistogram` | the cost histogram |
| `LoopbackProbe` | the round-trip probe of the loopback benchmark |

Floats are exact reals, so a ramp lands on its target exactly, as the code does by assignment. Inputs that the code
tests with isfinite have type `Float`. Cosine, sine, tangent, hyperbolic tangent and square root are parameters;
a theorem that needs a fact about one of them says so. Masking with a power of two minus one is the remainder.
Percentile shares are exact fractions.

## Where the code and its documentation part

* `DspChain::reset` does not restore what presets changed. After any blocks, resets and changes of sample rate, dry/wet
  amount and makeup gain, the first control words after a reset make it equal to a new one exactly if they name a preset of the table or no block ever named one
  (`ResetIsNewExactlyIf`). The difference is not only one of state: over all later blocks and control words, nobody can
  tell the reset chain from a new one exactly if no preset was ever named, the makeup gain is zero, or the last preset
  named was the percussive one and there is no wet signal (`ResetIsUnheardExactlyIf`). `ResetKeepsTheKnee` is one
  chain for which the difference is heard.
* The comment in `StageHistogram.cpp` calls the answer for an overflowed last bucket a lower bound. It is one exactly
  if more times overflowed than lie above the rank (`CeilingIsLowerBoundExactlyIf`); `CeilingCanBeTooHigh` is a
  recording for which it is not.
* The loopback probe is exact for every delay up to its timeout. A delay of more than one pulse interval can be
  recorded as what it leaves over after whole intervals (`ExactIffInTime`).

## Model

| member | source | states |
|---|---|---|
| LinearRamps.LinearRamp.Next | src/audio/LinearRamp.h:14-18 | the stored increment and countdown move as the observable ramp does |
| LinearRamps.LinearRamp.Target | src/audio/LinearRamp.h:9-13 | a new goal restarts the ramp from where it is, the same goal does nothing |
| LinearRamps.StraightLine | src/audio/LinearRamp.h:8-18 | after k of n samples exactly k/n of the distance is covered |
| LinearRamps.Glides | src/audio/LinearRamp.h:9-18 | a new goal is approached along a straight line from where the ramp is, over as many samples as were asked for and at least one, with the countdown at what is left |
| LinearRamps.Lands | src/audio/LinearRamp.h:8-18 | after its samples a ramp rests on its target exactly and stays there |
| LinearRamps.NextStays | src/audio/LinearRamp.h:14-18 | a ramp never leaves the interval between value and target |
| LinearRamps.NextReachesOnlyAtTheEnd | src/audio/LinearRamp.h:14-18 | a falling ramp is above its target until its last sample, so a fading weight is zero only when it has arrived |
| Freeverb.ActiveCombs | src/audio/FreeverbStage.cpp:80-83 | a level asks for one comb below 85, two below 170, three below 255, and four exactly at 255 |
| Freeverb.GateOk | src/audio/FreeverbStage.cpp:28-42 | under any retargeting a comb that works has weight in (0, 1], and comb 0 keeps weight one |
| Freeverb.WeightSumAtLeastOne | src/audio/FreeverbStage.cpp:38-53 | the normalisation is never below one |
| FreeverbStages.NextIndex | src/audio/FreeverbStage.cpp:10-14 | the subtracting loop is the successor on the ring |
| FreeverbStages.CombFilter.Process | src/audio/FreeverbStage.cpp:39-52 | ring buffer, read position and countdown of hidden samples act as a plain delay line that is empty when the comb returns |
| FreeverbStages.CombBank.Process | src/audio/FreeverbStage.cpp:38-52 | the loop over combs yields the weighted sum and the sum of weights, and skips silent combs without changing what they hold |
| FreeverbStages.AllpassFilter.Process | src/audio/FreeverbStage.cpp:55-61 | one all-pass section on its ring buffer |
| FreeverbStages.Model.ProcessChannel | src/audio/FreeverbStage.cpp:18-63 | the in-place model refines the reference sample step: new state and output are those of plain delays with combs that have no state while off |
| FreeverbStages.Model.ResetState | src/audio/FreeverbStage.cpp:65-76 | reset forgets all audio and ramps and keeps the settings |
| FreeverbTheorems.RunWithin | src/audio/FreeverbStage.cpp:18-63 | the storage bounds are kept by every run under every schedule of settings |
| FreeverbTheorems.BoundedOutput | src/audio/FreeverbStage.cpp:18-63 | from reset, input within M gives output within wet M/(1-F) ((1+G)/(1-G))^2, under any ramping and comb switching |
| ChainTheorems.PresetsWithin | src/audio/Classifier.h:30-37 | every preset and the built-in tuning meet the ranges of BoundedOutput with F = 0.95 and G = 0.7 |
| FreeverbTheorems.RunLinear | src/audio/FreeverbStage.cpp:18-63 | superposition of one reverb channel under any schedule of settings |
| FreeverbTheorems.SettledBank | src/audio/FreeverbStage.cpp:28-42 | once the count is held for a ramp, exactly the wanted combs work, each with weight one, whatever else is changed meanwhile |
| FreeverbTheorems.AlwaysSettlesInOneRamp | src/audio/FreeverbStage.cpp:28-42 | in every reachable state all weights are at most one ramp away from rest |
| FreeverbGlides.ParametersGlide | src/audio/FreeverbStage.cpp:24-27 | while settings are held, feedback, damping and all-pass gain each run the ramp to their own setting that began with the change |
| FreeverbGlides.CombsFade | src/audio/FreeverbStage.cpp:28-42 | after a change of the count, a comb that comes back has k/n of its weight after k of n samples, and one that leaves has lost as much and is off after n |
| CombTheorems.CombEquation | src/audio/FreeverbStage.cpp:43-51 | at constant feedback and damping, from an empty line: y[n] = x[n-L] - d x[n-L-1] + d y[n-1] + f (1-d) y[n-L] |
| FreeverbDiagram.Diagram | src/audio/FreeverbStage.cpp:18-63 | from reset and at constant settings a channel plays, at its output level, what the comb bank puts through the first and then the second all-pass section |
| FreeverbDiagram.BankAverages | src/audio/FreeverbStage.cpp:38-53 | and that bank puts out the average of the combs that are wanted |
| AllpassTheorems.Lossless | src/audio/FreeverbStage.cpp:55-61 | at constant gain, input energy is output energy plus (1-gg) times what the delay gained, over every run |
| AllpassTheorems.SchroederEquation | src/audio/FreeverbStage.cpp:55-61 | y[n] = -g x[n] + x[n-L] + g y[n-L] |
| AllpassTheorems.LineDelays | src/audio/FreeverbStage.cpp:55-61 | what is stored comes out exactly one line length later |
| FreeverbPairs.FreeverbStage.Process | src/audio/FreeverbStage.cpp:85-95 | the nested loops over frames and channels, in place or not, are the run of tagged samples, channel c through model c mod 2 |
| FreeverbPairs.FreeverbStage.SetComplexity | src/audio/FreeverbStage.cpp:80-83 | both models get the comb count of the level |
| MixerStages.MixerStage.Mix | src/audio/MixerStage.cpp:10-25 | block mixing is the sample machine, also into the dry or the wet array: aim once, ramps move once per frame, same gains for every channel; without channels only the ramps move |
| MixerStages.AimAbsorbed | src/audio/MixerStage.cpp:12-17 | aiming at the start of a block is the same as aiming at its first frame |
| MixerStages.GoalsKeep | src/audio/MixerStage.cpp:12-15 | linear gains add up to one; for cosine and sine whose squares add up to one, the squares of equal-power gains do |
| MixerStages.GoalsBlend | src/audio/MixerStage.cpp:14-15 | in between, both gains are crossfaded between the two modes |
| MixerStages.OneSignalAtTheEnds | src/audio/MixerStage.cpp:12-15 | in every mode, amount zero is dry alone, amount one is wet alone, and one half weighs both the same |
| MixerStages.GainsGlide | src/audio/MixerStage.cpp:16-19 | a primed mixer moves both gains to new goals along straight lines over the ramp length, and then rests on them |
| LimiterStages.LimiterStage.Process | src/audio/LimiterStage.cpp:11-36 | block limiting is the sample machine, in place or written at any offset, and nothing else is written; without channels only the knee moves |
| LimiterStages.ShapeBlends | src/audio/LimiterStage.cpp:21-34 | while tanh stays in [-1, 1] the shaped sample is (1-k) tanh u + k s, where s is the solution of s (1+abs u) = u, lies between both, and the ceiling of one never acts |
| LimiterStages.KneeGlides | src/audio/LimiterStage.cpp:13-18 | a primed limiter moves its knee to a new value along a straight line over the ramp length, and then rests on it |
| ChainReference.StagesInStep | src/audio/DspChain.cpp:41-55 | whole blocks through one stage after the other are sample by sample through all stages |
| ChainTheorems.RunKeepsTuning | src/audio/DspChain.cpp:35-39 | audio never changes what the setters set, so control words read again have no effect |
| ChainTheorems.SplitBlock | src/audio/DspChain.cpp:19-25 | one block equals two, cut between frames |
| ChainTheorems.SplitAnywhere | src/audio/DspChain.cpp:19-25 | output and state do not depend on how audio is cut into blocks |
| ChainTheorems.StereoIsTwoMonos | src/audio/FreeverbStage.cpp:85-95 | each channel of a stereo run is the mono run of that channel |
| ChainTheorems.StereoBlock | src/audio/DspChain.cpp:32-58 | the same for blocks of the whole chain |
| ChainSuperposition.Superposition | src/audio/MixerStage.cpp:10-25 | reverb and mixer are linear from reset, under any schedule of presets and complexity |
| ChainSuperposition.WatchedBlock | src/audio/DspChain.cpp:32-58 | the monitored per-sample run is the block run |
| ChainSuperposition.Silence | src/audio/DspChain.cpp:32-58 | from reset, no input means no output, whatever the control words do |
| ChainSuperposition.NeverAboveCeiling | src/audio/LimiterStage.cpp:29-33 | the output of the chain never exceeds the ceiling, over every run |
| ChainReset.BuiltStays | src/audio/DspChain.cpp:60-90 | blocks and resets keep one tuning for both channels, one ramp length and the fixed levels |
| ChainReset.BuiltAtFirst | src/audio/DspChainControl.cpp:54-57 | a new chain has that form, and setting the sample rate of a new chain gives the new chain of that rate |
| ChainReset.ParametersOutliveReset | src/audio/DspChain.cpp:60-90 | after any blocks, resets and changes of rate, dry/wet amount and makeup gain, the parameters are those of the preset that a block named last, and the amount, gain and ramp length those set last |
| ChainReset.CombsOutliveReset | src/audio/DspChain.cpp:60-74 | after any such life both channels work with as many combs as the last level asked for, reset or not |
| ChainReset.ResetIsNewExactlyIf | src/audio/DspChain.cpp:60-90 | after any such life, the first control words after reset make the whole state that of a new chain exactly if they name a preset or no block ever named one |
| ChainReset.ResetSoundsNew | src/audio/DspChain.cpp:60-66 | then all later output is that of a new chain, for any blocks and control words |
| ResetHeard.Answer | src/audio/DspChain.cpp:32-58 | what a chain with one comb plays, right after a reset, at every sample of an impulse up to its first echo, in closed form |
| ResetHeard.ResetIsUnheardExactlyIf | src/audio/DspChain.cpp:60-90 | no later blocks and control words tell a reset chain from a new one exactly if no preset was ever named, the makeup gain is zero, or the last one named was percussive and there is no wet signal |
| ChainReset.ResetKeepsTheKnee | src/audio/DspChain.cpp:76-90 | a reset ambient chain that is told no preset plays a full-scale sample at one half, a new one at tanh 1 |
| DspChains.DspChain.ApplyPreset | src/audio/DspChain.cpp:76-90 | unknown or repeated presets are ignored, others set reverb, limiter and mixer |
| DspChains.DspChain.ProcessChunk | src/audio/DspChain.cpp:32-58 | scratch buffers and stages compute the chain run of the chunk, and hand it to the capture |
| DspChains.DspChain.Process | src/audio/DspChain.cpp:14-25 | any block, in place or not, with or without input, is one run of the chain and one capture; otherwise nothing changes |
| DspChains.PlayAppend | src/audio/DspChain.cpp:19-25 | sound and capture of a block do not depend on the internal 4096-frame chunks |
| DspChains.DspChain.Reset | src/audio/DspChain.cpp:60-66 | reset of the stages and of the last preset |
| DspChains.DspChain.SetSampleRate | src/audio/DspChainControl.cpp:53-57 | clamped rate, one ramp length of ten milliseconds for all stages |
| DspChains.NewDspChain | src/audio/DspChain.h:78-102 | a built chain is the new chain of the reference |
| Captures.CutIsWhole | src/audio/DspChain.cpp:92-103 | the chunks of a block hold its samples in order, none empty or too long, with consecutive numbers |
| Captures.OfferConserves | src/audio/DspChain.cpp:92-103 | every chunk offered waits in order or is counted as dropped |
| Captures.CaptureTap.PushAudio | src/audio/DspChain.cpp:92-103 | the loop cuts, numbers and offers exactly those chunks |
| RingBuffers.RingBuffer.TryPush | src/audio/SPSCRingBuffer.h:19-26 | appends unless capacity - 1 items wait |
| RingBuffers.RingBuffer.TryPop | src/audio/SPSCRingBuffer.h:28-34 | takes the oldest item, or leaves the caller's item alone |
| RingBuffers.RingBuffer.Available | src/audio/SPSCRingBuffer.h:36-40 | the masked difference is the number of items |
| RingProtocol.Always | src/audio/SPSCRingBuffer.h:19-40 | the protocol invariant holds in every state of every interleaving, with loads that may be stale |
| RingProtocol.FirstInFirstOut | src/audio/SPSCRingBuffer.h:19-34 | popped is a prefix of pushed, at most capacity - 1 wait |
| RingProtocol.NoRace | src/audio/SPSCRingBuffer.h:19-34 | a slot being written is never being read, and conflicting accesses are ordered by the published indices |
| RingProtocol.ReadsAreDetermined | src/audio/SPSCRingBuffer.h:28-34 | a weakly ordered slot read can only return the item that is due |
| RingProtocol.RefusedExactlyWhen | src/audio/SPSCRingBuffer.h:19-34 | a push or pop fails exactly if the index it saw says full or empty |
| RingProtocol.CountedPopsSucceed | src/audio/ComplexityController.cpp:61-67 | after a count, that many pops succeed while the producer goes on |
| RingProtocol.NoSlotIsLost | src/audio/SPSCRingBuffer.h:19-26 | with a current index, a push is accepted exactly while fewer than capacity - 1 items wait |
| Biquads.Biquad.Process | src/audio/Biquad.h:22-27 | the two delays and the output of one sample |
| Biquads.DifferenceEquation | src/audio/Biquad.h:22-27 | the transposed form computes the textbook difference equation from reset |
| Biquads.LowpassDesign | src/audio/Biquad.h:46-57 | for every k > 0: inside the stability triangle, gain one at zero, zero at half the rate |
| Biquads.HighpassDesign | src/audio/Biquad.h:60-71 | the reverse |
| Biquads.RingsWithinItsEnergy | src/audio/Biquad.h:22-27 | a stable section left without input never rings louder than its stored energy allows |
| Filterbanks.CrossoversInOrder | src/audio/Filterbank.cpp:8-17 | every clamp has ordered bounds, and crossovers are positive, ordered and below half the rate, for every request |
| Filterbanks.KeepsWhatFits | src/audio/Filterbank.cpp:8-14 | a positive rate and the crossovers asked for are used exactly if they are in range and each is one per cent above the one before |
| Filterbanks.AlwaysStable | src/audio/Filterbank.cpp:19-68 | all sections of every bank are stable, for a tangent that is positive as far as the crossovers go |
| Filterbanks.ChannelFilters.Process | src/audio/Filterbank.cpp:89-111 | the four cascades, each on its own sections |
| FilterbankTones.ToneResponse | src/audio/Filterbank.cpp:19-111 | for every design and every tone there is a state from which the channel answers with four tones of that frequency for ever: (k k a a)(k k a a) over P P behind a lowpass edge and (b b)(b b) over P P behind a highpass edge, the inner bands behind both of theirs, where a and b are cosine and sine of half the angle per sample and P = k k a a - b b + i sqrt2 k a b |
| FilterbankTones.CrossedIsUnique | src/audio/Filterbank.cpp:19-111 | these relations have one solution at every frequency, since P is never zero |
| FilterbankTones.HalfAtTheCrossover | src/audio/Filterbank.cpp:19-111 | a tone at the lowest crossover leaves the lowest band, and one at the highest crossover the highest band, with half the amplitude and the opposite phase, to eleven digits |
| FilterbankTones.ConstantStays | src/audio/Filterbank.cpp:89-111 | for every design a constant x is answered by x, 0, 0, 0 and leaves some state as it is |
| FilterbankTones.AlternationStays | src/audio/Filterbank.cpp:89-111 | and x, -x by 0, 0, 0, x and 0, 0, 0, -x, alternating between two states |
| FilterbankTones.LowMidIsInSeries | src/audio/Filterbank.cpp:94-98 | when one edge of the low inner band lets nothing through, this band is silent and the other three are unchanged, now and later |
| FilterbankTones.HighMidIsInSeries | src/audio/Filterbank.cpp:100-104 | the same for the high inner band |
| FeatureExtractors.FeatureExtractor.Process | src/audio/FeatureExtractor.cpp:31-88 | the frame loop adds frame after frame to sums and filters, however many there are; other channel counts are ignored |
| FeatureExtractors.FeatureExtractor.ComputeFeatures | src/audio/FeatureExtractor.cpp:97-148 | averages, centroid and rolloff of the sums |
| FeatureExtractors.FeatureExtractor.Finalize | src/audio/FeatureExtractor.cpp:90-95 | a full window is measured and cleared, otherwise nothing happens |
| FeatureExtractors.WindowsEvery1024 | src/audio/FeatureExtractor.cpp:90-95 | windows end exactly at multiples of 1024 frames, and the rest is the partial count |
| FeatureTheorems.AlwaysInRange | src/audio/FeatureExtractor.cpp:97-148 | every window of every run: crossing rate below one, no negative energy, centroid between the centers, rolloff at the first band with 85 % |
| FeatureMeaning.FramesHoldSamples | src/audio/FeatureExtractor.cpp:34-35 | the samples of both channels of a window are the interleaved samples that came in |
| FeatureMeaning.RateCountsRuns | src/audio/FeatureExtractor.cpp:53-71 | 1024 times the crossing rate of a channel, and one, is the number of maximal runs of samples that are all positive or all not positive, however they are written down; overall it is the mean of both channels |
| FeatureMeaning.RunsExist | src/audio/FeatureExtractor.cpp:53-71 | any samples can be written as such runs |
| FeatureMeaning.LoudnessIsMeanSquare | src/audio/FeatureExtractor.cpp:102-124 | for a square root, 1024 rms rms is the sum of the squares of the samples of a channel, and 2048 rms rms that of both |
| FeatureMeaning.EnergyIsMean | src/audio/FeatureExtractor.cpp:62-74 | band energies are the mean squares of what the filters of each channel put out over the window |
| FeatureMeaning.CentroidBalances | src/audio/FeatureExtractor.cpp:76-129 | the reported energies, each at the middle of its band, balance about the centroid, or it is zero where there is practically no energy |
| FeatureTheorems.MonoIsStereo | src/audio/FeatureExtractor.cpp:40-88 | a mono stream and a stereo stream with equal channels give the same windows |
| FeatureStreams.FeatureStream.Consume | src/audio/FeatureStream.h:12-31 | guard, restart at gaps and the window loop refine the chunk machine |
| FeatureStreams.AtMostOneWindow | src/audio/FeatureStream.h:7-8 | a chunk completes at most one window |
| StreamTheorems.StreamKnows | src/audio/FeatureStream.h:12-31 | the extractor holds what the frames of the last unbroken stretch make of a fresh one, and gaps counts the breaks |
| StreamTheorems.ChunkingDoesNotMatter | src/audio/FeatureStream.h:22-30 | any chunking of the same frames gives the same floor(n/1024) windows, partial count and filter state |
| StreamTheorems.WindowsAreTheirFrames | src/audio/FeatureStream.h:22-30 | windows i up to j are those of frames 1024 i up to 1024 j alone, on filters that have seen what came before |
| Classifiers.Classify | src/audio/Classifier.cpp:48-67 | percussive exactly if the first test holds, ambient exactly if only the second does, otherwise tonal |
| Classifiers.Classifier.HearChunk | src/audio/Classifier.cpp:25-35 | gap, silence, override and streak handling of one chunk |
| Classifiers.Classifier.Poll | src/audio/Classifier.cpp:20-38 | with nobody pushing, hears everything that waits, in order, and publishes the counters |
| Classifiers.Classifier.Start | src/audio/Classifier.cpp:9-18 | empties the queue and starts the stream and the streak again |
| PresetTheorems.AgreementMeans | src/audio/Classifier.cpp:29-34 | the streak is the number of newest windows that are not silent, without override, and of one class |
| PresetTheorems.StoredExactlyIf | src/audio/Classifier.cpp:20-38 | a preset is stored exactly if the newest three windows of one unbroken stretch count and agree |
| Pipelines.AlwaysSound | src/audio/AudioChunk.h:6-7 | numbering, order and counts hold in every state of every interleaving of callback and classifier |
| Pipelines.NothingVanishes | src/audio/DspChain.cpp:92-103 | captured = heard + waiting + dropped + the one being offered |
| Pipelines.PollIsBounded | src/audio/Classifier.cpp:23-35 | beside a live callback, a poll hears at most 255 chunks, in order, where the last one left off |
| Pipelines.EveryStoredPreset | src/audio/AudioChunk.h:6-7 | in every interleaving, a stored preset rests on three windows that measure exactly 3072 consecutive captured frames, without override, not silent, all of that class |
| Pipelines.EveryPresetChange | src/audio/Classifier.cpp:20-38 | in every interleaving, so does every change of the preset |
| Pipelines.BreakIsDroppedRun | src/audio/FeatureStream.h:16-22 | chunks heard in a row break exactly where a run of captured chunks between them was dropped, all of it, or the format changed |
| Pipelines.GapsCountDroppedRuns | src/audio/FeatureStream.h:16-22 | in every interleaving the gap counter, and what is published of it, is the number of those dropped runs and changes of format |
| CapturedAudio.CutHoldsFrames | src/audio/DspChain.cpp:92-103 | for one or two channels and a rate of 8 kHz or more, every chunk passes the guard, and the first n chunks hold exactly the first frames |
| CapturedAudio.ChunksHoldInput | src/audio/DspChain.cpp:92-103 | over any calls, the chunks are numbered in order and hold exactly the frames that the callback was given |
| CapturedAudio.PresetRestsOnInput | src/audio/AudioChunk.h:6-7 | in every interleaving, a change of the preset rests on 3072 consecutive frames of what the callback was given |
| Percentiles.NearestRankMeans | src/audio/ComplexityController.cpp:70-73 | a percentile is a sample with at least the share not above it and less than the share below it |
| Percentiles.NearestRankMonotone | src/audio/ComplexityController.cpp:72-73 | larger shares have no smaller percentile |
| Watchdogs.ComplexityController.Record | src/audio/ComplexityController.h:22-25 | misses are counted, and every timing is queued or counted as dropped |
| Watchdogs.ComplexityController.Update | src/audio/ComplexityController.cpp:31-56 | the in-place control step is the reference step |
| Watchdogs.ComplexityController.Poll | src/audio/ComplexityController.cpp:57-78 | with nobody recording, the poll takes what waits, within its arrays, publishes and steers as the reference poll |
| WatchdogTheorems.PollCases | src/audio/ComplexityController.cpp:31-78 | level and recovery count after one poll, in every case |
| WatchdogTheorems.RaiseNeedsTenSparePolls | src/audio/ComplexityController.cpp:49-53 | a raise is one to four levels and ends ten spare polls with no new drop in the last nine |
| WatchdogTheorems.RaisesSlowly | src/audio/ComplexityController.cpp:49-53 | n polls from recovery r raise by at most 4 floor((r+n)/10) |
| WatchdogTheorems.ComesBack | src/audio/ComplexityController.cpp:49-53 | with time to spare the level rises at least once every ten polls |
| WatchdogTheorems.ReachesTheTop | src/audio/ComplexityController.cpp:49-53 | 2560 such polls bring any level to the top |
| WatchdogTheorems.OverloadEmptiesTheLevel | src/audio/ComplexityController.cpp:46-48 | under overload the level falls by 1 to 32 a poll to zero and stays, whatever the gains |
| WatchdogTheorems.IntegralStaysBounded | src/audio/ComplexityController.cpp:42-43 | the integral stays in [-1, 1] |
| WatchdogLaw.LowersByTheLaw | src/audio/ComplexityController.cpp:37-48 | over target, from any state, poll n lowers the level by 255 (kp e_n + ki (I + T (e_0 + .. + e_n)) + kd (e_n - e_(n-1)) / T), rounded down and kept to 1 to 32 levels; after a reset the first poll has no difference term |
| WatchdogLaw.WaitsToRaise | src/audio/ComplexityController.cpp:49-53 | with time to spare nine polls leave the level alone, and the tenth raises it by the same law, rounded up and kept to 1 to 4 levels |
| WatchdogLaw.IntegralWaits | src/audio/ComplexityController.cpp:41-43 | at level 0 over target, and at level 255 with time to spare, the integral stays where it was |
| WatchdogLaw.RatioMeans | src/audio/ComplexityController.cpp:64-77 | the ratio a poll steers by is one that 99 % of its usable timings kept to, while fewer than 99 % stayed below |
| WatchdogLaw.PublishedMeans | src/audio/ComplexityController.cpp:64-73 | the same for P99 and P999 in terms of the timings taken |
| WatchdogTheorems.PublishedPercentiles | src/audio/ComplexityController.cpp:70-73 | P99 and P999 are nearest-rank percentiles of the usable costs, and P99 is not above P999 |
| WatchdogPipelines.AlwaysSound | src/audio/ComplexityController.cpp:57-78 | in every interleaving with the callback, the controller's state is what its polls make of the batches they took, and every refusal is counted or about to be |
| WatchdogPipelines.EveryTimingCounts | src/audio/ComplexityController.h:22-25 | recorded = seen by exactly one poll + waiting + dropped + the one being offered, in order |
| WatchdogPipelines.PollTakesWhatItCounted | src/audio/ComplexityController.cpp:61-67 | beside a live callback no pop of a poll is refused, and it judges exactly the timings it counted, at most 4095 |
| WatchdogPipelines.RaiseInAnyInterleaving | src/audio/ComplexityController.cpp:49-77 | beside a live callback, a raise is one to four levels, and the newest ten polls had time to spare and read the same drop counter, which by the time of the raise may already show later drops |
| StageHistograms.StageHistogram.Record | src/audio/StageHistogram.h:21-30 | all counters stay counts over everything recorded |
| StageHistograms.StageHistogram.Percentile | src/audio/StageHistogram.cpp:5-19 | the scan always ends at a bucket, that of the true nearest-rank value |
| StageHistograms.StageHistogram.BucketsSum | src/audio/StageHistogram.h:21-30 | the buckets add up to the total |
| StageHistograms.RankedIsUnique | src/audio/StageHistogram.cpp:8-12 | the nearest-rank value exists and is unique |
| StageHistograms.AnswerIsClose | src/audio/StageHistogram.cpp:12-15 | below the ceiling the answer is within one bucket of the true value, above it it is the ceiling |
| StageHistograms.CeilingIsLowerBoundExactlyIf | src/audio/StageHistogram.cpp:13-14 | the ceiling is a lower bound exactly if more times overflowed than lie above the rank |
| StageHistograms.CeilingCanBeTooHigh | src/audio/StageHistogram.cpp:13-14 | a recording whose median is below the reported ceiling |
| LoopbackProbes.LoopbackProbe.Process | bench/LoopbackProbe.h:16-30 | the frame loop is the run of the frame machine, in place or not |
| LoopbackProbes.BlocksDoNotMatter | bench/LoopbackProbe.h:16-30 | blocks may be cut anywhere |
| LoopbackProbes.DoneExactlyWhen | bench/LoopbackProbe.h:31 | in a closed loop, done becomes true exactly after the interval of the last pulse |
| LoopbackProbes.Verdict | bench/LoopbackProbe.h:16-30 | what every pulse has recorded then, for every delay |
| LoopbackProbes.ExactIffInTime | bench/LoopbackProbe.h:16-30 | every pulse records exactly d if and only if d is at most the timeout; up to one interval a longer delay records nothing |
| LoopbackProbes.LoopExists | bench/LoopbackProbe.h:16-30 | for every delay there is a closed loop of any length |

## Left out

- PortAudio devices, stream and thread lifecycle, priority boost, signals, options and printing: foreign calls and I/O.
- Clocks, sleeps and threads: durations are inputs, polls are steps, and control words are constant during one call of `DspChain.Process`. A word that changes between two internal chunks is two calls.
- IEEE rounding, overflow and NaN propagation: exact reals. Percentile shares such as 0.99 are exact fractions. Counters are unbounded.
- The combs and sections of a reverb channel are objects with their own buffers here, where the source keeps parallel arrays; the preset setters of the reverb are one call for three parameters.
- ResetIsUnheardExactlyIf: of tanh it assumes that it is odd and increasing and, for v >= 0, lies below 1 and at least at 1 - 1/(1 + v + v v), as the function does; of sine that it is zero at zero.
- Classifiers.Classifier.Poll: one thread, nobody pushing meanwhile; the same loop beside a live callback is `Pipelines`.
- Watchdogs.ComplexityController.Poll: one thread, nobody recording meanwhile; the same poll beside a live callback is `WatchdogPipelines`, where reading the manual switch and storing the level is one step, since nothing else that is touched in between is shared.
- ParametersOutliveReset: as in the reset theorems that rest on it, lives in which a caller reaches into one stage and sets preset parameters there (feedback, damping, all-pass gain, knee, crossfade mode) are not considered.
- BoundedOutput: for feedback and all-pass gain below one, as all presets have; the setters accept other values and nothing is claimed for them.
- MonoIsStereo: the per-channel features differ by design, since a mono stream has none for the second channel.
- GapsCountDroppedRuns: for streams whose chunks pass the guard, as all chunks of the callback do (`CutHoldsFrames`).
- Limiting in place at an offset: the chain writes the output of its limiter at an offset from a buffer of its own.
- ToneResponse: of tones that have been there for ever; how fast the start of a tone dies away is not stated, beyond `RingsWithinItsEnergy`.
- GainsGlide: of one channel, as KneeGlides is; `StereoIsTwoMonos` is about two.
- Toggling capture, restarting the classifier or forcing presets while a worker runs: excluded by the stopped-stream rule of the headers.
- `XrunCounter`, telemetry, stage complexity getters, the timing calls inside the callback, manual preset and level setters: true but easy.
