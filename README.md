# overdub: a verified model of the audio core

overdub is an iOS app for recording a dub over a backing track. Its signal
core is modelled here in Dafny, along with the proofs of what it promises.
The core has four parts:

- **Buffer and spectral helpers** (`dsputils.swift`):
  - trimming and zero-padding audio buffers;
  - the FFT sizing and the rescaled forward transform (`doFFT`);
  - the byte format of a stored transfer function;
  - the loopback calibration (`estimateTransferFunction`), which averages per-bin ratios Y / X over overlapping Hann-windowed blocks;
  - the normalised impulse response;
  - the plain mixdown (`addAudioBuffers`). It places the dub 50 ms early, pads both tracks, adds them and scales the result down when its largest sample exceeds 1.0.
- **The echo canceller** (`EchoCanceller.swift`). `cancelEcho` rewrites the microphone track block by block. The mixdown variant calls it, then either adds the tracks or, in debug mode, outputs the cleaned dub alone.
- **The level meter's ring** (`CircularBuffer.swift`). Each buffer of frames becomes 16 decibel levels. They go into a ring at the write pointer, and the ring is copied out oldest first. A noise floor follows the quiet buffers.
- **The track-name sanitiser** (`getSafeTrackName` in `FileManager.swift`).

How each kind of source code is modelled:

| Source construct | Dafny model |
|---|---|
| Pure computation | functions with lemmas |
| Operations that fill or rewrite buffers in place | methods on `array`s, proved equal to a specification function of their inputs |
| `CircularBuffer` | a class with a `Valid()` invariant |
| Audio samples | `real` |
| The transfer function's bins | `Bin`: a finite complex value, or the NaN/infinity that a division by zero yields |
| Levels | `Float`: a finite value or not |
| The serialised transfer function | 32-bit float bit patterns and little-endian bytes |

Modules:

| Module | File | Models |
|---|---|---|
| `Wrappers` | `wrappers.dfy` | `Option` |
| `AudioBuffers` | `audio_buffers.dfy` | trimming, padding, `memcpy` |
| `BlockGeometry` | `block_geometry.dfy` | the block count of the two block loops |
| `Spectral` | `spectral.dfy` | FFT sizing, `doFFT`, complex bins, impulse response |
| `CalibrationBlob` | `calibration_blob.dfy` | the byte format of the transfer function |
| `TransferEstimate` | `transfer_estimate.dfy` | `estimateTransferFunction` |
| `Mixer` | `mixer.dfy` | `addAudioBuffers` in `dsputils.swift` |
| `EchoCanceller` | `echo_canceller.dfy` | `cancelEcho` |
| `EchoMixer` | `echo_mixer.dfy` | `addAudioBuffers` in `EchoCanceller.swift` |
| `LevelRing` | `circular_buffer.dfy` | `CircularBuffer` |
| `TrackNames` | `track_names.dfy` | `getSafeTrackName` |

## Model

| member | source | states |
|---|---|---|
| AudioBuffers.Zeros | overdub/dsputils.swift:47-79 | `n` silent frames: length `n`, every frame 0.0 |
| AudioBuffers.Overwrite | overdub/dsputils.swift:74 | the frames from `at` on replaced by the block, every other frame kept |
| AudioBuffers.CopyFrames | overdub/dsputils.swift:40 | memcpy into a buffer: its new contents are the old ones overwritten from `at` by the source frames |
| AudioBuffers.RemoveFirstNFrames | overdub/dsputils.swift:14-45 | nil exactly when `n >= frameLength`; otherwise a new buffer holding the frames from `n` on |
| AudioBuffers.PrependZerosToBuffer | overdub/dsputils.swift:47-79 | the input buffer itself when no zeros are asked for, otherwise a new one; either way `zeroFrames` zeros followed by the input |
| AudioBuffers.AppendZerosToBuffer | overdub/dsputils.swift:82-114 | the input buffer itself when no zeros are asked for, otherwise a new one; either way the input followed by `zeroFrames` zeros |
| BlockGeometry.TruncDiv | overdub/dsputils.swift:293 | Swift's integer division truncates toward zero: the remainder has the sign of the dividend and is smaller than the divisor |
| BlockGeometry.NumSteps | overdub/dsputils.swift:293 | the block count `1 + (total - N) / L` (also EchoCanceller.swift:34): at least one block exactly when the data is longer than `N - L` frames, so always when it holds a whole block; negative exactly when the data is at most `N - 2L` frames |
| BlockGeometry.BlocksInBounds | overdub/dsputils.swift:293-323 | when one block fits, every block the loop visits lies inside the data, and the frames after the last block are fewer than one hop |
| BlockGeometry.ShortRecordingGetsOneBlock | overdub/dsputils.swift:287-323 | a 300-frame recording gets one 512-frame block, which reads past the end of the data |
| BlockGeometry.TinyRecordingHasNoValidBlockCount | overdub/dsputils.swift:293-347 | recordings of 1 and 256 frames get 0 blocks, and `1 / numSteps` divides by zero; an empty one gets -1 blocks |
| BlockGeometry.ShortEchoWindowGetsOneBlock | overdub/EchoCanceller.swift:30-34 | a 6000-frame echo window gets one 10001-frame block, which reaches past the window |
| BlockGeometry.TinyEchoWindowHasNegativeBlockCount | overdub/EchoCanceller.swift:30-57 | echo windows of 0 and 1 frames get the block count -1, on which `for i in 0..<numSteps` traps |
| BlockGeometry.GuardedBlockCountPositive | overdub/dsputils.swift:293 | with the guard `N <= total` the block count is at least 1 |
| CalibrationBlob.FloatBytes | overdub/dsputils.swift:134-150 | a float is stored as 4 bytes |
| CalibrationBlob.FloatRoundTrip | overdub/dsputils.swift:134-171 | reading back the 4 bytes of a float gives the float |
| CalibrationBlob.FloatOf | overdub/dsputils.swift:164-168 | the little-endian read of 4 bytes in deserialize: writing the float back gives those bytes |
| CalibrationBlob.FloatsBytes | overdub/dsputils.swift:134-150 | a run of floats takes 4 bytes each |
| CalibrationBlob.BytesFloats | overdub/dsputils.swift:152-171 | bytes read as floats give one float per 4 bytes |
| CalibrationBlob.FloatsRoundTrip | overdub/dsputils.swift:134-171 | a run of floats survives writing and reading back |
| CalibrationBlob.BytesRoundTrip | overdub/dsputils.swift:134-171 | bytes whose length is a multiple of 4 survive reading and writing back |
| CalibrationBlob.Blob | overdub/dsputils.swift:134-150 | the blob of `count` bins is `8 * count` bytes |
| CalibrationBlob.Unblob | overdub/dsputils.swift:152-171 | nothing exactly when the data is not `8 * count` bytes; otherwise `count` real and `count` imaginary parts |
| CalibrationBlob.BlobRoundTrip | overdub/dsputils.swift:134-171 | deserialising a serialised vector with the same count gives back its real and imaginary parts |
| CalibrationBlob.UnblobRoundTrip | overdub/dsputils.swift:134-171 | every blob that passes the size check is the serialisation of what it decodes to |
| CalibrationBlob.SerializeDSPSplitComplex | overdub/dsputils.swift:134-150 | the data is all `count` real parts, then all `count` imaginary parts, and it deserialises back to them |
| CalibrationBlob.DeserializeDSPSplitComplex | overdub/dsputils.swift:152-171 | nil exactly when the size is not `8 * count` bytes; otherwise new arrays whose serialisation is the data |
| Spectral.Pow2 | overdub/dsputils.swift:371 | a power of two is at least 1 |
| Spectral.CeilLog2 | overdub/dsputils.swift:370 | the exponent of the smallest power of two not below `n` |
| Spectral.GetFftLength | overdub/dsputils.swift:369-373 | `nbins` is a power of two `2^log2n` with `frameCount <= nbins < 2 * frameCount` |
| Spectral.CalibrationFftLength | overdub/dsputils.swift:290-296 | a 512-frame block is transformed over 512 bins |
| Spectral.EchoFftLength | overdub/EchoCanceller.swift:35-37 | a 10001-frame block is transformed over 16384 bins |
| Spectral.CeilLog2Exact | overdub/dsputils.swift:370 | any exponent with `2^(k-1) < n <= 2^k` is the one `CeilLog2` finds |
| Spectral.Pow2Monotone | overdub/dsputils.swift:371 | larger exponents give larger powers of two |
| Spectral.Div | overdub/dsputils.swift:334 | vDSP_zvdiv per bin: finite exactly when the denominator's squared magnitude is non-zero, and then the ratio times the denominator is the numerator |
| Spectral.DivIsInverse | overdub/dsputils.swift:334 | the conjugate-over-squared-magnitude formula inverts complex multiplication |
| Spectral.AddBin | overdub/dsputils.swift:336 | a sum of bins is finite exactly when both are |
| Spectral.ScaleBin | overdub/dsputils.swift:347-349 | scaling keeps a bin finite or not finite |
| Spectral.Windowed | overdub/dsputils.swift:319-323 | vDSP_vmul with the window: each sample times the window's sample |
| Spectral.ZeroPadded | overdub/dsputils.swift:406-408 | the block copied into `nbins` complex inputs, zero beyond the block and in the imaginary parts |
| Spectral.ScaledForward | overdub/dsputils.swift:402-417 | doFFT's spectrum: the forward transform of the zero-padded input, scaled by `1/nbins`, `nbins` entries; `DoFft` is proved to write exactly this |
| Spectral.Bins | overdub/dsputils.swift:410-412 | the first `n` coefficients of a transform |
| Spectral.ScaleSpectrum | overdub/dsputils.swift:415-417 | every bin multiplied by the scale |
| Spectral.DoFft | overdub/dsputils.swift:402-428 | the first `nbins` entries of the output become the scaled spectrum of the zero-padded block; the rest of the output is untouched |
| Spectral.SignedMax | overdub/dsputils.swift:454 | vDSP_maxv: at least every sample and equal to one of them |
| Spectral.SignedMin | overdub/dsputils.swift:456 | vDSP_minv: at most every sample and equal to one of them |
| Spectral.PeakMagnitude | overdub/dsputils.swift:454-459 | `max(abs(maxval), abs(minval))` bounds every sample's magnitude and is attained (0 for no samples) |
| Spectral.NormalizedImpulse | overdub/dsputils.swift:459-465 | the samples divided by their peak magnitude, unchanged when that is 0 |
| Spectral.NormalizedImpulseBounded | overdub/dsputils.swift:459-465 | after normalisation every sample lies in [-1, 1] and one has magnitude exactly 1, unless all were 0, which are left as they were |
| Spectral.DivBounded | overdub/dsputils.swift:462-464 | dividing by a bound of the magnitude gives at most 1 in magnitude, exactly 1 at the bound |
| Spectral.RealParts | overdub/dsputils.swift:468 | the real parts of the first `n` bins |
| Spectral.ImpulseResponse | overdub/dsputils.swift:445-468 | the impulse response, `samplesOut` samples long: the normalised real parts of the inverse transform, so every sample lies in [-1, 1] with one at magnitude 1 unless all are 0 (`NormalizedImpulseBounded`); `GetImpulseResponse` is proved to write it |
| Spectral.GetImpulseResponse | overdub/dsputils.swift:429-474 | the DC bin's real part is zeroed; without a setup nothing else changes; with one, the first `min(nSampOut, nBinsIn)` output samples become the normalised real part of the inverse transform |
| TransferEstimate.Total | overdub/dsputils.swift:287 | the shorter of the two recordings' lengths |
| TransferEstimate.WindowedBlock | overdub/dsputils.swift:319-323 | one Hann-windowed block of 512 frames starting at `256 i`; its spectrum is what `TransformBlock` writes |
| TransferEstimate.BlockSpectrum | overdub/dsputils.swift:319-331 | one block's spectrum of 512 bins; `TransformBlock` is proved to write it, and `Spectra` collects it for every block that fits |
| TransferEstimate.Spectra | overdub/dsputils.swift:317-331 | the spectra of the first `n` blocks, each block lying inside the recording |
| TransferEstimate.Ratios | overdub/dsputils.swift:334 | H is Y / X bin by bin |
| TransferEstimate.AddBins | overdub/dsputils.swift:336 | bin-by-bin sum |
| TransferEstimate.ScaleBins | overdub/dsputils.swift:347-349 | bin-by-bin scaling |
| TransferEstimate.ZeroBins | overdub/dsputils.swift:315 | the accumulator starts as 512 zero bins |
| TransferEstimate.Accum | overdub/dsputils.swift:317-345 | the accumulator after `n` blocks, 512 bins: a bin is finite exactly when every ratio in it is (`AccumFinite`), and identical recordings accumulate `n` (`AccumIdentical`); `AccumulateAll` is proved to reach it |
| TransferEstimate.AccumFinite | overdub/dsputils.swift:334-336 | an accumulator bin is finite exactly when that bin of every block's stimulus spectrum is non-zero |
| TransferEstimate.DivSelf | overdub/dsputils.swift:334 | a non-zero bin divided by itself is exactly 1 |
| TransferEstimate.AccumIdentical | overdub/dsputils.swift:317-345 | with identical stimulus and response, each non-zero bin accumulates to exactly `n` |
| TransferEstimate.Steps | overdub/dsputils.swift:290-293 | the calibration loop's block count: at least one block for recordings of more than 256 frames (always with a whole block), none for 1 to 256 frames, -1 for empty recordings |
| TransferEstimate.StepsFit | overdub/dsputils.swift:287-293 | with at least one block's worth of frames, at least one block is taken and all blocks fit |
| TransferEstimate.EstimateOf | overdub/dsputils.swift:317-349 | the averaged estimate of 512 bins: finite per bin exactly when every ratio is (`EstimateFinite`), and 1 wherever a recording is compared with itself (`LoopbackIsUnity`) |
| TransferEstimate.Estimate | overdub/dsputils.swift:279-367 | the transfer function of two recordings, 512 bins; a recording against itself gives 1 wherever it is excited (`LoopbackRecording`); `EstimateTransferFunction` is proved to return it |
| TransferEstimate.EstimateFinite | overdub/dsputils.swift:334-349 | an estimate bin is finite exactly when that stimulus bin is non-zero in every block |
| TransferEstimate.LoopbackIsUnity | overdub/dsputils.swift:317-349 | the estimate of a signal against itself is exactly 1 in every bin where it is non-zero |
| TransferEstimate.LoopbackRecording | overdub/dsputils.swift:279-367 | a recording measured against itself has a transfer function of exactly 1 in every bin its blocks excite |
| TransferEstimate.DivideSpectra | overdub/dsputils.swift:334 | vDSP_zvdiv into H: `H = Y / X` |
| TransferEstimate.AccumulateInto | overdub/dsputils.swift:336 | vDSP_zvadd: the accumulator becomes H plus its old value |
| TransferEstimate.ScaleInPlace | overdub/dsputils.swift:347-349 | every accumulator bin scaled |
| TransferEstimate.TransformBlock | overdub/dsputils.swift:319-331 | block `i` copied, windowed and transformed into the scratch spectrum |
| TransferEstimate.AccumulateBlock | overdub/dsputils.swift:317-337 | one loop pass adds block `i`'s ratio `Y / X` into the accumulator |
| TransferEstimate.EstimateTransferFunction | overdub/dsputils.swift:279-367 | nil exactly when no FFT setup exists or the recordings are shorter than one block; otherwise a new buffer holding `Estimate` |
| TransferEstimate.EstimateOver | overdub/dsputils.swift:293-349 | the block loop and the final scaling yield `Estimate` |
| TransferEstimate.NewAccumulator | overdub/dsputils.swift:315 | a new accumulator of 512 zero bins |
| TransferEstimate.AccumulateAll | overdub/dsputils.swift:317-345 | after the loop the accumulator is `Accum` over all blocks |
| Mixer.DubOffset | overdub/dsputils.swift:491-494 | numPrependToDub (also EchoCanceller.swift:116-119): the dub lands at most at the recording position, strictly before it exactly when the latency correction is non-zero (sample rates of 10 Hz and up) |
| Mixer.Correction | overdub/dsputils.swift:491 | `round(sampleRate * 0.05)`: within half a frame of `sampleRate / 20` |
| Mixer.Placed | overdub/dsputils.swift:494-526 | the dub on the base's timeline: frame `k` holds dub frame `k - offset`, or silence |
| Mixer.Sum | overdub/dsputils.swift:546 | vDSP_vadd: frame-by-frame sum |
| Mixer.Declipped | overdub/dsputils.swift:549-555 | the clipping guard keeps the length; no sample then exceeds 1.0, a rescaled mix peaks at exactly 1.0 and an unclipped one is unchanged (`DeclippedAtMostOne`) |
| Mixer.Scaled | overdub/dsputils.swift:553 | every sample times the scale |
| Mixer.Mixed | overdub/dsputils.swift:505-546 | the mix before the guard, as long as the longer of the base and the placed dub; every frame is the base frame plus the placed dub frame, silence past either (`MixedFrames`, `DubFrameLands`) |
| Mixer.Mixdown | overdub/dsputils.swift:477-559 | nothing exactly when the placed dub ends before the base's first frame |
| Mixer.MixedFrames | overdub/dsputils.swift:505-546 | every frame of the mix is the base's frame plus the dub frame that lands there |
| Mixer.DubFrameLands | overdub/dsputils.swift:494-546 | dub frame `j` is heard at frame `offset + j` unless the offset cut it off |
| Mixer.ScaledAtMostOne | overdub/dsputils.swift:552-553 | a sample at most `m`, scaled by `1 / m`, is at most 1, and exactly 1 when it is `m` |
| Mixer.ScaledPeak | overdub/dsputils.swift:552-553 | scaling by the reciprocal of the maximum brings each sample to at most 1, the maximum to exactly 1 |
| Mixer.DeclippedAtMostOne | overdub/dsputils.swift:549-555 | after the guard the largest sample is at most 1.0; a mix above 1.0 peaks at exactly 1.0, and any other is unchanged |
| Mixer.NegativePeakNotRescaled | overdub/dsputils.swift:549-550 | a mix whose loudest sample is -3.0 is not rescaled |
| Mixer.Load | overdub/dsputils.swift:479-482 | a new buffer holding the file's frames |
| Mixer.ShiftDub | overdub/dsputils.swift:513-517 | zeros prepended or frames removed: the dub placed at `offset`, in the dub itself or a new buffer |
| Mixer.PaddedPlaced | overdub/dsputils.swift:518-521 | appending zeros to the placed dub places it on a longer timeline |
| Mixer.AddTracks | overdub/dsputils.swift:528-546 | a new buffer holding the sum of the aligned tracks |
| Mixer.Declip | overdub/dsputils.swift:549-555 | the output buffer becomes `Declipped` of its old contents |
| Mixer.ScaleBy | overdub/dsputils.swift:553 | vDSP_vsmul in place: every sample scaled |
| Mixer.AlignTracks | overdub/dsputils.swift:505-526 | both tracks as long as the longer one: the base padded, the dub placed; the two are distinct buffers |
| Mixer.AddAudioBuffers | overdub/dsputils.swift:477-559 | nil exactly when `Mixdown` is nothing; otherwise a new buffer holding it |
| Mixer.MixTracks | overdub/dsputils.swift:505-546 | a new buffer holding `Mixed` |
| EchoCanceller.Steps | overdub/EchoCanceller.swift:30-34 | cancelEcho's block count: at least one block for windows longer than 5001 frames (so also for windows shorter than a whole block), -1 for windows of at most one frame |
| EchoCanceller.EchoBlock | overdub/EchoCanceller.swift:59-93 | what one microphone block becomes is 10001 samples, and silent wherever the window is 0; `CancelBlock` is proved to write it |
| EchoCanceller.EchoStep | overdub/EchoCanceller.swift:57-94 | the loop's step keeps the block length; `EchoCancelledIsCancelled` ties the loop to the generic `Cancelled` with this step |
| EchoCanceller.Cancelled | overdub/EchoCanceller.swift:57-94 | the microphone track after `k` blocks keeps its length; frames outside the blocks are untouched (`CancelledOutside`), frames before block `i` are final (`CancelledStable`), and each frame holds the last block covering it (`LastCoveringBlockWins`) |
| EchoCanceller.CancelledOutside | overdub/EchoCanceller.swift:57-94 | frames before the echo window and past the last block are never touched |
| EchoCanceller.CancelledStable | overdub/EchoCanceller.swift:57-94 | frames in front of block `i` are final once block `i` starts |
| EchoCanceller.BlockOutput | overdub/EchoCanceller.swift:59-93 | what block `i` writes back (its step applied to what the earlier blocks left) is one block long; right after block `i` its frames hold it (`CancelledBlockWrites`) |
| EchoCanceller.CancelledNext | overdub/EchoCanceller.swift:57-94 | block `i` overwrites the track the earlier blocks left with `BlockOutput`, at frame `first + 5000 * i` |
| EchoCanceller.LastCoveringBlockWins | overdub/EchoCanceller.swift:57-94 | a frame holds what the last block covering it wrote in its `BlockOutput` (memcpy overwrites; no overlap-add) |
| EchoCanceller.CancelledBlockWrites | overdub/EchoCanceller.swift:93 | right after block `i`, each frame it covers holds its entry of `BlockOutput` |
| EchoCanceller.BlocksLeaveNoGap | overdub/EchoCanceller.swift:30-34 | every frame from the window's start to the last block's end is covered by some block |
| EchoCanceller.UnprocessedTailShorterThanHop | overdub/EchoCanceller.swift:30-34 | with the length guard the blocks stay in the window and leave fewer than 5000 frames at its end |
| EchoCanceller.EchoScratchTooShort | overdub/EchoCanceller.swift:36-49 | the 10001-frame block transforms over 16384 bins, more than the 10001 entries of X and Y |
| EchoCanceller.EchoCancelled | overdub/EchoCanceller.swift:57-94 | the microphone track after `k` passes of cancelEcho's own block step keeps its length and equals `Cancelled` with `EchoStep` (`EchoCancelledIsCancelled`); `CancelBlocks` is proved to reach it |
| EchoCanceller.EchoCancelledNext | overdub/EchoCanceller.swift:57-94 | one more pass rewrites block `i` with `EchoBlock` of the samples the earlier passes left |
| EchoCanceller.EchoCancelledIsCancelled | overdub/EchoCanceller.swift:57-94 | the passes of the loop are `Cancelled` with `EchoStep`, so every property of `Cancelled` holds of them |
| EchoCanceller.CancelBlock | overdub/EchoCanceller.swift:57-94 | one loop pass: the block at `at` is overwritten with `EchoBlock` of its old samples, nothing else in the microphone track changes |
| EchoCanceller.CancelNextBlock | overdub/EchoCanceller.swift:57-94 | pass `i` takes the microphone track from `EchoCancelled` after `i` blocks to `EchoCancelled` after `i + 1` |
| EchoCanceller.CancelBlocks | overdub/EchoCanceller.swift:45-94 | after the loop the microphone track is `EchoCancelled` over all blocks |
| EchoCanceller.CancelEcho | overdub/EchoCanceller.swift:11-97 | nothing changes without a transfer function, without a setup or with a window shorter than a block; otherwise the microphone track becomes `Cancelled` |
| EchoMixer.EchoEnd | overdub/EchoCanceller.swift:131 | the echo window ends at the shorter of the base and the placed dub |
| EchoMixer.WindowCancelled | overdub/EchoCanceller.swift:27-94 | the echo window after the block loop keeps the track's length and leaves frames outside the window alone (`WindowCancelledOutside`). It uses the length guard of the corrected `CancelEcho` (Findings rows 2-3); the source's count agrees for windows of 2 to 5001 frames (`ShortEchoWindowUnguardedAgrees`) |
| EchoMixer.CleanedDub | overdub/EchoCanceller.swift:160-162 | the aligned dub after the optional cancellation keeps its length; dub frames before `atFrame` and after the window pass through (`CleanedOutsideWindow`); `CleanAligned` is proved to produce it |
| EchoMixer.EchoMixdown | overdub/EchoCanceller.swift:101-195 | nothing exactly when the placed dub ends before the base's first frame; otherwise as long as the longer track |
| EchoMixer.EchoMix | overdub/EchoCanceller.swift:160-177 | the output before the clipping guard is as long as the longer track: the cleaned dub alone in debug mode, else the padded base plus it (`EchoMixParts`, `EchoMixdownValue`), and in debug mode only the base's length matters (`DebugIgnoresBaseSamples`) |
| EchoMixer.EchoMixdownValue | overdub/EchoCanceller.swift:153-191 | the result is the declipped sum of the padded base and the cleaned dub, or the cleaned dub alone in debug mode |
| EchoMixer.EchoMixParts | overdub/EchoCanceller.swift:160-177 | `EchoMix` is the cleaned dub in debug mode, otherwise the padded base plus the cleaned dub |
| EchoMixer.EchoOffIsPlainMix | overdub/EchoCanceller.swift:101-195 | with cancellation off, no transfer function or no setup, and debug off, the result is the plain mixdown |
| EchoMixer.ShortEchoWindowIsPlainMix | overdub/EchoCanceller.swift:27-34 | with the corrected guard of `CancelEcho`, an echo window shorter than a block gives the plain mixdown too (debug off); the source agrees for windows of 2 to 5001 frames only (Findings rows 2-3) |
| EchoMixer.ShortEchoWindowUnguardedAgrees | overdub/EchoCanceller.swift:30-57 | for echo windows of 2 to 5001 frames the source's block count is 0, so its loop runs no block, and the guarded window is the same untouched track |
| EchoMixer.WindowCancelledOutside | overdub/EchoCanceller.swift:57-94 | the block loop leaves frames outside the echo window as they were |
| EchoMixer.CleanedOutsideWindow | overdub/EchoCanceller.swift:119-161 | dub frames before the recording position (the latency correction among them) and after the window's end come through unchanged |
| EchoMixer.DebugIgnoresBaseSamples | overdub/EchoCanceller.swift:160-177 | in debug mode the result depends on the base only through its length |
| EchoMixer.EchoMixTracks | overdub/EchoCanceller.swift:135-182 | a new buffer holding the cleaned dub, plus the padded base unless in debug mode |
| EchoMixer.CleanAligned | overdub/EchoCanceller.swift:160-162 | the aligned dub becomes `CleanedDub` |
| EchoMixer.AddAudioBuffersWithEcho | overdub/EchoCanceller.swift:101-195 | nil exactly when `EchoMixdown` is nothing; otherwise a new buffer holding it |
| LevelRing.SumOfSquares | overdub/CircularBuffer.swift:45-47 | vDSP_svesq is never negative |
| LevelRing.BinFits | overdub/CircularBuffer.swift:43-46 | the 16 bins of `frameLength / 16` frames lie inside the buffer |
| LevelRing.Bin | overdub/CircularBuffer.swift:46 | bin `i` is `frameLength / 16` frames long |
| LevelRing.BinPowers | overdub/CircularBuffer.swift:43-51 | 16 mean squares, finite exactly when the bins are not empty, and never negative |
| LevelRing.Decibels | overdub/CircularBuffer.swift:56 | a non-finite power gives a non-finite level |
| LevelRing.DecibelLevels | overdub/CircularBuffer.swift:56 | each power converted to decibels |
| LevelRing.Levels | overdub/CircularBuffer.swift:43-56 | a buffer yields 16 levels |
| LevelRing.ShortBufferHasNoLevels | overdub/CircularBuffer.swift:43-57 | a buffer shorter than 16 frames yields only non-finite levels |
| LevelRing.StoredValue | overdub/CircularBuffer.swift:57-61 | a finite level is stored as itself, a non-finite one as the current noise floor |
| LevelRing.StoredValues | overdub/CircularBuffer.swift:56-62 | a non-finite level is stored as the noise floor, a finite one as itself |
| LevelRing.LocalMin | overdub/CircularBuffer.swift:53-61 | localMin is at most 0 and at most every finite level, and is either 0 or one of them |
| LevelRing.Smoothed | overdub/CircularBuffer.swift:65-67 | below the -40 dB gate the floor moves 2.5% of the way to localMin; otherwise it stays |
| LevelRing.SmoothingContracts | overdub/CircularBuffer.swift:65-67 | below the -40 dB gate the floor's distance to localMin shrinks by the factor 0.975; otherwise it is unchanged; a floor at or below the gate stays there |
| LevelRing.Slot | overdub/CircularBuffer.swift:62 | `(ptr + i) % buflen` is a slot of the ring |
| LevelRing.Stored | overdub/CircularBuffer.swift:55-63 | writing into the ring keeps its length; untouched slots keep their value (`StoredOutside`), and level `i` sits in slot `ptr + i` unless a later write wrapped onto it (`StoredNewest`) |
| LevelRing.Unwrapped | overdub/CircularBuffer.swift:71-73 | the unwrapped copy is as long as the ring and is its rotation from the pointer (`UnwrappedRotates`); its last 16 entries are the newest levels in order (`NewestLast`) |
| LevelRing.StoredOutside | overdub/CircularBuffer.swift:55-63 | slots no level was written to keep their value |
| LevelRing.StoredNewest | overdub/CircularBuffer.swift:55-63 | level `i` is in slot `(ptr + i) % buflen` unless a later level wrapped onto it |
| LevelRing.UnwrappedRotates | overdub/CircularBuffer.swift:71-73 | the unwrapped copy is a rotation: ring slot `j` is read out at position `(j - ptr) mod buflen` |
| LevelRing.NewestLast | overdub/CircularBuffer.swift:62-73 | with at least 16 slots, the last 16 unwrapped entries are this buffer's 16 values in order |
| LevelRing.NewestSlot | overdub/CircularBuffer.swift:69-72 | position `buflen - 16 + i` after the pointer step is slot `i` after the old pointer |
| LevelRing.Filled | overdub/CircularBuffer.swift:26-27 | `n` copies of one value |
| LevelRing.NewFilled | overdub/CircularBuffer.swift:26-27 | a new array of `n` copies of one value |
| LevelRing.Fill | overdub/CircularBuffer.swift:89-90 | vDSP_vfill: every entry becomes the value |
| LevelRing.MeanSquares | overdub/CircularBuffer.swift:43-51 | a new array holding the 16 mean squares |
| LevelRing.BinSums | overdub/CircularBuffer.swift:45-47 | the sum of squares of every bin |
| LevelRing.BinSum | overdub/CircularBuffer.swift:46 | one vDSP_svesq call: slot `i` gets the sum of squares of bin `i`, the other slots keep theirs |
| LevelRing.StoreInRing | overdub/CircularBuffer.swift:53-63 | the ring becomes `Stored` of the levels (non-finite ones as the floor), and the returned localMin is `LocalMin` |
| LevelRing.CircularBuffer.constructor | overdub/CircularBuffer.swift:11-20 | no buffers yet, `ready` unset, pointer 0, noise floor -80 dB |
| LevelRing.CircularBuffer.SetSize | overdub/CircularBuffer.swift:22-28 | two new arrays of `width` entries, all equal to the current noise floor; pointer 0; not ready; the noise floor is kept |
| LevelRing.CircularBuffer.Write | overdub/CircularBuffer.swift:30-76 | the ring gets the 16 levels from the old pointer on, the floor is smoothed, the pointer moves on by 16 modulo `buflen`, the unwrapped copy is rebuilt; ready; the invariant holds |
| LevelRing.CircularBuffer.StoreLevels | overdub/CircularBuffer.swift:53-69 | the level loop, the noise floor update and the pointer step, keeping the floor at or below -40 dB |
| LevelRing.CircularBuffer.Unwrap | overdub/CircularBuffer.swift:71-73 | the unwrapped copy is the ring read from the pointer on |
| LevelRing.CircularBuffer.Read | overdub/CircularBuffer.swift:78-80 | the unwrapped levels, `buflen` of them; nothing changes |
| LevelRing.CircularBuffer.GetNoiseFloorInDB | overdub/CircularBuffer.swift:82-84 | the noise floor, which never rises above -40 dB; nothing changes |
| LevelRing.CircularBuffer.Clear | overdub/CircularBuffer.swift:86-92 | pointer 0, both arrays all -80 dB, ready; the noise floor and the size are kept |
| TrackNames.ReplaceAll | overdub/FileManager.swift:81-82 | every occurrence of the character replaced, every other character kept |
| TrackNames.GetSafeTrackName | overdub/FileManager.swift:77-90 | the name has no slash and no space and ends with ".m4a" |
| TrackNames.ReplaceAbsent | overdub/FileManager.swift:81-82 | replacing a character that does not occur changes nothing |
| TrackNames.SafeNameShape | overdub/FileManager.swift:78-89 | slashes become dashes, spaces underscores, nothing else changes; the suffix is added exactly when the rewritten name lacks it, so the length grows by 0 or 4 |
| TrackNames.SafeNameUnchanged | overdub/FileManager.swift:78-89 | a name with no slash or space that ends in ".m4a" is returned unchanged |
| TrackNames.SafeNameIdempotent | overdub/FileManager.swift:78-89 | sanitising twice is sanitising once |

## Left out

- The Accelerate primitives are parameters and are not modelled:
  - the FFT and the inverse FFT (`vDSP_fft_zop`) are the two functions of an `FftSetup`;
  - `vDSP_create_fftsetup` failing is `None`;
  - the Hann window is an input sequence.
- Floating point:
  - samples are exact `real`s;
  - `log10` is a parameter of the level computation;
  - NaN and infinity appear only as the non-finite cases of `Bin` and `Float`;
  - `round(sampleRate * time)` is taken as an integer frame position (`atFrame`), so the echo window's end is the frame count exactly.
- Audio buffers:
  - only channel 0 is modelled, and a buffer is its frames;
  - the failure of `floatChannelData`, of `AVAudioFormat` and of allocating an `AVAudioPCMBuffer` is not modelled;
  - `readAudioFile` is replaced by the frames it would read.
- AudioBuffers.PrependZerosToBuffer: frame counts are unbounded integers, while the source's `AVAudioFrameCount` is a `UInt32`. The sum `originalFrameCount + zeroFrames` (dsputils.swift:58 in this helper, 93 in the append helper) traps past `UInt32.max`; the model does not.
- AudioBuffers.AppendZerosToBuffer: the same `UInt32` sum at dsputils.swift:93 traps past `UInt32.max`; the model's lengths are unbounded.
- Mixer.ShiftDub: the conversions `AVAudioFrameCount(numPrependToDub)` and `AVAudioFrameCount(-numPrependToDub)` (dsputils.swift:513-514, EchoCanceller.swift:138-139) trap on an offset beyond `UInt32.max`; the model's offsets and lengths are unbounded.
- EchoMixer.WindowCancelled: the echo mixdown is modelled with the corrected length guard of `CancelEcho` (Findings rows 2-3), and so are `CleanedDub`, `EchoMixdown`, `EchoMixdownValue` and `ShortEchoWindowIsPlainMix`. The source runs one block past the window for windows of 5002 to 10000 frames and traps for windows of at most 1 frame; the model agrees with it only for windows of 2 to 5001 frames and of a whole block or more.
- Spectral.GetFftLength: requires at least one frame. For 0 frames the source's getFFTLength yields `log2n = -inf`, and getImpulseResponse then traps in `vDSP_Length(log2n)` (dsputils.swift:376, 440); the model excludes that trap rather than modelling it. Spectral.GetImpulseResponse likewise requires `nBinsIn >= 1`. Every caller passes 512 or 10001.
- The prepend and append helpers write their zeros explicitly, where the source relies on a new buffer reading as silence.
- `getNewComplexBuffer` and the manual allocation and deallocation are replaced by Dafny arrays.
- The commented-out `gccPhat` and `estimateLagInSec` are not modelled. The debugging prints, and the NaN check on `H[L]` that only prints, are not modelled either.
- `CircularBuffer`:
  - `@Published` and its publication to SwiftUI are not modelled;
  - `ready` is an `Option<bool>`, `None` for the initial nil;
  - the nil arrays before `setSize` are the `hasBuffers` flag.
  - `Write` and `Clear` require the arrays to exist, and `Write` requires `buflen > 0`: the source traps on a nil array and on `% 0` there.
- LevelRing.CircularBuffer.Read: requires the arrays to exist (`hasBuffers`), because `unwrappedBuf!` traps on nil; the trap itself is not modelled.
- TrackNames.ReplaceAll: compares characters one at a time, while Swift compares strings by grapheme cluster.
- The rest of `FileManager.swift` is not part of this model; it is file I/O and UI. So are `ContentView.swift`, `AudioPlayerManager.swift`, `Calibration.swift`, `Bluetooth.swift` and `AudioEngine.swift`.
- EchoCanceller.EchoBlock: the subtraction of the predicted echo, `Y - H * X`, is commented out in the source. The model follows the code:
  - the driver's spectrum X is computed and never used;
  - the transfer function is only checked for presence.
- EchoCanceller.CancelBlocks: the source copies each block back with `memcpy`, so the blocks overwrite one another (the last block covering a frame decides it); they are not overlap-added. The model follows the code.
- Mixer.Declipped: the guard tests the signed maximum (`vDSP_maxv`), as the code does. A mix whose loudest sample is negative is never rescaled (`Mixer.NegativePeakNotRescaled`).
- EchoMixer.CleanedDub: the echo window starts at the recording position (`startTime: atTime`), not at the dub's offset. The first `Correction(sampleRate)` frames of the placed dub are never processed.
- `Spectral.Div` keys the non-finite case on a zero squared magnitude, which is when the float computation divides by zero.

## Findings

| source | as written | input that shows it | evidently intended | confidence | as-written member | corrected member |
|---|---|---|---|---|---|---|
| overdub/dsputils.swift:287-293 | `numSteps = 1 + (totalSamples - N) / L` with no check that `totalSamples >= N` | recordings of 300 frames: one block reading frames 0..511 of 300; recordings of 1 or 256 frames: `numSteps = 0`, so `1 / numSteps` divides by zero; empty recordings: `numSteps = -1`, and `for i in 0..<numSteps` at dsputils.swift:317 traps | return nil when the recordings are shorter than one block | not executed | BlockGeometry.TinyRecordingHasNoValidBlockCount | TransferEstimate.EstimateTransferFunction |
| overdub/EchoCanceller.swift:30-34 | the same block count with no check that `lastIdx - firstIdx >= N` | an echo window of 6000 frames: one 10001-frame block reaching 4001 frames past the window | leave the microphone track alone when the window is shorter than one block | not executed | BlockGeometry.ShortEchoWindowGetsOneBlock | EchoCanceller.CancelEcho |
| overdub/EchoCanceller.swift:34-57 | the same block count is -1 for an echo window of at most one frame, and `for i in 0..<numSteps` traps on it | an echo window of 0 or 1 frames: the mixdown with echo cancellation reaches it (EchoCanceller.swift:131 and 161) when the dub is at most `Correction + 1` frames long, or when recording starts at or after the base's last frame | leave the microphone track alone when the window is shorter than one block | not executed | BlockGeometry.TinyEchoWindowHasNegativeBlockCount | EchoCanceller.CancelEcho |
| overdub/EchoCanceller.swift:48-49 | the scratch spectra X and Y are allocated with N = 10001 entries | any block: doFFT writes `nbins` = 16384 entries into them | allocate X and Y with `nbins` entries | not executed | EchoCanceller.EchoScratchTooShort | EchoCanceller.CancelBlocks |
