/**
 * addAudioBuffers (EchoCanceller.swift): the mixdown with echo cancellation.
 *
 * The tracks are placed and padded as in the plain mixdown. Then, when echo
 * cancellation is on, cancelEcho rewrites the aligned dub in place over the
 * echo window, which starts at the recording position `atFrame` and ends
 * where the shorter of the base and the placed dub ends. The output is the
 * aligned base plus the cleaned dub, or, in debug mode, the cleaned dub
 * alone; the clipping guard follows.
 *
 * The echo window starts at `atFrame`, not at the dub's offset: the first
 * `Correction(sampleRate)` frames of the placed dub lie in front of it and
 * are never processed.
 */
module EchoMixer {
  import opened Wrappers
  import opened AudioBuffers
  import opened Spectral
  import opened Mixer
  import opened EchoCanceller

  /** endEchoTime in frames: the end of the shorter of the base and the placed dub. */
  function EchoEnd(baseLen: nat, placedLen: int): (e: int)
    ensures e <= baseLen && e <= placedLen
    ensures e == baseLen || e == placedLen
  {
    if baseLen > placedLen then placedLen else baseLen
  }

  /**
   * The echo window `[first, last)` of `mic` after the block loop, with the
   * length guard of `CancelEcho`: untouched when the window is shorter than
   * one block, otherwise rewritten by every block that fits. The unguarded
   * count agrees for windows of 2 to 5001 frames (`ShortEchoWindowUnguardedAgrees`);
   * longer short windows get one block past the window and shorter ones a
   * count of -1 (`ShortEchoWindowGetsOneBlock`, `TinyEchoWindowHasNegativeBlockCount`).
   */
  function WindowCancelled(mic: seq<real>, first: nat, last: int, step: BlockStep): (m: seq<real>)
    requires KeepsBlockLength(step) && last <= |mic|
    ensures |m| == |mic|
  {
    if last - first >= BlockLen then
      UnprocessedTailShorterThanHop(last - first);
      Cancelled(mic, first, step, Steps(last - first))
    else
      mic
  }

  /**
   * The aligned dub after cancelEcho ran on it (or did not): the dub placed on
   * a `len`-frame timeline, with its echo window `[first, last)` cancelled
   * when `echo` holds and a setup exists.
   */
  function CleanedDub(dub: seq<real>, offset: int, len: nat, first: nat, last: int,
                      echo: bool, window: seq<real>, setup: Option<FftSetup>): (c: seq<real>)
    requires |window| == BlockLen && last <= len
    ensures |c| == len
  {
    var placed := Placed(dub, offset, len);
    if echo && setup.Some? then WindowCancelled(placed, first, last, EchoStep(window, setup.value)) else placed
  }

  /**
   * The output buffer before the clipping guard, for a dub placed at `offset`
   * that reaches the base's timeline: the cleaned dub alone in debug mode,
   * otherwise the padded base plus the cleaned dub.
   */
  function EchoMix(base: seq<real>, dub: seq<real>, offset: int, atFrame: nat, echo: bool, debug: bool,
                   window: seq<real>, setup: Option<FftSetup>): (m: seq<real>)
    requires |window| == BlockLen && offset + |dub| > 0
    ensures |m| == Max(|base|, offset + |dub|)
  {
    var len := Max(|base|, offset + |dub|);
    var cleaned := CleanedDub(dub, offset, len, atFrame, EchoEnd(|base|, offset + |dub|), echo, window, setup);
    if debug then cleaned else Sum(base + Zeros(len - |base|), cleaned)
  }

  /**
   * What addAudioBuffers returns: nothing when the dub ends before the base's
   * first frame; otherwise `EchoMix` through the clipping guard. Echo
   * cancellation runs only when it is switched on and a transfer function is
   * present.
   */
  function EchoMixdown(base: seq<real>, dub: seq<real>, atFrame: nat, sampleRate: nat,
                       transferFunction: Option<seq<Bin>>, doEchoCancellation: bool, debug: bool,
                       window: seq<real>, setup: Option<FftSetup>): (r: Option<seq<real>>)
    requires |window| == BlockLen
    ensures r.None? <==> DubOffset(atFrame, sampleRate) + |dub| <= 0
    ensures r.Some? ==> |r.value| == Max(|base|, DubOffset(atFrame, sampleRate) + |dub|)
  {
    var offset := DubOffset(atFrame, sampleRate);
    if offset + |dub| <= 0 then None
    else Some(Declipped(EchoMix(base, dub, offset, atFrame, doEchoCancellation && transferFunction.Some?, debug, window, setup)))
  }

  /**
   * The mix `EchoMixdown` returns when the placed dub reaches the base's
   * timeline: the declipped sum of the padded base and the cleaned dub, or
   * the declipped cleaned dub alone in debug mode.
   */
  lemma EchoMixdownValue(base: seq<real>, dub: seq<real>, atFrame: nat, sampleRate: nat,
                         transferFunction: Option<seq<Bin>>, doEchoCancellation: bool, debug: bool,
                         window: seq<real>, setup: Option<FftSetup>)
    requires |window| == BlockLen && DubOffset(atFrame, sampleRate) + |dub| > 0
    ensures var offset := DubOffset(atFrame, sampleRate);
      var len := Max(|base|, offset + |dub|);
      var cleaned := CleanedDub(dub, offset, len, atFrame, EchoEnd(|base|, offset + |dub|),
                                doEchoCancellation && transferFunction.Some?, window, setup);
      EchoMixdown(base, dub, atFrame, sampleRate, transferFunction, doEchoCancellation, debug, window, setup)
        == Some(Declipped(if debug then cleaned else Sum(base + Zeros(len - |base|), cleaned)))
  {
    var offset := DubOffset(atFrame, sampleRate);
    var len := Max(|base|, offset + |dub|);
    var echo := doEchoCancellation && transferFunction.Some?;
    var cleaned := CleanedDub(dub, offset, len, atFrame, EchoEnd(|base|, offset + |dub|), echo, window, setup);
    EchoMixParts(base, dub, offset, atFrame, echo, debug, window, setup, len, cleaned);
  }

  /**
   * With echo cancellation off (switched off, no transfer function or no FFT
   * setup) and debug off, the result is the plain mixdown.
   */
  lemma EchoOffIsPlainMix(base: seq<real>, dub: seq<real>, atFrame: nat, sampleRate: nat,
                          transferFunction: Option<seq<Bin>>, doEchoCancellation: bool,
                          window: seq<real>, setup: Option<FftSetup>)
    requires |window| == BlockLen
    requires !doEchoCancellation || transferFunction.None? || setup.None?
    ensures EchoMixdown(base, dub, atFrame, sampleRate, transferFunction, doEchoCancellation, false, window, setup)
         == Mixdown(base, dub, atFrame, sampleRate)
  {
    var offset := DubOffset(atFrame, sampleRate);
    if offset + |dub| > 0 {
      var len := Max(|base|, offset + |dub|);
      assert CleanedDub(dub, offset, len, atFrame, EchoEnd(|base|, offset + |dub|),
                        doEchoCancellation && transferFunction.Some?, window, setup)
          == Placed(dub, offset, len);
    }
  }

  /**
   * With the guard of `CancelEcho`, an echo window shorter than one block
   * leaves the dub as placed, so the result is the plain mixdown then too
   * (with debug off).
   */
  lemma ShortEchoWindowIsPlainMix(base: seq<real>, dub: seq<real>, atFrame: nat, sampleRate: nat,
                                  transferFunction: Option<seq<Bin>>, doEchoCancellation: bool,
                                  window: seq<real>, setup: Option<FftSetup>)
    requires |window| == BlockLen
    requires EchoEnd(|base|, DubOffset(atFrame, sampleRate) + |dub|) - atFrame < BlockLen
    ensures EchoMixdown(base, dub, atFrame, sampleRate, transferFunction, doEchoCancellation, false, window, setup)
         == Mixdown(base, dub, atFrame, sampleRate)
  {
    var offset := DubOffset(atFrame, sampleRate);
    if offset + |dub| > 0 {
      var len := Max(|base|, offset + |dub|);
      assert CleanedDub(dub, offset, len, atFrame, EchoEnd(|base|, offset + |dub|),
                        doEchoCancellation && transferFunction.Some?, window, setup)
          == Placed(dub, offset, len);
    }
  }

  /**
   * For windows of 2 to 5001 frames the unguarded block count is 0, so the
   * loop runs no block and the guarded window is what it leaves.
   */
  lemma ShortEchoWindowUnguardedAgrees(mic: seq<real>, first: nat, last: int, step: BlockStep)
    requires KeepsBlockLength(step) && last <= |mic|
    requires 2 <= last - first <= BlockLen - Hop
    ensures Steps(last - first) == 0
    ensures WindowCancelled(mic, first, last, step) == mic
  {}

  /**
   * The block loop only rewrites the echo window: frames in front of `first`
   * and from `last` on keep their values.
   */
  lemma WindowCancelledOutside(mic: seq<real>, first: nat, last: int, step: BlockStep, j: nat)
    requires KeepsBlockLength(step) && last <= |mic|
    requires j < |mic| && (j < first || last <= j)
    ensures WindowCancelled(mic, first, last, step)[j] == mic[j]
  {
    if last - first >= BlockLen {
      UnprocessedTailShorterThanHop(last - first);
      CancelledOutside(mic, first, step, Steps(last - first), j);
    }
  }

  /**
   * So the frames of the placed dub in front of `first` (the latency
   * correction among them) and from `last` on come through unchanged.
   */
  lemma CleanedOutsideWindow(dub: seq<real>, offset: int, len: nat, first: nat, last: int,
                             echo: bool, window: seq<real>, setup: Option<FftSetup>, j: nat)
    requires |window| == BlockLen && last <= len
    requires j < len && (j < first || last <= j)
    ensures CleanedDub(dub, offset, len, first, last, echo, window, setup)[j] == FrameAt(dub, j - offset)
  {
    if echo && setup.Some? {
      WindowCancelledOutside(Placed(dub, offset, len), first, last, EchoStep(window, setup.value), j);
    }
  }

  /**
   * The canceller never reads the base's samples (the subtraction of the
   * predicted echo is disabled), so in debug mode the result depends on the
   * base only through its length.
   */
  lemma DebugIgnoresBaseSamples(base1: seq<real>, base2: seq<real>, dub: seq<real>, atFrame: nat, sampleRate: nat,
                                transferFunction: Option<seq<Bin>>, doEchoCancellation: bool,
                                window: seq<real>, setup: Option<FftSetup>)
    requires |window| == BlockLen && |base1| == |base2|
    ensures EchoMixdown(base1, dub, atFrame, sampleRate, transferFunction, doEchoCancellation, true, window, setup)
         == EchoMixdown(base2, dub, atFrame, sampleRate, transferFunction, doEchoCancellation, true, window, setup)
  {
  }

  /**
   * The aligned tracks, the dub cleaned in place, and the output buffer
   * holding their sum (or the cleaned dub alone in debug mode), before the
   * clipping guard. When alignment adds no frames the aligned dub is `dub`
   * itself, which is why `dub` may change.
   */
  method EchoMixTracks(base: array<real>, dub: array<real>, offset: int, atFrame: nat, lastIdx: int,
                       transferFunction: Option<seq<Bin>>, doEchoCancellation: bool, debug: bool,
                       window: seq<real>, setup: Option<FftSetup>) returns (out: array<real>)
    requires |window| == BlockLen
    requires offset + dub.Length > 0 && base != dub
    requires lastIdx == EchoEnd(base.Length, offset + dub.Length)
    modifies dub
    ensures fresh(out)
    ensures out[..] == EchoMix(base[..], old(dub[..]), offset, atFrame, doEchoCancellation && transferFunction.Some?,
                               debug, window, setup)
  {
    ghost var len := Max(base.Length, offset + dub.Length);
    ghost var baseFrames, dubFrames := base[..], dub[..];
    ghost var echo := doEchoCancellation && transferFunction.Some?;
    ghost var cleaned := CleanedDub(dubFrames, offset, len, atFrame, lastIdx, echo, window, setup);
    var baseAligned, dubAligned := AlignTracks(base, dub, offset);
    ghost var padded := baseAligned[..];
    assert padded == baseFrames + Zeros(len - |baseFrames|);
    assert dubAligned.Length == len;
    CleanAligned(baseAligned, dubAligned, dubFrames, offset, atFrame, lastIdx,
                 transferFunction, doEchoCancellation, window, setup);
    assert baseAligned[..] == padded && dubAligned[..] == cleaned;
    if debug {
      out := Load(dubAligned[..]);
    } else {
      out := AddTracks(baseAligned, dubAligned);
    }
    assert out[..] == if debug then cleaned else Sum(padded, cleaned);
    assert base[..] == baseFrames;
    EchoMixParts(baseFrames, dubFrames, offset, atFrame, echo, debug, window, setup, len, cleaned);
  }

  /** `EchoMix` from the timeline's length and the cleaned dub. */
  lemma EchoMixParts(base: seq<real>, dub: seq<real>, offset: int, atFrame: nat, echo: bool, debug: bool,
                     window: seq<real>, setup: Option<FftSetup>, len: nat, cleaned: seq<real>)
    requires |window| == BlockLen && offset + |dub| > 0 && len == Max(|base|, offset + |dub|)
    requires cleaned == CleanedDub(dub, offset, len, atFrame, EchoEnd(|base|, offset + |dub|), echo, window, setup)
    ensures EchoMix(base, dub, offset, atFrame, echo, debug, window, setup)
         == if debug then cleaned else Sum(base + Zeros(len - |base|), cleaned)
  {
  }

  /** `if doEchoCancellation { cancelEcho(...) }` on the aligned tracks. */
  method CleanAligned(baseAligned: array<real>, dubAligned: array<real>, ghost dub: seq<real>, offset: int,
                      atFrame: nat, lastIdx: int, transferFunction: Option<seq<Bin>>, doEchoCancellation: bool,
                      window: seq<real>, setup: Option<FftSetup>)
    requires |window| == BlockLen && baseAligned != dubAligned
    requires baseAligned.Length == dubAligned.Length && lastIdx <= dubAligned.Length
    requires dubAligned[..] == Placed(dub, offset, dubAligned.Length)
    modifies dubAligned
    ensures dubAligned[..] == CleanedDub(dub, offset, dubAligned.Length, atFrame, lastIdx,
                                         doEchoCancellation && transferFunction.Some?, window, setup)
  {
    if doEchoCancellation {
      CancelEcho(baseAligned, dubAligned, transferFunction, atFrame, lastIdx, window, setup);
    }
  }

  /**
   * addAudioBuffers with echo cancellation: nothing when the placed dub ends
   * before the base's first frame, otherwise a new buffer holding
   * `EchoMixdown`.
   */
  method AddAudioBuffersWithEcho(baseFrames: seq<real>, dubFrames: seq<real>, atFrame: nat, sampleRate: nat,
                                 transferFunction: Option<seq<Bin>>, doEchoCancellation: bool, debug: bool,
                                 window: seq<real>, setup: Option<FftSetup>)
    returns (r: Option<array<real>>)
    requires |window| == BlockLen
    ensures r.None? <==> EchoMixdown(baseFrames, dubFrames, atFrame, sampleRate, transferFunction,
                                     doEchoCancellation, debug, window, setup).None?
    ensures r.Some? ==> fresh(r.value) && r.value[..] == EchoMixdown(baseFrames, dubFrames, atFrame, sampleRate,
                                     transferFunction, doEchoCancellation, debug, window, setup).value
  {
    var base := Load(baseFrames);
    var dub := Load(dubFrames);
    var correction := Correction(sampleRate);
    var numPrependToDub := atFrame - correction;
    var prependedDubFrameCount := numPrependToDub + dub.Length;
    if prependedDubFrameCount <= 0 {
      return None;
    }
    var baseLen := base.Length;
    var lastIdx := if baseLen > prependedDubFrameCount then prependedDubFrameCount else baseLen;
    assert numPrependToDub == DubOffset(atFrame, sampleRate) && lastIdx == EchoEnd(base.Length, numPrependToDub + dub.Length);
    ghost var mixed := EchoMix(baseFrames, dubFrames, numPrependToDub, atFrame,
                               doEchoCancellation && transferFunction.Some?, debug, window, setup);
    assert base[..] == baseFrames && dub[..] == dubFrames;
    var outputBuffer := EchoMixTracks(base, dub, numPrependToDub, atFrame, lastIdx,
                                      transferFunction, doEchoCancellation, debug, window, setup);
    assert outputBuffer[..] == mixed;
    Declip(outputBuffer);
    return Some(outputBuffer);
  }
}
