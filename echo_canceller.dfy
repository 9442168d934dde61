/**
 * cancelEcho: the in-place block processing of the microphone track.
 *
 * The echo window `[firstIdx, lastIdx)` of the microphone buffer is cut into
 * blocks of N = 10001 frames, one every L = 5000 frames (an overlap of
 * (N + 1) / 2 = 5001 frames). Each block of the driver (the backing track)
 * and of the microphone is Hann-windowed and transformed; the subtraction of
 * the predicted echo is disabled in the source, so what goes back is the
 * inverse transform of the microphone spectrum alone, windowed once more and
 * copied over the block in the microphone buffer. Blocks overlap and are
 * processed in order, so each block reads frames that the previous one has
 * already rewritten, and the last block covering a frame decides its value.
 *
 * The Hann window and the FFT setup are inputs (vDSP_hann_window and
 * vDSP_create_fftsetup are outside the model); a setup that cannot be created
 * is `None`. The transfer function is only checked for presence.
 */
module EchoCanceller {
  import opened Wrappers
  import opened AudioBuffers
  import opened BlockGeometry
  import opened Spectral

  /** Block length ("use odd"). */
  const BlockLen: nat := 10001
  /** Frames shared by neighbouring blocks: (N + 1) / 2. */
  const Overlap: nat := (BlockLen + 1) / 2
  /** Hop between blocks: N - ovlp. */
  const Hop: nat := BlockLen - Overlap
  /** Bins of the transform of one block: getFFTLength(N).nbins (see `EchoScratchTooShort`). */
  const EchoBins: nat := 16384

  /** The first frame of block `i`, relative to the start of the echo window. */
  function Start(i: nat): nat
  {
    5000 * i
  }

  /**
   * The number of blocks the loop runs over an echo window of `total`
   * frames: one for any window longer than 5001 frames, however short of a
   * whole block, and -1 for a window of at most one frame.
   */
  function Steps(total: int): (s: int)
    ensures total >= BlockLen ==> s >= 1
    ensures s >= 1 <==> total > BlockLen - Hop
    ensures s < 0 <==> total <= 1
  {
    NumSteps(total, BlockLen, Hop)
  }

  /**
   * What one block of microphone samples becomes: windowed, transformed with
   * doFFT's scaling, inverse-transformed over all `nbins` bins, the first N
   * real samples windowed again. Wherever the window is zero the block is
   * silenced.
   */
  function EchoBlock(block: seq<real>, window: seq<real>, setup: FftSetup): (out: seq<real>)
    requires |block| == BlockLen && |window| == BlockLen
    ensures |out| == BlockLen
    ensures forall k {:trigger out[k]} :: 0 <= k < BlockLen && window[k] == 0.0 ==> out[k] == 0.0
  {
    var spectrum := ScaledForward(setup, Windowed(block, window), EchoBins);
    var ifft := Bins(setup.inverse(spectrum), |spectrum|);
    Windowed(RealParts(ifft, BlockLen), window)
  }

  /**
   * The block loop's step as a value: a block of microphone samples to what
   * is written back over it. The lemmas about the loop hold for any step
   * that keeps the block length.
   */
  type BlockStep = seq<real> -> seq<real>

  ghost predicate KeepsBlockLength(step: BlockStep)
  {
    forall b :: |b| == BlockLen ==> |step(b)| == BlockLen
  }

  /** cancelEcho's step: `EchoBlock` with the Hann window and the FFT setup. */
  function EchoStep(window: seq<real>, setup: FftSetup): (step: BlockStep)
    requires |window| == BlockLen
    ensures KeepsBlockLength(step)
  {
    b => if |b| == BlockLen then EchoBlock(b, window, setup) else b
  }

  /** Blocks `0 .. k` of an echo window starting at `first` fit in `len` frames. */
  predicate Covers(first: nat, k: nat, len: nat)
  {
    k == 0 || first + Start(k - 1) + BlockLen <= len
  }

  /** The microphone samples after the first `k` blocks have been written back. */
  function Cancelled(mic: seq<real>, first: nat, step: BlockStep, k: nat): (m: seq<real>)
    requires KeepsBlockLength(step)
    requires Covers(first, k, |mic|)
    ensures |m| == |mic|
    decreases k
  {
    if k == 0 then mic
    else
      var m := Cancelled(mic, first, step, k - 1);
      var at := first + Start(k - 1);
      Overwrite(m, at, step(m[at .. at + BlockLen]))
  }

  /**
   * Frames before the echo window, and frames past the end of the last block,
   * are never touched.
   */
  lemma {:induction false} CancelledOutside(mic: seq<real>, first: nat, step: BlockStep, k: nat, j: nat)
    requires KeepsBlockLength(step)
    requires Covers(first, k, |mic|)
    requires j < |mic|
    requires j < first || k == 0 || first + Start(k - 1) + BlockLen <= j
    ensures Cancelled(mic, first, step, k)[j] == mic[j]
  {
    if k > 0 {
      CancelledOutside(mic, first, step, k - 1, j);
    }
  }

  /**
   * Once block `i` has started, no later block reaches back before its start:
   * the frames in front of it are final.
   */
  lemma {:induction false} CancelledStable(mic: seq<real>, first: nat, step: BlockStep, i: nat, k: nat, j: nat)
    requires KeepsBlockLength(step)
    requires i <= k && Covers(first, k, |mic|)
    requires j < first + Start(i) && j < |mic|
    ensures Cancelled(mic, first, step, k)[j] == Cancelled(mic, first, step, i)[j]
  {
    if i < k {
      CancelledStable(mic, first, step, i, k - 1, j);
    }
  }

  /**
   * Every frame holds what the LAST block covering it wrote there: when block
   * `i < k` covers frame `j` and no later block does (block `i + 1` starts
   * after `j`), frame `j` after `k` blocks is what block `i`'s step made of the
   * samples as they stood after the blocks before it.
   */
  lemma LastCoveringBlockWins(mic: seq<real>, first: nat, step: BlockStep, i: nat, k: nat, j: nat)
    requires KeepsBlockLength(step)
    requires i < k && Covers(first, k, |mic|)
    requires first + Start(i) <= j < first + Start(i) + BlockLen
    requires i + 1 == k || j < first + Start(i + 1)
    ensures Cancelled(mic, first, step, k)[j] == BlockOutput(mic, first, step, i)[j - first - Start(i)]
  {
    if i + 1 == k {
      CancelledBlockWrites(mic, first, step, i, k, j);
    } else {
      CoversPrefix(first, i + 1, k, |mic|);
      CancelledBlockWrites(mic, first, step, i, i + 1, j);
      CancelledStable(mic, first, step, i + 1, k, j);
    }
  }

  /** Fewer blocks fit wherever more do. */
  lemma CoversPrefix(first: nat, i: nat, k: nat, len: nat)
    requires i <= k && Covers(first, k, len)
    ensures Covers(first, i, len)
  {
  }

  /** What block `i`'s step writes back: its samples as the blocks before it left them, stepped. */
  function BlockOutput(mic: seq<real>, first: nat, step: BlockStep, i: nat): (out: seq<real>)
    requires KeepsBlockLength(step)
    requires Covers(first, i + 1, |mic|)
    ensures |out| == BlockLen
  {
    var before := Cancelled(mic, first, step, i);
    var at := first + Start(i);
    step(before[at .. at + BlockLen])
  }

  /** Block `i` overwrites the samples the blocks before it left with its step's output. */
  lemma CancelledNext(mic: seq<real>, first: nat, step: BlockStep, i: nat, k: nat)
    requires KeepsBlockLength(step)
    requires k == i + 1 && Covers(first, k, |mic|)
    ensures Cancelled(mic, first, step, k) ==
            Overwrite(Cancelled(mic, first, step, i), first + Start(i), BlockOutput(mic, first, step, i))
  {
  }

  /** Block `i` writes its step's output over the frames it covers. */
  lemma CancelledBlockWrites(mic: seq<real>, first: nat, step: BlockStep, i: nat, k: nat, j: nat)
    requires KeepsBlockLength(step)
    requires k == i + 1 && Covers(first, k, |mic|)
    requires first + Start(i) <= j < first + Start(i) + BlockLen
    ensures Cancelled(mic, first, step, k)[j] == BlockOutput(mic, first, step, i)[j - first - Start(i)]
  {
    CancelledNext(mic, first, step, i, k);
  }

  /** The blocks overlap, so every frame from `first` to the end of block `k - 1` is covered by one. */
  lemma BlocksLeaveNoGap(first: nat, k: nat, j: nat)
    requires 0 < k && first <= j < first + Start(k - 1) + BlockLen
    ensures exists i :: 0 <= i < k && first + Start(i) <= j < first + Start(i) + BlockLen &&
                        (i + 1 == k || j < first + Start(i + 1))
  {
    var q := (j - first) / 5000;
    assert 5000 * q <= j - first < 5000 * q + 5000;
    var i := if q < k - 1 then q else k - 1;
    assert first + Start(i) <= j < first + Start(i) + BlockLen && (i + 1 == k || j < first + Start(i + 1));
  }

  /**
   * With the length guard, the blocks stay inside the echo window and leave
   * fewer than L frames at its end unprocessed.
   */
  lemma UnprocessedTailShorterThanHop(total: int)
    requires total >= BlockLen
    ensures Steps(total) >= 1
    ensures Start(Steps(total) - 1) + BlockLen <= total < Start(Steps(total) - 1) + BlockLen + Hop
  {
    GuardedBlockCountPositive(total, BlockLen, Hop);
    BlocksInBounds(total, BlockLen, Hop, Steps(total) - 1);
  }

  /**
   * The scratch spectra X and Y hold N entries in the source, but doFFT writes
   * `nbins` = 16384 > N of them: the buffers must be `nbins` long.
   */
  lemma EchoScratchTooShort()
    ensures GetFftLength(BlockLen).nbins == EchoBins
    ensures GetFftLength(BlockLen).nbins > BlockLen
  {
    EchoFftLength();
  }

  /**
   * `Cancelled` with cancelEcho's own step, written out without the step as a
   * value: what the block loop's methods are proved against.
   */
  function EchoCancelled(mic: seq<real>, first: nat, window: seq<real>, setup: FftSetup, k: nat): (m: seq<real>)
    requires |window| == BlockLen
    requires Covers(first, k, |mic|)
    ensures |m| == |mic|
    decreases k
  {
    if k == 0 then mic
    else
      var m := EchoCancelled(mic, first, window, setup, k - 1);
      var at := first + Start(k - 1);
      Overwrite(m, at, EchoBlock(m[at .. at + BlockLen], window, setup))
  }

  /** `EchoCancelled` is `Cancelled` with `EchoStep`. */
  lemma {:induction false} EchoCancelledIsCancelled(mic: seq<real>, first: nat, window: seq<real>, setup: FftSetup, k: nat)
    requires |window| == BlockLen
    requires Covers(first, k, |mic|)
    ensures EchoCancelled(mic, first, window, setup, k) == Cancelled(mic, first, EchoStep(window, setup), k)
    decreases k
  {
    if k > 0 {
      var i := k - 1;
      var step := EchoStep(window, setup);
      CoversPrefix(first, i, k, |mic|);
      EchoCancelledIsCancelled(mic, first, window, setup, i);
      EchoCancelledNext(mic, first, window, setup, i);
      CancelledNext(mic, first, step, i, k);
      var m := EchoCancelled(mic, first, window, setup, i);
      var at := first + Start(i);
      assert BlockOutput(mic, first, step, i) == EchoBlock(m[at .. at + BlockLen], window, setup);
    }
  }

  /**
   * One pass of the block loop at frame `at`: the driver block into X and the
   * microphone block into Y (doFFT), the inverse transform of Y, the
   * synthesis window, and the memcpy back over the microphone block. X is
   * computed and never used, as in the source, where the echo subtraction is
   * commented out.
   */
  method CancelBlock(driver: array<real>, mic: array<real>, at: nat, window: seq<real>, setup: FftSetup,
                     x: array<Complex>, y: array<Complex>)
    requires |window| == BlockLen
    requires at + BlockLen <= driver.Length && at + BlockLen <= mic.Length
    requires x.Length == y.Length == EchoBins && x != y
    modifies mic, x, y
    ensures mic[..] == Overwrite(old(mic[..]), at, EchoBlock(old(mic[..])[at .. at + BlockLen], window, setup))
  {
    EchoScratchTooShort();
    var block := mic[at .. at + BlockLen];
    var xBlock := Windowed(driver[at .. at + BlockLen], window);
    var yBlock := Windowed(block, window);
    assert yBlock[..BlockLen] == yBlock;
    DoFft(xBlock, x, BlockLen, setup);
    DoFft(yBlock, y, BlockLen, setup);
    var spectrum := y[..];
    assert spectrum == ScaledForward(setup, yBlock, EchoBins);
    var ifft := Bins(setup.inverse(spectrum), |spectrum|);
    var out := Windowed(RealParts(ifft, BlockLen), window);
    assert out == EchoBlock(block, window, setup);
    CopyFrames(mic, at, out);
  }

  /**
   * The block loop: `numSteps` blocks from `first`, with scratch spectra X
   * and Y of `EchoBins` entries each.
   */
  method CancelBlocks(driver: array<real>, mic: array<real>, first: nat, numSteps: nat, window: seq<real>, setup: FftSetup,
                      x: array<Complex>, y: array<Complex>)
    requires |window| == BlockLen
    requires Covers(first, numSteps, driver.Length) && Covers(first, numSteps, mic.Length)
    requires x.Length == y.Length == EchoBins && x != y
    modifies mic, x, y
    ensures mic[..] == EchoCancelled(old(mic[..]), first, window, setup, numSteps)
  {
    ghost var original := mic[..];
    assert BlockLoop(driver, mic, first, numSteps, window, x, y, original);
    for i := 0 to numSteps
      invariant mic[..] == EchoCancelled(original, first, window, setup, i)
    {
      CancelNextBlock(driver, mic, first, i, numSteps, window, setup, x, y, original);
    }
  }

  /** What stays true of the buffers and the block geometry for the whole block loop. */
  predicate BlockLoop(driver: array<real>, mic: array<real>, first: nat, numSteps: nat, window: seq<real>,
                      x: array<Complex>, y: array<Complex>, original: seq<real>)
  {
    && |window| == BlockLen
    && Covers(first, numSteps, driver.Length) && Covers(first, numSteps, mic.Length)
    && x.Length == y.Length == EchoBins && x != y
    && mic.Length == |original|
  }

  /** Pass `i` of the block loop takes the microphone track from `i` blocks done to `i + 1`. */
  method CancelNextBlock(driver: array<real>, mic: array<real>, first: nat, i: nat, numSteps: nat, window: seq<real>,
                         setup: FftSetup, x: array<Complex>, y: array<Complex>, ghost original: seq<real>)
    requires BlockLoop(driver, mic, first, numSteps, window, x, y, original) && i < numSteps
    requires mic[..] == EchoCancelled(original, first, window, setup, i)
    modifies mic, x, y
    ensures mic[..] == EchoCancelled(original, first, window, setup, i + 1)
  {
    CoversPrefix(first, i + 1, numSteps, driver.Length);
    CoversPrefix(first, i + 1, numSteps, mic.Length);
    var at := first + Start(i);
    CancelBlock(driver, mic, at, window, setup, x, y);
    EchoCancelledNext(original, first, window, setup, i);
  }

  /** One more block of `EchoCancelled`: block `i` rewritten from the track after the first `i`. */
  lemma EchoCancelledNext(mic: seq<real>, first: nat, window: seq<real>, setup: FftSetup, i: nat)
    requires |window| == BlockLen
    requires Covers(first, i + 1, |mic|)
    ensures var m := EchoCancelled(mic, first, window, setup, i);
            var at := first + Start(i);
            EchoCancelled(mic, first, window, setup, i + 1) == Overwrite(m, at, EchoBlock(m[at .. at + BlockLen], window, setup))
  {
  }

  /**
   * cancelEcho over the echo window `[firstIdx, lastIdx)`, with the length
   * guard it needs: nothing changes without a transfer function, without an
   * FFT setup or when the window is shorter than one block; otherwise the
   * microphone buffer ends up as `Cancelled` after all blocks. The driver is
   * only read.
   */
  method CancelEcho(driver: array<real>, mic: array<real>, transferFunction: Option<seq<Bin>>,
                    firstIdx: nat, lastIdx: int, window: seq<real>, setup: Option<FftSetup>)
    requires |window| == BlockLen
    requires lastIdx <= driver.Length && lastIdx <= mic.Length
    modifies mic
    ensures transferFunction.None? || setup.None? || lastIdx - firstIdx < BlockLen ==> mic[..] == old(mic[..])
    ensures transferFunction.Some? && setup.Some? && lastIdx - firstIdx >= BlockLen ==>
      mic[..] == Cancelled(old(mic[..]), firstIdx, EchoStep(window, setup.value), Steps(lastIdx - firstIdx))
  {
    if transferFunction.None? {
      return;
    }
    var totalSamples := lastIdx - firstIdx;
    if setup.None? || totalSamples < BlockLen {
      return;
    }
    var numSteps := NumSteps(totalSamples, BlockLen, Hop);
    assert numSteps == Steps(lastIdx - firstIdx);
    UnprocessedTailShorterThanHop(totalSamples);
    var x := new Complex[EchoBins];
    var y := new Complex[EchoBins];
    CancelBlocks(driver, mic, firstIdx, numSteps, window, setup.value, x, y);
    EchoCancelledIsCancelled(old(mic[..]), firstIdx, window, setup.value, numSteps);
  }
}
