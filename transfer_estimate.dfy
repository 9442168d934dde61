/**
 * estimateTransferFunction: the loopback calibration. The stimulus and the
 * recorded response are cut into blocks of 512 frames, one every 256 frames;
 * each block is Hann-windowed and transformed, the per-bin ratio `Y / X`
 * (response over stimulus) is added into an accumulator, and the accumulator
 * is finally divided by the number of blocks.
 *
 * The Hann window and the FFT setup are inputs (vDSP_hann_window and
 * vDSP_create_fftsetup are outside the model); a setup that cannot be created
 * is `None`. The accumulation is stated over the blocks' spectra as values
 * (`Accum`), and the spectra over the recordings (`Spectra`).
 */
module TransferEstimate {
  import opened Wrappers
  import opened AudioBuffers
  import opened BlockGeometry
  import opened Spectral

  /** Block length: wide enough to capture the loopback lag. */
  const BlockLen: nat := 512
  /** Hop between blocks: half a block of new samples. */
  const Hop: nat := 256

  /** The first frame of block `i`. */
  function Start(i: nat): nat
  {
    256 * i
  }

  /** The shorter of the two recordings, which bounds the blocks. */
  function Total(stim: seq<real>, resp: seq<real>): (t: nat)
    ensures t <= |stim| && t <= |resp|
    ensures t == |stim| || t == |resp|
  {
    if |stim| < |resp| then |stim| else |resp|
  }

  /** The windowed block `i` of `signal` (memcpy, then vDSP_vmul by the window). */
  function WindowedBlock(signal: seq<real>, window: seq<real>, i: nat): (x: seq<real>)
    requires |window| == BlockLen
    requires Start(i) + BlockLen <= |signal|
    ensures |x| == BlockLen
  {
    Windowed(signal[Start(i) .. Start(i) + BlockLen], window)
  }

  /** The scaled spectrum of the windowed block `i` of `signal` (doFFT with 512 bins). */
  function BlockSpectrum(signal: seq<real>, window: seq<real>, setup: FftSetup, i: nat): (c: seq<Complex>)
    requires |window| == BlockLen
    requires Start(i) + BlockLen <= |signal|
    ensures |c| == BlockLen
  {
    ScaledForward(setup, WindowedBlock(signal, window, i), BlockLen)
  }

  /** Blocks `0 .. n` fit in a recording of `total` frames. */
  predicate BlocksFit(total: nat, n: nat)
  {
    n == 0 || Start(n - 1) + BlockLen <= total
  }

  /** Every block spectrum has one entry per bin. */
  predicate Shaped(xs: seq<seq<Complex>>)
  {
    forall i :: 0 <= i < |xs| ==> |xs[i]| == BlockLen
  }

  /** The spectra of the first `n` blocks of `signal`. */
  function Spectra(signal: seq<real>, window: seq<real>, setup: FftSetup, n: nat): (s: seq<seq<Complex>>)
    requires |window| == BlockLen
    requires BlocksFit(|signal|, n)
    ensures |s| == n && Shaped(s)
    ensures forall i :: 0 <= i < n ==> Start(i) + BlockLen <= |signal| && s[i] == BlockSpectrum(signal, window, setup, i)
  {
    seq(n, i requires 0 <= i < n => BlockSpectrum(signal, window, setup, i))
  }

  /** Bin by bin, `y / x` (vDSP_zvdiv). */
  function Ratios(y: seq<Complex>, x: seq<Complex>): (h: seq<Bin>)
    requires |y| == |x|
    ensures |h| == |x|
    ensures forall k :: 0 <= k < |x| ==> h[k] == Div(y[k], x[k])
  {
    seq(|x|, k requires 0 <= k < |x| => Div(y[k], x[k]))
  }

  /** Bin by bin, `a + b` (vDSP_zvadd). */
  function AddBins(a: seq<Bin>, b: seq<Bin>): (s: seq<Bin>)
    requires |a| == |b|
    ensures |s| == |a|
    ensures forall k :: 0 <= k < |a| ==> s[k] == AddBin(a[k], b[k])
  {
    seq(|a|, k requires 0 <= k < |a| => AddBin(a[k], b[k]))
  }

  /** Every bin multiplied by `scale` (vDSP_vsmul on both halves). */
  function ScaleBins(a: seq<Bin>, scale: real): (s: seq<Bin>)
    ensures |s| == |a|
    ensures forall k :: 0 <= k < |a| ==> s[k] == ScaleBin(a[k], scale)
  {
    seq(|a|, k requires 0 <= k < |a| => ScaleBin(a[k], scale))
  }

  /** The zeroed accumulator. */
  function ZeroBins(): (z: seq<Bin>)
    ensures |z| == BlockLen
    ensures forall k :: 0 <= k < BlockLen ==> z[k] == Finite(0.0, 0.0)
  {
    seq(BlockLen, _ => Finite(0.0, 0.0))
  }

  /**
   * The accumulator after the first `n` blocks, given the stimulus spectra
   * `xs` and the response spectra `ys`: each block's `Y / X` added in.
   */
  function Accum(xs: seq<seq<Complex>>, ys: seq<seq<Complex>>, n: nat): (acc: seq<Bin>)
    requires Shaped(xs) && Shaped(ys) && n <= |xs| == |ys|
    ensures |acc| == BlockLen
  {
    if n == 0 then ZeroBins()
    else AddBins(Ratios(ys[n - 1], xs[n - 1]), Accum(xs, ys, n - 1))
  }

  /**
   * A bin of the accumulator is finite exactly when that bin of every block's
   * stimulus spectrum has a non-zero magnitude: one silent stimulus bin in one
   * block poisons that bin of the whole estimate.
   */
  lemma {:induction false} AccumFinite(xs: seq<seq<Complex>>, ys: seq<seq<Complex>>, n: nat, k: nat)
    requires Shaped(xs) && Shaped(ys) && n <= |xs| == |ys|
    requires k < BlockLen
    ensures Accum(xs, ys, n)[k].Finite? <==> forall i :: 0 <= i < n ==> SquaredMagnitude(xs[i][k]) != 0.0
  {
    if n > 0 {
      AccumFinite(xs, ys, n - 1, k);
    }
  }

  /** Dividing a spectrum bin by itself gives exactly one. */
  lemma DivSelf(x: Complex)
    requires SquaredMagnitude(x) != 0.0
    ensures Div(x, x) == Finite(1.0, 0.0)
  {
    var d := SquaredMagnitude(x);
    assert x.re * x.re + x.im * x.im == d;
    assert x.im * x.re - x.re * x.im == 0.0;
  }

  /**
   * When the response spectra are the stimulus spectra and a bin is never
   * silent, the accumulator holds exactly `n` in that bin.
   */
  lemma {:induction false} AccumIdentical(xs: seq<seq<Complex>>, n: nat, k: nat)
    requires Shaped(xs) && n <= |xs|
    requires k < BlockLen
    requires forall i :: 0 <= i < n ==> SquaredMagnitude(xs[i][k]) != 0.0
    ensures Accum(xs, xs, n)[k] == Finite(n as real, 0.0)
  {
    if n > 0 {
      AccumIdentical(xs, n - 1, k);
      DivSelf(xs[n - 1][k]);
    }
  }

  /**
   * The number of blocks the loop runs over recordings of `total` frames:
   * none for recordings of at most one hop, and -1 for empty ones.
   */
  function Steps(total: nat): (s: int)
    ensures total >= BlockLen ==> s >= 1
    ensures s >= 1 <==> total > Hop
    ensures s < 0 <==> total == 0
  {
    NumSteps(total, BlockLen, Hop)
  }

  lemma StepsFit(total: nat)
    requires total >= BlockLen
    ensures Steps(total) >= 1
    ensures BlocksFit(total, Steps(total))
  {
    GuardedBlockCountPositive(total, BlockLen, Hop);
    BlocksInBounds(total, BlockLen, Hop, Steps(total) - 1);
  }

  /** The accumulated ratios of `n` blocks divided by the number of blocks. */
  function EstimateOf(xs: seq<seq<Complex>>, ys: seq<seq<Complex>>, n: nat): (h: seq<Bin>)
    requires Shaped(xs) && Shaped(ys) && 0 < n <= |xs| == |ys|
    ensures |h| == BlockLen
  {
    ScaleBins(Accum(xs, ys, n), 1.0 / n as real)
  }

  /** The estimate over two recordings: `EstimateOf` their block spectra. */
  function Estimate(stim: seq<real>, resp: seq<real>, window: seq<real>, setup: FftSetup): (h: seq<Bin>)
    requires |window| == BlockLen
    requires Total(stim, resp) >= BlockLen
    ensures |h| == BlockLen
  {
    var n := Steps(Total(stim, resp));
    StepsFit(Total(stim, resp));
    EstimateOf(Spectra(stim, window, setup, n), Spectra(resp, window, setup, n), n)
  }

  /**
   * A bin of the estimate is finite exactly when no block's stimulus is
   * silent in that bin.
   */
  lemma EstimateFinite(xs: seq<seq<Complex>>, ys: seq<seq<Complex>>, n: nat, k: nat)
    requires Shaped(xs) && Shaped(ys) && 0 < n <= |xs| == |ys|
    requires k < BlockLen
    ensures EstimateOf(xs, ys, n)[k].Finite? <==> forall i :: 0 <= i < n ==> SquaredMagnitude(xs[i][k]) != 0.0
  {
    AccumFinite(xs, ys, n, k);
  }

  lemma ReciprocalCancels(n: nat)
    requires n > 0
    ensures (n as real) * (1.0 / n as real) == 1.0
  {
  }

  /**
   * Loopback sanity: when every response spectrum is the stimulus spectrum
   * and no block is silent in bin `k`, the estimate is exactly one there.
   */
  lemma LoopbackIsUnity(xs: seq<seq<Complex>>, n: nat, k: nat)
    requires Shaped(xs) && 0 < n <= |xs|
    requires k < BlockLen
    requires forall i :: 0 <= i < n ==> SquaredMagnitude(xs[i][k]) != 0.0
    ensures EstimateOf(xs, xs, n)[k] == Finite(1.0, 0.0)
  {
    AccumIdentical(xs, n, k);
    ReciprocalCancels(n);
  }

  /** Recording a signal through a perfect loopback: the same signal comes back. */
  lemma LoopbackRecording(sig: seq<real>, window: seq<real>, setup: FftSetup, k: nat)
    requires |window| == BlockLen
    requires |sig| >= BlockLen
    requires k < BlockLen
    requires forall i :: 0 <= i < Steps(|sig|) ==> SquaredMagnitude(Spectra(sig, window, setup, Steps(|sig|))[i][k]) != 0.0
    ensures Estimate(sig, sig, window, setup)[k] == Finite(1.0, 0.0)
  {
    var n := Steps(|sig|);
    StepsFit(|sig|);
    LoopbackIsUnity(Spectra(sig, window, setup, n), n, k);
  }

  /** vDSP_zvdiv of the two scratch spectra into `h`. */
  method DivideSpectra(y: array<Complex>, x: array<Complex>, h: array<Bin>)
    requires y.Length == x.Length == h.Length
    modifies h
    ensures h[..] == Ratios(y[..], x[..])
  {
    forall k | 0 <= k < h.Length {
      h[k] := Div(y[k], x[k]);
    }
  }

  /** vDSP_zvadd of `h` into the accumulator. */
  method AccumulateInto(acc: array<Bin>, h: array<Bin>)
    requires acc.Length == h.Length && acc != h
    modifies acc
    ensures acc[..] == AddBins(h[..], old(acc[..]))
  {
    forall k | 0 <= k < acc.Length {
      acc[k] := AddBin(h[k], acc[k]);
    }
  }

  /** vDSP_vsmul of the accumulator by `scale`. */
  method ScaleInPlace(acc: array<Bin>, scale: real)
    modifies acc
    ensures acc[..] == ScaleBins(old(acc[..]), scale)
  {
    forall k | 0 <= k < acc.Length {
      acc[k] := ScaleBin(acc[k], scale);
    }
  }

  /** memcpy of block `i` into the scratch buffer, vDSP_vmul by the window, then doFFT into `out`. */
  method TransformBlock(signal: seq<real>, window: seq<real>, setup: FftSetup, i: nat, out: array<Complex>)
    requires |window| == BlockLen
    requires Start(i) + BlockLen <= |signal|
    requires out.Length == BlockLen
    modifies out
    ensures out[..] == BlockSpectrum(signal, window, setup, i)
  {
    var block := WindowedBlock(signal, window, i);
    CalibrationFftLength();
    assert block[..BlockLen] == block;
    DoFft(block, out, BlockLen, setup);
  }

  /** One pass of the block loop: both spectra, their ratio, added into `hAccum`. */
  method AccumulateBlock(stimulus: seq<real>, response: seq<real>, window: seq<real>, setup: FftSetup, i: nat,
                         ghost xi: seq<Complex>, ghost yi: seq<Complex>,
                         x: array<Complex>, y: array<Complex>, hBlock: array<Bin>, hAccum: array<Bin>)
    requires |window| == BlockLen
    requires Start(i) + BlockLen <= |stimulus| && Start(i) + BlockLen <= |response|
    requires xi == BlockSpectrum(stimulus, window, setup, i) && yi == BlockSpectrum(response, window, setup, i)
    requires x.Length == y.Length == hBlock.Length == hAccum.Length == BlockLen
    requires x != y && hBlock != hAccum
    modifies x, y, hBlock, hAccum
    ensures hAccum[..] == AddBins(Ratios(yi, xi), old(hAccum[..]))
  {
    TransformBlock(stimulus, window, setup, i, x);
    TransformBlock(response, window, setup, i, y);
    ghost var xSpectrum, ySpectrum := x[..], y[..];
    DivideSpectra(y, x, hBlock);
    assert hBlock[..] == Ratios(ySpectrum, xSpectrum);
    AccumulateInto(hAccum, hBlock);
  }

  /**
   * estimateTransferFunction, with the length guard it needs: no estimate
   * when a recording is shorter than one block or there is no FFT setup;
   * otherwise a new array holding `Estimate`.
   */
  method EstimateTransferFunction(stim: array<real>, resp: array<real>, window: seq<real>, setup: Option<FftSetup>)
    returns (h: Option<array<Bin>>)
    requires |window| == BlockLen
    ensures h.None? <==> setup.None? || Total(stim[..], resp[..]) < BlockLen
    ensures h.Some? ==> fresh(h.value)
    ensures h.Some? ==> h.value[..] == Estimate(stim[..], resp[..], window, setup.value)
  {
    var totalSamples := if stim.Length < resp.Length then stim.Length else resp.Length;
    if totalSamples < BlockLen || setup.None? {
      return None;
    }
    var hAccum := EstimateOver(stim[..], resp[..], window, setup.value);
    return Some(hAccum);
  }

  /** The body of estimateTransferFunction once both guards have passed. */
  method EstimateOver(stimulus: seq<real>, response: seq<real>, window: seq<real>, setup: FftSetup)
    returns (hAccum: array<Bin>)
    requires |window| == BlockLen
    requires Total(stimulus, response) >= BlockLen
    ensures fresh(hAccum)
    ensures hAccum[..] == Estimate(stimulus, response, window, setup)
  {
    var totalSamples := if |stimulus| < |response| then |stimulus| else |response|;
    var numSteps := NumSteps(totalSamples, BlockLen, Hop);
    StepsFit(totalSamples);
    ghost var xs := Spectra(stimulus, window, setup, numSteps);
    ghost var ys := Spectra(response, window, setup, numSteps);
    hAccum := AccumulateAll(stimulus, response, window, setup, numSteps, xs, ys);
    ScaleInPlace(hAccum, 1.0 / numSteps as real);
  }

  /** The accumulator, allocated and zeroed (vDSP_vclr). */
  method NewAccumulator() returns (acc: array<Bin>)
    ensures fresh(acc)
    ensures acc[..] == ZeroBins()
  {
    acc := new Bin[BlockLen];
    forall k | 0 <= k < BlockLen {
      acc[k] := Finite(0.0, 0.0);
    }
  }

  /**
   * The block loop of estimateTransferFunction: the scratch spectra and a
   * zeroed accumulator, then every block's ratio added in. `xs` and `ys`
   * name the block spectra of the two recordings.
   */
  method AccumulateAll(stimulus: seq<real>, response: seq<real>, window: seq<real>, setup: FftSetup, numSteps: nat,
                       ghost xs: seq<seq<Complex>>, ghost ys: seq<seq<Complex>>)
    returns (hAccum: array<Bin>)
    requires |window| == BlockLen
    requires Shaped(xs) && Shaped(ys) && |xs| == |ys| == numSteps
    requires forall i :: 0 <= i < numSteps ==> Start(i) + BlockLen <= |stimulus| && xs[i] == BlockSpectrum(stimulus, window, setup, i)
    requires forall i :: 0 <= i < numSteps ==> Start(i) + BlockLen <= |response| && ys[i] == BlockSpectrum(response, window, setup, i)
    ensures fresh(hAccum)
    ensures hAccum[..] == Accum(xs, ys, numSteps)
  {
    var x := new Complex[BlockLen];
    var y := new Complex[BlockLen];
    var hBlock := new Bin[BlockLen];
    hAccum := NewAccumulator();
    for i := 0 to numSteps
      invariant fresh(hAccum)
      invariant hAccum[..] == Accum(xs, ys, i)
    {
      AccumulateBlock(stimulus, response, window, setup, i, xs[i], ys[i], x, y, hBlock, hAccum);
    }
  }
}
