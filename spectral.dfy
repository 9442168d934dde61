/**
 * The spectral transform utility of dsputils.swift: FFT sizing, the zero-padded
 * and rescaled forward transform (doFFT), per-bin complex arithmetic and the
 * normalise/copy tail of getImpulseResponse.
 *
 * The Accelerate primitives are not modelled: an FFT setup is a pair of
 * length-preserving transforms supplied by the caller, and the Hann window is
 * a sequence supplied by the caller. A DSPSplitComplex (separate real and
 * imaginary arrays) is modelled as one array of complex values.
 */
module Spectral {
  import opened Wrappers
  import opened AudioBuffers

  datatype Complex = Complex(re: real, im: real)

  /** One bin of a complex division: a finite value, or the NaN/inf that a zero denominator yields. */
  datatype Bin = Finite(re: real, im: real) | NonFinite

  /**
   * A forward or inverse FFT of one setup. vDSP writes exactly as many bins as
   * it reads; `Bins` below takes that many from whatever the transform yields.
   */
  type Transform = seq<Complex> -> seq<Complex>

  /** What vDSP_create_fftsetup provides: the forward and the inverse transform. */
  datatype FftSetup = FftSetup(forward: Transform, inverse: Transform)

  function Pow2(k: nat): (p: nat)
    ensures p >= 1
  {
    if k == 0 then 1 else 2 * Pow2(k - 1)
  }

  /** `ceil(log2(n))`: the exponent of the smallest power of two that is at least `n`. */
  function CeilLog2(n: nat): (k: nat)
    requires n >= 1
    ensures n <= Pow2(k)
    ensures k > 0 ==> Pow2(k - 1) < n
    decreases n
  {
    if n == 1 then 0 else 1 + CeilLog2((n + 1) / 2)
  }

  datatype FftSize = FftSize(nbins: nat, log2n: nat)

  /**
   * getFFTLength: `nbins = 2^ceil(log2(frameCount))`, the smallest power of
   * two not below `frameCount`.
   */
  function GetFftLength(frameCount: nat): (r: FftSize)
    requires frameCount >= 1
    ensures r.nbins == Pow2(r.log2n)
    ensures frameCount <= r.nbins < 2 * frameCount
  {
    var log2n := CeilLog2(frameCount);
    FftSize(Pow2(log2n), log2n)
  }

  /** Calibration blocks of 512 frames need no padding: 512 bins. */
  lemma CalibrationFftLength()
    ensures GetFftLength(512).nbins == 512
  {
    CeilLog2Exact(512, 9);
  }

  /** Cancellation blocks of 10001 frames are padded to 16384 bins. */
  lemma EchoFftLength()
    ensures GetFftLength(10001).nbins == 16384
  {
    CeilLog2Exact(10001, 14);
  }

  /** `k` is `ceil(log2(n))` as soon as `2^(k-1) < n <= 2^k`. */
  lemma CeilLog2Exact(n: nat, k: nat)
    requires n >= 1
    requires n <= Pow2(k) && (k == 0 || Pow2(k - 1) < n)
    ensures CeilLog2(n) == k
  {
    var c := CeilLog2(n);
    if c < k {
      Pow2Monotone(c, k - 1);
    } else if c > k {
      Pow2Monotone(k, c - 1);
    }
  }

  lemma {:induction false} Pow2Monotone(a: nat, b: nat)
    requires a <= b
    ensures Pow2(a) <= Pow2(b)
    decreases b
  {
    if a < b {
      Pow2Monotone(a, b - 1);
    }
  }

  function Mul(a: Complex, b: Complex): Complex
  {
    Complex(a.re * b.re - a.im * b.im, a.re * b.im + a.im * b.re)
  }

  function ScaleComplex(a: Complex, k: real): Complex
  {
    Complex(a.re * k, a.im * k)
  }

  /** `|x|^2`, the denominator vDSP_zvdiv divides by. */
  function SquaredMagnitude(x: Complex): real
  {
    x.re * x.re + x.im * x.im
  }

  /**
   * One bin of vDSP_zvdiv: `y / x`, computed as `y * conj(x) / |x|^2`. A zero
   * denominator gives a non-finite bin (in particular a zero `x` does), and a
   * finite quotient `h` is the one with `h * x == y`.
   */
  function Div(y: Complex, x: Complex): (h: Bin)
    ensures h.Finite? <==> SquaredMagnitude(x) != 0.0
    ensures x == Complex(0.0, 0.0) ==> h.NonFinite?
    ensures h.Finite? ==> Mul(Complex(h.re, h.im), x) == y
  {
    var d := SquaredMagnitude(x);
    if d == 0.0 then NonFinite
    else
      var h := Complex((y.re * x.re + y.im * x.im) / d, (y.im * x.re - y.re * x.im) / d);
      DivIsInverse(y, x, h, d);
      Finite(h.re, h.im)
  }

  lemma DivIsInverse(y: Complex, x: Complex, h: Complex, d: real)
    requires d == SquaredMagnitude(x) && d != 0.0
    requires h == Complex((y.re * x.re + y.im * x.im) / d, (y.im * x.re - y.re * x.im) / d)
    ensures Mul(h, x) == y
  {
    var a, b := y.re * x.re + y.im * x.im, y.im * x.re - y.re * x.im;
    assert a * x.re - b * x.im == y.re * d;
    assert a * x.im + b * x.re == y.im * d;
    assert h.re * d == a && h.im * d == b;
    assert Mul(h, x).re * d == y.re * d;
    assert Mul(h, x).im * d == y.im * d;
  }

  /** One bin of vDSP_zvadd: a non-finite operand makes the sum non-finite. */
  function AddBin(a: Bin, b: Bin): (s: Bin)
    ensures s.Finite? <==> a.Finite? && b.Finite?
  {
    if a.Finite? && b.Finite? then Finite(a.re + b.re, a.im + b.im) else NonFinite
  }

  /** One bin of vDSP_vsmul applied to both halves of a split complex vector. */
  function ScaleBin(a: Bin, k: real): (s: Bin)
    ensures s.Finite? <==> a.Finite?
  {
    if a.Finite? then Finite(a.re * k, a.im * k) else NonFinite
  }

  /** A block multiplied sample by sample by the window (vDSP_vmul). */
  function Windowed(block: seq<real>, window: seq<real>): (w: seq<real>)
    requires |block| == |window|
    ensures |w| == |block|
    ensures forall k {:trigger w[k]} :: 0 <= k < |w| ==> w[k] == block[k] * window[k]
  {
    seq(|block|, k requires 0 <= k < |block| => block[k] * window[k])
  }

  /** The real samples as the real parts of `nbins` complex bins, zero beyond them. */
  function ZeroPadded(x: seq<real>, nbins: nat): (c: seq<Complex>)
    requires |x| <= nbins
    ensures |c| == nbins
    ensures forall k {:trigger c[k]} :: 0 <= k < nbins ==> c[k] == Complex(FrameAt(x, k), 0.0)
  {
    seq(nbins, k requires 0 <= k < nbins => Complex(FrameAt(x, k), 0.0))
  }

  /**
   * What doFFT leaves in its output: the forward transform of the block
   * zero-padded to `nbins`, every coefficient scaled by `1/nbins`. doFFT takes
   * `nbins` from getFFTLength (see `DoFft`).
   */
  function ScaledForward(setup: FftSetup, x: seq<real>, nbins: nat): (spectrum: seq<Complex>)
    requires 1 <= |x| <= nbins
    ensures |spectrum| == nbins
  {
    ScaleSpectrum(Bins(setup.forward(ZeroPadded(x, nbins)), nbins), 1.0 / nbins as real)
  }

  /** The first `n` coefficients of a transform's output, as vDSP stores them. */
  function Bins(c: seq<Complex>, n: nat): (r: seq<Complex>)
    ensures |r| == n
    ensures forall k {:trigger r[k]} :: 0 <= k < n && k < |c| ==> r[k] == c[k]
  {
    seq(n, k requires 0 <= k < n => if k < |c| then c[k] else Complex(0.0, 0.0))
  }

  /** Every coefficient multiplied by `k` (vDSP_vsmul on both halves). */
  function ScaleSpectrum(c: seq<Complex>, k: real): (r: seq<Complex>)
    ensures |r| == |c|
    ensures forall b {:trigger r[b]} :: 0 <= b < |c| ==> r[b] == ScaleComplex(c[b], k)
  {
    seq(|c|, b requires 0 <= b < |c| => ScaleComplex(c[b], k))
  }

  /**
   * doFFT: writes the scaled spectrum of the first `frameCount` input samples
   * into the first `nbins` entries of `outp`. The caller's output buffer must
   * hold `nbins` entries, not just `frameCount`.
   */
  method DoFft(inp: seq<real>, outp: array<Complex>, frameCount: nat, setup: FftSetup)
    requires 1 <= frameCount <= |inp|
    requires GetFftLength(frameCount).nbins <= outp.Length
    modifies outp
    ensures outp[..] == Overwrite(old(outp[..]), 0, ScaledForward(setup, inp[..frameCount], GetFftLength(frameCount).nbins))
  {
    ghost var before := outp[..];
    var spectrum := ScaledForward(setup, inp[..frameCount], GetFftLength(frameCount).nbins);
    CopyFrames(outp, 0, spectrum);
    assert outp[..] == Overwrite(before, 0, spectrum);
  }

  /** The largest sample (vDSP_maxv): signed, not the largest magnitude. */
  function SignedMax(s: seq<real>): (m: real)
    requires |s| > 0
    ensures forall i :: 0 <= i < |s| ==> s[i] <= m
    ensures exists i :: 0 <= i < |s| && s[i] == m
  {
    if |s| == 1 then s[0]
    else
      var rest := SignedMax(s[1..]);
      assert forall i :: 1 <= i < |s| ==> s[i] == s[1..][i - 1];
      if s[0] >= rest then s[0] else rest
  }

  /** The smallest sample (vDSP_minv). */
  function SignedMin(s: seq<real>): (m: real)
    requires |s| > 0
    ensures forall i :: 0 <= i < |s| ==> m <= s[i]
    ensures exists i :: 0 <= i < |s| && s[i] == m
  {
    if |s| == 1 then s[0]
    else
      var rest := SignedMin(s[1..]);
      assert forall i :: 1 <= i < |s| ==> s[i] == s[1..][i - 1];
      if s[0] <= rest then s[0] else rest
  }

  function Abs(x: real): real
  {
    if x < 0.0 then -x else x
  }

  /**
   * The impulse-response normaliser `max(|maxv|, |minv|)`; it is the largest
   * magnitude of any sample. An empty window has nothing to normalise.
   */
  function PeakMagnitude(s: seq<real>): (p: real)
    ensures p >= 0.0
    ensures forall i :: 0 <= i < |s| ==> Abs(s[i]) <= p
    ensures |s| == 0 ==> p == 0.0
    ensures |s| > 0 ==> exists i :: 0 <= i < |s| && Abs(s[i]) == p
  {
    if |s| == 0 then 0.0
    else
      var hi, lo := SignedMax(s), SignedMin(s);
      if Abs(hi) >= Abs(lo) then Abs(hi) else Abs(lo)
  }

  /** `s` divided by its peak magnitude when that is non-zero (vDSP_vsdiv). */
  function NormalizedImpulse(s: seq<real>): (r: seq<real>)
    ensures |r| == |s|
  {
    var norm := PeakMagnitude(s);
    if norm != 0.0 then seq(|s|, i requires 0 <= i < |s| => s[i] / norm) else s
  }

  /**
   * After normalisation no sample exceeds magnitude 1, and unless the window
   * is silent some sample has magnitude exactly 1.
   */
  lemma NormalizedImpulseBounded(s: seq<real>)
    ensures forall i :: 0 <= i < |s| ==> Abs(NormalizedImpulse(s)[i]) <= 1.0 || PeakMagnitude(s) == 0.0
    ensures PeakMagnitude(s) != 0.0 ==> exists i :: 0 <= i < |s| && Abs(NormalizedImpulse(s)[i]) == 1.0
    ensures PeakMagnitude(s) == 0.0 ==> NormalizedImpulse(s) == s
  {
    var norm := PeakMagnitude(s);
    if norm != 0.0 {
      var r := NormalizedImpulse(s);
      forall i | 0 <= i < |s|
        ensures Abs(r[i]) <= 1.0
      {
        DivBounded(s[i], norm);
      }
      var j :| 0 <= j < |s| && Abs(s[j]) == norm;
      DivBounded(s[j], norm);
    }
  }

  lemma DivBounded(x: real, norm: real)
    requires norm > 0.0 && Abs(x) <= norm
    ensures Abs(x / norm) <= 1.0
    ensures Abs(x) == norm ==> Abs(x / norm) == 1.0
  {
    var q := x / norm;
    assert q * norm == x;
    if q > 1.0 {
      assert q * norm > norm;
    } else if q < -1.0 {
      assert q * norm < -norm;
    }
    if Abs(x) == norm {
      if x >= 0.0 {
        assert (q - 1.0) * norm == 0.0;
      } else {
        assert (q + 1.0) * norm == 0.0;
      }
    }
  }

  /** The real parts of the first `n` bins. */
  function RealParts(c: seq<Complex>, n: nat): (r: seq<real>)
    requires n <= |c|
    ensures |r| == n
    ensures forall k {:trigger r[k]} :: 0 <= k < n ==> r[k] == c[k].re
  {
    seq(n, k requires 0 <= k < n => c[k].re)
  }

  /** The impulse response window that getImpulseResponse writes to its output. */
  function ImpulseResponse(tf: seq<Complex>, samplesOut: nat, setup: FftSetup): (r: seq<real>)
    requires |tf| >= 1 && samplesOut <= |tf|
    ensures |r| == samplesOut
  {
    var ifft := Bins(setup.inverse(tf), |tf|);
    NormalizedImpulse(RealParts(ifft, samplesOut))
  }

  /**
   * getImpulseResponse: zeroes the real part of the DC bin of the transfer
   * function in place (the imaginary part is left as it is), inverse-transforms
   * `nbins` bins, normalises the first `min(nSampOut, nBinsIn)` real samples by
   * their peak magnitude and copies them to `outp`. Without an FFT setup only
   * the DC bin has been changed.
   */
  method GetImpulseResponse(inp: array<Complex>, outp: array<real>, nBinsIn: nat, nSampOut: nat, setup: Option<FftSetup>)
    requires nBinsIn >= 1
    requires GetFftLength(nBinsIn).nbins <= inp.Length
    requires (if nSampOut < nBinsIn then nSampOut else nBinsIn) <= outp.Length
    modifies inp, outp
    ensures inp[..] == old(inp[..])[0 := Complex(0.0, old(inp[0]).im)]
    ensures setup.None? ==> outp[..] == old(outp[..])
    ensures setup.Some? ==>
      var nbins := GetFftLength(nBinsIn).nbins;
      var samplesOut := if nSampOut < nBinsIn then nSampOut else nBinsIn;
      outp[..] == Overwrite(old(outp[..]), 0, ImpulseResponse(inp[..nbins], samplesOut, setup.value))
  {
    ghost var before := outp[..];
    inp[0] := Complex(0.0, inp[0].im);
    var nfft := GetFftLength(nBinsIn);
    var samplesOut := if nSampOut < nBinsIn then nSampOut else nBinsIn;
    if setup.None? {
      return;
    }
    var out := ImpulseResponse(inp[..nfft.nbins], samplesOut, setup.value);
    CopyFrames(outp, 0, out);
    assert outp[..] == Overwrite(before, 0, out);
  }
}
