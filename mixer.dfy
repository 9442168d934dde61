/**
 * addAudioBuffers (dsputils.swift): mixing a recorded dub into the base track.
 *
 * The dub is placed on the base's timeline at the recording position minus a
 * fixed latency correction of 50 ms: zeros are prepended when that offset is
 * positive, frames are cut from the dub's start when it is negative. Both
 * tracks are then padded with zeros to the same length, added frame by frame,
 * and, when the largest sample exceeds 1.0, scaled down by it.
 *
 * Reading the two audio files is outside the model: their frames are the
 * inputs. The recording position is given in frames (`round(sampleRate *
 * atTime)`), since the time itself is a float.
 */
module Mixer {
  import opened Wrappers
  import opened AudioBuffers
  import opened Spectral

  /** The latency correction in frames, `round(sampleRate * 0.05)`. */
  function Correction(sampleRate: nat): (c: nat)
    ensures 20 * c <= sampleRate + 10 < 20 * c + 20
  {
    (sampleRate + 10) / 20
  }

  /** numPrependToDub: where the dub's first frame lands on the base's timeline. */
  function DubOffset(atFrame: nat, sampleRate: nat): (offset: int)
    ensures offset <= atFrame
    ensures offset < atFrame <==> sampleRate >= 10
  {
    atFrame - Correction(sampleRate)
  }

  function Max(a: int, b: int): int
  {
    if a >= b then a else b
  }

  /** The dub on the base's timeline, `len` frames long: dub frame `k - offset` at frame `k`. */
  function Placed(dub: seq<real>, offset: int, len: nat): (p: seq<real>)
    ensures |p| == len
    ensures forall k :: 0 <= k < len ==> p[k] == FrameAt(dub, k - offset)
  {
    seq(len, k requires 0 <= k < len => FrameAt(dub, k - offset))
  }

  /** Frame-by-frame sum (vDSP_vadd). */
  function Sum(a: seq<real>, b: seq<real>): (s: seq<real>)
    requires |a| == |b|
    ensures |s| == |a|
    ensures forall k :: 0 <= k < |a| ==> s[k] == a[k] + b[k]
  {
    seq(|a|, k requires 0 <= k < |a| => a[k] + b[k])
  }

  /**
   * The clipping guard: when the largest sample (vDSP_maxv, a signed maximum)
   * exceeds 1.0, every sample is multiplied by its reciprocal.
   */
  function Declipped(s: seq<real>): (r: seq<real>)
    ensures |r| == |s|
  {
    if |s| > 0 && SignedMax(s) > 1.0 then Scaled(s, 1.0 / SignedMax(s)) else s
  }

  /** Every sample multiplied by `scale` (vDSP_vsmul). */
  function Scaled(s: seq<real>, scale: real): (r: seq<real>)
    ensures |r| == |s|
    ensures forall k :: 0 <= k < |s| ==> r[k] == s[k] * scale
  {
    seq(|s|, k requires 0 <= k < |s| => s[k] * scale)
  }

  /** The mix before the clipping guard: the padded base plus the placed dub. */
  function Mixed(base: seq<real>, dub: seq<real>, offset: int): (m: seq<real>)
    requires offset + |dub| > 0
    ensures |m| == Max(|base|, offset + |dub|)
  {
    var len := Max(|base|, offset + |dub|);
    Sum(base + Zeros(len - |base|), Placed(dub, offset, len))
  }

  /**
   * What addAudioBuffers returns: nothing when the dub ends before the
   * base's first frame, otherwise the declipped mix.
   */
  function Mixdown(base: seq<real>, dub: seq<real>, atFrame: nat, sampleRate: nat): (r: Option<seq<real>>)
    ensures r.None? <==> DubOffset(atFrame, sampleRate) + |dub| <= 0
  {
    var offset := DubOffset(atFrame, sampleRate);
    if offset + |dub| <= 0 then None else Some(Declipped(Mixed(base, dub, offset)))
  }

  /**
   * Every frame of the mix is the base's frame plus the dub frame that lands
   * there; the mix is as long as the longer of the base and the placed dub.
   */
  lemma MixedFrames(base: seq<real>, dub: seq<real>, offset: int, k: nat)
    requires offset + |dub| > 0
    requires k < Max(|base|, offset + |dub|)
    ensures Mixed(base, dub, offset)[k] == FrameAt(base, k) + FrameAt(dub, k - offset)
  {
  }

  /** Each dub frame `j` is heard at frame `offset + j`, unless the offset cut it off. */
  lemma DubFrameLands(base: seq<real>, dub: seq<real>, offset: int, j: nat)
    requires j < |dub| && offset + j >= 0
    ensures offset + j < |Mixed(base, dub, offset)|
    ensures Mixed(base, dub, offset)[offset + j] == FrameAt(base, offset + j) + dub[j]
  {
    MixedFrames(base, dub, offset, offset + j);
  }

  lemma ScaledAtMostOne(x: real, m: real)
    requires m > 0.0 && x <= m
    ensures x * (1.0 / m) <= 1.0
    ensures x == m ==> x * (1.0 / m) == 1.0
  {
    var q := x * (1.0 / m);
    assert q * m == x;
  }

  /** Sample `k` of `s` scaled by `1 / m`, where `m` bounds every sample. */
  lemma ScaledPeak(s: seq<real>, m: real, k: nat)
    requires k < |s| && m > 0.0 && forall i :: 0 <= i < |s| ==> s[i] <= m
    ensures Scaled(s, 1.0 / m)[k] <= 1.0
    ensures s[k] == m ==> Scaled(s, 1.0 / m)[k] == 1.0
  {
    ScaledAtMostOne(s[k], m);
  }

  /**
   * After the clipping guard the largest sample is at most 1.0: a mix that
   * went above it peaks at exactly 1.0, and one that did not is left as it
   * was.
   */
  lemma DeclippedAtMostOne(s: seq<real>)
    requires |s| > 0
    ensures SignedMax(Declipped(s)) <= 1.0
    ensures SignedMax(s) > 1.0 ==> SignedMax(Declipped(s)) == 1.0
    ensures SignedMax(s) <= 1.0 ==> Declipped(s) == s
  {
    var m := SignedMax(s);
    if m > 1.0 {
      var r := Declipped(s);
      var j :| 0 <= j < |s| && s[j] == m;
      ScaledPeak(s, m, j);
      var i :| 0 <= i < |r| && r[i] == SignedMax(r);
      ScaledPeak(s, m, i);
    }
  }

  /**
   * The guard looks at the signed maximum only: a mix whose loudest sample is
   * negative is not scaled, however far below -1.0 it goes.
   */
  lemma NegativePeakNotRescaled()
    ensures Declipped([-3.0, 0.5]) == [-3.0, 0.5]
  {
    assert SignedMax([-3.0, 0.5]) == 0.5;
  }

  /** readAudioFile, with the file's frames given: a new buffer holding them. */
  method Load(frames: seq<real>) returns (buffer: array<real>)
    ensures fresh(buffer) && buffer[..] == frames
  {
    buffer := new real[|frames|];
    CopyFrames(buffer, 0, frames);
    assert buffer[..] == Overwrite(buffer[..], 0, frames);
  }

  /**
   * The dub placed at `offset`: zeros prepended when it is not negative,
   * its first `-offset` frames removed when it is.
   */
  method ShiftDub(dub: array<real>, offset: int) returns (shifted: array<real>)
    requires offset + dub.Length > 0
    ensures shifted == dub || fresh(shifted)
    ensures shifted[..] == Placed(dub[..], offset, offset + dub.Length)
  {
    ghost var frames := dub[..];
    if offset >= 0 {
      shifted := PrependZerosToBuffer(dub, offset);
      assert shifted[..] == Zeros(offset) + frames;
    } else {
      var removed := RemoveFirstNFrames(dub, -offset);
      shifted := removed.value;
      assert shifted[..] == frames[-offset..];
    }
  }

  /** The shifted dub padded with `extra` zeros is the dub placed on a longer timeline. */
  lemma PaddedPlaced(dub: seq<real>, offset: int, extra: nat)
    requires offset + |dub| > 0
    ensures Placed(dub, offset, offset + |dub|) + Zeros(extra) == Placed(dub, offset, offset + |dub| + extra)
  {
  }

  /** vDSP_vadd of the two aligned tracks into a new output buffer. */
  method AddTracks(driver: array<real>, mic: array<real>) returns (out: array<real>)
    requires driver.Length == mic.Length
    ensures fresh(out)
    ensures out[..] == Sum(driver[..], mic[..])
  {
    out := new real[driver.Length];
    forall k | 0 <= k < out.Length {
      out[k] := driver[k] + mic[k];
    }
  }

  /** vDSP_maxv, then vDSP_vsmul by its reciprocal when it exceeds 1.0. */
  method Declip(out: array<real>)
    modifies out
    ensures out[..] == Declipped(old(out[..]))
  {
    if out.Length == 0 {
      return;
    }
    ghost var before := out[..];
    var maxAmplitude := SignedMax(out[..]);
    if maxAmplitude > 1.0 {
      var scale := 1.0 / maxAmplitude;
      ScaleBy(out, scale);
      assert out[..] == Scaled(before, scale);
    }
  }

  /** vDSP_vsmul in place. */
  method ScaleBy(out: array<real>, scale: real)
    modifies out
    ensures out[..] == Scaled(old(out[..]), scale)
  {
    ghost var before := out[..];
    forall k | 0 <= k < out.Length {
      out[k] := out[k] * scale;
    }
    assert forall k :: 0 <= k < out.Length ==> out[..][k] == Scaled(before, scale)[k];
  }

  /**
   * Both tracks on one timeline: the dub shifted by `offset`, then each track
   * padded with zeros to the longer of the two. When no frames are added or
   * removed the aligned track is the original buffer itself.
   */
  method AlignTracks(base: array<real>, dub: array<real>, offset: int) returns (baseAligned: array<real>, dubAligned: array<real>)
    requires offset + dub.Length > 0
    requires base != dub
    ensures baseAligned == base || fresh(baseAligned)
    ensures dubAligned == dub || fresh(dubAligned)
    ensures baseAligned != dubAligned
    ensures baseAligned[..] == base[..] + Zeros(Max(base.Length, offset + dub.Length) - base.Length)
    ensures dubAligned[..] == Placed(dub[..], offset, Max(base.Length, offset + dub.Length))
  {
    var prependedDubFrameCount := offset + dub.Length;
    var baseLen := base.Length;
    var numAppendToBase := if prependedDubFrameCount > baseLen then prependedDubFrameCount - baseLen else 0;
    var numAppendToDub := if baseLen > prependedDubFrameCount then baseLen - prependedDubFrameCount else 0;
    var dubPrepended := ShiftDub(dub, offset);
    dubAligned := AppendZerosToBuffer(dubPrepended, numAppendToDub);
    PaddedPlaced(dub[..], offset, numAppendToDub);
    baseAligned := AppendZerosToBuffer(base, numAppendToBase);
  }

  /**
   * addAudioBuffers: nothing when the placed dub ends before the base's first
   * frame, otherwise a new buffer holding `Mixdown`.
   */
  method AddAudioBuffers(baseFrames: seq<real>, dubFrames: seq<real>, atFrame: nat, sampleRate: nat)
    returns (r: Option<array<real>>)
    ensures r.None? <==> Mixdown(baseFrames, dubFrames, atFrame, sampleRate).None?
    ensures r.Some? ==> fresh(r.value) && r.value[..] == Mixdown(baseFrames, dubFrames, atFrame, sampleRate).value
  {
    var base := Load(baseFrames);
    var dub := Load(dubFrames);
    var correction := Correction(sampleRate);
    var numPrependToDub := atFrame - correction;
    assert numPrependToDub == DubOffset(atFrame, sampleRate) && base != dub;
    if numPrependToDub + dub.Length <= 0 {
      return None;
    }
    var outputBuffer := MixTracks(base, dub, numPrependToDub);
    assert outputBuffer[..] == Mixed(baseFrames, dubFrames, numPrependToDub);
    Declip(outputBuffer);
    assert outputBuffer[..] == Declipped(Mixed(baseFrames, dubFrames, numPrependToDub));
    return Some(outputBuffer);
  }

  /** The aligned tracks added into a new buffer: `Mixed` before the clipping guard. */
  method MixTracks(base: array<real>, dub: array<real>, offset: int) returns (outputBuffer: array<real>)
    requires offset + dub.Length > 0 && base != dub
    ensures fresh(outputBuffer)
    ensures outputBuffer[..] == Mixed(base[..], dub[..], offset)
  {
    var baseAligned, dubAligned := AlignTracks(base, dub, offset);
    outputBuffer := AddTracks(baseAligned, dubAligned);
  }
}
