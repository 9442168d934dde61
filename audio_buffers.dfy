/**
 * Single-channel sample buffers and the slice / pad helpers of dsputils.swift.
 *
 * An AVAudioPCMBuffer is modelled as an `array<real>` whose length is its
 * frame length (the helpers always create buffers whose capacity equals the
 * frame length they set). Sample values are reals.
 */
module AudioBuffers {
  import opened Wrappers

  /** `n` silent frames. */
  function Zeros(n: nat): (z: seq<real>)
    ensures |z| == n
    ensures forall i :: 0 <= i < n ==> z[i] == 0.0
  {
    seq(n, _ => 0.0)
  }

  /** The frame at index `j` of `s`, reading silence outside `s`. */
  function FrameAt(s: seq<real>, j: int): real
  {
    if 0 <= j < |s| then s[j] else 0.0
  }

  /** `s` with the frames from `at` on replaced by `block`. */
  function Overwrite<T>(s: seq<T>, at: nat, block: seq<T>): (r: seq<T>)
    requires at + |block| <= |s|
    ensures |r| == |s|
    ensures forall i {:trigger r[i]} :: 0 <= i < |s| ==> r[i] == if at <= i < at + |block| then block[i - at] else s[i]
    decreases |block|
  {
    if |block| == 0 then s else Overwrite(s[at := block[0]], at + 1, block[1..])
  }

  /** memcpy of `src` into `dst` starting at frame `at`; nothing else in `dst` changes. */
  method CopyFrames<T>(dst: array<T>, at: nat, src: seq<T>)
    requires at + |src| <= dst.Length
    modifies dst
    ensures dst[..] == Overwrite(old(dst[..]), at, src)
  {
    forall i | 0 <= i < |src| {
      dst[at + i] := src[i];
    }
  }

  /**
   * removeFirstNFrames: nil when `n` is not smaller than the frame length,
   * otherwise a new buffer holding the frames from `n` on.
   */
  method RemoveFirstNFrames(buffer: array<real>, n: nat) returns (r: Option<array<real>>)
    ensures r.None? <==> n >= buffer.Length
    ensures r.Some? ==> fresh(r.value) && r.value[..] == buffer[n..]
  {
    if n >= buffer.Length {
      return None;
    }
    var remaining := buffer.Length - n;
    var newBuffer := new real[remaining];
    CopyFrames(newBuffer, 0, buffer[n..]);
    return Some(newBuffer);
  }

  /**
   * prependZerosToBuffer: the buffer itself when `zeroFrames` is 0, otherwise
   * a new buffer of `zeroFrames` silent frames followed by the original ones.
   * The source never writes the leading frames and relies on a new buffer
   * reading as silence; here the silence is written explicitly.
   */
  method PrependZerosToBuffer(buffer: array<real>, zeroFrames: nat) returns (r: array<real>)
    ensures zeroFrames == 0 ==> r == buffer
    ensures zeroFrames != 0 ==> fresh(r)
    ensures r[..] == Zeros(zeroFrames) + buffer[..]
  {
    if zeroFrames == 0 {
      return buffer;
    }
    var total := buffer.Length + zeroFrames;
    r := new real[total](_ => 0.0);
    CopyFrames(r, zeroFrames, buffer[..]);
    assert r[..] == Zeros(zeroFrames) + buffer[..];
  }

  /**
   * appendZerosToBuffer: the buffer itself when `zeroFrames` is 0, otherwise
   * a new buffer of the original frames followed by `zeroFrames` silent ones
   * (again written explicitly where the source relies on a zeroed buffer).
   */
  method AppendZerosToBuffer(buffer: array<real>, zeroFrames: nat) returns (r: array<real>)
    ensures zeroFrames == 0 ==> r == buffer
    ensures zeroFrames != 0 ==> fresh(r)
    ensures r[..] == buffer[..] + Zeros(zeroFrames)
  {
    if zeroFrames == 0 {
      assert buffer[..] + Zeros(0) == buffer[..];
      return buffer;
    }
    var total := buffer.Length + zeroFrames;
    r := new real[total](_ => 0.0);
    CopyFrames(r, 0, buffer[..]);
    assert r[..] == buffer[..] + Zeros(zeroFrames);
  }
}
