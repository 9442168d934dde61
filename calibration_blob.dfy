/**
 * The byte format in which a calibration transfer function is stored:
 * serializeDSPSplitComplex writes the `count` real parts and then the `count`
 * imaginary parts, each a 32-bit float in the machine's little-endian byte
 * order; deserializeDSPSplitComplex checks the size and copies them back.
 *
 * A float is modelled by its 32-bit pattern (`bv32`), which is all the
 * serialisation ever touches.
 */
module CalibrationBlob {
  import opened Wrappers

  /** The four bytes of one float, least significant first. */
  function FloatBytes(f: bv32): (b: seq<bv8>)
    ensures |b| == 4
  {
    [(f & 0xFF) as bv8, ((f >> 8) & 0xFF) as bv8, ((f >> 16) & 0xFF) as bv8, ((f >> 24) & 0xFF) as bv8]
  }

  /** The float whose little-endian bytes are `b`: writing it back gives `b`. */
  function FloatOf(b: seq<bv8>): (f: bv32)
    requires |b| == 4
    ensures FloatBytes(f) == b
  {
    (b[0] as bv32) | ((b[1] as bv32) << 8) | ((b[2] as bv32) << 16) | ((b[3] as bv32) << 24)
  }

  lemma FloatRoundTrip(f: bv32)
    ensures FloatOf(FloatBytes(f)) == f
  {
  }

  /** The bytes of a run of floats, one after the other. */
  function FloatsBytes(fs: seq<bv32>): (b: seq<bv8>)
    ensures |b| == 4 * |fs|
  {
    if |fs| == 0 then [] else FloatBytes(fs[0]) + FloatsBytes(fs[1..])
  }

  /** The floats whose bytes are `b`, four bytes each. */
  function BytesFloats(b: seq<bv8>): (fs: seq<bv32>)
    requires |b| % 4 == 0
    ensures |fs| == |b| / 4
  {
    if |b| == 0 then [] else [FloatOf(b[..4])] + BytesFloats(b[4..])
  }

  lemma {:induction false} FloatsRoundTrip(fs: seq<bv32>)
    ensures BytesFloats(FloatsBytes(fs)) == fs
  {
    if |fs| > 0 {
      var b := FloatsBytes(fs);
      assert b[..4] == FloatBytes(fs[0]);
      assert b[4..] == FloatsBytes(fs[1..]);
      FloatRoundTrip(fs[0]);
      FloatsRoundTrip(fs[1..]);
    }
  }

  lemma {:induction false} BytesRoundTrip(b: seq<bv8>)
    requires |b| % 4 == 0
    ensures FloatsBytes(BytesFloats(b)) == b
  {
    if |b| > 0 {
      var fs := BytesFloats(b);
      assert fs[0] == FloatOf(b[..4]);
      assert fs[1..] == BytesFloats(b[4..]);
      BytesRoundTrip(b[4..]);
      assert b == b[..4] + b[4..];
    }
  }

  /** The blob: all real parts, then all imaginary parts. */
  function Blob(re: seq<bv32>, im: seq<bv32>): (data: seq<bv8>)
    requires |re| == |im|
    ensures |data| == 8 * |re|
  {
    FloatsBytes(re) + FloatsBytes(im)
  }

  /**
   * Reading a blob back: no result unless it holds exactly `count` real and
   * `count` imaginary floats (a negative count never matches).
   */
  function Unblob(data: seq<bv8>, count: int): (r: Option<(seq<bv32>, seq<bv32>)>)
    ensures r.None? <==> |data| != 8 * count
    ensures r.Some? ==> |r.value.0| == count && |r.value.1| == count
  {
    if |data| != 8 * count then None
    else Some((BytesFloats(data[..4 * count]), BytesFloats(data[4 * count..])))
  }

  /** Serialising `count` bins and reading them back with the same count gives them back. */
  lemma BlobRoundTrip(re: seq<bv32>, im: seq<bv32>)
    requires |re| == |im|
    ensures Unblob(Blob(re, im), |re|) == Some((re, im))
  {
    var data := Blob(re, im);
    assert data[..4 * |re|] == FloatsBytes(re);
    assert data[4 * |re|..] == FloatsBytes(im);
    FloatsRoundTrip(re);
    FloatsRoundTrip(im);
  }

  /** Every blob that passes the size check is the serialisation of what it decodes to. */
  lemma UnblobRoundTrip(data: seq<bv8>, count: int)
    requires Unblob(data, count).Some?
    ensures var (re, im) := Unblob(data, count).value; Blob(re, im) == data
  {
    var n := 4 * count;
    BytesRoundTrip(data[..n]);
    BytesRoundTrip(data[n..]);
    assert data == data[..n] + data[n..];
  }

  /** A split complex vector: separate real and imaginary arrays (DSPSplitComplex). */
  datatype SplitComplex = SplitComplex(realp: array<bv32>, imagp: array<bv32>)

  /** serializeDSPSplitComplex: the first `count` real parts, then the first `count` imaginary parts. */
  method SerializeDSPSplitComplex(c: SplitComplex, count: nat) returns (data: seq<bv8>)
    requires count <= c.realp.Length && count <= c.imagp.Length
    ensures data == Blob(c.realp[..count], c.imagp[..count])
    ensures Unblob(data, count) == Some((c.realp[..count], c.imagp[..count]))
  {
    var re, im := c.realp[..count], c.imagp[..count];
    data := [];
    data := data + FloatsBytes(re);
    assert data == FloatsBytes(re);
    data := data + FloatsBytes(im);
    BlobRoundTrip(re, im);
  }

  /**
   * deserializeDSPSplitComplex: nothing when the size is not `8 * count`
   * bytes, otherwise two new arrays holding the decoded floats.
   */
  method DeserializeDSPSplitComplex(data: seq<bv8>, count: int) returns (r: Option<SplitComplex>)
    ensures r.None? <==> |data| != 8 * count
    ensures r.Some? ==> fresh(r.value.realp) && fresh(r.value.imagp)
    ensures r.Some? ==> Unblob(data, count) == Some((r.value.realp[..], r.value.imagp[..]))
    ensures r.Some? ==> Blob(r.value.realp[..], r.value.imagp[..]) == data
  {
    if |data| != 8 * count {
      return None;
    }
    var realpSize := 4 * count;
    var re := BytesFloats(data[..realpSize]);
    var im := BytesFloats(data[realpSize..]);
    var realp := new bv32[count];
    var imagp := new bv32[count];
    forall i | 0 <= i < count {
      realp[i] := re[i];
    }
    forall i | 0 <= i < count {
      imagp[i] := im[i];
    }
    assert realp[..] == re && imagp[..] == im;
    UnblobRoundTrip(data, count);
    r := Some(SplitComplex(realp, imagp));
  }
}
