/**
 * CircularBuffer: the input-level history behind the level meter.
 *
 * Every buffer of microphone frames is squashed into 16 levels: the frames
 * are cut into 16 bins of `frameLength / 16` frames, the mean square of each
 * bin is taken and turned into decibels. The 16 levels go into consecutive
 * slots of a ring of `buflen` values starting at the read/write pointer,
 * the pointer moves on by 16, and the ring is copied out oldest first. A
 * running noise floor is pulled towards the quietest finite level of a buffer
 * whenever that level is below -40 dB.
 *
 * Floats are modelled as `Float`: a real value or a non-finite one (an
 * infinity or NaN). The conversion `10 * log10(x)` is a parameter of the
 * model, as is the audio buffer's channel data (its frames).
 */
module LevelRing {
  import opened Wrappers
  import opened BlockGeometry

  /** Levels written per buffer (deciLen). */
  const DeciLen: nat := 16
  /** The noise floor a new meter starts from. */
  const InitialNoiseFloor: real := -80.0
  /** The level `clear` fills the ring with. */
  const ClearLevel: real := -80.0
  /** A buffer whose quietest level is below this updates the noise floor. */
  const NoiseGate: real := -40.0

  /** A 32-bit float: a finite value, or an infinity or NaN. */
  datatype Float = Finite(value: real) | NonFinite

  /** vDSP_svesq: the sum of the squares of `s`. */
  function SumOfSquares(s: seq<real>): (r: real)
    ensures r >= 0.0
  {
    if |s| == 0 then 0.0 else SumOfSquares(s[..|s| - 1]) + s[|s| - 1] * s[|s| - 1]
  }

  /** Frames per bin: frameLength / deciLen. */
  function FramesPerBin(n: nat): nat
  {
    n / DeciLen
  }

  /** The 16 bins of `framesPerBin` frames fit in the buffer. */
  lemma BinFits(n: nat, i: nat)
    requires i < DeciLen
    ensures i * FramesPerBin(n) + FramesPerBin(n) <= n
  {
    var w := FramesPerBin(n);
    MulMonotone(i + 1, DeciLen, w);
    assert i * w + w == (i + 1) * w;
  }

  /**
   * The 16 mean squares: the sum of squares of each bin times
   * `pow(framesPerBin, -1)`. A buffer shorter than 16 frames has empty bins,
   * and 0 times infinity is NaN.
   */
  function BinPowers(frames: seq<real>): (p: seq<Float>)
    ensures |p| == DeciLen
    ensures forall i :: 0 <= i < DeciLen ==> (p[i].Finite? <==> FramesPerBin(|frames|) > 0)
    ensures forall i :: 0 <= i < DeciLen && p[i].Finite? ==> p[i].value >= 0.0
  {
    var w := FramesPerBin(|frames|);
    seq(DeciLen, i requires 0 <= i < DeciLen =>
      if w == 0 then NonFinite else Finite(SumOfSquares(Bin(frames, i)) * (1.0 / w as real)))
  }

  /** Bin `i`: the `framesPerBin` frames from `i * framesPerBin` on. */
  function Bin(frames: seq<real>, i: nat): (b: seq<real>)
    requires i < DeciLen
    ensures |b| == FramesPerBin(|frames|)
  {
    var w := FramesPerBin(|frames|);
    BinFits(|frames|, i);
    frames[i * w .. i * w + w]
  }

  /** `10 * log10(power)`: a non-finite power stays non-finite. */
  function Decibels(power: Float, tenLog10: real -> Float): (db: Float)
    ensures power.NonFinite? ==> db.NonFinite?
  {
    if power.Finite? then tenLog10(power.value) else NonFinite
  }

  /** Each power in decibels. */
  function DecibelLevels(powers: seq<Float>, tenLog10: real -> Float): (levels: seq<Float>)
    ensures |levels| == |powers|
    ensures forall i :: 0 <= i < |powers| ==> levels[i] == Decibels(powers[i], tenLog10)
  {
    seq(|powers|, i requires 0 <= i < |powers| => Decibels(powers[i], tenLog10))
  }

  /** The 16 levels of one buffer of frames, in decibels. */
  function Levels(frames: seq<real>, tenLog10: real -> Float): (levels: seq<Float>)
    ensures |levels| == DeciLen
  {
    DecibelLevels(BinPowers(frames), tenLog10)
  }

  /** A buffer shorter than 16 frames yields 16 non-finite levels. */
  lemma ShortBufferHasNoLevels(frames: seq<real>, tenLog10: real -> Float, i: nat)
    requires |frames| < DeciLen && i < DeciLen
    ensures Levels(frames, tenLog10)[i].NonFinite?
  {
    assert BinPowers(frames)[i].NonFinite?;
  }

  /** What goes into the ring for a level: its value, or the noise floor when it is not finite. */
  function StoredValue(level: Float, floor: real): (v: real)
    ensures level.Finite? ==> v == level.value
    ensures level.NonFinite? ==> v == floor
  {
    if level.Finite? then level.value else floor
  }

  function StoredValues(levels: seq<Float>, floor: real): (values: seq<real>)
    ensures |values| == |levels|
    ensures forall i :: 0 <= i < |levels| ==> values[i] == StoredValue(levels[i], floor)
  {
    seq(|levels|, i requires 0 <= i < |levels| => StoredValue(levels[i], floor))
  }

  /**
   * localMin: starts at 0 and takes the smaller of itself and every finite
   * level, so it is at most 0, at most every finite level, and either 0 or
   * one of them.
   */
  function LocalMin(levels: seq<Float>): (m: real)
    ensures m <= 0.0
    ensures forall i :: 0 <= i < |levels| && levels[i].Finite? ==> m <= levels[i].value
    ensures m == 0.0 || exists i :: 0 <= i < |levels| && levels[i].Finite? && m == levels[i].value
  {
    if |levels| == 0 then 0.0
    else
      var n := |levels| - 1;
      var m := LocalMin(levels[..n]);
      assert forall i :: 0 <= i < n ==> levels[..n][i] == levels[i];
      if levels[n].Finite? && levels[n].value < m then levels[n].value else m
  }

  /** The noise floor after a buffer whose quietest finite level is `localMin`. */
  function Smoothed(floor: real, localMin: real): (s: real)
    ensures localMin < NoiseGate ==> s - floor == (localMin - floor) * 0.025
    ensures localMin >= NoiseGate ==> s == floor
  {
    if localMin < NoiseGate then floor * 0.975 + localMin * 0.025 else floor
  }

  /**
   * The smoothing moves the floor 2.5% of the way towards `localMin` when the
   * buffer was quiet enough and leaves it alone otherwise; a floor at or below
   * the gate stays there.
   */
  lemma SmoothingContracts(floor: real, localMin: real)
    ensures localMin < NoiseGate ==> Smoothed(floor, localMin) - localMin == 0.975 * (floor - localMin)
    ensures localMin >= NoiseGate ==> Smoothed(floor, localMin) == floor
    ensures floor <= NoiseGate ==> Smoothed(floor, localMin) <= NoiseGate
  {
  }

  /** The ring slot `i` places after `ptr`, wrapping at the ring's end. */
  function Slot(ptr: nat, i: nat, len: nat): (k: nat)
    requires len > 0
    ensures k < len
  {
    (ptr + i) % len
  }

  /** The ring after writing `values` one after another from slot `ptr`, wrapping at its end. */
  function Stored(ring: seq<real>, ptr: nat, values: seq<real>): (r: seq<real>)
    requires |ring| > 0
    ensures |r| == |ring|
  {
    if |values| == 0 then ring
    else
      var n := |values| - 1;
      Stored(ring, ptr, values[..n])[Slot(ptr, n, |ring|) := values[n]]
  }

  /** The ring read from slot `ptr` round to the slot before it: oldest value first. */
  function Unwrapped(ring: seq<real>, ptr: nat): (u: seq<real>)
    requires |ring| > 0
    ensures |u| == |ring|
  {
    seq(|ring|, i requires 0 <= i < |ring| => ring[Slot(ptr, i, |ring|)])
  }

  /** `%` is determined by any quotient and remainder in range. */
  lemma ModUnique(x: int, len: int, q: int, r: int)
    requires len > 0 && 0 <= r < len && x == q * len + r
    ensures x % len == r
  {
    var q', r' := x / len, x % len;
    assert (q' - q) * len == r - r';
    if q' > q {
      MulAtLeast(q' - q, len);
    } else if q' < q {
      MulAtLeast(q - q', len);
    }
  }

  lemma MulAtLeast(k: int, len: int)
    requires k >= 1 && len > 0
    ensures k * len >= len
  {
  }

  /** Two slots fewer than `len` apart are different slots. */
  lemma ModDistinct(a: nat, d: nat, len: nat)
    requires 0 < d < len
    ensures (a + d) % len != a % len
  {
    var q, r := a / len, a % len;
    if r + d < len {
      ModUnique(a + d, len, q, r + d);
    } else {
      ModUnique(a + d, len, q + 1, r + d - len);
    }
  }

  lemma ModAdd(a: nat, b: nat, len: nat)
    requires len > 0
    ensures (a % len + b) % len == (a + b) % len
  {
    var s := a % len + b;
    ModUnique(a + b, len, a / len + s / len, s % len);
  }

  /** Slots no value was written to keep their old value. */
  lemma {:induction false} StoredOutside(ring: seq<real>, ptr: nat, values: seq<real>, j: nat)
    requires |ring| > 0 && j < |ring|
    requires forall i :: 0 <= i < |values| ==> Slot(ptr, i, |ring|) != j
    ensures Stored(ring, ptr, values)[j] == ring[j]
  {
    if |values| > 0 {
      var n := |values| - 1;
      assert Slot(ptr, n, |ring|) != j;
      StoredOutside(ring, ptr, values[..n], j);
    }
  }

  /**
   * Value `i` is in its slot unless a later value wrapped round onto it: it
   * survives when fewer than `|ring|` values follow it.
   */
  lemma {:induction false} StoredNewest(ring: seq<real>, ptr: nat, values: seq<real>, i: nat)
    requires |ring| > 0 && i < |values| <= i + |ring|
    ensures Stored(ring, ptr, values)[Slot(ptr, i, |ring|)] == values[i]
  {
    var n := |values| - 1;
    if i < n {
      ModDistinct(ptr + i, n - i, |ring|);
      StoredNewest(ring, ptr, values[..n], i);
    }
  }

  /** Unwrapping is a rotation: slot `j` of the ring is read out at position `(j - ptr) mod len`. */
  lemma UnwrappedRotates(ring: seq<real>, ptr: nat, j: nat)
    requires ptr < |ring| && j < |ring|
    ensures Unwrapped(ring, ptr)[Slot(j, |ring| - ptr, |ring|)] == ring[j]
  {
    var len := |ring|;
    if j >= ptr {
      ModUnique(j + len - ptr, len, 1, j - ptr);
      ModUnique(j, len, 0, j);
    } else {
      ModUnique(j + len - ptr, len, 0, j + len - ptr);
      ModUnique(j + len, len, 1, j);
    }
  }

  /**
   * After 16 values are written from `ptr` into a ring of at least 16 slots
   * and the pointer moves on by 16, the unwrapped ring ends with those
   * values, in order.
   */
  lemma NewestLast(ring: seq<real>, ptr: nat, values: seq<real>, i: nat)
    requires |values| == DeciLen <= |ring| && i < DeciLen
    ensures Unwrapped(Stored(ring, ptr, values), Slot(ptr, DeciLen, |ring|))[|ring| - DeciLen + i] == values[i]
  {
    var len := |ring|;
    NewestSlot(ptr, len, i);
    StoredNewest(ring, ptr, values, i);
  }

  /** Position `len - 16 + i` after the pointer moved on by 16 is slot `i` after the old pointer. */
  lemma NewestSlot(ptr: nat, len: nat, i: nat)
    requires DeciLen <= len && i < DeciLen
    ensures Slot(Slot(ptr, DeciLen, len), len - DeciLen + i, len) == Slot(ptr, i, len)
  {
    var a := ptr + DeciLen;
    var b := len - DeciLen + i;
    ModAdd(a, b, len);
    assert Slot(Slot(ptr, DeciLen, len), b, len) == (a + b) % len;
    assert a + b == (ptr + i) + len;
    ModPlusLen(ptr + i, len);
  }

  lemma ModPlusLen(x: nat, len: nat)
    requires len > 0
    ensures (x + len) % len == x % len
  {
    var q := x / len;
    assert x == q * len + x % len;
    assert (q + 1) * len == q * len + len;
    ModUnique(x + len, len, q + 1, x % len);
  }

  function Filled(n: nat, v: real): (s: seq<real>)
    ensures |s| == n && forall i :: 0 <= i < n ==> s[i] == v
  {
    seq(n, _ => v)
  }

  /** `[Float](repeating: v, count: n)`. */
  method NewFilled(n: nat, v: real) returns (a: array<real>)
    ensures fresh(a) && a[..] == Filled(n, v)
  {
    a := new real[n];
    forall i | 0 <= i < n {
      a[i] := v;
    }
  }

  /** vDSP_vfill in place. */
  method Fill(a: array<real>, v: real)
    modifies a
    ensures a[..] == Filled(a.Length, v)
  {
    forall i | 0 <= i < a.Length {
      a[i] := v;
    }
  }

  /** The first two steps of `write`: the sum of squares of each bin, then normalised. */
  method MeanSquares(frames: seq<real>) returns (powers: array<Float>)
    ensures fresh(powers) && powers[..] == BinPowers(frames)
  {
    var framesPerBin := |frames| / DeciLen;
    var sumOfSquares := BinSums(frames);
    powers := new Float[DeciLen];
    forall i | 0 <= i < DeciLen {
      powers[i] := if framesPerBin == 0 then NonFinite else Finite(sumOfSquares[i] * (1.0 / framesPerBin as real));
    }
    assert forall i :: 0 <= i < DeciLen ==> powers[..][i] == BinPowers(frames)[i];
  }

  /** The vDSP_svesq loop: the sum of squares of every bin. */
  method BinSums(frames: seq<real>) returns (sumOfSquares: array<real>)
    ensures fresh(sumOfSquares) && sumOfSquares.Length == DeciLen
    ensures forall k :: 0 <= k < DeciLen ==> sumOfSquares[k] == SumOfSquares(Bin(frames, k))
  {
    var framesPerBin := |frames| / DeciLen;
    sumOfSquares := new real[DeciLen];
    for i := 0 to DeciLen
      invariant forall k :: 0 <= k < i ==> sumOfSquares[k] == SumOfSquares(Bin(frames, k))
    {
      BinSum(frames, framesPerBin, sumOfSquares, i);
    }
  }

  /** One vDSP_svesq call: the sum of squares of bin `i` goes into slot `i`. */
  method BinSum(frames: seq<real>, framesPerBin: nat, sumOfSquares: array<real>, i: nat)
    requires framesPerBin == FramesPerBin(|frames|)
    requires sumOfSquares.Length == DeciLen && i < DeciLen
    modifies sumOfSquares
    ensures sumOfSquares[..] == old(sumOfSquares[..])[i := SumOfSquares(Bin(frames, i))]
  {
    BinFits(|frames|, i);
    sumOfSquares[i] := SumOfSquares(frames[i * framesPerBin .. i * framesPerBin + framesPerBin]);
  }

  /**
   * The level loop of `write` on the ring: each power in decibels goes into
   * the next slot from `ptr` on, or `floor` when it is not finite, while the
   * smallest finite level (and 0) is kept as localMin.
   */
  method StoreInRing(ring: array<real>, ptr: nat, powers: seq<Float>, tenLog10: real -> Float, floor: real)
    returns (localMin: real)
    requires ring.Length > 0
    modifies ring
    ensures ring[..] == Stored(old(ring[..]), ptr, StoredValues(DecibelLevels(powers, tenLog10), floor))
    ensures localMin == LocalMin(DecibelLevels(powers, tenLog10))
  {
    ghost var before := ring[..];
    ghost var levels := DecibelLevels(powers, tenLog10);
    ghost var values := StoredValues(levels, floor);
    localMin := 0.0;
    for i := 0 to |powers|
      invariant ring[..] == Stored(before, ptr, values[..i])
      invariant localMin == LocalMin(levels[..i])
    {
      var db := Decibels(powers[i], tenLog10);
      var stored: real;
      if db.Finite? {
        localMin := if db.value < localMin then db.value else localMin;
        stored := db.value;
      } else {
        stored := floor;
      }
      ring[Slot(ptr, i, ring.Length)] := stored;
      assert values[..i + 1][..i] == values[..i];
      assert levels[..i + 1][..i] == levels[..i];
    }
    assert values[..|powers|] == values && levels[..|powers|] == levels;
  }

  class CircularBuffer {
    /** Whether `setSize` has created the two arrays (they are nil before). */
    var hasBuffers: bool
    var circBuf: array<real>
    var unwrappedBuf: array<real>
    /** Unset (nil) until `setSize`. */
    var ready: Option<bool>
    var buflen: nat
    var rwPointer: nat
    var noiseFloorInDB: real

    /**
     * The two arrays are distinct and `buflen` long, the pointer is a slot
     * of the ring, and the noise floor never rises above the gate.
     */
    predicate Valid()
      reads this
    {
      circBuf != unwrappedBuf &&
      circBuf.Length == buflen && unwrappedBuf.Length == buflen &&
      (buflen == 0 ==> rwPointer == 0) && (buflen > 0 ==> rwPointer < buflen) &&
      (!hasBuffers ==> buflen == 0) &&
      noiseFloorInDB <= NoiseGate
    }

    constructor ()
      ensures Valid() && !hasBuffers && ready.None?
      ensures buflen == 0 && rwPointer == 0 && noiseFloorInDB == InitialNoiseFloor
    {
      hasBuffers := false;
      circBuf := new real[0];
      unwrappedBuf := new real[0];
      ready := None;
      buflen := 0;
      rwPointer := 0;
      noiseFloorInDB := InitialNoiseFloor;
    }

    /**
     * setSize: two new arrays of `width` values, every one the current noise
     * floor, the pointer at slot 0 and not ready. The noise floor is kept.
     */
    method SetSize(width: nat)
      requires Valid()
      modifies this
      ensures Valid() && hasBuffers && ready == Some(false)
      ensures buflen == width && rwPointer == 0 && noiseFloorInDB == old(noiseFloorInDB)
      ensures fresh(circBuf) && fresh(unwrappedBuf)
      ensures circBuf[..] == Filled(width, noiseFloorInDB) && unwrappedBuf[..] == Filled(width, noiseFloorInDB)
    {
      ready := Some(false);
      buflen := width;
      rwPointer := 0;
      circBuf := NewFilled(width, noiseFloorInDB);
      unwrappedBuf := NewFilled(width, noiseFloorInDB);
      hasBuffers := true;
    }

    /**
     * write: the 16 levels of `frames` go into the ring from the pointer on
     * (a non-finite level as the noise floor before this buffer), the noise
     * floor is smoothed towards the quietest finite level, the pointer moves
     * on by 16 and the unwrapped copy is rebuilt. The ring must exist and
     * have at least one slot, or the slot arithmetic divides by zero.
     */
    method Write(frames: seq<real>, tenLog10: real -> Float)
      requires Valid() && buflen > 0
      modifies this, circBuf, unwrappedBuf
      ensures Valid() && ready == Some(true)
      ensures circBuf == old(circBuf) && unwrappedBuf == old(unwrappedBuf)
      ensures buflen == old(buflen) && hasBuffers == old(hasBuffers)
      ensures circBuf[..] == Stored(old(circBuf[..]), old(rwPointer),
                                    StoredValues(Levels(frames, tenLog10), old(noiseFloorInDB)))
      ensures noiseFloorInDB == Smoothed(old(noiseFloorInDB), LocalMin(Levels(frames, tenLog10)))
      ensures rwPointer == Slot(old(rwPointer), DeciLen, buflen)
      ensures unwrappedBuf[..] == Unwrapped(circBuf[..], rwPointer)
    {
      var powers := MeanSquares(frames);
      StoreLevels(powers[..], tenLog10);
      Unwrap();
      ready := Some(true);
    }

    /** The level loop of `write`, the noise floor update and the pointer step. */
    method StoreLevels(powers: seq<Float>, tenLog10: real -> Float)
      requires Valid() && buflen > 0
      modifies this, circBuf
      ensures Valid() && ready == old(ready)
      ensures circBuf == old(circBuf) && unwrappedBuf == old(unwrappedBuf)
      ensures buflen == old(buflen) && hasBuffers == old(hasBuffers)
      ensures var levels := DecibelLevels(powers, tenLog10);
        circBuf[..] == Stored(old(circBuf[..]), old(rwPointer), StoredValues(levels, old(noiseFloorInDB))) &&
        noiseFloorInDB == Smoothed(old(noiseFloorInDB), LocalMin(levels))
      ensures rwPointer == Slot(old(rwPointer), DeciLen, buflen)
    {
      var localMin := StoreInRing(circBuf, rwPointer, powers, tenLog10, noiseFloorInDB);
      if localMin < NoiseGate {
        noiseFloorInDB := noiseFloorInDB * 0.975 + localMin * 0.025;
      }
      rwPointer := Slot(rwPointer, DeciLen, buflen);
    }

    /** The last loop of `write`: the ring copied out from the pointer on. */
    method Unwrap()
      requires Valid() && buflen > 0
      modifies unwrappedBuf
      ensures unwrappedBuf[..] == Unwrapped(circBuf[..], rwPointer)
    {
      for i := 0 to buflen
        invariant forall k :: 0 <= k < i ==> unwrappedBuf[k] == circBuf[Slot(rwPointer, k, buflen)]
      {
        unwrappedBuf[i] := circBuf[Slot(rwPointer, i, buflen)];
      }
    }

    /** read: the unwrapped levels, oldest first; nothing changes. */
    method Read() returns (levels: seq<real>)
      requires Valid() && hasBuffers
      ensures levels == unwrappedBuf[..] && |levels| == buflen
    {
      levels := unwrappedBuf[..];
    }

    /** getNoiseFloorInDB: the noise floor, which is never above the -40 dB gate. */
    method GetNoiseFloorInDB() returns (db: real)
      requires Valid()
      ensures db == noiseFloorInDB && db <= NoiseGate
    {
      db := noiseFloorInDB;
    }

    /**
     * clear: the pointer back at slot 0, both arrays filled with -80 dB and
     * ready. The noise floor is kept.
     */
    method Clear()
      requires Valid() && hasBuffers
      modifies this, circBuf, unwrappedBuf
      ensures Valid() && ready == Some(true)
      ensures circBuf == old(circBuf) && unwrappedBuf == old(unwrappedBuf)
      ensures buflen == old(buflen) && hasBuffers && noiseFloorInDB == old(noiseFloorInDB)
      ensures rwPointer == 0
      ensures circBuf[..] == Filled(buflen, ClearLevel) && unwrappedBuf[..] == Filled(buflen, ClearLevel)
    {
      rwPointer := 0;
      var dB := ClearLevel;
      Fill(circBuf, dB);
      Fill(unwrappedBuf, dB);
      ready := Some(true);
    }
  }
}
