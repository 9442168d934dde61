/**
 * The integer geometry shared by the two block-processing loops
 * (estimateTransferFunction and cancelEcho): block length N, hop L and the
 * number of blocks `1 + (total - N) / L`, computed with Swift's `Int`
 * division, which truncates toward zero.
 */
module BlockGeometry {

  /** Swift's `/` on `Int`: truncates toward zero (Dafny's `/` is Euclidean). */
  function TruncDiv(a: int, b: int): (q: int)
    requires b > 0
    ensures a >= 0 ==> 0 <= a - q * b < b
    ensures a < 0 ==> -b < a - q * b <= 0
  {
    if a >= 0 then a / b else -((-a) / b)
  }

  /**
   * `1 + (total - n) / l`, exactly as both loops compute their block count:
   * at least one block exactly when the data reaches past `n - l` frames,
   * and a negative count exactly when it is no longer than `n - 2 * l`.
   */
  function NumSteps(total: int, n: nat, l: nat): (k: int)
    requires l > 0
    ensures total >= n ==> k >= 1
    ensures k >= 1 <==> total > n - l
    ensures k < 0 <==> total <= n - 2 * l
  {
    1 + TruncDiv(total - n, l)
  }

  lemma MulMonotone(i: nat, q: nat, l: nat)
    requires i <= q
    ensures i * l <= q * l
  {
  }

  /**
   * When at least one whole block fits, every block `[i*l, i*l + n)` that the
   * loop visits lies inside `[0, total)`, and the frames after the last block
   * are fewer than one hop: the blocks cover `[0, total)` up to a tail shorter
   * than `l`.
   */
  lemma BlocksInBounds(total: int, n: nat, l: nat, i: nat)
    requires 0 < l && n <= total
    requires i < NumSteps(total, n, l)
    ensures i * l + n <= total
    ensures total < (NumSteps(total, n, l) - 1) * l + n + l
  {
    var q := (total - n) / l;
    assert NumSteps(total, n, l) == q + 1;
    assert q * l <= total - n < q * l + l;
    MulMonotone(i, q, l);
  }

  /**
   * Without a length guard a recording shorter than one block still gets a
   * block: with N = 512 and L = 256 a 300-frame recording yields one block,
   * which reads frames [0, 512) of a 300-frame buffer.
   */
  lemma ShortRecordingGetsOneBlock()
    ensures NumSteps(300, 512, 256) == 1
    ensures 0 * 256 + 512 > 300
  {
  }

  /**
   * ... a recording of at most one hop yields no block at all, so the final
   * `1 / numSteps` divides by zero, and an empty one yields a negative block
   * count, on which Swift's `0..<numSteps` traps.
   */
  lemma TinyRecordingHasNoValidBlockCount()
    ensures NumSteps(1, 512, 256) == 0
    ensures NumSteps(256, 512, 256) == 0
    ensures NumSteps(0, 512, 256) == -1
  {
  }

  /** The echo canceller's geometry (N = 10001, L = 5000) has the same gap. */
  lemma ShortEchoWindowGetsOneBlock()
    ensures NumSteps(6000, 10001, 5000) == 1
    ensures 0 * 5000 + 10001 > 6000
  {
  }

  /**
   * ... and an echo window of at most one frame yields the block count -1, on
   * which Swift's `0..<numSteps` traps.
   */
  lemma TinyEchoWindowHasNegativeBlockCount()
    ensures NumSteps(1, 10001, 5000) == -1
    ensures NumSteps(0, 10001, 5000) == -1
  {
  }

  /**
   * The guard the loops need: with it the block count is at least one, and
   * the blocks stay inside the data (`BlocksInBounds`).
   */
  lemma GuardedBlockCountPositive(total: int, n: nat, l: nat)
    requires 0 < l && n <= total
    ensures NumSteps(total, n, l) >= 1
  {
  }
}
