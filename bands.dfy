/** The band-max reduction of AudioModel: how the spectrum is cut into bands of
    BATCH_SIZE bins and how each visited band is reduced to its maximum.
    Everything here is a pure value-level definition; the class in Audio
    performs the same reduction in place and is proved against BandMax. */
module Bands {

  datatype Option<T> = None | Some(value: T)

  /** MX_ARR_SIZE: the number of output bands, fixed at construction. */
  const BandCount: nat := 20

  /** Float.leastNormalMagnitude, 2^-126: the smallest positive normal
      single-precision value, used as the fallback of an empty band. */
  const LeastNormalMagnitude: real := 1.0 / 85070591730234615865843651857942052864.0

  /** BATCH_SIZE = ((BUFFER_SIZE / 2) / MX_ARR_SIZE) + 1. Swift's `/` truncates
      toward zero, which agrees with Dafny's `/` on the non-negative sizes here.
      The width is floor-plus-one, so 20 bands of it always reach past the
      last bin of a spectrum of BUFFER_SIZE / 2 bins. */
  function BatchSize(bufferSize: nat): (b: nat)
    ensures 1 <= b
    ensures b * BandCount > bufferSize / 2
  {
    (bufferSize / 2) / BandCount + 1
  }

  /** Swift's `max(by: <)` on a sequence: nil when empty, otherwise a left
      fold that replaces the running result whenever it is `<` the next one. */
  function MaxBy(s: seq<real>): (r: Option<real>)
    ensures r.None? <==> |s| == 0
    ensures r.Some? ==> r.value in s
    ensures r.Some? ==> forall x :: x in s ==> x <= r.value
  {
    if |s| == 0 then None
    else
      assert s == s[..|s| - 1] + [s[|s| - 1]];
      match MaxBy(s[..|s| - 1])
      case None => Some(s[|s| - 1])
      case Some(m) => Some(if m < s[|s| - 1] then s[|s| - 1] else m)
  }

  /** `max(by: <)` on one and on two elements. */
  lemma MaxByPair(x: real, y: real)
    ensures MaxBy([x]) == Some(x)
    ensures MaxBy([x, y]) == Some(if x < y then y else x)
  {
    assert [x, y][..1] == [x];
    assert [x][..0] == [];
  }

  /** The upper end of the closed range `s...min(s + b - 1, count - 1)`. */
  function BandEnd(s: int, b: int, count: int): (e: int)
    ensures e <= s + b - 1 && e <= count - 1
    ensures e == s + b - 1 || e == count - 1
  {
    if s + b - 1 < count - 1 then s + b - 1 else count - 1
  }

  /** The value written for the band that starts at bin s:
      `fftData[s...BandEnd].max(by: <) ?? Float.leastNormalMagnitude`.
      The requires is what forming the closed range demands (a lower bound
      above the upper bound, or past the array, traps in Swift). */
  function BandValue(fft: seq<real>, s: nat, b: nat): (v: real)
    requires 1 <= b && s < |fft|
    ensures v in fft[s..BandEnd(s, b, |fft|) + 1]
  {
    match MaxBy(fft[s..BandEnd(s, b, |fft|) + 1])
    case Some(m) => m
    case None => LeastNormalMagnitude
  }

  /** Band k is visited by `stride(from: 0, to: count - 1, by: b)` exactly
      when its start k * b lies below count - 1. */
  predicate Visited(k: nat, b: nat, count: nat)
  {
    k * b + 1 < count
  }

  /** The effect of the stride loop on mxData: visited bands get their maximum,
      every other entry keeps its previous value. The second requires is
      what keeps every write index `s / b` inside the array. */
  function BandMax(fft: seq<real>, b: nat, prev: seq<real>): (r: seq<real>)
    requires 1 <= b
    requires |fft| <= |prev| * b + 1
    ensures |r| == |prev|
  {
    seq(|prev|, k requires 0 <= k < |prev| =>
      if Visited(k, b, |fft|) then BandValue(fft, k * b, b) else prev[k])
  }

  /** mxData after the stride loop has written its first `done` bands. */
  function BandsUpTo(fft: seq<real>, b: nat, prev: seq<real>, done: nat): (r: seq<real>)
    requires 1 <= b
    ensures |r| == |prev|
  {
    seq(|prev|, k requires 0 <= k < |prev| =>
      if k < done && k * b < |fft| then BandValue(fft, k * b, b) else prev[k])
  }

  /** Writing band `done` extends the written prefix by one band. */
  lemma BandsUpToStep(fft: seq<real>, b: nat, prev: seq<real>, done: nat)
    requires 1 <= b && done < |prev| && done * b < |fft|
    ensures BandsUpTo(fft, b, prev, done)[done := BandValue(fft, done * b, b)]
         == BandsUpTo(fft, b, prev, done + 1)
  {
  }

  /** Once the stride has passed count - 1, the written prefix is BandMax. */
  lemma BandsUpToDone(fft: seq<real>, b: nat, prev: seq<real>, done: nat)
    requires 1 <= b && |fft| <= |prev| * b + 1
    requires done == 0 || Visited(done - 1, b, |fft|)
    requires !Visited(done, b, |fft|)
    ensures BandsUpTo(fft, b, prev, done) == BandMax(fft, b, prev)
  {
    forall k | 0 <= k < |prev|
      ensures BandsUpTo(fft, b, prev, done)[k] == BandMax(fft, b, prev)[k]
    {
      if k < done {
        MulMonotone(k, done - 1, b);
      } else {
        MulMonotone(done, k, b);
      }
    }
  }

  // ---------------------------------------------------------------------
  // Arithmetic helpers

  lemma MulMonotone(a: nat, c: nat, b: nat)
    requires a <= c
    ensures a * b <= c * b
  {
  }

  lemma MulAtLeastOne(x: nat, b: nat)
    requires 1 <= x
    ensures b <= x * b
  {
  }

  /** The only multiple of b strictly between -b and b is 0. */
  lemma MulWithinOneIsZero(d: int, b: int)
    requires 1 <= b
    ensures -b < d * b < b ==> d == 0
  {
    if d >= 1 {
      MulAtLeastOne(d, b);
    } else if d <= -1 {
      MulAtLeastOne(-d, b);
      assert (-d) * b == -(d * b);
    }
  }

  lemma {:induction false} DivOfMultiple(k: nat, b: nat)
    requires 1 <= b
    ensures (k * b) / b == k
    ensures (k * b) % b == 0
  {
    var q, r := (k * b) / b, (k * b) % b;
    assert k * b == q * b + r && 0 <= r < b;
    assert (k - q) * b == r;
    MulWithinOneIsZero(k - q, b);
  }

  // ---------------------------------------------------------------------
  // Properties of the sizing

  /** Every slice start the loop can visit maps to a write index below 20. */
  lemma WriteIndexInRange(bufferSize: nat, s: nat)
    requires s + 1 < bufferSize / 2
    ensures s / BatchSize(bufferSize) < BandCount
  {
  }

  /** A visited band index is below 20 for the model's own BATCH_SIZE. */
  lemma VisitedBandInRange(bufferSize: nat, k: nat)
    requires Visited(k, BatchSize(bufferSize), bufferSize / 2)
    ensures k < BandCount
  {
  }

  /** BATCH_SIZE is the true ceiling of count / 20 unless count is a multiple
      of 20, where it is one more than the ceiling. */
  lemma BatchSizeVsCeiling(bufferSize: nat)
    ensures var count := bufferSize / 2;
      var ceiling := (count + BandCount - 1) / BandCount;
      (count % BandCount != 0 ==> BatchSize(bufferSize) == ceiling) &&
      (count % BandCount == 0 ==> BatchSize(bufferSize) == ceiling + 1)
  {
  }

  /** With fewer than 20 bins the width is one bin. */
  lemma SmallSpectrumWidth(bufferSize: nat)
    requires bufferSize / 2 < BandCount
    ensures BatchSize(bufferSize) == 1
  {
  }

  // ---------------------------------------------------------------------
  // Properties of one band

  /** For every visited start the closed range is non-empty and inside the
      spectrum, so `max(by:)` returns a value and the fallback is never taken. */
  lemma FallbackNeverTaken(fft: seq<real>, s: nat, b: nat)
    requires 1 <= b && s + 1 < |fft|
    ensures s <= BandEnd(s, b, |fft|) < |fft|
    ensures MaxBy(fft[s..BandEnd(s, b, |fft|) + 1]).Some?
    ensures BandValue(fft, s, b) == MaxBy(fft[s..BandEnd(s, b, |fft|) + 1]).value
  {
  }

  /** The value of a band is at least every bin of the band and is one of them. */
  lemma BandValueIsMaximum(fft: seq<real>, s: nat, b: nat)
    requires 1 <= b && s < |fft|
    ensures forall i :: s <= i <= BandEnd(s, b, |fft|) ==> fft[i] <= BandValue(fft, s, b)
    ensures exists i :: s <= i <= BandEnd(s, b, |fft|) && fft[i] == BandValue(fft, s, b)
  {
    var e := BandEnd(s, b, |fft|);
    var slice := fft[s..e + 1];
    var m := MaxBy(slice);
    assert m.Some?;
    forall i | s <= i <= e
      ensures fft[i] <= BandValue(fft, s, b)
    {
      assert fft[i] == slice[i - s] && slice[i - s] in slice;
    }
    var j :| 0 <= j < |slice| && slice[j] == m.value;
    assert fft[s + j] == BandValue(fft, s, b);
  }

  // ---------------------------------------------------------------------
  // Properties of the whole reduction

  /** Entry k of the result: for a visited band, the maximum of its bins;
      for an unvisited one, the previous value. */
  lemma BandMaxAt(fft: seq<real>, b: nat, prev: seq<real>, k: nat)
    requires 1 <= b && |fft| <= |prev| * b + 1 && k < |prev|
    ensures Visited(k, b, |fft|) ==>
      (forall i :: k * b <= i <= BandEnd(k * b, b, |fft|) ==> fft[i] <= BandMax(fft, b, prev)[k])
    ensures Visited(k, b, |fft|) ==>
      (exists i :: k * b <= i <= BandEnd(k * b, b, |fft|) && fft[i] == BandMax(fft, b, prev)[k])
    ensures !Visited(k, b, |fft|) ==> BandMax(fft, b, prev)[k] == prev[k]
  {
    if Visited(k, b, |fft|) {
      BandValueIsMaximum(fft, k * b, b);
    }
  }

  /** Visited bands are contiguous: band k + 1 begins right after band k ends. */
  lemma BandsContiguous(b: nat, count: nat, k: nat)
    requires 1 <= b && Visited(k + 1, b, count)
    ensures BandEnd(k * b, b, count) + 1 == (k + 1) * b
  {
  }

  /** Visited bands are pairwise disjoint and ordered by index. */
  lemma {:induction false} BandsDisjoint(b: nat, count: nat, j: nat, k: nat)
    requires 1 <= b && j < k && Visited(k, b, count)
    ensures BandEnd(j * b, b, count) < k * b
  {
    MulMonotone(j + 1, k, b);
    assert (j + 1) * b == j * b + b;
  }

  /** Every bin below count - 1 lies in the visited band i / b. */
  lemma BinCovered(b: nat, count: nat, i: nat)
    requires 1 <= b && i + 1 < count
    ensures Visited(i / b, b, count)
    ensures (i / b) * b <= i <= BandEnd((i / b) * b, b, count)
  {
  }

  /** A bin lies in no band other than i / b. */
  lemma BandOfBinUnique(b: nat, count: nat, i: nat, k: nat)
    requires 1 <= b && i + 1 < count && k * b <= i <= BandEnd(k * b, b, count)
    ensures k == i / b
  {
    var q, r := i / b, i % b;
    assert i == q * b + r && 0 <= r < b;
    assert (q - k) * b == (i - k * b) - r;
    MulWithinOneIsZero(q - k, b);
  }

  /** The final bin count - 1 is reduced into a band exactly when it is not
      itself the start of a band: the stride stops before count - 1. */
  lemma LastBinCoveredIff(b: nat, count: nat)
    requires 1 <= b && 2 <= count
    ensures var k := (count - 1) / b;
      (Visited(k, b, count) && BandEnd(k * b, b, count) == count - 1) <==> (count - 1) % b != 0
  {
  }

  /** When the final bin is a band start, the result does not depend on it. */
  lemma LastBinIgnored(fft: seq<real>, fft': seq<real>, b: nat, prev: seq<real>)
    requires 1 <= b && |fft| <= |prev| * b + 1
    requires 1 <= |fft| == |fft'| && fft[..|fft| - 1] == fft'[..|fft'| - 1]
    requires (|fft| - 1) % b == 0
    ensures BandMax(fft, b, prev) == BandMax(fft', b, prev)
  {
    var count := |fft|;
    var m := (count - 1) / b;
    assert count - 1 == m * b;
    forall k | 0 <= k < |prev|
      ensures BandMax(fft, b, prev)[k] == BandMax(fft', b, prev)[k]
    {
      if Visited(k, b, count) {
        if k >= m {
          MulMonotone(m, k, b);
        }
        MulMonotone(k + 1, m, b);
        assert (k + 1) * b == k * b + b;
        var e := BandEnd(k * b, b, count);
        assert e < count - 1;
        assert fft[k * b..e + 1] == fft'[k * b..e + 1] by {
          forall i | k * b <= i <= e ensures fft[i] == fft'[i] {
            assert fft[i] == fft[..count - 1][i];
            assert fft'[i] == fft'[..count - 1][i];
          }
        }
      }
    }
  }

  /** Band 19, the last output band, is visited exactly when
      count / 20 + count % 20 > 20 for a spectrum of count bins. */
  lemma LastBandVisitedIff(bufferSize: nat)
    ensures var count := bufferSize / 2;
      Visited(BandCount - 1, BatchSize(bufferSize), count) <==> count / BandCount + count % BandCount > BandCount
  {
  }

  /** The worked case BUFFER_SIZE = 800: a width of 21 bins, and band 19
      (start 399 = count - 1) is never written. */
  lemma Buffer800LeavesLastBand(fft: seq<real>, prev: seq<real>)
    requires |fft| == 800 / 2 && |prev| == BandCount
    ensures BatchSize(800) == 21
    ensures BandMax(fft, 21, prev)[19] == prev[19]
    ensures BandEnd(18 * 21, 21, |fft|) == 398
  {
  }

  /** BUFFER_SIZE = 42 gives 21 bins and a width of 2, which here is also the
      true ceiling of 21 / 20; only bands 0 to 9 are written. */
  lemma Buffer42LeavesTenBands(fft: seq<real>, prev: seq<real>, k: nat)
    requires |fft| == 42 / 2 && |prev| == BandCount && 10 <= k < BandCount
    ensures BatchSize(42) == 2 == (|fft| + BandCount - 1) / BandCount
    ensures BandMax(fft, 2, prev)[k] == prev[k]
  {
  }

  /** With fewer than 20 bins every visited band is a single bin: entry k is
      fft[k] for k < count - 1, and the final bin is left out. */
  lemma SmallSpectrumBands(bufferSize: nat, fft: seq<real>, prev: seq<real>, k: nat)
    requires bufferSize / 2 < BandCount && |fft| == bufferSize / 2
    requires |prev| == BandCount && k < BandCount
    ensures BandMax(fft, BatchSize(bufferSize), prev)[k] == if k + 1 < |fft| then fft[k] else prev[k]
  {
    if k + 1 < |fft| {
      assert fft[k..BandEnd(k, 1, |fft|) + 1] == [fft[k]];
      MaxByPair(fft[k], fft[k]);
    }
  }

  /** A spectrum of one bin is never visited: every band keeps its value. */
  lemma SingleBinUntouched(fft: seq<real>, b: nat, prev: seq<real>)
    requires 1 <= b && |fft| == 1 && |prev| >= 1
    ensures BandMax(fft, b, prev) == prev
  {
  }

  /** Reducing the same spectrum twice gives what reducing it once gave. */
  lemma BandMaxIdempotent(fft: seq<real>, b: nat, prev: seq<real>)
    requires 1 <= b && |fft| <= |prev| * b + 1
    ensures BandMax(fft, b, BandMax(fft, b, prev)) == BandMax(fft, b, prev)
  {
  }

  /** The reduction of [0, 5, 3, 8, 1, 9, 2, 7] with width 2 into four bands:
      the truncated last band holds bins 6 and 7, so its value is 7. */
  lemma EightBinExample(prev: seq<real>)
    requires |prev| == 4
    ensures BandMax([0.0, 5.0, 3.0, 8.0, 1.0, 9.0, 2.0, 7.0], 2, prev) == [5.0, 8.0, 9.0, 7.0]
  {
    var fft := [0.0, 5.0, 3.0, 8.0, 1.0, 9.0, 2.0, 7.0];
    assert fft[0..2] == [0.0, 5.0];
    assert fft[2..4] == [3.0, 8.0];
    assert fft[4..6] == [1.0, 9.0];
    assert fft[6..8] == [2.0, 7.0];
    MaxByPair(0.0, 5.0);
    MaxByPair(3.0, 8.0);
    MaxByPair(1.0, 9.0);
    MaxByPair(2.0, 7.0);
    assert BandValue(fft, 0, 2) == 5.0;
    assert BandValue(fft, 2, 2) == 8.0;
    assert BandValue(fft, 4, 2) == 9.0;
    assert BandValue(fft, 6, 2) == 7.0;
  }
}
