/**
  The frequency mask `(freqs >= fmin) & (freqs <= fmax)` shared by band power
  and band-averaged coherence, and sums over the bins it selects.
 */
module Bands {

  /** A bin belongs to the band when `fmin <= f <= fmax` (both ends inclusive). */
  predicate InBand(f: real, fmin: real, fmax: real)
  {
    fmin <= f && f <= fmax
  }

  /** Sum of `vals[i]` over the bins whose frequency `freqs[i]` lies in the band. */
  function BandSum(vals: seq<real>, freqs: seq<real>, fmin: real, fmax: real): real
    requires |vals| == |freqs|
  {
    if |vals| == 0 then 0.0
    else (if InBand(freqs[0], fmin, fmax) then vals[0] else 0.0)
         + BandSum(vals[1..], freqs[1..], fmin, fmax)
  }

  /** Number of bins whose frequency lies in the band. */
  function BandCount(freqs: seq<real>, fmin: real, fmax: real): nat
  {
    if |freqs| == 0 then 0
    else (if InBand(freqs[0], fmin, fmax) then 1 else 0) + BandCount(freqs[1..], fmin, fmax)
  }

  /**
    `vals` pointwise multiplied by `c` (numpy `vals * c`), as in `psd * df`;
    `BandSumScale` shows that the band sum of the scaled values is `c` times
    the band sum of the original ones.
   */
  function Scale(vals: seq<real>, c: real): (r: seq<real>)
    ensures |r| == |vals|
    ensures forall i :: 0 <= i < |vals| ==> r[i] == vals[i] * c
  {
    seq(|vals|, i requires 0 <= i < |vals| => vals[i] * c)
  }

  /** The mask selects some bin exactly when some frequency lies in the band. */
  lemma {:induction false} BandCountPositive(freqs: seq<real>, fmin: real, fmax: real)
    ensures BandCount(freqs, fmin, fmax) > 0
            <==> exists i :: 0 <= i < |freqs| && InBand(freqs[i], fmin, fmax)
  {
    if |freqs| > 0 {
      BandCountPositive(freqs[1..], fmin, fmax);
      if BandCount(freqs[1..], fmin, fmax) > 0 {
        var j :| 0 <= j < |freqs[1..]| && InBand(freqs[1..][j], fmin, fmax);
        assert InBand(freqs[j + 1], fmin, fmax);
      }
      if exists i :: 0 <= i < |freqs| && InBand(freqs[i], fmin, fmax) {
        var i :| 0 <= i < |freqs| && InBand(freqs[i], fmin, fmax);
        if i > 0 {
          assert InBand(freqs[1..][i - 1], fmin, fmax);
        }
      }
    }
  }

  /** With no selected bin the sum is exactly zero. */
  lemma {:induction false} EmptyBandSumIsZero(vals: seq<real>, freqs: seq<real>, fmin: real, fmax: real)
    requires |vals| == |freqs|
    requires BandCount(freqs, fmin, fmax) == 0
    ensures BandSum(vals, freqs, fmin, fmax) == 0.0
  {
    if |vals| > 0 {
      EmptyBandSumIsZero(vals[1..], freqs[1..], fmin, fmax);
    }
  }

  /** A band with `fmin > fmax` selects no bin. */
  lemma {:induction false} InvertedBandIsEmpty(freqs: seq<real>, fmin: real, fmax: real)
    requires fmin > fmax
    ensures BandCount(freqs, fmin, fmax) == 0
  {
    if |freqs| > 0 {
      InvertedBandIsEmpty(freqs[1..], fmin, fmax);
    }
  }

  /** A constant factor can be taken out of the band sum. */
  lemma {:induction false} BandSumScale(vals: seq<real>, freqs: seq<real>, fmin: real, fmax: real, c: real)
    requires |vals| == |freqs|
    ensures BandSum(Scale(vals, c), freqs, fmin, fmax) == c * BandSum(vals, freqs, fmin, fmax)
  {
    if |vals| > 0 {
      assert forall i :: 0 <= i < |vals| - 1 ==> Scale(vals, c)[1..][i] == Scale(vals[1..], c)[i];
      assert Scale(vals, c)[1..] == Scale(vals[1..], c);
      BandSumScale(vals[1..], freqs[1..], fmin, fmax, c);
    }
  }

  /** Non-negative values have a non-negative band sum. */
  lemma {:induction false} BandSumNonNegative(vals: seq<real>, freqs: seq<real>, fmin: real, fmax: real)
    requires |vals| == |freqs|
    requires forall i :: 0 <= i < |vals| ==> vals[i] >= 0.0
    ensures BandSum(vals, freqs, fmin, fmax) >= 0.0
  {
    if |vals| > 0 {
      BandSumNonNegative(vals[1..], freqs[1..], fmin, fmax);
    }
  }

  /** Values bounded by `hi` sum to at most `hi` per selected bin. */
  lemma {:induction false} BandSumBounded(vals: seq<real>, freqs: seq<real>, fmin: real, fmax: real, lo: real, hi: real)
    requires |vals| == |freqs|
    requires forall i :: 0 <= i < |vals| ==> lo <= vals[i] <= hi
    ensures lo * BandCount(freqs, fmin, fmax) as real
            <= BandSum(vals, freqs, fmin, fmax)
            <= hi * BandCount(freqs, fmin, fmax) as real
  {
    if |vals| > 0 {
      BandSumBounded(vals[1..], freqs[1..], fmin, fmax, lo, hi);
    }
  }

  /** Widening the band never lowers the sum of non-negative values. */
  lemma {:induction false} BandSumMonotone(vals: seq<real>, freqs: seq<real>, fmin: real, fmax: real, wmin: real, wmax: real)
    requires |vals| == |freqs|
    requires forall i :: 0 <= i < |vals| ==> vals[i] >= 0.0
    requires wmin <= fmin && fmax <= wmax
    ensures BandSum(vals, freqs, fmin, fmax) <= BandSum(vals, freqs, wmin, wmax)
  {
    if |vals| > 0 {
      BandSumMonotone(vals[1..], freqs[1..], fmin, fmax, wmin, wmax);
    }
  }

  /**
    Two bands that share the edge `f2` together count every bin of `[f1, f3]`,
    plus once more each bin lying exactly on `f2`.
   */
  lemma {:induction false} SharedEdgeSum(vals: seq<real>, freqs: seq<real>, f1: real, f2: real, f3: real)
    requires |vals| == |freqs|
    requires f1 <= f2 <= f3
    ensures BandSum(vals, freqs, f1, f2) + BandSum(vals, freqs, f2, f3)
            == BandSum(vals, freqs, f1, f3) + BandSum(vals, freqs, f2, f2)
  {
    if |vals| > 0 {
      SharedEdgeSum(vals[1..], freqs[1..], f1, f2, f3);
    }
  }

  /** Only the selected bins matter: values elsewhere do not affect the sum. */
  lemma {:induction false} BandSumFrame(a: seq<real>, b: seq<real>, freqs: seq<real>, fmin: real, fmax: real)
    requires |a| == |freqs| && |b| == |freqs|
    requires forall i :: 0 <= i < |freqs| && InBand(freqs[i], fmin, fmax) ==> a[i] == b[i]
    ensures BandSum(a, freqs, fmin, fmax) == BandSum(b, freqs, fmin, fmax)
  {
    if |freqs| > 0 {
      BandSumFrame(a[1..], b[1..], freqs[1..], fmin, fmax);
    }
  }
}
