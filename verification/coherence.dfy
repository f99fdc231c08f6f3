/**
  Magnitude-squared coherence with its defaults (`calculate_coherence`) and
  its average over a frequency band (`calculate_band_averaged_coherence`).
  `scipy.signal.coherence` is a parameter.
 */
module Coherence {
  import opened Common
  import opened Bands

  /** Keyword arguments of `signal.coherence`. */
  datatype CoherenceParams = CoherenceParams(fs: real, nperseg: int, noverlap: int)

  /** `(freqs, coh)` as returned by `signal.coherence`. */
  datatype CoherenceCurve = CoherenceCurve(freqs: seq<real>, coh: seq<real>)

  /** `scipy.signal.coherence`: a curve, or an exception. */
  type CoherenceOracle = (seq<Sample>, seq<Sample>, CoherenceParams) -> Result<CoherenceCurve>

  /** Segment length when the caller gives none; independent of the PSD path's default. */
  const DefaultCoherenceSegment: int := 2048

  /**
    `nperseg` defaults to 2048 when omitted, and `noverlap` to `nperseg // 2`
    when `None`.
   */
  function CoherenceArgs(fs: real, nperseg: Option<int>, noverlap: Option<int>): (p: CoherenceParams)
    ensures p.fs == fs
    ensures nperseg.None? ==> p.nperseg == 2048
    ensures nperseg.Some? ==> p.nperseg == nperseg.value
    ensures noverlap.Some? ==> p.noverlap == noverlap.value
    ensures noverlap.None? ==> 2 * p.noverlap <= p.nperseg < 2 * p.noverlap + 2
  {
    var seg := if nperseg.Some? then nperseg.value else DefaultCoherenceSegment;
    CoherenceParams(fs, seg, if noverlap.Some? then noverlap.value else FloorDiv(seg, 2))
  }

  /** `calculate_coherence`: the estimator's curve, or its exception. */
  function CalculateCoherence(x: seq<Sample>, y: seq<Sample>, fs: real, nperseg: Option<int>,
                              noverlap: Option<int>, coherence: CoherenceOracle): Result<CoherenceCurve>
  {
    coherence(x, y, CoherenceArgs(fs, nperseg, noverlap))
  }

  /**
    The band average of a curve: 0.0 when no frequency lies in `[fmin, fmax]`
    (checked before `coh` is indexed), otherwise the mean of `coh` over the
    selected bins. A mask whose length differs from `coh` makes numpy raise.
   */
  function BandMean(freqs: seq<real>, coh: seq<real>, fmin: real, fmax: real): (r: Result<real>)
    ensures BandCount(freqs, fmin, fmax) == 0 ==> r == Ok(0.0)
    ensures r.Err? <==> BandCount(freqs, fmin, fmax) > 0 && |coh| != |freqs|
    ensures r.Ok? && BandCount(freqs, fmin, fmax) > 0 ==>
              |coh| == |freqs| &&
              r.value * BandCount(freqs, fmin, fmax) as real == BandSum(coh, freqs, fmin, fmax)
  {
    var count := BandCount(freqs, fmin, fmax);
    if count == 0 then Ok(0.0)
    else if |coh| != |freqs| then Err(IndexMismatch)
    else Ok(BandSum(coh, freqs, fmin, fmax) / count as real)
  }

  /** `calculate_band_averaged_coherence`: compute the curve, then average it over the band. */
  function BandAveragedCoherence(x: seq<Sample>, y: seq<Sample>, fs: real, fmin: real, fmax: real,
                                 nperseg: Option<int>, noverlap: Option<int>,
                                 coherence: CoherenceOracle): (r: Result<real>)
    ensures CalculateCoherence(x, y, fs, nperseg, noverlap, coherence).Err? ==>
              r == Err(CalculateCoherence(x, y, fs, nperseg, noverlap, coherence).error)
    ensures CalculateCoherence(x, y, fs, nperseg, noverlap, coherence).Ok? ==>
              var c := CalculateCoherence(x, y, fs, nperseg, noverlap, coherence).value;
              r == BandMean(c.freqs, c.coh, fmin, fmax)
  {
    match CalculateCoherence(x, y, fs, nperseg, noverlap, coherence)
    case Err(e) => Err(e)
    case Ok(c) => BandMean(c.freqs, c.coh, fmin, fmax)
  }

  /** Coherence values, as documented, lie in `[0, 1]`. */
  predicate UnitInterval(coh: seq<real>)
  {
    forall i :: 0 <= i < |coh| ==> 0.0 <= coh[i] <= 1.0
  }

  /**
    The band average is a mean: it lies between the smallest and the largest
    coherence value; in particular it is in `[0, 1]` when every value is.
   */
  lemma BandMeanBetween(freqs: seq<real>, coh: seq<real>, fmin: real, fmax: real, lo: real, hi: real)
    requires |coh| == |freqs|
    requires BandCount(freqs, fmin, fmax) > 0 || lo <= 0.0 <= hi
    requires forall i :: 0 <= i < |coh| ==> lo <= coh[i] <= hi
    ensures BandMean(freqs, coh, fmin, fmax).Ok?
    ensures lo <= BandMean(freqs, coh, fmin, fmax).value <= hi
  {
    var count := BandCount(freqs, fmin, fmax);
    if count > 0 {
      BandSumBounded(coh, freqs, fmin, fmax, lo, hi);
      QuotientBetween(BandSum(coh, freqs, fmin, fmax), count as real, lo, hi);
    }
  }

  /** A sum of `c` terms, each in `[lo, hi]`, divided by `c` stays in `[lo, hi]`. */
  lemma QuotientBetween(sum: real, c: real, lo: real, hi: real)
    requires c > 0.0 && lo * c <= sum <= hi * c
    ensures lo <= sum / c <= hi
  {
    assert sum / c - lo == (sum - lo * c) / c;
    assert hi - sum / c == (hi * c - sum) / c;
  }

  /** With documented coherence values the band average lies in `[0, 1]`. */
  lemma BandMeanInUnitInterval(freqs: seq<real>, coh: seq<real>, fmin: real, fmax: real)
    requires |coh| == |freqs| && UnitInterval(coh)
    ensures BandMean(freqs, coh, fmin, fmax).Ok?
    ensures 0.0 <= BandMean(freqs, coh, fmin, fmax).value <= 1.0
  {
    BandMeanBetween(freqs, coh, fmin, fmax, 0.0, 1.0);
  }

  /** Coherence values at bins outside `[fmin, fmax]` do not affect the band average. */
  lemma BandMeanIgnoresOutsideBins(freqs: seq<real>, coh: seq<real>, coh': seq<real>, fmin: real, fmax: real)
    requires |coh| == |freqs| && |coh'| == |freqs|
    requires forall i :: 0 <= i < |freqs| && InBand(freqs[i], fmin, fmax) ==> coh[i] == coh'[i]
    ensures BandMean(freqs, coh, fmin, fmax) == BandMean(freqs, coh', fmin, fmax)
  {
    BandSumFrame(coh, coh', freqs, fmin, fmax);
  }

  /** When no frequency lies in the band the average is exactly 0.0, whatever the curve. */
  lemma EmptyBandAverageIsZero(freqs: seq<real>, coh: seq<real>, fmin: real, fmax: real)
    requires forall i :: 0 <= i < |freqs| ==> !InBand(freqs[i], fmin, fmax)
    ensures BandMean(freqs, coh, fmin, fmax) == Ok(0.0)
  {
    BandCountPositive(freqs, fmin, fmax);
  }
}
