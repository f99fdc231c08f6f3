/**
  Band integration of a power spectral density (`calculate_band_power_from_psd`),
  the whole-signal Welch defaults (`calculate_welch_psd`) and their composition
  (`calculate_band_power`). The Welch estimator and `log10` are parameters.
 */
module BandPower {
  import opened Common
  import opened Bands

  /** A level in decibels; `NegInf` is numpy's `-inf`. */
  datatype Decibels = NegInf | Db(level: real)

  /** The `(band_power_linear, band_power_db)` pair. */
  datatype BandPowerPair = BandPowerPair(linear: real, db: Decibels)

  /** What a Welch call returns: the frequency axis and one density per frequency. */
  datatype Spectrum = Spectrum(freqs: seq<real>, psd: seq<real>)

  /** The keyword arguments handed to `signal.welch`. */
  datatype WelchParams = WelchParams(fs: real, nperseg: int, noverlap: int, window: string)

  /** `scipy.signal.welch`: returns a spectrum or raises. */
  type WelchOracle = (seq<Sample>, WelchParams) -> Result<Spectrum>

  const Hann: string := "hann"

  /** Frequency resolution: spacing of the first two bins, or 1.0 with at most one bin. */
  function BinWidth(freqs: seq<real>): real
  {
    if |freqs| > 1 then freqs[1] - freqs[0] else 1.0
  }

  /** `10 * log10(linear)` when positive, otherwise minus infinity. */
  function ToDecibels(linear: real, log10: real -> real): Decibels
  {
    if linear > 0.0 then Db(10.0 * log10(linear)) else NegInf
  }

  /**
    Multiply the density by the bin width and sum the bins with
    `fmin <= f <= fmax`. A mask whose length differs from the PSD's makes
    numpy raise.
   */
  function BandPowerFromPsd(psd: seq<real>, freqs: seq<real>, fmin: real, fmax: real, log10: real -> real)
    : (r: Result<BandPowerPair>)
    ensures r.Err? <==> |psd| != |freqs|
    ensures r.Err? ==> r.error == IndexMismatch
    ensures r.Ok? ==> r.value.linear == BinWidth(freqs) * BandSum(psd, freqs, fmin, fmax)
    ensures r.Ok? ==> (r.value.db == NegInf <==> r.value.linear <= 0.0)
    ensures r.Ok? && r.value.linear > 0.0 ==> r.value.db == Db(10.0 * log10(r.value.linear))
  {
    if |psd| != |freqs| then Err(IndexMismatch)
    else
      var linear := BandSum(Scale(psd, BinWidth(freqs)), freqs, fmin, fmax);
      BandSumScale(psd, freqs, fmin, fmax, BinWidth(freqs));
      Ok(BandPowerPair(linear, ToDecibels(linear, log10)))
  }

  /** A band that selects no bin has zero linear power and minus infinity dB. */
  lemma {:induction false} EmptyBandIsNegInf(psd: seq<real>, freqs: seq<real>, fmin: real, fmax: real, log10: real -> real)
    requires |psd| == |freqs|
    requires BandCount(freqs, fmin, fmax) == 0
    ensures BandPowerFromPsd(psd, freqs, fmin, fmax, log10) == Ok(BandPowerPair(0.0, NegInf))
  {
    EmptyBandSumIsZero(psd, freqs, fmin, fmax);
  }

  /** In particular a band with `fmin > fmax` is minus infinity dB. */
  lemma {:induction false} InvertedBandIsNegInf(psd: seq<real>, freqs: seq<real>, fmin: real, fmax: real, log10: real -> real)
    requires |psd| == |freqs|
    requires fmin > fmax
    ensures BandPowerFromPsd(psd, freqs, fmin, fmax, log10) == Ok(BandPowerPair(0.0, NegInf))
  {
    InvertedBandIsEmpty(freqs, fmin, fmax);
    EmptyBandIsNegInf(psd, freqs, fmin, fmax, log10);
  }

  /** The PSD is a density: no entry is negative. */
  predicate NonNegative(psd: seq<real>)
  {
    forall i :: 0 <= i < |psd| ==> psd[i] >= 0.0
  }

  /** The frequency axis is ascending. */
  predicate Ascending(freqs: seq<real>)
  {
    forall i, j :: 0 <= i <= j < |freqs| ==> freqs[i] <= freqs[j]
  }

  /**
    For a non-negative PSD on an ascending axis, linear power is non-negative
    and does not decrease when the band `[fmin, fmax]` is widened to `[wmin, wmax]`.
   */
  lemma {:induction false} BandPowerMonotone(psd: seq<real>, freqs: seq<real>, fmin: real, fmax: real, wmin: real, wmax: real, log10: real -> real)
    requires |psd| == |freqs| && NonNegative(psd) && Ascending(freqs)
    requires wmin <= fmin && fmax <= wmax
    ensures 0.0 <= BandPowerFromPsd(psd, freqs, fmin, fmax, log10).value.linear
    ensures BandPowerFromPsd(psd, freqs, fmin, fmax, log10).value.linear
            <= BandPowerFromPsd(psd, freqs, wmin, wmax, log10).value.linear
  {
    var df := BinWidth(freqs);
    assert df >= 0.0;
    BandSumNonNegative(psd, freqs, fmin, fmax);
    BandSumMonotone(psd, freqs, fmin, fmax, wmin, wmax);
    assert 0.0 <= df * BandSum(psd, freqs, fmin, fmax);
    assert df * BandSum(psd, freqs, fmin, fmax) <= df * BandSum(psd, freqs, wmin, wmax);
  }

  /**
    Both band edges are inclusive, so the bands `[f1, f2]` and `[f2, f3]`
    both count a bin lying exactly on `f2`: their linear powers add up to the
    power of `[f1, f3]` plus the power of the single edge frequency `[f2, f2]`.
   */
  lemma {:induction false} SharedEdgeCountedTwice(psd: seq<real>, freqs: seq<real>, f1: real, f2: real, f3: real, log10: real -> real)
    requires |psd| == |freqs|
    requires f1 <= f2 <= f3
    ensures BandPowerFromPsd(psd, freqs, f1, f2, log10).value.linear
            + BandPowerFromPsd(psd, freqs, f2, f3, log10).value.linear
            == BandPowerFromPsd(psd, freqs, f1, f3, log10).value.linear
               + BandPowerFromPsd(psd, freqs, f2, f2, log10).value.linear
  {
    var df := BinWidth(freqs);
    var s12, s23 := BandSum(psd, freqs, f1, f2), BandSum(psd, freqs, f2, f3);
    var s13, s22 := BandSum(psd, freqs, f1, f3), BandSum(psd, freqs, f2, f2);
    SharedEdgeSum(psd, freqs, f1, f2, f3);
    assert df * s12 + df * s23 == df * (s12 + s23) == df * (s13 + s22) == df * s13 + df * s22;
  }

  /** When no bin lies exactly on the shared edge, adjacent bands are additive. */
  lemma {:induction false} AdjacentBandsAdd(psd: seq<real>, freqs: seq<real>, f1: real, f2: real, f3: real, log10: real -> real)
    requires |psd| == |freqs|
    requires f1 <= f2 <= f3
    requires forall i :: 0 <= i < |freqs| ==> freqs[i] != f2
    ensures BandPowerFromPsd(psd, freqs, f1, f2, log10).value.linear
            + BandPowerFromPsd(psd, freqs, f2, f3, log10).value.linear
            == BandPowerFromPsd(psd, freqs, f1, f3, log10).value.linear
  {
    SharedEdgeCountedTwice(psd, freqs, f1, f2, f3, log10);
    BandCountPositive(freqs, f2, f2);
    EmptyBandIsNegInf(psd, freqs, f2, f2, log10);
  }

  /**
    Defaults of `calculate_welch_psd`: `nperseg = min(256, len(data) // 4)`
    and `noverlap = nperseg // 2` when not given.
   */
  function WelchDefaults(n: nat, nperseg: Option<int>, noverlap: Option<int>): (p: (int, int))
    ensures nperseg.Some? ==> p.0 == nperseg.value
    ensures nperseg.None? ==> 0 <= p.0 <= 256 && 4 * p.0 <= n
    ensures nperseg.None? ==> (if n >= 1024 then p.0 == 256 else n < 4 * p.0 + 4)
    ensures noverlap.Some? ==> p.1 == noverlap.value
    ensures noverlap.None? ==> 2 * p.1 <= p.0 < 2 * p.1 + 2
  {
    var seg := if nperseg.Some? then nperseg.value else Min(256, FloorDiv(n, 4));
    var overlap := if noverlap.Some? then noverlap.value else FloorDiv(seg, 2);
    (seg, overlap)
  }

  function Min(a: int, b: int): int
  {
    if a <= b then a else b
  }

  /** `calculate_welch_psd`: Welch on the whole signal with the defaults above. */
  function WelchPsd(data: seq<Sample>, fs: real, nperseg: Option<int>, noverlap: Option<int>,
                    window: string, welch: WelchOracle): Result<Spectrum>
  {
    var p := WelchDefaults(|data|, nperseg, noverlap);
    welch(data, WelchParams(fs, p.0, p.1, window))
  }

  /**
    `calculate_band_power`: Welch with the Hann window, then band integration.
    An exception from the estimator propagates.
   */
  function CalculateBandPower(data: seq<Sample>, fs: real, fmin: real, fmax: real,
                              nperseg: Option<int>, noverlap: Option<int>,
                              welch: WelchOracle, log10: real -> real): (r: Result<BandPowerPair>)
    ensures WelchPsd(data, fs, nperseg, noverlap, Hann, welch).Err? ==>
              r == Err(WelchPsd(data, fs, nperseg, noverlap, Hann, welch).error)
    ensures WelchPsd(data, fs, nperseg, noverlap, Hann, welch).Ok? ==>
              var sp := WelchPsd(data, fs, nperseg, noverlap, Hann, welch).value;
              (r.Ok? <==> |sp.psd| == |sp.freqs|) &&
              (r.Ok? ==> r.value.linear == BinWidth(sp.freqs) * BandSum(sp.psd, sp.freqs, fmin, fmax)) &&
              (r.Ok? ==> (r.value.db == NegInf <==> r.value.linear <= 0.0)) &&
              (r.Ok? && r.value.linear > 0.0 ==> r.value.db == Db(10.0 * log10(r.value.linear)))
  {
    match WelchPsd(data, fs, nperseg, noverlap, Hann, welch)
    case Err(e) => Err(e)
    case Ok(sp) => BandPowerFromPsd(sp.psd, sp.freqs, fmin, fmax, log10)
  }
}
