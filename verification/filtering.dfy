/**
  The filtering stage: a zero-phase notch, a Butterworth bandpass that falls
  back to its input on an invalid band or a failing design, the NaN-preserving
  bandpass that filters the concatenation of all present samples, and the
  notch-then-bandpass pipeline. `iirnotch`/`butter` with `filtfilt` are
  parameters that return a filtered signal or raise.
 */
module Filtering {
  import opened Common

  /** Arguments of `signal.butter(order, [low, high], btype='band')`. */
  datatype BandDesign = BandDesign(order: int, low: real, high: real)

  /** Arguments of `signal.iirnotch(freq, quality, fs)`. */
  datatype NotchDesign = NotchDesign(freq: real, quality: real, fs: real)

  /** Design a bandpass and run it forward and backward over the samples, or raise. */
  type BandpassOracle = (seq<Sample>, BandDesign) -> Result<seq<Sample>>

  /** Design a notch and run it forward and backward over the samples, or raise. */
  type NotchOracle = (seq<Sample>, NotchDesign) -> Result<seq<Sample>>

  const DefaultNotchHz: real := 60.0
  const DefaultQuality: real := 30.0
  const DefaultLowHz: real := 0.5
  const DefaultHighHz: real := 120.0
  const DefaultOrder: int := 4

  /** Both normalised edges must lie strictly between 0 and 1. */
  predicate ValidBand(lowNorm: real, highNorm: real)
  {
    0.0 < lowNorm < 1.0 && 0.0 < highNorm < 1.0
  }

  /** `freq / (fs / 2.0)`; a zero sampling rate raises ZeroDivisionError. */
  function Normalize(freq: real, fs: real): real
    requires fs != 0.0
  {
    freq / (fs / 2.0)
  }

  /**
    For a positive sampling rate, the normalised band is valid exactly when
    both edges lie strictly between 0 Hz and the Nyquist frequency.
   */
  lemma ValidBandIffBelowNyquist(low: real, high: real, fs: real)
    requires fs > 0.0
    ensures ValidBand(Normalize(low, fs), Normalize(high, fs))
            <==> 0.0 < low < fs / 2.0 && 0.0 < high < fs / 2.0
  {
    var ny := fs / 2.0;
    NormalizedBetween(low, ny);
    NormalizedBetween(high, ny);
  }

  lemma NormalizedBetween(f: real, ny: real)
    requires ny > 0.0
    ensures (0.0 < f / ny < 1.0) <==> (0.0 < f < ny)
  {
    var x := f / ny;
    assert x * ny == f;
    if 0.0 < x { assert 0.0 < x * ny; }
    if x < 1.0 { assert x * ny < 1.0 * ny; }
    if x <= 0.0 { assert x * ny <= 0.0; }
    if x >= 1.0 { assert x * ny >= 1.0 * ny; }
  }

  /** `apply_notch_filter`: no fallback, an exception propagates. */
  function ApplyNotch(data: seq<Sample>, fs: real, freq: real, quality: real, notch: NotchOracle)
    : Result<seq<Sample>>
  {
    notch(data, NotchDesign(freq, quality, fs))
  }

  /**
    `apply_bandpass_filter`: unchanged input for an invalid normalised band or
    when design or filtering raises, the filtered signal otherwise.
   */
  function ApplyBandpass(data: seq<Sample>, fs: real, low: real, high: real, order: int,
                         bandpass: BandpassOracle): (r: Result<seq<Sample>>)
    ensures r.Err? <==> fs == 0.0
    ensures r.Err? ==> r.error == ZeroDivision
    ensures fs != 0.0 && !ValidBand(Normalize(low, fs), Normalize(high, fs)) ==> r == Ok(data)
    ensures fs != 0.0 && ValidBand(Normalize(low, fs), Normalize(high, fs)) ==>
              var out := bandpass(data, BandDesign(order, Normalize(low, fs), Normalize(high, fs)));
              r == Ok(if out.Ok? then out.value else data)
  {
    if fs == 0.0 then Err(ZeroDivision)
    else
      var lowNorm := Normalize(low, fs);
      var highNorm := Normalize(high, fs);
      if !ValidBand(lowNorm, highNorm) then Ok(data)
      else match bandpass(data, BandDesign(order, lowNorm, highNorm))
        case Err(_) => Ok(data)
        case Ok(filtered) => Ok(filtered)
  }

  /** A negative low edge is an invalid band: `apply_bandpass(x, fs=500, low=-1, high=50)` is `x`. */
  lemma NegativeLowEdgeIsNoOp(data: seq<Sample>, bandpass: BandpassOracle)
    ensures ApplyBandpass(data, 500.0, -1.0, 50.0, 4, bandpass) == Ok(data)
  {
  }

  /** The present samples of `data`, in order, with the gaps closed up. */
  function Gather(data: seq<Sample>): (r: seq<real>)
    ensures |r| <= |data|
  {
    if |data| == 0 then []
    else Gather(data[..|data| - 1]) + (if data[|data| - 1].Val? then [data[|data| - 1].v] else [])
  }

  /** `valid_data` as handed to the filter. */
  function PresentSamples(data: seq<Sample>): (r: seq<Sample>)
    ensures |r| == |Gather(data)|
    ensures NoMissing(r)
    ensures forall k :: 0 <= k < |r| ==> r[k] == Val(Gather(data)[k])
  {
    seq(|Gather(data)|, k requires 0 <= k < |Gather(data)| => Val(Gather(data)[k]))
  }

  /**
    `filtered_data[valid_mask] = filtered`: the k-th present position of
    `data` receives `filtered[k]`; missing positions stay missing.
   */
  function Scatter(data: seq<Sample>, filtered: seq<Sample>): (r: seq<Sample>)
    requires |filtered| == |Gather(data)|
    ensures |r| == |data|
  {
    if |data| == 0 then []
    else
      var init := data[..|data| - 1];
      if data[|data| - 1].Val? then
        Scatter(init, filtered[..|filtered| - 1]) + [filtered[|filtered| - 1]]
      else
        Scatter(init, filtered) + [Missing]
  }

  /** The rank of a position among the present samples: how many present samples precede it. */
  function Rank(data: seq<Sample>, j: nat): nat
    requires j <= |data|
  {
    |Gather(data[..j])|
  }

  /**
    The k-th present position receives the k-th filtered value, and every
    missing position stays missing.
   */
  lemma {:induction false} ScatterAt(data: seq<Sample>, filtered: seq<Sample>, j: nat)
    requires |filtered| == |Gather(data)| && j < |data|
    ensures data[j].Missing? ==> Scatter(data, filtered)[j] == Missing
    ensures data[j].Val? ==> Rank(data, j) < |filtered| && Scatter(data, filtered)[j] == filtered[Rank(data, j)]
  {
    var n := |data|;
    var init := data[..n - 1];
    assert data[..n - 1][..j] == data[..j] by {
      if j < n - 1 { assert init[..j] == data[..j]; }
    }
    if j < n - 1 {
      var rest := if data[n - 1].Val? then filtered[..|filtered| - 1] else filtered;
      ScatterAt(init, rest, j);
      assert init[j] == data[j];
      assert Rank(init, j) == Rank(data, j);
      if data[j].Val? {
        GatherPrefixBound(init, j);
      }
    } else {
      assert data[..j] == init;
    }
  }

  lemma {:induction false} GatherPrefixBound(data: seq<Sample>, j: nat)
    requires j < |data| && data[j].Val?
    ensures |Gather(data[..j])| < |Gather(data)|
  {
    var n := |data|;
    if j == n - 1 {
      assert data[..j] == data[..n - 1];
    } else {
      assert data[..n - 1][..j] == data[..j];
      GatherPrefixBound(data[..n - 1], j);
    }
  }

  /** Scattering the present samples back in place gives the input again. */
  lemma {:induction false} ScatterGatherIdentity(data: seq<Sample>)
    ensures Scatter(data, PresentSamples(data)) == data
  {
    if |data| > 0 {
      var n := |data|;
      var init := data[..n - 1];
      ScatterGatherIdentity(init);
      if data[n - 1].Val? {
        assert PresentSamples(data)[..|PresentSamples(data)| - 1] == PresentSamples(init);
      } else {
        assert PresentSamples(data) == PresentSamples(init);
      }
      assert data == init + [data[n - 1]];
    }
  }

  /** Gathering after scattering present-only values gives those values back. */
  lemma {:induction false} GatherScatterRoundTrip(data: seq<Sample>, filtered: seq<Sample>)
    requires |filtered| == |Gather(data)| && NoMissing(filtered)
    ensures PresentSamples(Scatter(data, filtered)) == filtered
  {
    if |data| > 0 {
      var n := |data|;
      var init := data[..n - 1];
      var out := Scatter(data, filtered);
      if data[n - 1].Val? {
        var rest := filtered[..|filtered| - 1];
        GatherScatterRoundTrip(init, rest);
        assert out[..n - 1] == Scatter(init, rest);
        assert PresentSamples(Scatter(init, rest)) == rest;
        assert Gather(out) == Gather(Scatter(init, rest)) + [filtered[|filtered| - 1].v];
        assert filtered == rest + [filtered[|filtered| - 1]];
      } else {
        GatherScatterRoundTrip(init, filtered);
        assert out[..n - 1] == Scatter(init, filtered);
        assert Gather(out) == Gather(Scatter(init, filtered));
      }
    }
  }

  /**
    `apply_bandpass_filter_preserve_nan`: an all-missing input is returned as
    is; otherwise, for a valid band, ALL present samples are concatenated,
    filtered in one call and written back to their positions. An exception,
    or a filtered sequence of the wrong length (numpy's assignment raises),
    yields the original data.
   */
  function ApplyBandpassPreserveNan(data: seq<Sample>, fs: real, low: real, high: real, order: int,
                                    bandpass: BandpassOracle): (r: Result<seq<Sample>>)
    ensures AllMissing(data) ==> r == Ok(data)
    ensures r.Err? <==> !AllMissing(data) && fs == 0.0
    ensures r.Ok? ==> |r.value| == |data|
    ensures r.Ok? ==> forall j :: 0 <= j < |data| && data[j].Missing? ==> r.value[j].Missing?
    ensures fs != 0.0 && !ValidBand(Normalize(low, fs), Normalize(high, fs)) ==> r == Ok(data)
  {
    if AllMissing(data) then Ok(data)
    // `len(valid_data) == 0` cannot hold here: it implies every sample is missing.
    else if fs == 0.0 then Err(ZeroDivision)
    else
      var lowNorm := Normalize(low, fs);
      var highNorm := Normalize(high, fs);
      if !ValidBand(lowNorm, highNorm) then Ok(data)
      else match bandpass(PresentSamples(data), BandDesign(order, lowNorm, highNorm))
        case Err(_) => Ok(data)
        case Ok(filtered) =>
          if |filtered| != |Gather(data)| then Ok(data)
          else
            ScatterKeepsGaps(data, filtered);
            Ok(Scatter(data, filtered))
  }

  lemma ScatterKeepsGaps(data: seq<Sample>, filtered: seq<Sample>)
    requires |filtered| == |Gather(data)|
    ensures forall j :: 0 <= j < |data| && data[j].Missing? ==> Scatter(data, filtered)[j].Missing?
  {
    forall j | 0 <= j < |data| && data[j].Missing?
      ensures Scatter(data, filtered)[j].Missing?
    {
      ScatterAt(data, filtered, j);
    }
  }

  /**
    When the filter runs, it is called once on the concatenation of all
    present samples (gaps closed up, not one call per contiguous run), and the
    k-th present position of the output holds the k-th filtered value.
    If that output has no missing value, the output's gaps are exactly the
    input's gaps.
   */
  lemma PreserveNanFiltersConcatenation(data: seq<Sample>, fs: real, low: real, high: real, order: int,
                                        bandpass: BandpassOracle, j: nat)
    requires !AllMissing(data) && fs != 0.0
    requires ValidBand(Normalize(low, fs), Normalize(high, fs))
    requires var out := bandpass(PresentSamples(data), BandDesign(order, Normalize(low, fs), Normalize(high, fs)));
             out.Ok? && |out.value| == |Gather(data)|
    requires j < |data| && data[j].Val?
    ensures var filtered := bandpass(PresentSamples(data), BandDesign(order, Normalize(low, fs), Normalize(high, fs))).value;
            var r := ApplyBandpassPreserveNan(data, fs, low, high, order, bandpass);
            && Rank(data, j) < |filtered|
            && r == Ok(Scatter(data, filtered))
            && r.value[j] == filtered[Rank(data, j)]
            && (NoMissing(filtered) ==> r.value[j].Val?)
  {
    var filtered := bandpass(PresentSamples(data), BandDesign(order, Normalize(low, fs), Normalize(high, fs))).value;
    ScatterAt(data, filtered, j);
  }

  /** If the filter raises, the original data comes back unchanged. */
  lemma PreserveNanFallsBackOnError(data: seq<Sample>, fs: real, low: real, high: real, order: int,
                                    bandpass: BandpassOracle)
    requires fs != 0.0
    requires bandpass(PresentSamples(data), BandDesign(order, Normalize(low, fs), Normalize(high, fs))).Err?
    ensures ApplyBandpassPreserveNan(data, fs, low, high, order, bandpass) == Ok(data)
  {
  }

  /**
    `apply_filters`: the notch, then the bandpass on the notched signal. An
    exception from the notch propagates.
   */
  function ApplyFilters(data: seq<Sample>, fs: real, notchFreq: real, low: real, high: real,
                        quality: real, order: int, notch: NotchOracle, bandpass: BandpassOracle)
    : (r: Result<seq<Sample>>)
    ensures ApplyNotch(data, fs, notchFreq, quality, notch).Err? ==>
              r == ApplyNotch(data, fs, notchFreq, quality, notch)
    ensures ApplyNotch(data, fs, notchFreq, quality, notch).Ok? ==>
              r == ApplyBandpass(ApplyNotch(data, fs, notchFreq, quality, notch).value, fs, low, high, order, bandpass)
  {
    match ApplyNotch(data, fs, notchFreq, quality, notch)
    case Err(e) => Err(e)
    case Ok(notched) => ApplyBandpass(notched, fs, low, high, order, bandpass)
  }

  /** `apply_filters` with its default arguments: 60 Hz notch with Q = 30, then 0.5-120 Hz of order 4. */
  function ApplyFiltersDefault(data: seq<Sample>, fs: real, notch: NotchOracle, bandpass: BandpassOracle)
    : Result<seq<Sample>>
  {
    ApplyFilters(data, fs, DefaultNotchHz, DefaultLowHz, DefaultHighHz, DefaultQuality, DefaultOrder, notch, bandpass)
  }

  /**
    With the default band, the bandpass stage is skipped at sampling rates up
    to 240 Hz (the 120 Hz edge reaches Nyquist), so only the notch applies;
    above 240 Hz the 0.5-120 Hz bandpass runs on the notched signal.
   */
  lemma DefaultPipelineBandpassNeedsAbove240(data: seq<Sample>, fs: real, notch: NotchOracle, bandpass: BandpassOracle)
    requires fs > 0.0
    requires notch(data, NotchDesign(60.0, 30.0, fs)).Ok?
    ensures var notched := notch(data, NotchDesign(60.0, 30.0, fs)).value;
            var out := bandpass(notched, BandDesign(4, 0.5 / (fs / 2.0), 120.0 / (fs / 2.0)));
            && (fs <= 240.0 ==> ApplyFiltersDefault(data, fs, notch, bandpass) == Ok(notched))
            && (fs > 240.0 ==> ApplyFiltersDefault(data, fs, notch, bandpass)
                               == Ok(if out.Ok? then out.value else notched))
  {
    ValidBandIffBelowNyquist(DefaultLowHz, DefaultHighHz, fs);
  }
}
