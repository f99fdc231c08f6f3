/**
  The epoch segmenter of `calculate_psd_per_epoch`: cut the signal into
  non-overlapping windows of `int(epoch_sec * fs)` samples, drop the tail,
  keep a window only when its state slice holds one value (the target state
  when one is given), it has no missing sample and the estimator does not
  raise, and return the kept PSDs in window order.
 */
module EpochPsd {
  import opened Common
  import opened BandPower

  /** `(freqs, psd_list)`; `freqs` is `None` when no window survived. */
  datatype EpochPsds = EpochPsds(axis: Option<seq<real>>, psds: seq<seq<real>>)

  /** The verdict on one window: why it was dropped, or the PSD it contributed. */
  datatype Verdict =
    | Transition                  // more than one distinct state value
    | OtherState                  // not the requested target state
    | HasMissing                  // contains a NaN sample
    | EstimatorRaised(error: Error)
    | Kept(psd: seq<real>)

  /** `int(epoch_sec * fs)`: samples per epoch. */
  function EpochSamples(epochSec: real, fs: real): int
  {
    Trunc(epochSec * fs)
  }

  /** Per-epoch Welch arguments: `nperseg` defaults to the epoch length, `noverlap` to half of it. */
  function EpochParams(e: int, fs: real, nperseg: Option<int>, noverlap: Option<int>): (p: WelchParams)
    ensures p.fs == fs && p.window == Hann
    ensures p.nperseg == (if nperseg.Some? then nperseg.value else e)
    ensures noverlap.Some? ==> p.noverlap == noverlap.value
    ensures noverlap.None? ==> 2 * p.noverlap <= p.nperseg < 2 * p.noverlap + 2
  {
    var seg := if nperseg.Some? then nperseg.value else e;
    WelchParams(fs, seg, if noverlap.Some? then noverlap.value else FloorDiv(seg, 2), Hann)
  }

  /** Python's `s[a:b]` for `0 <= a <= b`: the slice is clipped at the end of `s`. */
  function PySlice<T>(s: seq<T>, a: nat, b: nat): (r: seq<T>)
    requires a <= b
    ensures |r| <= b - a
    ensures b <= |s| ==> |r| == b - a
    ensures forall k :: 0 <= k < |r| ==> a + k < |s| && r[k] == s[a + k]
  {
    if b <= |s| then s[a..b] else if a <= |s| then s[a..] else []
  }

  /** `np.unique` as a set: the distinct values of `s`. */
  function Distinct<L>(s: seq<L>): set<L>
  {
    set x | x in s
  }

  /** Window `i` of `len / e` complete windows ends inside the signal. */
  lemma WindowInRange(len: nat, e: nat, i: nat)
    requires e > 0 && i < len / e
    ensures i * e + e <= len
  {
    assert i + 1 <= len / e;
    assert (i + 1) * e <= (len / e) * e;
  }

  /** Data shorter than one epoch holds no complete window. */
  lemma SmallDataNoWindow(len: nat, e: int)
    requires 0 <= len < e
    ensures len / e == 0
  {
  }

  /** The signal window `[i*e, (i+1)*e)`. */
  function DataWindow(data: seq<Sample>, e: nat, i: nat): (w: seq<Sample>)
    requires e > 0 && i < |data| / e
    ensures |w| == e
    ensures forall k :: 0 <= k < e ==> i * e + k < |data| && w[k] == data[i * e + k]
  {
    WindowInRange(|data|, e, i);
    data[i * e .. i * e + e]
  }

  /** The state window over the same indices (clipped when the states are shorter). */
  function StateWindow<L>(states: seq<L>, e: nat, i: nat): seq<L>
  {
    PySlice(states, i * e, i * e + e)
  }

  /**
    The checks of the loop body, in source order, on one window: its state
    slice `ws` and its samples `w`.
   */
  function Classify<L(==)>(ws: seq<L>, w: seq<Sample>, target: Option<L>,
                           welch: WelchOracle, params: WelchParams): Verdict
  {
    if |Distinct(ws)| > 1 then Transition
    else if target.Some? && (|ws| == 0 || ws[0] != target.value) then OtherState
    else if !NoMissing(w) then HasMissing
    else match welch(w, params)
      case Err(err) => EstimatorRaised(err)
      case Ok(sp) => Kept(sp.psd)
  }

  /** The verdict on window `i`. */
  function Judge<L(==)>(data: seq<Sample>, states: seq<L>, e: nat, i: nat, target: Option<L>,
                        welch: WelchOracle, params: WelchParams): Verdict
    requires e > 0 && i < |data| / e
  {
    Classify(StateWindow(states, e, i), DataWindow(data, e, i), target, welch, params)
  }

  /** The verdicts on all `|data| / e` complete windows, in window order. */
  function Verdicts<L(==)>(data: seq<Sample>, states: seq<L>, e: nat, target: Option<L>,
                           welch: WelchOracle, params: WelchParams): (vs: seq<Verdict>)
    requires e > 0
    ensures |vs| == |data| / e
    ensures forall i :: 0 <= i < |vs| ==> vs[i] == Judge(data, states, e, i, target, welch, params)
  {
    seq(|data| / e, i requires 0 <= i < |data| / e => Judge(data, states, e, i, target, welch, params))
  }

  /** Reference definition: the positions of the `Kept` verdicts, in increasing order. */
  function KeptIndices(vs: seq<Verdict>): (r: seq<nat>)
    ensures |r| <= |vs|
    ensures forall k :: 0 <= k < |r| ==> r[k] < |vs| && vs[r[k]].Kept?
    ensures forall k, l :: 0 <= k < l < |r| ==> r[k] < r[l]
  {
    if |vs| == 0 then []
    else KeptIndices(vs[..|vs| - 1]) + (if vs[|vs| - 1].Kept? then [|vs| - 1] else [])
  }

  /** `psds` lists, in order, the PSD carried by every `Kept` verdict of `vs`. */
  predicate Reports(psds: seq<seq<real>>, vs: seq<Verdict>)
  {
    var kept := KeptIndices(vs);
    && |psds| == |kept|
    && forall k :: 0 <= k < |kept| ==> vs[kept[k]] == Kept(psds[k])
  }

  /** `np.zeros(e)`. */
  function Zeros(e: nat): seq<Sample>
  {
    seq(e, _ => Val(0.0))
  }

  /**
    The "frequency axis" as the source computes it: `_, freqs = signal.welch(zeros)`
    unpacks the SECOND component, which is the PSD of a zero signal.
   */
  function AxisAsWritten(welch: WelchOracle, e: nat, params: WelchParams): Result<seq<real>>
  {
    match welch(Zeros(e), params)
    case Err(err) => Err(err)
    case Ok(sp) => Ok(sp.psd)
  }

  /** The evidently intended axis: the FIRST component of the same call. */
  function AxisCorrected(welch: WelchOracle, e: nat, params: WelchParams): Result<seq<real>>
  {
    match welch(Zeros(e), params)
    case Err(err) => Err(err)
    case Ok(sp) => Ok(sp.freqs)
  }

  /** Reporting extends window by window: one more verdict adds its PSD exactly when it is `Kept`. */
  lemma ReportsExtend(psds: seq<seq<real>>, vs: seq<Verdict>, v: Verdict)
    requires Reports(psds, vs)
    ensures Reports(psds + (if v.Kept? then [v.psd] else []), vs + [v])
  {
    assert (vs + [v])[..|vs + [v]| - 1] == vs;
    var kept := KeptIndices(vs);
    forall k | 0 <= k < |kept|
      ensures (vs + [v])[kept[k]] == vs[kept[k]]
    {
    }
  }

  /** Visits the verdicts in order and collects the PSD of every kept window. */
  method CollectKept(vs: seq<Verdict>) returns (psds: seq<seq<real>>)
    ensures Reports(psds, vs)
  {
    psds := [];
    var i := 0;
    while i < |vs|
      invariant 0 <= i <= |vs|
      invariant Reports(psds, vs[..i])
    {
      ReportsExtend(psds, vs[..i], vs[i]);
      assert vs[..i + 1] == vs[..i] + [vs[i]];
      if vs[i].Kept? {
        psds := psds + [vs[i].psd];
      }
      i := i + 1;
    }
    assert vs[..i] == vs;
  }

  /**
    The segmentation loop: visits windows `0 .. |data|/e - 1` and collects the
    PSD of every kept window. A raising window is skipped; the loop goes on.
   */
  method CollectEpochPsds<L(==)>(data: seq<Sample>, states: seq<L>, e: nat, target: Option<L>,
                                 welch: WelchOracle, params: WelchParams)
    returns (psds: seq<seq<real>>)
    requires e > 0
    ensures Reports(psds, Verdicts(data, states, e, target, welch, params))
  {
    psds := CollectKept(Verdicts(data, states, e, target, welch, params));
  }

  /**
    `calculate_psd_per_epoch` as written, including its `_, freqs = signal.welch(...)` axis.
    `epoch_samples == 0` makes `len(data) // epoch_samples` raise; a negative
    epoch length yields no window at all.
   */
  method PsdPerEpoch<L(==)>(data: seq<Sample>, states: seq<L>, fs: real, epochSec: real,
                            target: Option<L>, nperseg: Option<int>, noverlap: Option<int>,
                            welch: WelchOracle)
    returns (r: Result<EpochPsds>)
    ensures var e := EpochSamples(epochSec, fs);
            (e == 0 ==> r == Err(ZeroDivision))
            && (r.Err? ==> e == 0 || (e > 0 && AxisAsWritten(welch, e, EpochParams(e, fs, nperseg, noverlap)).Err?))
    ensures var e := EpochSamples(epochSec, fs);
            e < 0 || (e > 0 && |data| < e) ==> r == Ok(EpochPsds(None, []))
    ensures r.Ok? ==> (r.value.axis.None? <==> r.value.psds == [])
    ensures var e := EpochSamples(epochSec, fs);
            e > 0 ==>
              var params := EpochParams(e, fs, nperseg, noverlap);
              var vs := Verdicts(data, states, e, target, welch, params);
              var kept := KeptIndices(vs);
              && (kept == [] ==> r == Ok(EpochPsds(None, [])))
              && (kept != [] ==> (r.Ok? <==> AxisAsWritten(welch, e, params).Ok?))
              && (r.Ok? && kept != [] ==>
                    && r.value.axis == Some(AxisAsWritten(welch, e, params).value)
                    && Reports(r.value.psds, vs))
  {
    var e := EpochSamples(epochSec, fs);
    var params := EpochParams(e, fs, nperseg, noverlap);
    if |data| < e {
      SmallDataNoWindow(|data|, e);
      return Ok(EpochPsds(None, []));
    }
    if e == 0 {
      return Err(ZeroDivision);
    }
    if e < 0 {
      // `len(data) // e` is zero or negative, so `range` is empty.
      return Ok(EpochPsds(None, []));
    }
    var psds := CollectEpochPsds(data, states, e, target, welch, params);
    if |psds| == 0 {
      return Ok(EpochPsds(None, []));
    }
    match AxisAsWritten(welch, e, params)
    case Err(err) => r := Err(err);
    case Ok(axis) => r := Ok(EpochPsds(Some(axis), psds));
  }

  /** The same routine with the evidently intended frequency axis. */
  method PsdPerEpochCorrected<L(==)>(data: seq<Sample>, states: seq<L>, fs: real, epochSec: real,
                                     target: Option<L>, nperseg: Option<int>, noverlap: Option<int>,
                                     welch: WelchOracle)
    returns (r: Result<EpochPsds>)
    ensures var e := EpochSamples(epochSec, fs);
            e > 0 ==>
              var params := EpochParams(e, fs, nperseg, noverlap);
              var vs := Verdicts(data, states, e, target, welch, params);
              var kept := KeptIndices(vs);
              && (kept == [] ==> r == Ok(EpochPsds(None, [])))
              && (kept != [] && welch(Zeros(e), params).Ok? ==>
                    r.Ok? && r.value.axis == Some(welch(Zeros(e), params).value.freqs)
                    && Reports(r.value.psds, vs))
  {
    var e := EpochSamples(epochSec, fs);
    var params := EpochParams(e, fs, nperseg, noverlap);
    if |data| < e {
      SmallDataNoWindow(|data|, e);
      return Ok(EpochPsds(None, []));
    }
    if e == 0 {
      return Err(ZeroDivision);
    }
    if e < 0 {
      return Ok(EpochPsds(None, []));
    }
    var psds := CollectEpochPsds(data, states, e, target, welch, params);
    if |psds| == 0 {
      return Ok(EpochPsds(None, []));
    }
    match AxisCorrected(welch, e, params)
    case Err(err) => r := Err(err);
    case Ok(axis) => r := Ok(EpochPsds(Some(axis), psds));
  }

  /** A position is reported exactly when its verdict is `Kept`. */
  lemma {:induction false} KeptIndicesMembers(vs: seq<Verdict>, i: nat)
    ensures i in KeptIndices(vs) <==> i < |vs| && vs[i].Kept?
  {
    if |vs| > 0 {
      KeptIndicesMembers(vs[..|vs| - 1], i);
    }
  }

  /** Two different values in a sequence make at least two distinct values. */
  lemma TwoValuesTwoDistinct<L>(s: seq<L>, a: nat, b: nat)
    requires a < |s| && b < |s| && s[a] != s[b]
    ensures |Distinct(s)| > 1
  {
    var d := Distinct(s);
    assert {s[a], s[b]} <= d;
    assert |{s[a], s[b]}| == 2;
    SubsetCard({s[a], s[b]}, d);
  }

  lemma {:induction false} SubsetCard<T>(x: set<T>, y: set<T>)
    requires x <= y
    ensures |x| <= |y|
  {
    if x != {} {
      var t :| t in x;
      SubsetCard(x - {t}, y - {t});
    }
  }

  /**
    Every kept window is state-homogeneous (its state slice holds one value,
    the target when one is given), has exactly `e` samples, none of them
    missing, and its PSD is the estimator's output on exactly that window.
   */
  lemma KeptWindowIsClean<L>(data: seq<Sample>, states: seq<L>, e: nat, i: nat,
                                 target: Option<L>, welch: WelchOracle, params: WelchParams)
    requires e > 0 && i < |data| / e
    requires Judge(data, states, e, i, target, welch, params).Kept?
    ensures var ws := StateWindow(states, e, i);
            && (forall a, b :: 0 <= a < |ws| && 0 <= b < |ws| ==> ws[a] == ws[b])
            && (target.Some? ==> |ws| > 0 && forall a :: 0 <= a < |ws| ==> ws[a] == target.value)
    ensures |DataWindow(data, e, i)| == e && NoMissing(DataWindow(data, e, i))
    ensures welch(DataWindow(data, e, i), params)
            == Ok(Spectrum(welch(DataWindow(data, e, i), params).value.freqs,
                           Judge(data, states, e, i, target, welch, params).psd))
  {
    var ws := StateWindow(states, e, i);
    forall a, b | 0 <= a < |ws| && 0 <= b < |ws|
      ensures ws[a] == ws[b]
    {
      if ws[a] != ws[b] {
        TwoValuesTwoDistinct(ws, a, b);
      }
    }
  }

  /**
    Conversely, a state-homogeneous window (on the target state when one is
    given) without missing samples on which the estimator succeeds is kept,
    with the estimator's PSD.
   */
  lemma CleanWindowIsKept<L>(data: seq<Sample>, states: seq<L>, e: nat, i: nat,
                             target: Option<L>, welch: WelchOracle, params: WelchParams)
    requires e > 0 && i < |data| / e
    requires var ws := StateWindow(states, e, i);
             && (forall a, b :: 0 <= a < |ws| && 0 <= b < |ws| ==> ws[a] == ws[b])
             && (target.Some? ==> |ws| > 0 && ws[0] == target.value)
    requires NoMissing(DataWindow(data, e, i))
    requires welch(DataWindow(data, e, i), params).Ok?
    ensures Judge(data, states, e, i, target, welch, params) == Kept(welch(DataWindow(data, e, i), params).value.psd)
    ensures i in KeptIndices(Verdicts(data, states, e, target, welch, params))
  {
    var ws := StateWindow(states, e, i);
    if |ws| > 0 {
      assert Distinct(ws) <= {ws[0]};
      SubsetCard(Distinct(ws), {ws[0]});
    } else {
      assert Distinct(ws) == {};
    }
    KeptIndicesMembers(Verdicts(data, states, e, target, welch, params), i);
  }

  /**
    A window whose state labels change anywhere inside it (for instance at
    sample `e*k + 1` for window `k`) never contributes a PSD.
   */
  lemma StraddlingWindowDropped<L>(data: seq<Sample>, states: seq<L>, e: nat,
                                   target: Option<L>, welch: WelchOracle, params: WelchParams,
                                   i: nat, a: nat, b: nat)
    requires e > 0 && i < |data| / e
    requires a < e && b < e && i * e + e <= |states|
    requires states[i * e + a] != states[i * e + b]
    ensures i !in KeptIndices(Verdicts(data, states, e, target, welch, params))
  {
    var ws := StateWindow(states, e, i);
    assert ws[a] == states[i * e + a] && ws[b] == states[i * e + b];
    TwoValuesTwoDistinct(ws, a, b);
    KeptIndicesMembers(Verdicts(data, states, e, target, welch, params), i);
  }

  /**
    Only samples before `n * e` are inspected, where `n` is the number of
    complete windows: changing the data or the states after the last complete
    window (or appending to them) changes no verdict on the first `n` windows.
   */
  lemma TailNeverInspected<L>(data: seq<Sample>, data': seq<Sample>,
                              states: seq<L>, states': seq<L>, e: nat, n: nat,
                              target: Option<L>, welch: WelchOracle, params: WelchParams)
    requires e > 0 && n <= |data| / e && n <= |data'| / e
    requires n * e <= |data| && n * e <= |data'| && n * e <= |states| && n * e <= |states'|
    requires forall k :: 0 <= k < n * e ==> data[k] == data'[k] && states[k] == states'[k]
    ensures Verdicts(data, states, e, target, welch, params)[..n]
            == Verdicts(data', states', e, target, welch, params)[..n]
  {
    var vs, vs' := Verdicts(data, states, e, target, welch, params), Verdicts(data', states', e, target, welch, params);
    forall i | 0 <= i < n
      ensures vs[i] == vs'[i]
    {
      WindowBelow(i, n, e);
      SameVerdict(data, data', states, states', e, i, n * e, target, welch, params);
    }
    assert vs[..n] == vs'[..n];
  }

  lemma WindowBelow(i: nat, n: nat, e: nat)
    requires i < n
    ensures i * e + e <= n * e
  {
    assert (i + 1) * e <= n * e;
  }

  /** Two signals that agree below `bound` get the same verdict on each window below `bound`. */
  lemma SameVerdict<L>(data: seq<Sample>, data': seq<Sample>, states: seq<L>, states': seq<L>,
                       e: nat, m: nat, bound: nat, target: Option<L>, welch: WelchOracle, params: WelchParams)
    requires e > 0 && m < |data| / e && m < |data'| / e
    requires m * e + e <= bound && bound <= |data| && bound <= |data'|
    requires bound <= |states| && bound <= |states'|
    requires forall k :: 0 <= k < bound ==> data[k] == data'[k] && states[k] == states'[k]
    ensures Judge(data, states, e, m, target, welch, params) == Judge(data', states', e, m, target, welch, params)
  {
    WindowsAgree(data, data', states, states', e, m, bound);
  }

  /** Two signals that agree below `bound` have the same windows below `bound`. */
  lemma WindowsAgree<L>(data: seq<Sample>, data': seq<Sample>, states: seq<L>, states': seq<L>,
                        e: nat, m: nat, bound: nat)
    requires e > 0 && m < |data| / e && m < |data'| / e
    requires m * e + e <= bound && bound <= |data| && bound <= |data'|
    requires bound <= |states| && bound <= |states'|
    requires forall k :: 0 <= k < bound ==> data[k] == data'[k] && states[k] == states'[k]
    ensures DataWindow(data, e, m) == DataWindow(data', e, m)
    ensures StateWindow(states, e, m) == StateWindow(states', e, m)
  {
    var w, w' := DataWindow(data, e, m), DataWindow(data', e, m);
    assert forall k :: 0 <= k < e ==> w[k] == w'[k];
    var ws, ws' := StateWindow(states, e, m), StateWindow(states', e, m);
    assert forall k :: 0 <= k < e ==> ws[k] == ws'[k];
  }

  /**
    The axis unpacked by `_, freqs = signal.welch(...)` is the PSD of a zero signal, not the frequency axis:
    whenever the estimator reports an all-zero density for the zero signal and
    some non-zero frequency, the two differ.
   */
  lemma AxisAsWrittenIsNotFrequencyAxis(welch: WelchOracle, e: nat, params: WelchParams, j: nat)
    requires welch(Zeros(e), params).Ok?
    requires var sp := welch(Zeros(e), params).value;
             (forall k :: 0 <= k < |sp.psd| ==> sp.psd[k] == 0.0) && j < |sp.freqs| && sp.freqs[j] != 0.0
    ensures AxisAsWritten(welch, e, params) != AxisCorrected(welch, e, params)
    ensures AxisCorrected(welch, e, params) == Ok(welch(Zeros(e), params).value.freqs)
  {
    var sp := welch(Zeros(e), params).value;
    if |sp.psd| == |sp.freqs| {
      assert sp.psd[j] != sp.freqs[j];
    }
  }
}
