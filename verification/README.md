# RCS sleep pipeline: the epoch-based spectral core in Dafny

This project models the decision logic of the RCS sleep-analysis pipeline's
spectral core, and the pure configuration helpers of its orchestrator. The
modelled parts are:

- **Band integration** (`BandPower`, `Bands`): a PSD is scaled by the bin
  width and summed over the bins with `fmin <= f <= fmax`. It is reported in
  linear units and in decibels, with minus infinity for non-positive power.
  The Welch defaults of the whole-signal path are included, as is the
  `calculate_band_power` composition.
- **Epoch segmentation** (`EpochPsd`): the signal is cut into windows of
  `int(epoch_sec * fs)` samples and the tail is dropped. A window's PSD is
  kept only when its state slice holds a single value (the target state, when
  one is given), it has no missing sample, and the estimator does not raise.
  The returned "frequency axis" is modelled exactly as the code computes it
  (see Findings).
- **Filtering** (`Filtering`):
  - the bandpass's validity check on the Nyquist-normalised band, with
    fallback to the input;
  - the NaN-preserving bandpass, which gathers every present sample into one
    sequence, filters it once and scatters the result back;
  - the notch-then-bandpass pipeline with its defaults.
- **Band-averaged coherence** (`Coherence`): the coherence defaults, and the
  mean over the in-band bins (0.0 when there is none).
- **Sleep stages** (`SleepStages`): the two stage tables, the lookup, and the
  NREM/REM/Wake predicates.
- **Configuration** (`ConfigTree`, `PipelineConfig`):
  - YAML values as a tree, with Python dictionary get/set/update;
  - `str.replace`-based placeholder substitution over strings and nested
    trees;
  - base-data-directory selection and the default results directory;
  - the merge of `config_overrides` into a step's configuration.

The scipy kernels are function-typed parameters that return either a value
or an error, so "the call raises" is a modelled outcome. These kernels are
`scipy.signal.welch`, `coherence`, and `butter`/`iirnotch` with `filtfilt`.
`np.log10` is a total `real -> real` parameter: the source applies it only
to positive power, where it cannot raise. A missing sample (NaN) is the `Missing` constructor of `Sample`.
Python's `int()` truncation, `//` and slice clipping are written out
explicitly.

Three behaviours of the code are worth stating on their own:

- The NaN-preserving bandpass concatenates all present samples and filters
  them in one call. It does not filter each contiguous run of present samples
  separately (`Filtering.PreserveNanFiltersConcatenation`).
- Both band edges are inclusive, so a bin exactly on a shared edge counts in
  both bands. `BandPower.SharedEdgeCountedTwice` states the exact identity,
  and `BandPower.AdjacentBandsAdd` states additivity when no bin lies on the
  edge.
- A zero sampling rate makes the normalisation raise ZeroDivisionError
  before any fallback. In `apply_bandpass_filter` this happens on every
  input. In the NaN-preserving bandpass it happens only when some sample is
  present: an all-missing or empty signal is returned before the
  normalisation. The model returns `Err(ZeroDivision)` exactly in those
  cases.

## Model

| member | source | states |
|---|---|---|
| Bands.BandCountPositive | src/rcssleep/signals/bandpower.py:31 | some bin is selected exactly when some frequency lies in `[fmin, fmax]` |
| Bands.BandSumBounded | src/rcssleep/signals/coherence.py:58-65 | a sum of in-band values each in `[lo, hi]` lies between `lo` and `hi` times the number of selected bins |
| Bands.BandSumMonotone | src/rcssleep/signals/bandpower.py:31-44 | with non-negative values, widening the band never decreases the masked sum |
| Bands.SharedEdgeSum | src/rcssleep/signals/bandpower.py:31 | with inclusive edges, sums over `[f1,f2]` and `[f2,f3]` add to the sum over `[f1,f3]` plus the sum at `f2` |
| Bands.BandSumFrame | src/rcssleep/signals/bandpower.py:31-44 | values at out-of-band bins do not affect the masked sum |
| BandPower.BandPowerFromPsd | src/rcssleep/signals/bandpower.py:15-54 | linear power is `df` times the sum of psd over exactly the bins with `fmin <= f <= fmax` (`df` is the first bin spacing, 1.0 with at most one bin); dB is minus infinity exactly when linear <= 0, otherwise `10*log10(linear)`; a psd/freqs length mismatch raises |
| BandPower.EmptyBandIsNegInf | src/rcssleep/signals/bandpower.py:44-52 | a band selecting no bin gives `(0.0, -inf)` |
| BandPower.InvertedBandIsNegInf | src/rcssleep/signals/bandpower.py:31-52 | `fmin > fmax` gives `(0.0, -inf)` |
| BandPower.BandPowerMonotone | src/rcssleep/signals/bandpower.py:31-44 | for a non-negative PSD on an ascending axis, linear power is >= 0 and does not decrease when the band is widened |
| BandPower.SharedEdgeCountedTwice | src/rcssleep/signals/bandpower.py:31-44 | linear powers of `[f1,f2]` and `[f2,f3]` add up to that of `[f1,f3]` plus that of `[f2,f2]`: a bin on the shared edge counts twice |
| BandPower.AdjacentBandsAdd | src/rcssleep/signals/bandpower.py:31-44 | when no bin lies exactly on `f2`, adjacent band powers add up |
| BandPower.WelchDefaults | src/rcssleep/signals/bandpower.py:160-163 | `nperseg` defaults to `min(256, len // 4)`: 256 from 1024 samples on, otherwise the largest value with `4*nperseg <= len`; `noverlap` defaults to `nperseg // 2` |
| BandPower.CalculateBandPower | src/rcssleep/signals/bandpower.py:176-194 | an estimator error propagates; otherwise the result is band integration of the whole-signal Welch spectrum taken with the Hann window: a length mismatch raises, linear power is `df` times the in-band sum, dB is minus infinity exactly when linear <= 0 and `10*log10(linear)` otherwise |
| EpochPsd.EpochParams | src/rcssleep/signals/bandpower.py:76-81 | per-epoch `nperseg` defaults to the epoch length and `noverlap` to `nperseg // 2`; the window is Hann |
| EpochPsd.DataWindow | src/rcssleep/signals/bandpower.py:87-96 | window `i` holds exactly samples `[i*e, (i+1)*e)`, all inside the signal |
| EpochPsd.Verdicts | src/rcssleep/signals/bandpower.py:87-91 | there are `len(data) // e` windows, judged in window order |
| EpochPsd.KeptIndicesMembers | src/rcssleep/signals/bandpower.py:99-128 | a window is reported exactly when every check passes and the estimator returns |
| EpochPsd.CollectKept | src/rcssleep/signals/bandpower.py:91-128 | the collected list holds, in window order, the PSD of every kept window and nothing else; a raising window is skipped without aborting |
| EpochPsd.CollectEpochPsds | src/rcssleep/signals/bandpower.py:87-128 | the segmentation loop reports exactly the kept windows' PSDs |
| EpochPsd.PsdPerEpoch | src/rcssleep/signals/bandpower.py:57-143 | `E == 0` raises; `E < 0`, data shorter than `E` and a run with no kept window give `(None, [])`; otherwise the PSD list is reported and the axis is the second output of Welch on a zero vector (as written) |
| EpochPsd.PsdPerEpochCorrected | src/rcssleep/signals/bandpower.py:130-143 | the corrected twin: the axis is the frequency output of Welch on the zero vector |
| EpochPsd.KeptWindowIsClean | src/rcssleep/signals/bandpower.py:99-124 | every kept window is state-homogeneous (the target state when given), has exactly `E` samples, none missing, and carries the estimator's PSD of that window |
| EpochPsd.CleanWindowIsKept | src/rcssleep/signals/bandpower.py:100-124 | conversely, a window whose state labels agree (and match the target when given), with no missing sample and a succeeding estimator, is kept with the estimator's PSD |
| EpochPsd.StraddlingWindowDropped | src/rcssleep/signals/bandpower.py:99-103 | a window whose states change inside it never contributes |
| EpochPsd.TailNeverInspected | src/rcssleep/signals/bandpower.py:87-97 | data and states after the last complete window do not affect any verdict |
| EpochPsd.AxisAsWrittenIsNotFrequencyAxis | src/rcssleep/signals/bandpower.py:135-143 | the returned axis is the zero signal's PSD; it differs from the real frequency axis whenever that PSD is zero and some frequency is not |
| Filtering.ValidBandIffBelowNyquist | src/rcssleep/signals/filtering.py:46-51 | for `fs > 0` the normalised band is valid exactly when both edges lie strictly between 0 and `fs/2` |
| Filtering.ApplyBandpass | src/rcssleep/signals/filtering.py:32-61 | an invalid normalised band returns the input; a raising design or filter returns the input; otherwise the filtered signal; `fs == 0` raises |
| Filtering.NegativeLowEdgeIsNoOp | src/rcssleep/signals/filtering.py:51-53 | a negative low edge returns the input unchanged |
| Filtering.ScatterAt | src/rcssleep/signals/filtering.py:93-118 | the k-th present position receives the k-th filtered value; missing positions stay missing |
| Filtering.ScatterGatherIdentity | src/rcssleep/signals/filtering.py:93-118 | scattering the gathered present samples back gives the input |
| Filtering.GatherScatterRoundTrip | src/rcssleep/signals/filtering.py:94-118 | gathering after scattering present-only values returns those values |
| Filtering.ApplyBandpassPreserveNan | src/rcssleep/signals/filtering.py:64-124 | an all-missing input is returned as is; output has the input's length and keeps every missing position; an invalid band returns the input; only `fs == 0` raises |
| Filtering.PreserveNanFiltersConcatenation | src/rcssleep/signals/filtering.py:93-118 | the filter runs once on the concatenation of all present samples; position `j` gets the filtered value of rank `j`; the gaps of a gap-free filtered output are exactly the input's |
| Filtering.PreserveNanFallsBackOnError | src/rcssleep/signals/filtering.py:110-124 | if the filter raises, the original data is returned |
| Filtering.ApplyFilters | src/rcssleep/signals/filtering.py:127-151 | a notch error propagates; otherwise the bandpass is applied to the notched signal |
| Filtering.DefaultPipelineBandpassNeedsAbove240 | src/rcssleep/signals/filtering.py:127-151 | with the defaults (60 Hz notch, Q 30, 0.5-120 Hz, order 4), the bandpass is skipped for `fs <= 240` and runs above |
| Coherence.CoherenceArgs | src/rcssleep/signals/coherence.py:14-32 | `nperseg` defaults to 2048 and `noverlap` to `nperseg // 2` |
| Coherence.BandMean | src/rcssleep/signals/coherence.py:58-65 | 0.0 when no bin is in band (checked before `coh` is indexed); otherwise the arithmetic mean of `coh` over exactly the in-band bins; a length mismatch raises |
| Coherence.BandAveragedCoherence | src/rcssleep/signals/coherence.py:39-67 | the estimator's error propagates; otherwise the band mean of its curve |
| Coherence.BandMeanBetween | src/rcssleep/signals/coherence.py:58-65 | the band mean lies between any lower and upper bounds of the coherence values; when no bin is selected the mean is 0.0, so only then must the bounds straddle 0 |
| Coherence.BandMeanInUnitInterval | src/rcssleep/signals/coherence.py:18-65 | with values in `[0, 1]`, as documented, the band mean is in `[0, 1]` |
| Coherence.BandMeanIgnoresOutsideBins | src/rcssleep/signals/coherence.py:58-65 | coherence at out-of-band bins does not change the band mean |
| Coherence.EmptyBandAverageIsZero | src/rcssleep/signals/coherence.py:58-62 | no in-band frequency gives exactly 0.0 |
| SleepStages.MapSleepStage | src/rcssleep/utils/sleep_stages.py:26-40 | `None` selects the standard table; the label is the table's entry, and an unmapped code yields `None` |
| SleepStages.DefaultTable | src/rcssleep/utils/sleep_stages.py:6-12 | the standard table maps exactly 2..6 to N3, N2, N1, REM, Wake |
| SleepStages.NremCodes | src/rcssleep/utils/sleep_stages.py:6-46 | NREM is exactly {2,3} under the standard table and {2,3,4} under the alternative |
| SleepStages.RemCodes | src/rcssleep/utils/sleep_stages.py:6-52 | REM is exactly code 5 under both tables |
| SleepStages.WakeCodes | src/rcssleep/utils/sleep_stages.py:15-58 | Wake is exactly 6 under the standard table and {0,6} under the alternative |
| SleepStages.StagesExclusive | src/rcssleep/utils/sleep_stages.py:43-58 | NREM, REM and Wake are pairwise exclusive for every code and table |
| SleepStages.UnmappedIsNoStage | src/rcssleep/utils/sleep_stages.py:40-58 | an unmapped code satisfies none of the three predicates |
| ConfigTree.Lookup | scripts/run_pipeline.py:42-45 | a key is found exactly when it is present |
| ConfigTree.Set | scripts/run_pipeline.py:246 | after `d[key] = v` the key holds `v` and every other key is unchanged |
| ConfigTree.SetKeys | scripts/run_pipeline.py:246 | an existing key keeps its position; a new key is appended |
| ConfigTree.SetKeepsUniqueKeys | scripts/run_pipeline.py:246 | assignment keeps the keys distinct |
| ConfigTree.UpdateLookup | scripts/run_pipeline.py:244 | after `d.update(u)` a key of `u` holds `u`'s value verbatim and other keys are unchanged |
| ConfigTree.ReplaceAbsent | scripts/run_pipeline.py:165 | `replace` leaves a text without the pattern unchanged |
| ConfigTree.ReplacePlaceholderFirst | scripts/run_pipeline.py:165 | when `{key}` does not start anywhere inside the prefix, the first replacement is the placeholder right after it, and replacement continues on the rest of the text |
| ConfigTree.SubstituteTextAppend | scripts/run_pipeline.py:164-165 | the keys are applied one after the other: substituting with the table `s1 + s2` equals substituting with `s1` and then with `s2` |
| ConfigTree.SubstituteOnePlaceholder | scripts/run_pipeline.py:152-166 | a string in which `{key}` occurs exactly once becomes the string with exactly that placeholder replaced by the value |
| ConfigTree.SubstitutePlaceholders | scripts/run_pipeline.py:152-166 | non-strings are returned unchanged; strings stay strings; a string without `{`, or an empty table, leaves the value unchanged |
| ConfigTree.ReplaceSoleOccurrence | scripts/run_pipeline.py:165 | a placeholder that is the only occurrence of its pattern is replaced by the value and the rest of the text is kept |
| ConfigTree.SubstituteTwoPlaceholders | scripts/run_pipeline.py:163-166 | a template with placeholders of two different keys (such as `{results_dir}/{patient_id}`) and no other `{` gets both replaced by their values, whichever key the table lists first |
| ConfigTree.SubstituteTextIdentity | scripts/run_pipeline.py:163-166 | with no substitutions, or a text without `{`, the text is unchanged |
| ConfigTree.SubstitutionIsSequential | scripts/run_pipeline.py:164-165 | keys are applied one after another in map order: a value inserted for an earlier key is rewritten by a later key, and reversing the order changes the result |
| ConfigTree.SubstituteInDictKeepsShape | scripts/run_pipeline.py:169-178 | same dictionary keys in the same order, same list lengths, unchanged non-string leaves; only string leaves are rewritten |
| ConfigTree.SubstituteInDictEmpty | scripts/run_pipeline.py:169-178 | with no substitutions the tree is unchanged |
| PipelineConfig.SelectedBaseDataDir | scripts/run_pipeline.py:29-50 | an empty or absent config gives `''`; a missing selector, or the selector `base_data_dir`, gives that key's value; the profiler selector gives that key's value; any other selector is returned verbatim |
| PipelineConfig.SelectionComesFromConfig | scripts/run_pipeline.py:39-50 | the selection is `''`, a stored directory value, or the selector itself |
| PipelineConfig.DefaultResultsDir | scripts/run_pipeline.py:53-72 | the inline selection agrees with `get_selected_base_data_dir`: an empty selection gives `<project root>/results`, a non-empty string gives `<selection>/results`, any other truthy value raises |
| PipelineConfig.Join | scripts/run_pipeline.py:70 | `Path(base) / name` starts with `base` and ends in the component `/name` |
| PipelineConfig.ResultsDirEndsInResults | scripts/run_pipeline.py:69-72 | every successful result ends in `/results` |
| PipelineConfig.MergeEntries | scripts/run_pipeline.py:242-246 | keys absent from the overrides keep their values; no key is lost; every override key is present afterwards |
| PipelineConfig.MergeEntriesLookup | scripts/run_pipeline.py:242-246 | with distinct override keys, each overridden key holds its merged value: a shallow verbatim update of an existing dict, otherwise the substituted override |
| PipelineConfig.MergeEntriesKeepsUniqueKeys | scripts/run_pipeline.py:242-246 | merging keeps the configuration's keys distinct |
| PipelineConfig.ApplyOverrides | scripts/run_pipeline.py:235-246 | no `config_overrides`, no entry for this step or a `None` entry leave the config unchanged; a non-dict, non-None entry raises; no key is ever removed |
| PipelineConfig.ApplyDictOverrides | scripts/run_pipeline.py:237-246 | a dict entry for this step is applied by the merge loop |
| PipelineConfig.DictOverrideSkipsSubstitution | scripts/run_pipeline.py:243-246 | a dict merged into an existing dict keeps its placeholders literally; the same override for a non-dict key is substituted |

## Left out

- scipy numerics (`welch`, `coherence`, `butter`, `iirnotch`, `filtfilt`): floating-point library code, modelled as function parameters that return a value or an error.
- `np.log10`: floating-point library code, modelled as a total `real -> real` parameter, because the source applies it only to positive power.
- IEEE arithmetic: reals are exact. NaN is the `Missing` constructor, and infinities from a division by a numpy zero are not modelled.
- numpy broadcasting in `filtered_data[valid_mask] = filtered_valid`: a filtered sequence of the wrong length counts as a raise, which returns the original data. The length-1 broadcast case is not modelled.
- `str(value)` of non-string substitution values: substitutions are modelled as already-rendered strings.
- pathlib normalisation: `Path(base) / 'results'` is modelled as joining with one `/`, absorbing a single trailing separator. Repeated separators and `.` components are not normalised.
- Non-mapping configurations: a YAML file that loads as a list, scalar or `None` is not modelled. Nor is a main configuration that is a non-empty value other than a mapping.
- Coherence.CoherenceArgs: an explicit `nperseg=None` passed by a caller (which makes `None // 2` raise) is not modelled; `None` means the parameter was omitted.
- `load_and_substitute_config` other than its override step: reading the configuration files and the model-path glob are I/O. Building the substitution map is pure lookups in the main configuration, but it is not modelled, because the merge is modelled as a function of the already-substituted configuration and takes the substitution table as a parameter.
- `auto_detect_plot_input`, `write_temp_config`, `run_script`, `main` and the other scripts: filesystem and subprocess orchestration.
- Logger warnings: side effects only.
- src/rcssleep/io/loaders.py and src/rcssleep/utils/logging.py: file I/O and logging configuration.
- The source has no per-state aggregation of epoch PSDs, so none is modelled.

## Findings

| source | as written | input that shows it | evidently intended | confidence | as-written member | corrected member |
|---|---|---|---|---|---|---|
| src/rcssleep/signals/bandpower.py:135-143 | `_, freqs = signal.welch(np.zeros(E), ...)` keeps the second output, the PSD of a zero vector, and returns it as the frequency axis | any call in which at least one window is kept; Welch of a zero signal has an all-zero PSD while its frequency axis holds positive frequencies, so the returned "axis" is all zeros | `freqs, _ = signal.welch(...)`, returning the frequency axis | high, not executed | EpochPsd.PsdPerEpoch, EpochPsd.AxisAsWrittenIsNotFrequencyAxis | EpochPsd.PsdPerEpochCorrected |
