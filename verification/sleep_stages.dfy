/**
  Sleep-stage codes: the two stage tables and the lookup and classification
  predicates over them. A mapping is a dictionary from stage code to label;
  `None` selects the standard table.
 */
module SleepStages {
  import opened Common

  /** The standard table. */
  const StageMap: map<int, string> := map[2 := "N3", 3 := "N2", 4 := "N1", 5 := "REM", 6 := "Wake"]

  /** The alternative table; code 4 is also N2 there. */
  const StageMapAlt: map<int, string> :=
    map[0 := "Wake", 1 := "N1", 2 := "N2", 3 := "N3", 4 := "N2", 5 := "REM", 6 := "Wake"]

  /** `map_sleep_stage`: the label of `stage`, or `None` when the table has no entry. */
  function MapSleepStage(stage: int, mapping: Option<map<int, string>>): (r: Option<string>)
    ensures var m := if mapping.None? then StageMap else mapping.value;
            (r.Some? <==> stage in m) && (r.Some? ==> r.value == m[stage])
  {
    var m := if mapping.Some? then mapping.value else StageMap;
    if stage in m then Some(m[stage]) else None
  }

  /** `is_nrem_stage`: the label is N2 or N3. */
  predicate IsNrem(stage: int, mapping: Option<map<int, string>>)
  {
    var name := MapSleepStage(stage, mapping);
    name == Some("N2") || name == Some("N3")
  }

  /** `is_rem_stage`: the label is REM. */
  predicate IsRem(stage: int, mapping: Option<map<int, string>>)
  {
    MapSleepStage(stage, mapping) == Some("REM")
  }

  /** `is_wake_stage`: the label is Wake. */
  predicate IsWake(stage: int, mapping: Option<map<int, string>>)
  {
    MapSleepStage(stage, mapping) == Some("Wake")
  }

  /** The standard table maps exactly the codes 2..6, as N3, N2, N1, REM and Wake. */
  lemma DefaultTable(stage: int)
    ensures MapSleepStage(stage, None).Some? <==> 2 <= stage <= 6
    ensures stage == 2 ==> MapSleepStage(stage, None) == Some("N3")
    ensures stage == 3 ==> MapSleepStage(stage, None) == Some("N2")
    ensures stage == 4 ==> MapSleepStage(stage, None) == Some("N1")
    ensures stage == 5 ==> MapSleepStage(stage, None) == Some("REM")
    ensures stage == 6 ==> MapSleepStage(stage, None) == Some("Wake")
  {
  }

  /** NREM under the standard table is exactly codes 2 and 3; under the alternative, 2, 3 and 4. */
  lemma NremCodes(stage: int)
    ensures IsNrem(stage, None) <==> stage == 2 || stage == 3
    ensures IsNrem(stage, Some(StageMapAlt)) <==> 2 <= stage <= 4
  {
  }

  /** REM is code 5 under both tables. */
  lemma RemCodes(stage: int)
    ensures IsRem(stage, None) <==> stage == 5
    ensures IsRem(stage, Some(StageMapAlt)) <==> stage == 5
  {
  }

  /** Wake is code 6 under the standard table and codes 0 and 6 under the alternative. */
  lemma WakeCodes(stage: int)
    ensures IsWake(stage, None) <==> stage == 6
    ensures IsWake(stage, Some(StageMapAlt)) <==> stage == 0 || stage == 6
  {
  }

  /** For every code and every table, at most one of NREM, REM and Wake holds. */
  lemma StagesExclusive(stage: int, mapping: Option<map<int, string>>)
    ensures !(IsNrem(stage, mapping) && IsRem(stage, mapping))
    ensures !(IsNrem(stage, mapping) && IsWake(stage, mapping))
    ensures !(IsRem(stage, mapping) && IsWake(stage, mapping))
  {
  }

  /** A code the table does not map is neither NREM, REM nor Wake. */
  lemma UnmappedIsNoStage(stage: int, mapping: Option<map<int, string>>)
    requires MapSleepStage(stage, mapping).None?
    ensures !IsNrem(stage, mapping) && !IsRem(stage, mapping) && !IsWake(stage, mapping)
  {
  }
}
