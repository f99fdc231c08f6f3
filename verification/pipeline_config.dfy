/**
  The orchestrator's configuration helpers: which base data directory the
  main configuration selects (`get_selected_base_data_dir`), the default
  results directory (`get_default_results_dir`), and the merge of a step's
  `config_overrides` into its loaded configuration (the last step of
  `load_and_substitute_config`).
 */
module PipelineConfig {
  import opened Common
  import opened ConfigTree

  const SelectorKey := "use_base_data_dir"
  const BaseDirKey := "base_data_dir"
  const ProfilerDirKey := "base_data_dir_sleep_profiler"
  const OverridesKey := "config_overrides"

  /** `if not main_config`: no configuration, or an empty one. */
  predicate Empty(cfg: Option<seq<Entry>>)
  {
    cfg.None? || cfg.value == []
  }

  /**
    `get_selected_base_data_dir`: the selector names one of the two directory
    keys (missing key: empty string) or is itself the path.
   */
  function SelectedBaseDataDir(cfg: Option<seq<Entry>>): (r: Value)
    ensures Empty(cfg) ==> r == Str("")
    ensures !Empty(cfg) && !HasKey(cfg.value, SelectorKey) ==> r == Get(cfg.value, BaseDirKey, Str(""))
    ensures !Empty(cfg) && Lookup(cfg.value, SelectorKey) == Some(Str(BaseDirKey)) ==>
              r == Get(cfg.value, BaseDirKey, Str(""))
    ensures !Empty(cfg) && Lookup(cfg.value, SelectorKey) == Some(Str(ProfilerDirKey)) ==>
              r == Get(cfg.value, ProfilerDirKey, Str(""))
    ensures !Empty(cfg) && Lookup(cfg.value, SelectorKey).Some? &&
            Lookup(cfg.value, SelectorKey).value !in {Str(BaseDirKey), Str(ProfilerDirKey)} ==>
              r == Lookup(cfg.value, SelectorKey).value
  {
    if Empty(cfg) then Str("")
    else
      var selector := Get(cfg.value, SelectorKey, Str(BaseDirKey));
      if selector == Str(BaseDirKey) then Get(cfg.value, BaseDirKey, Str(""))
      else if selector == Str(ProfilerDirKey) then Get(cfg.value, ProfilerDirKey, Str(""))
      else selector
  }

  /** The selected directory is empty, a value stored in the configuration, or the selector itself. */
  lemma SelectionComesFromConfig(cfg: Option<seq<Entry>>)
    ensures var r := SelectedBaseDataDir(cfg);
            || r == Str("")
            || Lookup(cfg.value, BaseDirKey) == Some(r)
            || Lookup(cfg.value, ProfilerDirKey) == Some(r)
            || Lookup(cfg.value, SelectorKey) == Some(r)
  {
  }

  /**
    `Path(base) / name`, with a single trailing separator absorbed: the path
    starts with `base` and its last component is `name`.
   */
  function Join(base: string, name: string): (p: string)
    ensures |p| > |name| && p[|p| - |name| - 1..] == "/" + name
    ensures |p| >= |base| && p[..|base|] == base
  {
    if |base| > 0 && base[|base| - 1] == '/' then base + name else base + "/" + name
  }

  /**
    `get_default_results_dir`: `<selection>/results`, or `<project root>/results`
    when the configuration or the selection is empty. The function repeats
    the selection inline, as the orchestrator does; a truthy selection that
    is not a string makes `Path` raise a TypeError.
   */
  function DefaultResultsDir(cfg: Option<seq<Entry>>, projectRoot: string): (r: Result<string>)
    ensures var sel := SelectedBaseDataDir(cfg);
            && (!Truthy(sel) ==> r == Ok(Join(projectRoot, "results")))
            && (Truthy(sel) && sel.Str? ==> r == Ok(Join(sel.s, "results")))
            && (Truthy(sel) && !sel.Str? ==> r == Err(TypeMismatch))
  {
    if Empty(cfg) then Ok(Join(projectRoot, "results"))
    else
      var selector := Get(cfg.value, SelectorKey, Str(BaseDirKey));
      var selected :=
        if selector == Str(BaseDirKey) then Get(cfg.value, BaseDirKey, Str(""))
        else if selector == Str(ProfilerDirKey) then Get(cfg.value, ProfilerDirKey, Str(""))
        else selector;
      if Truthy(selected) then
        if selected.Str? then Ok(Join(selected.s, "results")) else Err(TypeMismatch)
      else Ok(Join(projectRoot, "results"))
  }

  /** Every successful results directory ends in a `results` component. */
  lemma ResultsDirEndsInResults(cfg: Option<seq<Entry>>, projectRoot: string)
    requires DefaultResultsDir(cfg, projectRoot).Ok?
    ensures var p := DefaultResultsDir(cfg, projectRoot).value;
            |p| >= 8 && p[|p| - 8..] == "/results"
  {
  }

  /**
    The value one override entry leaves at `key`: a dictionary override of an
    existing dictionary is merged into it shallowly and verbatim (no
    placeholder substitution); any other override replaces the key with its
    substituted value.
   */
  function MergedValue(config: seq<Entry>, key: string, value: Value, subs: seq<(string, string)>): Value
  {
    match Lookup(config, key)
    case Some(Dict(existing)) =>
      if value.Dict? then Dict(Update(existing, value.entries)) else SubstituteInDict(value, subs)
    case _ => SubstituteInDict(value, subs)
  }

  /** The override loop: each entry of `overrides`, in order, applied to the configuration. */
  function MergeEntries(config: seq<Entry>, overrides: seq<Entry>, subs: seq<(string, string)>): (r: seq<Entry>)
    ensures forall k :: !HasKey(overrides, k) ==> Lookup(r, k) == Lookup(config, k)
    ensures forall k :: HasKey(config, k) || HasKey(overrides, k) ==> HasKey(r, k)
    decreases |overrides|
  {
    if |overrides| == 0 then config
    else
      var o := overrides[0];
      var config' := Set(config, o.key, MergedValue(config, o.key, o.val, subs));
      assert Keys(overrides) == [o.key] + Keys(overrides[1..]);
      MergeEntries(config', overrides[1..], subs)
  }

  /** With distinct override keys, each overridden key ends up holding its merged value. */
  lemma {:induction false} MergeEntriesLookup(config: seq<Entry>, overrides: seq<Entry>, subs: seq<(string, string)>,
                                              k: string)
    requires UniqueKeys(overrides) && HasKey(overrides, k)
    ensures Lookup(MergeEntries(config, overrides, subs), k) ==
            Some(MergedValue(config, k, Lookup(overrides, k).value, subs))
    decreases |overrides|
  {
    var o := overrides[0];
    var config' := Set(config, o.key, MergedValue(config, o.key, o.val, subs));
    assert Keys(overrides) == [o.key] + Keys(overrides[1..]);
    forall j | 0 <= j < |overrides[1..]|
      ensures Keys(overrides[1..])[j] != o.key
    {
      assert overrides[1..][j] == overrides[j + 1];
    }
    if o.key != k {
      assert Lookup(config', k) == Lookup(config, k);
      MergeEntriesLookup(config', overrides[1..], subs, k);
    }
  }

  /** The override loop keeps a configuration free of repeated keys. */
  lemma {:induction false} MergeEntriesKeepsUniqueKeys(config: seq<Entry>, overrides: seq<Entry>,
                                                       subs: seq<(string, string)>)
    requires UniqueKeys(config)
    ensures UniqueKeys(MergeEntries(config, overrides, subs))
    decreases |overrides|
  {
    if |overrides| > 0 {
      var o := overrides[0];
      SetKeepsUniqueKeys(config, o.key, MergedValue(config, o.key, o.val, subs));
      MergeEntriesKeepsUniqueKeys(Set(config, o.key, MergedValue(config, o.key, o.val, subs)), overrides[1..], subs);
    }
  }

  /** Python's `needle in haystack` for two strings. */
  predicate Contains(haystack: string, needle: string)
  {
    exists i :: 0 <= i <= |haystack| && OccursAt(haystack, needle, i)
  }

  /**
    The override step of `load_and_substitute_config`, as a function of the
    substituted configuration. The membership test `config_name in overrides_table`
    follows the table's Python type: dictionary key, list element, substring,
    or a TypeError; indexing a list or string by the name, or calling
    `items()` on an override that is not a dictionary, raises.
   */
  function ApplyOverrides(config: seq<Entry>, mainConfig: seq<Entry>, configName: string,
                          subs: seq<(string, string)>): (r: Result<seq<Entry>>)
    ensures !HasKey(mainConfig, OverridesKey) ==> r == Ok(config)
    ensures r.Ok? ==> forall k :: HasKey(config, k) ==> HasKey(r.value, k)
    ensures Lookup(mainConfig, OverridesKey).Some? && Lookup(mainConfig, OverridesKey).value.Dict? ==>
              var table := Lookup(mainConfig, OverridesKey).value.entries;
              && (Lookup(table, configName) == None ==> r == Ok(config))
              && (Lookup(table, configName) == Some(Null) ==> r == Ok(config))
              && (r.Err? <==> Lookup(table, configName).Some? &&
                              Lookup(table, configName).value !in {Null} &&
                              !Lookup(table, configName).value.Dict?)
  {
    match Lookup(mainConfig, OverridesKey)
    case None => Ok(config)
    case Some(table) =>
      match table
      case Dict(es) =>
        (match Lookup(es, configName)
         case None => Ok(config)
         case Some(ov) =>
           if ov.Null? then Ok(config)
           else if ov.Dict? then Ok(MergeEntries(config, ov.entries, subs))
           else Err(MissingAttribute))
      case List(items) => if Str(configName) in items then Err(TypeMismatch) else Ok(config)
      case Str(s) => if Contains(s, configName) then Err(TypeMismatch) else Ok(config)
      case _ => Err(TypeMismatch)
  }

  /**
    A dictionary of overrides for this step is merged with the override loop;
    `MergeEntriesLookup` and the contract of `MergeEntries` then give the
    value at every key.
   */
  lemma ApplyDictOverrides(config: seq<Entry>, mainConfig: seq<Entry>, configName: string,
                           subs: seq<(string, string)>, table: seq<Entry>, overrides: seq<Entry>)
    requires Lookup(mainConfig, OverridesKey) == Some(Dict(table))
    requires Lookup(table, configName) == Some(Dict(overrides))
    ensures ApplyOverrides(config, mainConfig, configName, subs) == Ok(MergeEntries(config, overrides, subs))
  {
    assert Lookup(mainConfig, OverridesKey).value == Dict(table);
    assert Lookup(table, configName).value == Dict(overrides);
  }

  /**
    A shallow dictionary merge inserts the override's entries verbatim, so a
    placeholder in them stays literal; the same override for a key that does
    not hold a dictionary is substituted.
   */
  lemma DictOverrideSkipsSubstitution()
    ensures var ov := Dict([Entry("path", Str("{patient_id}"))]);
            var subs := [("patient_id", "P1")];
            && MergedValue([Entry("io", Dict([]))], "io", ov, subs) == ov
            && MergedValue([], "io", ov, subs) == Dict([Entry("path", Str("P1"))])
  {
    var subs := [("patient_id", "P1")];
    var ov := Dict([Entry("path", Str("{patient_id}"))]);
    assert Update([], ov.entries) == ov.entries by {
      assert ov.entries[1..] == [];
    }
    assert ReplaceAll("{patient_id}", "{patient_id}", "P1") == "P1" by {
      assert "{patient_id}"[..|"{patient_id}"|] == "{patient_id}";
      assert "{patient_id}"[|"{patient_id}"|..] == "";
    }
    assert SubstituteText("{patient_id}", subs) == "P1" by {
      assert subs[1..] == [];
    }
    assert SubstituteInDict(ov, subs).entries == [Entry("path", Str("P1"))];
  }
}
