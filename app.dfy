/**
 * `client/src/App.jsx`: the client's list of lesson configurations and the id of the
 * selected one, with the updaters that saving, deleting and the initial load apply.
 */
module App {
  import opened Wrappers
  import opened Js

  /** `configs` and `selectedConfig`; `Null` is no selection. */
  datatype AppState = AppState(configs: seq<Object>, selectedConfig: Value)

  /** The state before anything is loaded. */
  const Initial := AppState([], Null)

  /** `configs.filter(config => config.id !== id)` */
  function WithoutId(configs: seq<Object>, id: Value): (r: seq<Object>)
    ensures |r| <= |configs|
    ensures forall j :: 0 <= j < |r| ==> !StrictEquals(Get(r[j], "id"), id)
    ensures forall c :: c in r <==> c in configs && !StrictEquals(Get(c, "id"), id)
  {
    if |configs| == 0 then []
    else if StrictEquals(Get(configs[0], "id"), id) then WithoutId(configs[1..], id)
    else [configs[0]] + WithoutId(configs[1..], id)
  }

  /** Filtering commutes with concatenation, so the kept records stay in their order. */
  lemma {:induction false} WithoutIdAppend(a: seq<Object>, b: seq<Object>, id: Value)
    ensures WithoutId(a + b, id) == WithoutId(a, id) + WithoutId(b, id)
  {
    if |a| == 0 {
      assert a + b == b;
    } else {
      assert (a + b)[1..] == a[1..] + b;
      WithoutIdAppend(a[1..], b, id);
    }
  }

  /** A list with no record of that id passes the filter unchanged. */
  lemma {:induction false} WithoutIdAbsent(configs: seq<Object>, id: Value)
    requires forall j :: 0 <= j < |configs| ==> !StrictEquals(Get(configs[j], "id"), id)
    ensures WithoutId(configs, id) == configs
  {
    if |configs| > 0 {
      WithoutIdAbsent(configs[1..], id);
      assert configs == [configs[0]] + configs[1..];
    }
  }

  /**
   * `handleConfigSaved(newConfig)`: replace the first record with the same id, or append
   * the new one; either way it becomes the selection.
   */
  function ConfigSaved(s: AppState, newConfig: Object): (r: AppState)
    ensures r.selectedConfig == Get(newConfig, "id")
    ensures var i := FindIndexById(s.configs, Get(newConfig, "id"));
            i >= 0 ==> && |r.configs| == |s.configs| && r.configs[i] == newConfig
                       && forall j :: 0 <= j < |s.configs| && j != i ==> r.configs[j] == s.configs[j]
    ensures FindIndexById(s.configs, Get(newConfig, "id")) == -1 ==> r.configs == s.configs + [newConfig]
  {
    var i := FindIndexById(s.configs, Get(newConfig, "id"));
    var configs := if i >= 0 then s.configs[i := newConfig] else s.configs + [newConfig];
    AppState(configs, Get(newConfig, "id"))
  }

  /**
   * `handleConfigDeleted(configId)`: drop every record with that id; if it was selected,
   * select the first remaining record, or nothing.
   */
  function ConfigDeleted(s: AppState, configId: Value): (r: AppState)
    ensures r.configs == WithoutId(s.configs, configId)
    ensures StrictEquals(s.selectedConfig, configId) && |r.configs| > 0 ==> r.selectedConfig == Get(r.configs[0], "id")
    ensures StrictEquals(s.selectedConfig, configId) && |r.configs| == 0 ==> r.selectedConfig == Null
    ensures !StrictEquals(s.selectedConfig, configId) ==> r.selectedConfig == s.selectedConfig
  {
    var remaining := WithoutId(s.configs, configId);
    var selected :=
      if StrictEquals(s.selectedConfig, configId) then (if |remaining| > 0 then Get(remaining[0], "id") else Null)
      else s.selectedConfig;
    AppState(remaining, selected)
  }

  /**
   * `loadConfigs`: a successful load replaces the list and, when the selection `seen` is
   * falsy, selects the first loaded record; a failed load (`None`) changes nothing. The
   * effect runs once at mount and reads the selection its closure captured then, so `seen`
   * is the selection at mount, not the one current when the load completes.
   */
  function ConfigsLoaded(s: AppState, loaded: Option<seq<Object>>, seen: Value): (r: AppState)
    ensures loaded.None? ==> r == s
    ensures loaded.Some? ==> r.configs == loaded.value
    ensures loaded.Some? && |loaded.value| > 0 && !Truthy(seen) ==> r.selectedConfig == Get(loaded.value[0], "id")
    ensures loaded.Some? && (|loaded.value| == 0 || Truthy(seen)) ==> r.selectedConfig == s.selectedConfig
  {
    match loaded
    case None => s
    case Some(list) =>
      AppState(list, if |list| > 0 && !Truthy(seen) then Get(list[0], "id") else s.selectedConfig)
  }

  /**
   * Because the mount-time selection is `Null`, a non-empty load selects its first record
   * even when a selection was made while it was in flight.
   */
  lemma LoadSelectsFirst(s: AppState, loaded: seq<Object>)
    requires |loaded| > 0
    ensures ConfigsLoaded(s, Some(loaded), Initial.selectedConfig) == AppState(loaded, Get(loaded[0], "id"))
  {
  }

  /** Saving a record under a fresh id and then deleting that id gives back the list from before. */
  lemma SaveThenDelete(s: AppState, newConfig: Object)
    requires !Get(newConfig, "id").Arr?
    requires forall j :: 0 <= j < |s.configs| ==> !StrictEquals(Get(s.configs[j], "id"), Get(newConfig, "id"))
    ensures ConfigDeleted(ConfigSaved(s, newConfig), Get(newConfig, "id")).configs == s.configs
  {
    var id := Get(newConfig, "id");
    WithoutIdAppend(s.configs, [newConfig], id);
    WithoutIdAbsent(s.configs, id);
    assert WithoutId([newConfig], id) == [];
  }

  /** Saving a record whose id is already listed keeps the list's length: it is an update in place. */
  lemma SaveExistingKeepsLength(s: AppState, newConfig: Object, j: nat)
    requires j < |s.configs| && StrictEquals(Get(s.configs[j], "id"), Get(newConfig, "id"))
    ensures |ConfigSaved(s, newConfig).configs| == |s.configs|
  {
    assert FindIndexById(s.configs, Get(newConfig, "id")) != -1;
  }
}
