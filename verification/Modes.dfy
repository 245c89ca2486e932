/** Registration and selection of modes. Go iterates its maps in an arbitrary order; the methods below
    pick the next key nondeterministically, so what they ensure holds for every order. */
module Modes {
  import opened Config

  datatype ModeInfo = ModeInfo(defaultMode: bool, enableDefaultMode: bool)

  type Registry = map<string, ModeInfo>

  /** The modes the webhook registers. */
  const REGISTERED: Registry := map[
    SECRETS := ModeInfo(true, false),
    PROXY := ModeInfo(false, false),
    JOB := ModeInfo(false, true)]

  /** The statuses filled in for one request. */
  class StatusTable {
    var entries: map<string, bool>

    constructor ()
      ensures entries == map[]
    {
      entries := map[];
    }
  }

  /** The key taken for the default mode: some default mode, or "" when none is registered. */
  predicate IsDefaultKey(registry: Registry, d: string) {
    if exists k :: k in registry && registry[k].defaultMode then d in registry && registry[d].defaultMode
    else d == ""
  }

  predicate NothingRequested(requested: seq<string>) {
    requested == [] || requested == [""]
  }

  predicate RequestsDefaultToo(registry: Registry, requested: seq<string>) {
    |requested| == 1 && requested[0] in registry && registry[requested[0]].enableDefaultMode
  }

  function EnabledKeys(registry: Registry, requested: seq<string>, d: string): set<string> {
    if NothingRequested(requested) then {d}
    else
      (set k | k in registry && k in requested)
      + (if RequestsDefaultToo(registry, requested) then {d} else {})
  }

  function Status(registry: Registry, requested: seq<string>, d: string): map<string, bool> {
    var enabled := EnabledKeys(registry, requested, d);
    map k | k in registry.Keys + enabled :: k in enabled
  }

  /** Disables every registered mode and looks for the default one. */
  method InitModes(registry: Registry, modes: StatusTable) returns (defaultModeKey: string)
    modifies modes
    ensures IsDefaultKey(registry, defaultModeKey)
    ensures modes.entries == old(modes.entries) + map k | k in registry :: false
  {
    defaultModeKey := "";
    var todo := registry.Keys;
    while todo != {}
      invariant todo <= registry.Keys
      invariant modes.entries == old(modes.entries) + map k | k in registry.Keys - todo :: false
      invariant
        || (defaultModeKey in registry && defaultModeKey !in todo && registry[defaultModeKey].defaultMode)
        || (defaultModeKey == "" && forall k :: k in registry && k !in todo ==> !registry[k].defaultMode)
      decreases |todo|
    {
      var key :| key in todo;
      todo := todo - {key};
      modes.entries := modes.entries[key := false];
      if registry[key].defaultMode {
        defaultModeKey := key;
      }
    }
  }

  function AllTrue(keys: set<string>): map<string, bool> {
    map k | k in keys :: true
  }

  lemma EnabledEntries(
    cleared: map<string, bool>, before: map<string, bool>, after: map<string, bool>,
    registry: Registry, requested: seq<string>, d: string, i: nat)
    requires i < |requested| && before == cleared + AllTrue(EnabledSoFar(registry, requested, d, i))
    requires after == if requested[i] !in registry then before
                      else if |requested| == 1 && registry[requested[i]].enableDefaultMode
                      then before[requested[i] := true][d := true] else before[requested[i] := true]
    ensures after == cleared + AllTrue(EnabledSoFar(registry, requested, d, i + 1))
  {
    EnabledNext(registry, requested, d, i);
  }

  /** The search loop over the requested modes; unknown ones are ignored. */
  method EnableRequestedModes(registry: Registry, requested: seq<string>, d: string, modes: StatusTable)
    requires !NothingRequested(requested)
    modifies modes
    ensures modes.entries == old(modes.entries) + map k | k in EnabledKeys(registry, requested, d) :: true
  {
    ghost var cleared := modes.entries;
    for i := 0 to |requested|
      invariant modes.entries == cleared + AllTrue(EnabledSoFar(registry, requested, d, i))
    {
      ghost var before := modes.entries;
      modes.entries := EnableRequested(registry, requested, requested[i], d, modes.entries);
      EnabledEntries(cleared, before, modes.entries, registry, requested, d, i);
    }
    assert requested[..|requested|] == requested;
    assert EnabledSoFar(registry, requested, d, |requested|) == EnabledKeys(registry, requested, d);
  }

  method GetModesStatus(registry: Registry, requested: seq<string>, modes: StatusTable)
    modifies modes
    ensures exists d ::
      IsDefaultKey(registry, d) && modes.entries == old(modes.entries) + Status(registry, requested, d)
  {
    var defaultModeKey := InitModes(registry, modes);
    if |requested| > 0 {
      if |requested| == 1 && requested[0] == "" {
        modes.entries := modes.entries[defaultModeKey := true];
      } else {
        EnableRequestedModes(registry, requested, defaultModeKey, modes);
      }
    } else {
      modes.entries := modes.entries[defaultModeKey := true];
    }
    EnabledOverCleared(old(modes.entries), registry, requested, defaultModeKey);
  }

  lemma EnabledOverCleared(before: map<string, bool>, registry: Registry, requested: seq<string>, d: string)
    ensures var cleared := before + map k | k in registry :: false;
      && cleared + (map k | k in EnabledKeys(registry, requested, d) :: true) == before + Status(registry, requested, d)
      && (NothingRequested(requested) ==> cleared[d := true] == before + Status(registry, requested, d))
  {
  }

  lemma EnabledNext(registry: Registry, requested: seq<string>, d: string, i: nat)
    requires i < |requested|
    ensures EnabledSoFar(registry, requested, d, i + 1) == EnabledSoFar(registry, requested, d, i)
      + (if requested[i] in registry then {requested[i]} else {})
      + (if |requested| == 1 && requested[i] in registry && registry[requested[i]].enableDefaultMode then {d} else {})
  {
    assert requested[..i + 1] == requested[..i] + [requested[i]];
  }

  ghost function EnabledSoFar(registry: Registry, requested: seq<string>, d: string, n: nat): set<string>
    requires n <= |requested|
  {
    (set k | k in registry && k in requested[..n])
    + (if n > 0 && RequestsDefaultToo(registry, requested) then {d} else {})
  }

  /** One requested mode: search the registry for it. */
  method EnableRequested(registry: Registry, requested: seq<string>, mode: string, d: string, before: map<string, bool>)
    returns (after: map<string, bool>)
    ensures mode !in registry ==> after == before
    ensures mode in registry ==>
      after == if |requested| == 1 && registry[mode].enableDefaultMode then before[mode := true][d := true]
               else before[mode := true]
  {
    after := before;
    var todo := registry.Keys;
    while todo != {}
      invariant todo <= registry.Keys && (mode in registry ==> mode in todo)
      invariant after == before
      decreases |todo|
    {
      var key :| key in todo;
      todo := todo - {key};
      if mode == key {
        after := after[mode := true];
        if |requested| == 1 && registry[key].enableDefaultMode {
          after := after[d := true];
        }
        return;
      }
    }
  }

  predicate OneDefault(registry: Registry, d: string) {
    && d in registry && registry[d].defaultMode
    && forall k :: k in registry && registry[k].defaultMode ==> k == d
  }

  /** With one default mode the selection is determined: exactly the requested registered modes, plus
      the default one iff nothing was requested or the sole request asks for it; and every status key is
      a registered mode. */
  lemma ModeSelection(registry: Registry, requested: seq<string>, d: string, chosen: string)
    requires OneDefault(registry, d) && IsDefaultKey(registry, chosen)
    ensures Status(registry, requested, chosen).Keys == registry.Keys
    ensures forall k :: k in registry ==>
      (Status(registry, requested, chosen)[k] <==>
        || (!NothingRequested(requested) && k in requested)
        || (k == d && (NothingRequested(requested) || RequestsDefaultToo(registry, requested))))
  {
    assert chosen == d;
  }

  /** Status keys stay inside the registry for every request exactly when some default mode is
      registered (or the empty name is a mode). */
  lemma StatusKeysRegistered(registry: Registry, d: string)
    requires IsDefaultKey(registry, d)
    ensures (forall requested :: Status(registry, requested, d).Keys <= registry.Keys)
      <==> ((exists k :: k in registry && registry[k].defaultMode) || "" in registry)
  {
    assert d in Status(registry, [], d).Keys;
    if d in registry {
      forall requested
        ensures Status(registry, requested, d).Keys <= registry.Keys
      {
      }
    }
  }

  lemma RegisteredDefault()
    ensures OneDefault(REGISTERED, SECRETS)
  {
  }

  /* ---------- IsEnabledModes ---------- */

  function EnabledSet(status: map<string, bool>): set<string> {
    set m | m in status && status[m]
  }

  /** The enabled modes are those to check, up to order. */
  predicate AreEnabledModes(status: map<string, bool>, modesToCheck: seq<string>) {
    multiset(EnabledSet(status)) == multiset(modesToCheck)
  }

  method IsEnabledModes(status: map<string, bool>, modesToCheck: seq<string>) returns (r: bool)
    ensures r == AreEnabledModes(status, modesToCheck)
  {
    var enabledModes: seq<string> := [];
    var todo := status.Keys;
    while todo != {}
      invariant todo <= status.Keys
      invariant multiset(enabledModes) == multiset(EnabledSet(status) - todo)
      decreases |todo|
    {
      var mode :| mode in todo;
      var rest := todo - {mode};
      if status[mode] {
        enabledModes := enabledModes + [mode];
        assert EnabledSet(status) - rest == (EnabledSet(status) - todo) + {mode};
      } else {
        assert EnabledSet(status) - rest == EnabledSet(status) - todo;
      }
      todo := rest;
    }
    assert EnabledSet(status) - todo == EnabledSet(status);
    r := multiset(enabledModes) == multiset(modesToCheck);
  }

  lemma EnabledModesPair(status: map<string, bool>, a: string, b: string)
    requires a != b
    ensures AreEnabledModes(status, [a, b]) <==> EnabledSet(status) == {a, b}
  {
    var s := EnabledSet(status);
    assert multiset([a, b]) == multiset{a, b};
    if multiset(s) == multiset{a, b} {
      forall m
        ensures m in s <==> m in {a, b}
      {
        assert m in s <==> m in multiset(s);
      }
    }
  }
}
