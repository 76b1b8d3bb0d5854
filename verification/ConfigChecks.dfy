/** Which manifests resolve_config accepts, read off the manifest itself. */
module ConfigChecks {
  import opened Results
  import opened YamlText
  import opened Yaml
  import YamlScalars
  import opened Config

  /** What the manifest has at a path, or else the default. */
  function Chosen(raw: seq<Entry>, path: seq<string>, default: Value): Value {
    match Reach(Map(raw), path)
    case Some(v) => v
    case None => default
  }

  lemma {:induction false} IndexOf(entries: seq<Entry>, key: string) returns (i: nat)
    requires key in Keys(entries)
    ensures i < |entries| && entries[i].key == key
    decreases |entries|
  {
    KeysSplit(entries);
    if entries[0].key == key {
      i := 0;
    } else {
      var k := IndexOf(entries[1..], key);
      i := k + 1;
    }
  }

  lemma OneStep(entries: seq<Entry>, path: seq<string>)
    requires path != []
    ensures Reach(Map(entries), path) ==
            if path[0] in Keys(entries) then Reach(Get(entries, path[0], Null), path[1..]) else None
  {
    hide Keys, Get;
  }

  /** In a merged configuration every scalar is the manifest's at that path, if it has one, and else the default's. */
  lemma {:induction false} OverrideWinsAtEveryPath(defaults: seq<Entry>, overrides: seq<Entry>, path: seq<string>,
                                                  d: Value)
    requires Distinct(defaults) && MergeKnown(defaults, overrides).Ok?
    requires Reach(Map(defaults), path) == Some(d) && !d.Map?
    ensures Reach(Map(MergeKnown(defaults, overrides).value), path) == Some(Chosen(overrides, path, d))
    decreases |path|, 0
  {
    var merged := MergeKnown(defaults, overrides).value;
    assert path != [];
    var key, rest := path[0], path[1..];
    OneStep(defaults, path);
    OneStep(overrides, path);
    OneStep(merged, path);
    var i := IndexOf(defaults, key);
    MergedShape(defaults, overrides);
    GetAt(defaults, i, Null);
    GetIsSame(defaults, merged, i, Null);
    DefaultUnused(overrides, key, defaults[i].value, Null);
    DistinctItem(defaults, i);
    MergedStep(defaults[i], overrides, merged[i].value, rest, d);
    hide Keys, Get, Distinct, MergeKnown;
  }

  lemma {:induction false} MergedStep(item: Entry, overrides: seq<Entry>, merged: Value, rest: seq<string>, d: Value)
    requires item.value.Map? ==> Distinct(item.value.entries)
    requires MergeOne(item, overrides) == Ok(merged) && Reach(item.value, rest) == Some(d) && !d.Map?
    ensures Reach(merged, rest) ==
            if item.key !in Keys(overrides) then Some(d)
            else match Reach(Get(overrides, item.key, Null), rest)
                 case Some(v) => Some(v)
                 case None => Some(d)
    decreases |rest|, 1
  {
    DefaultUnused(overrides, item.key, item.value, Null);
    hide Keys, Get, Distinct;
    var value := Get(overrides, item.key, item.value);
    if item.value.Map? {
      OverrideWinsAtEveryPath(item.value.entries, value.entries, rest, d);
      hide MergeKnown;
      assert Map(value.entries) == value && Map(item.value.entries) == item.value;
    } else {
      assert rest == [];
    }
  }

  // ---- the ten settings --------------------------------------------------------------------

  lemma DefaultAt(entries: seq<Entry>, i: nat, key: string)
    requires Distinct(entries) && i < |entries| && entries[i].key == key
    ensures Reach(Map(entries), [key]) == Some(entries[i].value)
  {
    GetAt(entries, i, Null);
    OneStep(entries, [key]);
    hide Get, Keys, Distinct;
    assert [key][1..] == [];
  }

  lemma NestedDefaultAt(i: nat, section: string, j: nat, key: string)
    requires i < |DEFAULT_CONFIG| && DEFAULT_CONFIG[i].key == section && DEFAULT_CONFIG[i].value.Map?
    requires var entries := DEFAULT_CONFIG[i].value.entries; j < |entries| && entries[j].key == key
    ensures Reach(Map(DEFAULT_CONFIG), [section, key]) == Some(DEFAULT_CONFIG[i].value.entries[j].value)
  {
    var entries := DEFAULT_CONFIG[i].value.entries;
    DefaultsAreDistinct();
    DistinctItem(DEFAULT_CONFIG, i);
    GetAt(DEFAULT_CONFIG, i, Null);
    OneStep(DEFAULT_CONFIG, [section, key]);
    DefaultAt(entries, j, key);
    assert [section, key][1..] == [key] && Map(entries) == DEFAULT_CONFIG[i].value;
    hide *;
  }

  /** The value the checks see at a section and key. */
  lemma AtIsReach(cfg: seq<Entry>, section: string, key: string, v: Value)
    requires Reach(Map(cfg), [section, key]) == Some(v)
    ensures At(cfg, section, key) == v
  {
    OneStep(cfg, [section, key]);
    assert [section, key][1..] == [key] && [key][1..] == [];
    hide Get, Keys;
  }

  lemma SettingIs(raw: seq<Entry>, i: nat, section: string, j: nat, key: string)
    requires MergeKnown(DEFAULT_CONFIG, raw).Ok?
    requires i < |DEFAULT_CONFIG| && DEFAULT_CONFIG[i].key == section && DEFAULT_CONFIG[i].value.Map?
    requires var entries := DEFAULT_CONFIG[i].value.entries;
             j < |entries| && entries[j].key == key && !entries[j].value.Map?
    ensures At(MergeKnown(DEFAULT_CONFIG, raw).value, section, key) ==
            Chosen(raw, [section, key], DEFAULT_CONFIG[i].value.entries[j].value)
  {
    var d := DEFAULT_CONFIG[i].value.entries[j].value;
    DefaultsAreDistinct();
    NestedDefaultAt(i, section, j, key);
    OverrideWinsAtEveryPath(DEFAULT_CONFIG, raw, [section, key], d);
    AtIsReach(MergeKnown(DEFAULT_CONFIG, raw).value, section, key, Chosen(raw, [section, key], d));
    hide *;
  }

  lemma VersionIs(raw: seq<Entry>)
    requires MergeKnown(DEFAULT_CONFIG, raw).Ok?
    ensures Get(MergeKnown(DEFAULT_CONFIG, raw).value, "version", Null) == Chosen(raw, ["version"], Int(1))
  {
    var cfg := MergeKnown(DEFAULT_CONFIG, raw).value;
    DefaultsAreDistinct();
    DefaultAt(DEFAULT_CONFIG, 0, "version");
    OverrideWinsAtEveryPath(DEFAULT_CONFIG, raw, ["version"], Int(1));
    OneStep(cfg, ["version"]);
    hide MergeKnown, Get, Keys, Distinct, Chosen;
    assert ["version"][1..] == [];
  }

  /** str.strip leaves something exactly when some character is not white space. */
  lemma TrimLeaves(s: string)
    ensures Trim(s) != "" <==> exists k :: 0 <= k < |s| && !IsSpace(s[k])
  {
    var n := |RTrim(s)|;
    RTrimIsPrefix(s);
    hide IsSpace, RTrim;
    if n > 0 {
      assert RTrim(s)[n - 1] == s[n - 1];
      YamlScalars.TextRemains(RTrim(s), n - 1);
    }
  }

  predicate Text(v: Value) { v.Str? }

  predicate Path(v: Value) { v.Str? && exists k :: 0 <= k < |v.text| && !IsSpace(v.text[k]) }

  predicate Jobs(v: Value) { v.Int? && v.i >= 0 }

  predicate OnOff(v: Value) { v.Bool? }

  /** Python's 0 and 1 equal False and True. */
  predicate Auto(v: Value) { v in {Bool(true), Bool(false), Int(0), Int(1), Str("auto")} }

  /** The ten settings the checks look at. */
  datatype Settings = Settings(version: Value, kind: Value, dir: Value, parallel: Value, exdev: Value, mros: Value,
                               vdev: Value, tests: Value, athrill: Value, vcpkg: Value)

  function SettingsOf(cfg: seq<Entry>): Settings {
    Settings(Get(cfg, "version", Null), At(cfg, "build", "type"), At(cfg, "build", "dir"), At(cfg, "build", "parallel"),
             At(cfg, "features", "exdev"), At(cfg, "features", "mros"), At(cfg, "features", "vdev"),
             At(cfg, "validation", "tests"), At(cfg, "paths", "athrill_root"), At(cfg, "paths", "vcpkg_root"))
  }

  /** The manifest's own, each with its default. */
  function ChosenSettings(raw: seq<Entry>): Settings {
    Settings(Chosen(raw, ["version"], Int(1)), Chosen(raw, ["build", "type"], Str("Release")),
             Chosen(raw, ["build", "dir"], Str(".hako/build")), Chosen(raw, ["build", "parallel"], Int(0)),
             Chosen(raw, ["features", "exdev"], Bool(true)), Chosen(raw, ["features", "mros"], Bool(false)),
             Chosen(raw, ["features", "vdev"], Bool(false)), Chosen(raw, ["validation", "tests"], Bool(true)),
             Chosen(raw, ["paths", "athrill_root"], Str("../athrill")), Chosen(raw, ["paths", "vcpkg_root"], Str("")))
  }

  predicate OfTheirKinds(s: Settings) {
    && s.version in {Int(1), Bool(true)}
    && s.kind in {Str("Debug"), Str("Release"), Str("RelWithDebInfo"), Str("MinSizeRel")}
    && Path(s.dir) && Jobs(s.parallel) && Auto(s.exdev) && Auto(s.mros) && OnOff(s.vdev) && OnOff(s.tests)
    && Text(s.athrill) && Text(s.vcpkg)
  }

  lemma CheckPassesIff(cfg: seq<Entry>)
    ensures Check(cfg).None? <==> OfTheirKinds(SettingsOf(cfg))
  {
    var dir := At(cfg, "build", "dir");
    if dir.Str? { TrimLeaves(dir.text); }
    hide At, Get, Trim, IsSpace;
  }

  lemma MergedSettings(raw: seq<Entry>)
    requires MergeKnown(DEFAULT_CONFIG, raw).Ok?
    ensures SettingsOf(MergeKnown(DEFAULT_CONFIG, raw).value) == ChosenSettings(raw)
  {
    hide MergeKnown, Chosen, At, Get;
    VersionIs(raw);
    SettingIs(raw, 1, "build", 0, "type");
    SettingIs(raw, 1, "build", 1, "dir");
    SettingIs(raw, 1, "build", 2, "parallel");
    SettingIs(raw, 2, "features", 0, "exdev");
    SettingIs(raw, 2, "features", 1, "mros");
    SettingIs(raw, 2, "features", 2, "vdev");
    SettingIs(raw, 3, "validation", 0, "tests");
    SettingIs(raw, 4, "paths", 0, "athrill_root");
    SettingIs(raw, 4, "paths", 1, "vcpkg_root");
  }

  /**
    resolve_config accepts a manifest if and only if it brings no unknown key, has mappings where the defaults
    do, and each of its ten settings, or its default where the manifest has none, is of its kind; those are then
    the settings of the result.
   */
  lemma ResolveAcceptsIff(raw: seq<Entry>)
    ensures Resolve(raw).Ok? <==> PathsAgree(DEFAULT_CONFIG, raw) && OfTheirKinds(ChosenSettings(raw))
    ensures Resolve(raw).Ok? ==> SettingsOf(Resolve(raw).value) == ChosenSettings(raw)
  {
    DefaultsAreDistinct();
    MergeSucceedsIffPathsAgree(DEFAULT_CONFIG, raw);
    if MergeKnown(DEFAULT_CONFIG, raw).Ok? {
      MergedSettings(raw);
      CheckPassesIff(MergeKnown(DEFAULT_CONFIG, raw).value);
    }
    hide MergeKnown, Check, SettingsOf, ChosenSettings, OfTheirKinds, PathsAgree;
  }
}
