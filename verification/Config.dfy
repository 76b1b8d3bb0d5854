/** Merging a manifest over the defaults, and the checks that follow (tools/hako.py:18-25, 113-155). */
module Config {
  import opened Results
  import opened YamlText
  import opened Yaml

  datatype ConfigError =
    | UnknownKeys(keys: set<string>)
    | NotMapping(key: string)
    | Refused(key: string)

  type Merged = Result<seq<Entry>, ConfigError>

  /** dict.get(key, default) */
  function Get(entries: seq<Entry>, key: string, default: Value): (v: Value)
  {
    if entries == [] then default
    else if entries[0].key == key then entries[0].value
    else Get(entries[1..], key, default)
  }

  /** _merge_known */
  function MergeKnown(defaults: seq<Entry>, overrides: seq<Entry>): Merged
    decreases defaults, 1
  {
    if !(Keys(overrides) <= Keys(defaults)) then Err(UnknownKeys(Keys(overrides) - Keys(defaults)))
    else MergeItems(defaults, overrides)
  }

  /** The loop over the defaults, in their order. */
  function MergeItems(defaults: seq<Entry>, overrides: seq<Entry>): Merged
    decreases defaults, 0
  {
    if defaults == [] then Ok([])
    else
      var value :- MergeOne(defaults[0], overrides);
      var rest :- MergeItems(defaults[1..], overrides);
      Ok([Entry(defaults[0].key, value)] + rest)
  }

  function MergeOne(d: Entry, overrides: seq<Entry>): Result<Value, ConfigError>
    decreases d, 0
  {
    var value := Get(overrides, d.key, d.value);
    if !d.value.Map? then Ok(value)
    else if !value.Map? then Err(NotMapping(d.key))
    else
      var nested :- MergeKnown(d.value.entries, value.entries);
      Ok(Map(nested))
  }

  /** No key twice at any level, as in every Python dict. */
  predicate Distinct(entries: seq<Entry>)
    decreases entries
  {
    entries == [] ||
    (entries[0].key !in Keys(entries[1..])
     && (entries[0].value.Map? ==> Distinct(entries[0].value.entries)) && Distinct(entries[1..]))
  }

  /** What stands at a path of keys below a value. */
  function Reach(v: Value, path: seq<string>): Option<Value>
    decreases |path|
  {
    if path == [] then Some(v)
    else if v.Map? && path[0] in Keys(v.entries) then Reach(Get(v.entries, path[0], Null), path[1..])
    else None
  }

  /**
    Where both sides have something at the path and the default is a mapping, the override is a mapping
    with known keys only.
   */
  predicate AgreesAt(defaults: seq<Entry>, overrides: seq<Entry>, path: seq<string>) {
    var d, o := Reach(Map(defaults), path), Reach(Map(overrides), path);
    d.Some? && d.value.Map? && o.Some? ==> o.value.Map? && Keys(o.value.entries) <= Keys(d.value.entries)
  }

  ghost predicate PathsAgree(defaults: seq<Entry>, overrides: seq<Entry>) {
    forall path :: AgreesAt(defaults, overrides, path)
  }

  lemma {:induction false} DefaultUnused(entries: seq<Entry>, key: string, a: Value, b: Value)
    ensures if key in Keys(entries) then Get(entries, key, a) == Get(entries, key, b) else Get(entries, key, a) == a
    decreases |entries|
  {
    if entries != [] {
      KeysSplit(entries);
      DefaultUnused(entries[1..], key, a, b);
    }
  }

  lemma {:induction false} GetAt(entries: seq<Entry>, i: nat, default: Value)
    requires i < |entries| && Distinct(entries)
    ensures entries[i].key in Keys(entries) && Get(entries, entries[i].key, default) == entries[i].value
    decreases |entries|
  {
    KeysSplit(entries);
    if i > 0 {
      assert entries[i] == entries[1..][i - 1];
      GetAt(entries[1..], i - 1, default);
    }
  }

  /** One step down a path. */
  lemma AgreesBelow(defaults: seq<Entry>, overrides: seq<Entry>, key: string, path: seq<string>)
    requires key in Keys(defaults) && key in Keys(overrides)
    requires Get(defaults, key, Null).Map? && Get(overrides, key, Null).Map?
    ensures AgreesAt(defaults, overrides, [key] + path) <==>
            AgreesAt(Get(defaults, key, Null).entries, Get(overrides, key, Null).entries, path)
  {
    assert ([key] + path)[1..] == path;
    hide Get, Keys;
    assert Map(Get(defaults, key, Null).entries) == Get(defaults, key, Null);
    assert Map(Get(overrides, key, Null).entries) == Get(overrides, key, Null);
  }

  lemma AgreesHere(defaults: seq<Entry>, overrides: seq<Entry>, key: string)
    requires key in Keys(defaults) && key in Keys(overrides) && Get(defaults, key, Null).Map?
    requires AgreesAt(defaults, overrides, [key])
    ensures Get(overrides, key, Null).Map?
  {
    assert [key][1..] == [];
    hide Get, Keys;
    assert Reach(Map(defaults), [key]) == Reach(Get(defaults, key, Null), []);
    assert Reach(Map(overrides), [key]) == Reach(Get(overrides, key, Null), []);
  }

  /** All paths agree exactly when the keys do and, key by key, mappings meet mappings whose paths agree. */
  lemma PathsSplit(defaults: seq<Entry>, overrides: seq<Entry>)
    ensures PathsAgree(defaults, overrides) <==>
            Keys(overrides) <= Keys(defaults) && forall key <- Keys(defaults) :: KeyAgrees(defaults, overrides, key)
  {
    hide Get, Keys, Reach;
    if PathsAgree(defaults, overrides) {
      assert AgreesAt(defaults, overrides, []);
      RootAgrees(defaults, overrides);
      forall key <- Keys(defaults) ensures KeyAgrees(defaults, overrides, key) {
        if key in Keys(overrides) && Get(defaults, key, Null).Map? {
          assert AgreesAt(defaults, overrides, [key]);
          AgreesHere(defaults, overrides, key);
          forall path: seq<string>
            ensures AgreesAt(Get(defaults, key, Null).entries, Get(overrides, key, Null).entries, path)
          {
            assert AgreesAt(defaults, overrides, [key] + path);
            AgreesBelow(defaults, overrides, key, path);
          }
        }
      }
    }
    if Keys(overrides) <= Keys(defaults) && forall key <- Keys(defaults) :: KeyAgrees(defaults, overrides, key) {
      forall path: seq<string> ensures AgreesAt(defaults, overrides, path) {
        if path == [] { RootAgrees(defaults, overrides); } else { AgreesByKey(defaults, overrides, path); }
      }
    }
  }

  predicate BothMaps(defaults: seq<Entry>, overrides: seq<Entry>, key: string) {
    key in Keys(overrides) && Get(defaults, key, Null).Map?
  }

  ghost predicate KeyAgrees(defaults: seq<Entry>, overrides: seq<Entry>, key: string) {
    BothMaps(defaults, overrides, key) ==>
      && Get(overrides, key, Null).Map?
      && PathsAgree(Get(defaults, key, Null).entries, Get(overrides, key, Null).entries)
  }

  lemma RootAgrees(defaults: seq<Entry>, overrides: seq<Entry>)
    ensures AgreesAt(defaults, overrides, []) <==> Keys(overrides) <= Keys(defaults)
  {
    hide Keys;
  }

  lemma AgreesByKey(defaults: seq<Entry>, overrides: seq<Entry>, path: seq<string>)
    requires path != [] && (path[0] in Keys(defaults) ==> KeyAgrees(defaults, overrides, path[0]))
    ensures AgreesAt(defaults, overrides, path)
  {
    var key, rest := path[0], path[1..];
    assert path == [key] + rest;
    if key in Keys(defaults) && BothMaps(defaults, overrides, key) {
      AgreesBelow(defaults, overrides, key, rest);
      assert AgreesAt(Get(defaults, key, Null).entries, Get(overrides, key, Null).entries, rest);
    } else {
      NothingBelow(defaults, overrides, key, rest);
    }
  }

  /** Below a scalar, or a key one side lacks, there is nothing to disagree about. */
  lemma NothingBelow(defaults: seq<Entry>, overrides: seq<Entry>, key: string, rest: seq<string>)
    requires key !in Keys(defaults) || key !in Keys(overrides) || !Get(defaults, key, Null).Map?
    ensures AgreesAt(defaults, overrides, [key] + rest)
  {
    var path := [key] + rest;
    assert path[1..] == rest;
    hide Get, Keys;
    if key in Keys(defaults) { assert Reach(Map(defaults), path) == Reach(Get(defaults, key, Null), rest); }
    if rest != [] && !Get(defaults, key, Null).Map? { assert Reach(Get(defaults, key, Null), rest) == None; }
  }

  /** A mapping merges with itself to itself. */
  lemma {:induction false} SelfMerge(entries: seq<Entry>)
    requires Distinct(entries)
    ensures MergeKnown(entries, entries) == Ok(entries)
    decreases entries
  {
    forall i | 0 <= i < |entries| ensures MergeOne(entries[i], entries) == Ok(entries[i].value) {
      GetAt(entries, i, entries[i].value);
      DistinctItem(entries, i);
      if entries[i].value.Map? { SelfMerge(entries[i].value.entries); }
    }
    MergeItemsOfMerged(entries, entries, entries);
  }

  lemma {:induction false} ItemsOkIff(defaults: seq<Entry>, overrides: seq<Entry>)
    ensures MergeItems(defaults, overrides).Ok? <==> forall d <- defaults :: MergeOne(d, overrides).Ok?
    decreases |defaults|
  {
    hide MergeOne;
    if defaults != [] {
      ItemsOkIff(defaults[1..], overrides);
      assert defaults[0] in defaults && forall d <- defaults[1..] :: d in defaults;
      assert forall d <- defaults :: d == defaults[0] || d in defaults[1..];
    }
  }

  lemma {:induction false} OneOkIff(defaults: seq<Entry>, overrides: seq<Entry>, i: nat)
    requires Distinct(defaults) && i < |defaults|
    ensures MergeOne(defaults[i], overrides).Ok? <==> KeyAgrees(defaults, overrides, defaults[i].key)
    decreases defaults, 0
  {
    var d := defaults[i];
    GetAt(defaults, i, Null);
    DistinctItem(defaults, i);
    DefaultUnused(overrides, d.key, d.value, Null);
    hide Get, Keys, PathsAgree;
    if d.value.Map? {
      if d.key in Keys(overrides) {
        var o := Get(overrides, d.key, Null);
        if o.Map? { MergeSucceedsIffPathsAgree(d.value.entries, o.entries); }
      } else {
        SelfMerge(d.value.entries);
      }
    }
    hide MergeKnown;
  }

  /**
    When a merge succeeds, read off the two configurations alone: at every path where both have something
    and the default is a mapping, the override is a mapping and brings no unknown key.
   */
  lemma {:induction false} MergeSucceedsIffPathsAgree(defaults: seq<Entry>, overrides: seq<Entry>)
    requires Distinct(defaults)
    ensures MergeKnown(defaults, overrides).Ok? <==> PathsAgree(defaults, overrides)
    decreases defaults, 1
  {
    PathsSplit(defaults, overrides);
    ItemsOkIff(defaults, overrides);
    forall i: nat | i < |defaults|
      ensures MergeOne(defaults[i], overrides).Ok? <==> KeyAgrees(defaults, overrides, defaults[i].key)
    {
      OneOkIff(defaults, overrides, i);
    }
    hide MergeOne, KeyAgrees, PathsAgree, MergeItems;
    assert forall d <- defaults :: d.key in Keys(defaults);
    assert forall key <- Keys(defaults) :: exists i: nat :: i < |defaults| && defaults[i].key == key;
  }

  /** The result has the keys of the defaults, in the order of the defaults. */
  lemma {:induction false} MergedShape(defaults: seq<Entry>, overrides: seq<Entry>)
    requires MergeItems(defaults, overrides).Ok?
    ensures var merged := MergeItems(defaults, overrides).value;
            |merged| == |defaults| && Keys(merged) == Keys(defaults)
            && forall i :: 0 <= i < |merged| ==>
                 merged[i].key == defaults[i].key && MergeOne(defaults[i], overrides) == Ok(merged[i].value)
    decreases |defaults|
  {
    var merged := MergeItems(defaults, overrides).value;
    if defaults != [] {
      MergedShape(defaults[1..], overrides);
      hide MergeOne;
      var rest := MergeItems(defaults[1..], overrides).value;
      assert merged[1..] == rest;
      forall i | 0 <= i < |merged|
        ensures merged[i].key == defaults[i].key && MergeOne(defaults[i], overrides) == Ok(merged[i].value)
      {
        if i > 0 { assert merged[i] == rest[i - 1] && defaults[i] == defaults[1..][i - 1]; }
      }
      KeysSplit(merged);
      KeysSplit(defaults);
    }
  }

  lemma {:induction false} GetIsSame(a: seq<Entry>, b: seq<Entry>, i: nat, default: Value)
    requires |a| == |b| && i < |a| && Distinct(a) && forall k :: 0 <= k < |a| ==> a[k].key == b[k].key
    ensures Get(b, a[i].key, default) == b[i].value
    decreases |a|
  {
    if i > 0 {
      assert a[i] == a[1..][i - 1] && b[i] == b[1..][i - 1];
      assert a[1..][i - 1].key in Keys(a[1..]);
      assert b[0].key != a[i].key;
      GetIsSame(a[1..], b[1..], i - 1, default);
    }
  }

  lemma {:induction false} MergeItemsOfMerged(defaults: seq<Entry>, merged: seq<Entry>, whole: seq<Entry>)
    requires |merged| == |defaults|
    requires forall i :: 0 <= i < |merged| ==>
                 merged[i].key == defaults[i].key && MergeOne(defaults[i], whole) == Ok(merged[i].value)
    ensures MergeItems(defaults, whole) == Ok(merged)
    decreases |defaults|
  {
    hide MergeOne;
    if defaults != [] {
      MergeItemsOfMerged(defaults[1..], merged[1..], whole);
      assert merged == [Entry(defaults[0].key, merged[0].value)] + merged[1..];
    }
  }

  /** Merging is done once: a merged configuration merges to itself. */
  lemma {:induction false} MergeIsIdempotent(defaults: seq<Entry>, overrides: seq<Entry>)
    requires Distinct(defaults) && MergeKnown(defaults, overrides).Ok?
    ensures var merged := MergeKnown(defaults, overrides).value; MergeKnown(defaults, merged) == Ok(merged)
    decreases defaults
  {
    var merged := MergeKnown(defaults, overrides).value;
    MergedShape(defaults, overrides);
    forall i | 0 <= i < |merged| ensures MergeOne(defaults[i], merged) == Ok(merged[i].value) {
      GetIsSame(defaults, merged, i, defaults[i].value);
      DistinctItem(defaults, i);
      if defaults[i].value.Map? {
        var value := Get(overrides, defaults[i].key, defaults[i].value);
        MergeIsIdempotent(defaults[i].value.entries, value.entries);
      }
    }
    MergeItemsOfMerged(defaults, merged, merged);
  }

  lemma {:induction false} DistinctItem(entries: seq<Entry>, i: nat)
    requires Distinct(entries) && i < |entries|
    ensures entries[i].value.Map? ==> Distinct(entries[i].value.entries)
    decreases |entries|
  {
    if i > 0 { DistinctItem(entries[1..], i - 1); }
  }

  /** A scalar default gives way to its override and nothing else changes it. */
  lemma OverrideWins(defaults: seq<Entry>, overrides: seq<Entry>, i: nat)
    requires Distinct(defaults) && MergeKnown(defaults, overrides).Ok? && i < |defaults| && !defaults[i].value.Map?
    ensures var merged := MergeKnown(defaults, overrides).value;
            Get(merged, defaults[i].key, Null) == Get(overrides, defaults[i].key, defaults[i].value)
  {
    MergedShape(defaults, overrides);
    GetIsSame(defaults, MergeKnown(defaults, overrides).value, i, Null);
  }

  // ---- resolve_config --------------------------------------------------------------------

  const BUILD: seq<Entry> :=
    [Entry("type", Str("Release")), Entry("dir", Str(".hako/build")), Entry("parallel", Int(0))]

  const FEATURES: seq<Entry> := [Entry("exdev", Bool(true)), Entry("mros", Bool(false)), Entry("vdev", Bool(false))]

  const VALIDATION: seq<Entry> := [Entry("tests", Bool(true))]

  const PATHS: seq<Entry> := [Entry("athrill_root", Str("../athrill")), Entry("vcpkg_root", Str(""))]

  const DEFAULT_CONFIG: seq<Entry> := [
    Entry("version", Int(1)), Entry("build", Map(BUILD)), Entry("features", Map(FEATURES)),
    Entry("validation", Map(VALIDATION)), Entry("paths", Map(PATHS))
  ]

  function At(cfg: seq<Entry>, section: string, key: string): Value {
    match Get(cfg, section, Null)
    case Map(entries) => Get(entries, key, Null)
    case _ => Null
  }

  /** In Python True is the integer 1 and False the integer 0. */
  predicate IsOne(v: Value) { v == Int(1) || v == Bool(true) }

  predicate IsSwitch(v: Value) { v.Bool? || v == Int(0) || v == Int(1) || v == Str("auto") }

  predicate IsBuildType(v: Value) { v in {Str("Debug"), Str("Release"), Str("RelWithDebInfo"), Str("MinSizeRel")} }

  /**
    The first check that fails; a mapping where a set member is expected raises TypeError in Python and is
    refused here.
   */
  function Check(cfg: seq<Entry>): Option<ConfigError> {
    if !IsOne(Get(cfg, "version", Null)) then Some(Refused("version"))
    else if !IsBuildType(At(cfg, "build", "type")) then Some(Refused("build.type"))
    else if !At(cfg, "build", "dir").Str? || Trim(At(cfg, "build", "dir").text) == "" then Some(Refused("build.dir"))
    else if !At(cfg, "build", "parallel").Int? || At(cfg, "build", "parallel").i < 0 then
      Some(Refused("build.parallel"))
    else if !IsSwitch(At(cfg, "features", "exdev")) then Some(Refused("features.exdev"))
    else if !IsSwitch(At(cfg, "features", "mros")) then Some(Refused("features.mros"))
    else if !At(cfg, "features", "vdev").Bool? then Some(Refused("features.vdev"))
    else if !At(cfg, "validation", "tests").Bool? then Some(Refused("validation.tests"))
    else if !At(cfg, "paths", "athrill_root").Str? then Some(Refused("paths.athrill_root"))
    else if !At(cfg, "paths", "vcpkg_root").Str? then Some(Refused("paths.vcpkg_root"))
    else None
  }

  /** resolve_config */
  function Resolve(raw: seq<Entry>): Merged {
    var cfg :- MergeKnown(DEFAULT_CONFIG, raw);
    match Check(cfg)
    case Some(e) => Err(e)
    case None => Ok(cfg)
  }

  ghost predicate KeysDiffer(entries: seq<Entry>) {
    forall i, j :: 0 <= i < j < |entries| ==> entries[i].key != entries[j].key
  }

  lemma {:induction false} DistinctByIndex(entries: seq<Entry>)
    requires KeysDiffer(entries)
    requires forall e <- entries :: e.value.Map? ==> Distinct(e.value.entries)
    ensures Distinct(entries)
    decreases |entries|
  {
    if entries != [] {
      var rest := entries[1..];
      forall i, j | 0 <= i < j < |rest| ensures rest[i].key != rest[j].key {
        assert entries[i + 1].key != entries[j + 1].key;
      }
      DistinctByIndex(rest);
      assert entries[0] in entries;
      forall e <- rest ensures e.key != entries[0].key {
        var k :| 0 <= k < |rest| && rest[k] == e;
        assert entries[k + 1] == e;
      }
    }
  }

  lemma SectionsAreDistinct()
    ensures Distinct(BUILD) && Distinct(FEATURES) && Distinct(VALIDATION) && Distinct(PATHS)
  {
    hide Distinct;
    assert BUILD[1].key[0] == 'd' && BUILD[2].key[0] == 'p' && BUILD[0].key[0] == 't';
    DistinctByIndex(BUILD);
    assert FEATURES[1].key[0] == 'm' && FEATURES[2].key[0] == 'v' && FEATURES[0].key[0] == 'e';
    DistinctByIndex(FEATURES);
    DistinctByIndex(VALIDATION);
    assert PATHS[0].key[0] == 'a' && PATHS[1].key[0] == 'v';
    DistinctByIndex(PATHS);
  }

  lemma SectionNamesDiffer()
    ensures KeysDiffer(DEFAULT_CONFIG)
  {
    var d := DEFAULT_CONFIG;
    assert d[0].key[1] == 'e' && d[1].key[1] == 'u' && d[2].key[0] == 'f' && d[3].key[0] == 'v';
    assert d[3].key[1] == 'a' && d[4].key[0] == 'p' && d[2].key[1] == 'e' && d[0].key[0] == 'v';
  }

  lemma DefaultsAreDistinct()
    ensures Distinct(DEFAULT_CONFIG)
  {
    hide Distinct, KeysDiffer;
    SectionsAreDistinct();
    SectionNamesDiffer();
    DistinctByIndex(DEFAULT_CONFIG);
  }

  /** A resolved configuration resolves to itself. */
  lemma ResolveIsIdempotent(raw: seq<Entry>)
    requires Resolve(raw).Ok?
    ensures Resolve(Resolve(raw).value) == Resolve(raw)
  {
    DefaultsAreDistinct();
    MergeIsIdempotent(DEFAULT_CONFIG, raw);
    hide MergeKnown, Check;
  }

  function Prepend(done: seq<Entry>, rest: Merged): Merged {
    match rest
    case Err(e) => Err(e)
    case Ok(items) => Ok(done + items)
  }

  /** _merge_known with its loop. */
  method MergeKnownLoop(defaults: seq<Entry>, overrides: seq<Entry>) returns (merged: Merged)
    ensures merged == MergeKnown(defaults, overrides)
    decreases defaults
  {
    var unknown := Keys(overrides) - Keys(defaults);
    if unknown != {} { return Err(UnknownKeys(unknown)); }
    assert Keys(overrides) <= Keys(defaults) by {
      forall k <- Keys(overrides) ensures k in Keys(defaults) { assert k !in unknown; }
    }
    var result: seq<Entry> := [];
    ghost var whole := MergeItems(defaults, overrides);
    assert defaults[0..] == defaults && (whole.Ok? ==> result + whole.value == whole.value);
    var k := 0;
    while k < |defaults|
      invariant 0 <= k <= |defaults|
      invariant MergeItems(defaults, overrides) == Prepend(result, MergeItems(defaults[k..], overrides))
    {
      var Entry(key, default) := defaults[k];
      var value := Get(overrides, key, default);
      assert defaults[k..][1..] == defaults[k + 1..];
      if default.Map? {
        if !value.Map? { return Err(NotMapping(key)); }
        var nested := MergeKnownLoop(default.entries, value.entries);
        if nested.Err? { return Err(nested.error); }
        value := Map(nested.value);
      }
      ghost var tail := MergeItems(defaults[k + 1..], overrides);
      assert tail.Ok? ==> result + ([Entry(key, value)] + tail.value) == result + [Entry(key, value)] + tail.value;
      result := result + [Entry(key, value)];
      k := k + 1;
    }
    assert defaults[k..] == [] && result + [] == result;
    return Ok(result);
  }
}
