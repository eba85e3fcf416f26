/**
 * `autohack.lib.config.Config`: a configuration checked against its defaults. Every
 * load merges the file into the defaults, keeping a stored value only when its type
 * is exactly the default's, and writes the result back. `DEFAULT_CONFIG` of
 * `autohack.core.constant` serves as the concrete defaults. `MergeConfigs` is the
 * merge as written; `MergeExcluding` also leaves the key paths of
 * `CONFIG_VALIDATION_EXCLUDE` unchecked, which the written merge never does.
 */
module LibConfig {
  import opened Wrappers
  import opened Text
  import opened ConfigTree

  /** `DEFAULT_CONFIG` of `autohack.core.constant`. */
  const DEFAULT_CONFIG: map<string, Json> := map[
    "maximum_number_of_data" := JInt(0),
    "time_limit" := JInt(1000),
    "memory_limit" := JInt(256),
    "error_data_number_limit" := JInt(1),
    "paths" := JObject(map[
      "input" := JStr("$(id)/input"),
      "answer" := JStr("$(id)/answer"),
      "output" := JStr("$(id)/output")
    ]),
    "commands" := JObject(map[
      "compile" := JObject(map[
        "source" := JArray([JStr("g++"), JStr("source.cpp"), JStr("-o"), JStr("source"), JStr("-O2")]),
        "std" := JArray([JStr("g++"), JStr("std.cpp"), JStr("-o"), JStr("std"), JStr("-O2")]),
        "generator" := JArray([JStr("g++"), JStr("generator.cpp"), JStr("-o"), JStr("generator"), JStr("-O2")])
      ]),
      "run" := JObject(map[
        "source" := JArray([JStr("./source")]),
        "std" := JArray([JStr("./std")]),
        "generator" := JArray([JStr("./generator")])
      ])
    ]),
    "checker" := JObject(map[
      "name" := JStr("builtin_basic"),
      "args" := JObject(map[])
    ]),
    "command_at_end" := JStr("")
  ]

  /** `mergeConfigs(old, newDefault)`, with `stored` for `old`. */
  function MergeConfigs(stored: map<string, Json>, newDefault: map<string, Json>): (merged: map<string, Json>)
    ensures merged.Keys == newDefault.Keys
    decreases JObject(newDefault)
  {
    map key | key in newDefault ::
      if key in stored then
        if newDefault[key].JObject? && stored[key].JObject? then
          JObject(MergeConfigs(stored[key].fields, newDefault[key].fields))
        else if TypeOf(stored[key]) == TypeOf(newDefault[key]) then stored[key]
        else newDefault[key]
      else newDefault[key]
  }

  /**
   * `m` has the shape of the defaults `d`: the same keys at every level, a dictionary
   * wherever `d` has one, and elsewhere a value of exactly the default's type.
   */
  predicate Conforms(m: map<string, Json>, d: map<string, Json>)
    decreases JObject(d)
  {
    m.Keys == d.Keys
    && forall key :: key in d ==>
      if d[key].JObject? then m[key].JObject? && Conforms(m[key].fields, d[key].fields)
      else TypeOf(m[key]) == TypeOf(d[key])
  }

  /** The merge result always has the shape of the defaults. */
  lemma {:induction false} MergeConforms(stored: map<string, Json>, d: map<string, Json>)
    ensures Conforms(MergeConfigs(stored, d), d)
    decreases JObject(d)
  {
    var m := MergeConfigs(stored, d);
    forall key | key in d && d[key].JObject? ensures m[key].JObject? && Conforms(m[key].fields, d[key].fields) {
      if key in stored && stored[key].JObject? {
        MergeConforms(stored[key].fields, d[key].fields);
      } else {
        ConformsSelf(d[key].fields);
      }
    }
  }

  lemma {:induction false} ConformsSelf(d: map<string, Json>)
    ensures Conforms(d, d)
    decreases JObject(d)
  {
    forall key | key in d && d[key].JObject? ensures Conforms(d[key].fields, d[key].fields) {
      ConformsSelf(d[key].fields);
    }
  }

  /** A configuration that already has the defaults' shape is kept exactly. */
  lemma {:induction false} MergeConformingIsIdentity(m: map<string, Json>, d: map<string, Json>)
    requires Conforms(m, d)
    ensures MergeConfigs(m, d) == m
    decreases JObject(d)
  {
    forall key | key in d && d[key].JObject? ensures MergeConfigs(m[key].fields, d[key].fields) == m[key].fields {
      MergeConformingIsIdentity(m[key].fields, d[key].fields);
    }
  }

  /** Re-merging a merge result with the same defaults yields it unchanged, so reloading is stable. */
  lemma MergeIdempotent(stored: map<string, Json>, d: map<string, Json>)
    ensures MergeConfigs(MergeConfigs(stored, d), d) == MergeConfigs(stored, d)
  {
    MergeConforms(stored, d);
    MergeConformingIsIdentity(MergeConfigs(stored, d), d);
  }

  /** A stored leaf is kept exactly when its type is the default's type. */
  lemma KeepsMatchingTypes(stored: map<string, Json>, d: map<string, Json>, key: string)
    requires key in d && key in stored && !(stored[key].JObject? && d[key].JObject?)
    ensures MergeConfigs(stored, d)[key] == stored[key] <==> TypeOf(stored[key]) == TypeOf(d[key]) || stored[key] == d[key]
  {
  }

  /** With the real defaults: a bool where an int is expected is replaced, a stored int is kept. */
  lemma DefaultExamples()
    ensures MergeConfigs(map["time_limit" := JBool(true)], DEFAULT_CONFIG)["time_limit"] == JInt(1000)
    ensures MergeConfigs(map["time_limit" := JInt(2000)], DEFAULT_CONFIG)["time_limit"] == JInt(2000)
    ensures MergeConfigs(map["unknown" := JInt(1)], DEFAULT_CONFIG) == DEFAULT_CONFIG
  {
    MergeSelfIsDefault(map["unknown" := JInt(1)]);
  }

  lemma MergeSelfIsDefault(stored: map<string, Json>)
    requires forall key :: key in stored ==> key !in DEFAULT_CONFIG
    ensures MergeConfigs(stored, DEFAULT_CONFIG) == DEFAULT_CONFIG
  {
  }

  // ---------------------------------------------------------------------------
  // Keys excluded from validation

  /**
   * `CONFIG_VALIDATION_EXCLUDE` of `autohack.core.constant`, as key paths: the checker's
   * arguments hold user data and are not checked against the defaults.
   */
  const CONFIG_VALIDATION_EXCLUDE: set<seq<string>> := {["checker", "args"]}

  /** `MergeConfigs` drops every argument a user stored for the checker: the default `args` is `{}`. */
  lemma {:induction false} CheckerArgsDropped(stored: map<string, Json>)
    ensures MergeConfigs(stored, DEFAULT_CONFIG)["checker"].JObject?
    ensures MergeConfigs(stored, DEFAULT_CONFIG)["checker"].fields["args"] == JObject(map[])
  {
    var checker := DEFAULT_CONFIG["checker"].fields;
    if "checker" in stored && stored["checker"].JObject? {
      var c := stored["checker"].fields;
      if "args" in c && c["args"].JObject? {
        assert MergeConfigs(c["args"].fields, map[]) == map[];
      }
      assert MergeConfigs(c, checker)["args"] == JObject(map[]);
    }
  }

  /** A stored `{"compiler": "clang++"}` for the checker comes back as `{}`. */
  lemma CheckerArgsExample()
    ensures var args := JObject(map["compiler" := JStr("clang++")]);
      var stored := map["checker" := JObject(map["name" := JStr("builtin_basic"), "args" := args])];
      MergeConfigs(stored, DEFAULT_CONFIG)["checker"].fields["args"] != args
  {
    var args := JObject(map["compiler" := JStr("clang++")]);
    var stored := map["checker" := JObject(map["name" := JStr("builtin_basic"), "args" := args])];
    CheckerArgsDropped(stored);
    assert "compiler" in args.fields;
  }

  /**
   * The merge with the key paths in `exclude` left out of validation: a stored value
   * at an excluded path is kept as it is. `path` is where `stored` sits in the file.
   */
  function MergeExcluding(stored: map<string, Json>, newDefault: map<string, Json>, path: seq<string>, exclude: set<seq<string>>): (merged: map<string, Json>)
    ensures merged.Keys == newDefault.Keys
    decreases JObject(newDefault)
  {
    map key | key in newDefault ::
      if key in stored then
        if path + [key] in exclude then stored[key]
        else if newDefault[key].JObject? && stored[key].JObject? then
          JObject(MergeExcluding(stored[key].fields, newDefault[key].fields, path + [key], exclude))
        else if TypeOf(stored[key]) == TypeOf(newDefault[key]) then stored[key]
        else newDefault[key]
      else newDefault[key]
  }

  /** With no excluded path below `path`, the merge is `mergeConfigs` as written. */
  lemma {:induction false} ExcludingNothingIsMerge(stored: map<string, Json>, d: map<string, Json>, path: seq<string>, exclude: set<seq<string>>)
    requires forall e :: e in exclude ==> !(|path| < |e| && e[..|path|] == path)
    ensures MergeExcluding(stored, d, path, exclude) == MergeConfigs(stored, d)
    decreases JObject(d)
  {
    forall key | key in d
      ensures MergeExcluding(stored, d, path, exclude)[key] == MergeConfigs(stored, d)[key]
    {
      var p := path + [key];
      if key in stored && d[key].JObject? && stored[key].JObject? {
        ExcludingNothingIsMerge(stored[key].fields, d[key].fields, p, exclude);
      }
    }
  }

  /** `m` has the shape of `d` except at the excluded paths, where anything goes. */
  predicate ConformsExcluding(m: map<string, Json>, d: map<string, Json>, path: seq<string>, exclude: set<seq<string>>)
    decreases JObject(d)
  {
    m.Keys == d.Keys
    && forall key :: key in d ==>
      path + [key] in exclude
      || if d[key].JObject? then m[key].JObject? && ConformsExcluding(m[key].fields, d[key].fields, path + [key], exclude)
         else TypeOf(m[key]) == TypeOf(d[key])
  }

  lemma {:induction false} MergeExcludingConforms(stored: map<string, Json>, d: map<string, Json>, path: seq<string>, exclude: set<seq<string>>)
    ensures ConformsExcluding(MergeExcluding(stored, d, path, exclude), d, path, exclude)
    decreases JObject(d)
  {
    var m := MergeExcluding(stored, d, path, exclude);
    forall key | key in d && path + [key] !in exclude && d[key].JObject?
      ensures m[key].JObject? && ConformsExcluding(m[key].fields, d[key].fields, path + [key], exclude)
    {
      if key in stored && stored[key].JObject? {
        MergeExcludingConforms(stored[key].fields, d[key].fields, path + [key], exclude);
      } else {
        ConformsExcludingSelf(d[key].fields, path + [key], exclude);
      }
    }
  }

  lemma {:induction false} ConformsExcludingSelf(d: map<string, Json>, path: seq<string>, exclude: set<seq<string>>)
    ensures ConformsExcluding(d, d, path, exclude)
    decreases JObject(d)
  {
    forall key | key in d && path + [key] !in exclude && d[key].JObject?
      ensures ConformsExcluding(d[key].fields, d[key].fields, path + [key], exclude)
    {
      ConformsExcludingSelf(d[key].fields, path + [key], exclude);
    }
  }

  /** A configuration of the defaults' shape, away from the excluded paths, is kept exactly. */
  lemma {:induction false} MergeExcludingConformingIsIdentity(m: map<string, Json>, d: map<string, Json>, path: seq<string>, exclude: set<seq<string>>)
    requires ConformsExcluding(m, d, path, exclude)
    ensures MergeExcluding(m, d, path, exclude) == m
    decreases JObject(d)
  {
    forall key | key in d && path + [key] !in exclude && d[key].JObject?
      ensures MergeExcluding(m[key].fields, d[key].fields, path + [key], exclude) == m[key].fields
    {
      MergeExcludingConformingIsIdentity(m[key].fields, d[key].fields, path + [key], exclude);
    }
  }

  /** The checker's stored arguments, whatever they are, survive the merge with `checker.args` excluded. */
  lemma CheckerArgsKept(stored: map<string, Json>)
    requires "checker" in stored && stored["checker"].JObject? && "args" in stored["checker"].fields
    ensures MergeExcluding(stored, DEFAULT_CONFIG, [], CONFIG_VALIDATION_EXCLUDE)["checker"].JObject?
    ensures MergeExcluding(stored, DEFAULT_CONFIG, [], CONFIG_VALIDATION_EXCLUDE)["checker"].fields["args"]
         == stored["checker"].fields["args"]
  {
    assert [] + ["checker"] == ["checker"];
    assert ["checker"] + ["args"] == ["checker", "args"];
  }

  // ---------------------------------------------------------------------------
  // Loading

  /**
   * How `key in old` and `old[key]` behave in `mergeConfigs` when the file's top level
   * is not an object: a list or string only fails if a default key is found in it
   * (indexing it with a string), anything else is not iterable (which only shows once
   * there is a default key to look up).
   */
  function MergeIntoDefaults(stored: Json, d: map<string, Json>, exclude: set<seq<string>>): Result<map<string, Json>, string> {
    match stored
    case JObject(fields) => Ok(MergeExcluding(fields, d, [], exclude))
    case JArray(items) =>
      if exists key | key in d :: JStr(key) in items then Err("TypeError") else Ok(d)
    case JStr(s) =>
      if exists key | key in d :: Occurs(s, key) then Err("TypeError") else Ok(d)
    case _ => if d == map[] then Ok(d) else Err("TypeError")
  }

  /** The outcome of the constructor. */
  datatype Opened =
    | Opened(config: map<string, Json>, file: Json)
    | ExitAfterCreate(message: string, file: Json)
    | Failed(error: string)

  /**
   * `Config(configFilePath, defaultConfig, logger, messageOnCreate)`: `stored` is the
   * parsed file, None when there is none (then the defaults are written first).
   * `exclude` holds the key paths left out of validation: `{}` is the code as written,
   * which consults no list, and `CONFIG_VALIDATION_EXCLUDE` the evidently intended one.
   */
  function Open(stored: Option<Json>, d: map<string, Json>, exclude: set<seq<string>>, messageOnCreate: Option<string>): (r: Opened)
    ensures r.Opened? ==> r.file == JObject(r.config) && ConformsExcluding(r.config, d, [], exclude)
    ensures stored.None? ==> (if messageOnCreate.Some? then r == ExitAfterCreate(messageOnCreate.value, JObject(d)) else r == Opened(d, JObject(d)))
  {
    var content := if stored.None? then JObject(d) else stored.value;
    match MergeIntoDefaults(content, d, exclude)
    case Err(e) => Failed(e)
    case Ok(merged) =>
      ConformsResult(content, d, exclude);
      MergeSelfLemma(d, exclude);
      if stored.None? && messageOnCreate.Some? then ExitAfterCreate(messageOnCreate.value, JObject(merged))
      else Opened(merged, JObject(merged))
  }

  lemma MergeSelfLemma(d: map<string, Json>, exclude: set<seq<string>>)
    ensures MergeExcluding(d, d, [], exclude) == d
  {
    ConformsExcludingSelf(d, [], exclude);
    MergeExcludingConformingIsIdentity(d, d, [], exclude);
  }

  lemma ConformsResult(stored: Json, d: map<string, Json>, exclude: set<seq<string>>)
    requires MergeIntoDefaults(stored, d, exclude).Ok?
    ensures ConformsExcluding(MergeIntoDefaults(stored, d, exclude).value, d, [], exclude)
  {
    if stored.JObject? {
      MergeExcludingConforms(stored.fields, d, [], exclude);
    } else {
      ConformsExcludingSelf(d, [], exclude);
    }
  }

  /** Opening the file a previous open wrote finds it already merged. */
  lemma ReopenIsStable(stored: Option<Json>, d: map<string, Json>, exclude: set<seq<string>>)
    requires Open(stored, d, exclude, None).Opened?
    ensures var r := Open(stored, d, exclude, None); Open(Some(r.file), d, exclude, None) == r
  {
    var r := Open(stored, d, exclude, None);
    MergeExcludingConformingIsIdentity(r.config, d, [], exclude);
  }

  /** With nothing excluded, an opened file is merged by `mergeConfigs` as written, into the exact shape of the defaults. */
  lemma OpenAsWritten(stored: map<string, Json>, d: map<string, Json>)
    ensures Open(Some(JObject(stored)), d, {}, None) == Opened(MergeConfigs(stored, d), JObject(MergeConfigs(stored, d)))
    ensures Conforms(MergeConfigs(stored, d), d)
  {
    ExcludingNothingIsMerge(stored, d, [], {});
    MergeConforms(stored, d);
  }

  /** As written, loading the real defaults empties the checker's arguments on every open. */
  lemma OpenDropsCheckerArgs(stored: map<string, Json>)
    ensures Open(Some(JObject(stored)), DEFAULT_CONFIG, {}, None).Opened?
    ensures Open(Some(JObject(stored)), DEFAULT_CONFIG, {}, None).config["checker"].fields["args"] == JObject(map[])
  {
    OpenAsWritten(stored, DEFAULT_CONFIG);
    CheckerArgsDropped(stored);
  }

  /** With `checker.args` excluded, the stored arguments survive opening, and every later reopening. */
  lemma ArgsSurviveOpen(stored: map<string, Json>)
    requires "checker" in stored && stored["checker"].JObject? && "args" in stored["checker"].fields
    ensures var r := Open(Some(JObject(stored)), DEFAULT_CONFIG, CONFIG_VALIDATION_EXCLUDE, None);
      r.Opened? && r.config["checker"].JObject? && r.config["checker"].fields["args"] == stored["checker"].fields["args"]
      && Open(Some(r.file), DEFAULT_CONFIG, CONFIG_VALIDATION_EXCLUDE, None) == r
  {
    CheckerArgsKept(stored);
    ReopenIsStable(Some(JObject(stored)), DEFAULT_CONFIG, CONFIG_VALIDATION_EXCLUDE);
  }

  /** As written, no configuration loaded with the real defaults has `refresh_speed`: `getConfigEntry` reads None. */
  lemma RefreshSpeedMissing(stored: Option<Json>, exclude: set<seq<string>>)
    requires Open(stored, DEFAULT_CONFIG, exclude, None).Opened?
    ensures Get(JObject(Open(stored, DEFAULT_CONFIG, exclude, None).config), ["refresh_speed"]) == Ok(JNull)
  {
    assert "refresh_speed" !in DEFAULT_CONFIG;
  }

  /** The defaults with `refresh_speed`, at the value `DEFAULT_GLOBAL_CONFIG` gives it. */
  const DEFAULT_CONFIG_WITH_REFRESH: map<string, Json> := DEFAULT_CONFIG["refresh_speed" := JInt(10)]

  /** With the entry in the defaults, every loaded configuration has an integer refresh speed. */
  lemma RefreshSpeedPresent(stored: Option<Json>, exclude: set<seq<string>>)
    requires Open(stored, DEFAULT_CONFIG_WITH_REFRESH, exclude, None).Opened?
    requires ["refresh_speed"] !in exclude
    ensures var entry := Get(JObject(Open(stored, DEFAULT_CONFIG_WITH_REFRESH, exclude, None).config), ["refresh_speed"]);
      entry.Ok? && entry.value.JInt?
  {
    var m := Open(stored, DEFAULT_CONFIG_WITH_REFRESH, exclude, None).config;
    assert [] + ["refresh_speed"] == ["refresh_speed"];
    assert "refresh_speed" in DEFAULT_CONFIG_WITH_REFRESH && !DEFAULT_CONFIG_WITH_REFRESH["refresh_speed"].JObject?;
    assert TypeOf(m["refresh_speed"]) == IntType;
  }

  /** The configuration object with its file. */
  class Config {
    const defaultConfig: map<string, Json>
    var config: map<string, Json>
    var file: Json

    predicate Valid()
      reads this
    {
      file == JObject(config)
    }

    constructor (d: map<string, Json>, loaded: Opened)
      requires loaded.Opened?
      ensures Valid() && defaultConfig == d && config == loaded.config
    {
      defaultConfig := d;
      config := loaded.config;
      file := JObject(loaded.config);
    }

    /** `getConfigEntry(entryName)`. */
    method GetConfigEntry(entryName: string) returns (r: Result<Json, string>)
      ensures r == Get(JObject(config), Split(entryName, '.'))
    {
      r := ConfigTree.GetConfigEntry(config, entryName);
    }

    /** `modifyConfigEntry(entryName, newValue)`: the file is rewritten only on success. */
    method ModifyConfigEntry(entryName: string, newValue: Json) returns (modified: bool)
      requires Valid()
      modifies this
      ensures Valid()
      ensures modified <==> Walk(JObject(old(config)), Split(entryName, '.')).Some?
      ensures modified ==> JObject(config) == SetPath(JObject(old(config)), Split(entryName, '.'), newValue)
      ensures !modified ==> config == old(config) && file == old(file)
    {
      var updated;
      modified, updated := ConfigTree.ModifyConfigEntry(config, entryName, newValue);
      if modified {
        config := updated;
        file := JObject(config);
      }
    }
  }
}
