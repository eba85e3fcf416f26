/**
 * `autohack.config.Config`: a versioned configuration file. Loading keeps a current
 * file as it is; an outdated one is merged into the defaults (stored values win,
 * keys the defaults do not know are dropped) and stamped with the current version.
 */
module Config {
  import opened Wrappers
  import opened ConfigTree
  import opened Text

  /** `Config.DEFAULT_CONFIG`. */
  const DEFAULT_CONFIG: map<string, Json> := map[
    "version" := JInt(3),
    "maximum_number_of_data" := JInt(10),
    "time_limit" := JInt(1000),
    "memory_limit" := JInt(256),
    "error_data_number_limit" := JInt(1),
    "filenames" := JObject(map[
      "input" := JStr("hack$(id).in"),
      "output" := JStr("hack$(id).out"),
      "answer" := JStr("hack$(id).ans")
    ]),
    "commands" := JObject(map[
      "compile" := JObject(map[
        "source" := JArray([JStr("g++"), JStr("source.cpp"), JStr("-o"), JStr("source"), JStr("-Wl,--stack=268435456"), JStr("-O2")]),
        "std" := JArray([JStr("g++"), JStr("std.cpp"), JStr("-o"), JStr("std"), JStr("-Wl,--stack=268435456"), JStr("-O2")]),
        "checker" := JArray([JStr("g++"), JStr("checker.cpp"), JStr("-o"), JStr("checker"), JStr("-O2")]),
        "generator" := JArray([JStr("g++"), JStr("generator.cpp"), JStr("-o"), JStr("generator"), JStr("-O2")])
      ]),
      "run" := JObject(map[
        "source" := JArray([JStr("./source")]),
        "std" := JArray([JStr("./std")]),
        "checker" := JArray([JStr("./checker"), JStr("$(outputfile)"), JStr("$(ansfile)")]),
        "generator" := JArray([JStr("./generator")])
      ])
    ]),
    "command_run_at_the_end" := JStr("")
  ]

  const VERSION: int := 3

  /** `merge_configs(old, new_default)`, with `stored` for `old`. */
  function MergeConfigs(stored: map<string, Json>, newDefault: map<string, Json>): (merged: map<string, Json>)
    ensures merged.Keys == newDefault.Keys
    decreases JObject(newDefault)
  {
    map key | key in newDefault ::
      if key in stored && newDefault[key].JObject? && stored[key].JObject? then
        JObject(MergeConfigs(stored[key].fields, newDefault[key].fields))
      else if key in stored then stored[key]
      else newDefault[key]
  }

  /** Keys only the stored configuration has are dropped; a stored value wins unless both sides are dictionaries. */
  lemma MergeRules(stored: map<string, Json>, newDefault: map<string, Json>, key: string)
    requires key in newDefault
    ensures key !in stored ==> MergeConfigs(stored, newDefault)[key] == newDefault[key]
    ensures key in stored && !(stored[key].JObject? && newDefault[key].JObject?) ==>
      MergeConfigs(stored, newDefault)[key] == stored[key]
    ensures key in stored && stored[key].JObject? && newDefault[key].JObject? ==>
      MergeConfigs(stored, newDefault)[key] == JObject(MergeConfigs(stored[key].fields, newDefault[key].fields))
  {
  }

  /** Merging the defaults into themselves changes nothing. */
  lemma {:induction false} MergeSelf(d: map<string, Json>)
    ensures MergeConfigs(d, d) == d
    decreases JObject(d)
  {
    forall key | key in d && d[key].JObject? ensures MergeConfigs(d[key].fields, d[key].fields) == d[key].fields {
      MergeSelf(d[key].fields);
    }
  }

  /** Merging a merge result again with the same defaults changes nothing. */
  lemma {:induction false} MergeIdempotent(stored: map<string, Json>, d: map<string, Json>)
    ensures MergeConfigs(MergeConfigs(stored, d), d) == MergeConfigs(stored, d)
    decreases JObject(d)
  {
    var m := MergeConfigs(stored, d);
    forall key | key in d && d[key].JObject? && m[key].JObject?
      ensures MergeConfigs(m[key].fields, d[key].fields) == m[key].fields
    {
      if key in stored && stored[key].JObject? {
        MergeIdempotent(stored[key].fields, d[key].fields);
      } else if key !in stored {
        MergeSelf(d[key].fields);
      }
    }
  }

  /** `DEFAULT_CONFIG["version"] > config.get("version", 0)`, or the TypeError of an unorderable version. */
  function Outdated(config: map<string, Json>): Result<bool, string> {
    if "version" !in config then Ok(VERSION > 0)
    else
      match config["version"]
      case JInt(i) => Ok(VERSION > i)
      case JFloat(r) => Ok(VERSION as real > r)
      case JBool(b) => Ok(VERSION > if b then 1 else 0)
      case _ => Err("TypeError")
  }

  /** What loading produces: the configuration, and the file content if the file was (re)written. */
  datatype Loaded = Loaded(config: map<string, Json>, written: Option<Json>)

  /**
   * `loadConfig()`. `stored` is the parsed file, None when there is none; a file whose
   * top level is not an object fails at `config.get`.
   */
  function LoadConfig(stored: Option<Json>): (r: Result<Loaded, string>)
    ensures stored.None? ==> r == Ok(Loaded(DEFAULT_CONFIG, Some(JObject(DEFAULT_CONFIG))))
    ensures stored.Some? && !stored.value.JObject? ==> r == Err(NOT_A_DICT)
    ensures stored.Some? && stored.value.JObject? && Outdated(stored.value.fields) == Ok(false) ==>
      r == Ok(Loaded(stored.value.fields, None))
    // An outdated file: the defaults fill in what it lacks, the version is raised, and the result is written back.
    ensures stored.Some? && stored.value.JObject? && Outdated(stored.value.fields) == Ok(true) ==>
      var m := MergeConfigs(stored.value.fields, DEFAULT_CONFIG)["version" := JInt(VERSION)];
      r == Ok(Loaded(m, Some(JObject(m))))
    // A version that cannot be compared fails the load.
    ensures stored.Some? && stored.value.JObject? && Outdated(stored.value.fields).Err? ==> r.Err?
    ensures r.Ok? && r.value.written.Some? ==> r.value.written == Some(JObject(r.value.config))
    ensures r.Ok? && stored.Some? && r.value.written.Some? ==>
      r.value.config.Keys == DEFAULT_CONFIG.Keys && r.value.config["version"] == JInt(VERSION)
  {
    if stored.None? then Ok(Loaded(DEFAULT_CONFIG, Some(JObject(DEFAULT_CONFIG))))
    else if !stored.value.JObject? then Err(NOT_A_DICT)
    else
      var config := stored.value.fields;
      match Outdated(config)
      case Err(e) => Err(e)
      case Ok(false) => Ok(Loaded(config, None))
      case Ok(true) =>
        var merged := MergeConfigs(config, DEFAULT_CONFIG)["version" := JInt(VERSION)];
        Ok(Loaded(merged, Some(JObject(merged))))
  }

  /** Loading an upgraded file again finds it current and keeps it as it is. */
  lemma UpgradeIsStable(stored: Json)
    requires LoadConfig(Some(stored)).Ok? && LoadConfig(Some(stored)).value.written.Some?
    ensures var c := LoadConfig(Some(stored)).value.config;
      LoadConfig(Some(JObject(c))) == Ok(Loaded(c, None))
  {
  }

  /** The configuration object: what is loaded, and what the file holds. */
  class Config {
    var config: map<string, Json>
    var file: Json

    predicate Valid()
      reads this
    {
      file == JObject(config)
    }

    /** `Config(configFilePath, logger)` once `loadConfig` succeeded with `loaded`. */
    constructor (loaded: Loaded, existing: Json)
      requires loaded.written.Some? ==> loaded.written.value == JObject(loaded.config)
      requires loaded.written.None? ==> existing == JObject(loaded.config)
      ensures Valid() && config == loaded.config
    {
      config := loaded.config;
      file := if loaded.written.Some? then loaded.written.value else existing;
    }

    /** `getConfigEntry(entryName)`. */
    method GetConfigEntry(entryName: string) returns (r: Result<Json, string>)
      ensures r == Get(JObject(config), Split(entryName, '.'))
    {
      r := ConfigTree.GetConfigEntry(config, entryName);
    }

    /** `modifyConfigEntry(entryName, newValue)`: the file is rewritten only on success. */
    method ModifyConfigEntry(entryName: string, newValue: Json) returns (modified: bool)
      requires Valid()
      modifies this
      ensures Valid()
      ensures modified <==> Walk(JObject(old(config)), Split(entryName, '.')).Some?
      ensures modified ==> JObject(config) == SetPath(JObject(old(config)), Split(entryName, '.'), newValue)
      ensures !modified ==> config == old(config) && file == old(file)
    {
      var updated;
      modified, updated := ConfigTree.ModifyConfigEntry(config, entryName, newValue);
      if modified {
        config := updated;
        file := JObject(config);
      }
    }
  }

}
