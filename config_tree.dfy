/**
 * Configuration values as parsed JSON, and the dotted-key access both `Config` classes
 * share: `getConfigEntry("a.b.c")` walks dictionaries with `.get`, and
 * `modifyConfigEntry("a.b.c", v)` replaces an existing leaf.
 */
module ConfigTree {
  import opened Wrappers
  import opened Text

  /** A JSON value; objects are dictionaries (their key order is not modelled). */
  datatype Json =
    | JNull
    | JBool(b: bool)
    | JInt(i: int)
    | JFloat(r: real)
    | JStr(s: string)
    | JArray(items: seq<Json>)
    | JObject(fields: map<string, Json>)

  /** `type(value)` of the Python value `json.load` produces. */
  datatype PyType = NoneType | BoolType | IntType | FloatType | StrType | ListType | DictType

  function TypeOf(j: Json): PyType {
    match j
    case JNull => NoneType
    case JBool(_) => BoolType
    case JInt(_) => IntType
    case JFloat(_) => FloatType
    case JStr(_) => StrType
    case JArray(_) => ListType
    case JObject(_) => DictType
  }

  /** The error raised when `.get` is called on something that is not a dictionary. */
  const NOT_A_DICT: string := "AttributeError"

  /**
   * What `getConfigEntry` returns for a path from `j`: `None` as soon as a key is
   * missing or holds null, the error `AttributeError` when a non-dictionary is asked
   * for a key.
   */
  function Get(j: Json, path: seq<string>): Result<Json, string>
    decreases |path|
  {
    if path == [] then Ok(j)
    else if !j.JObject? then Err(NOT_A_DICT)
    else
      var next := if path[0] in j.fields then j.fields[path[0]] else JNull;
      if next == JNull then Ok(JNull) else Get(next, path[1..])
  }

  /** The value at an existing path: every step is a dictionary that has the key. */
  function Walk(j: Json, path: seq<string>): Option<Json>
    decreases |path|
  {
    if path == [] then Some(j)
    else if j.JObject? && path[0] in j.fields then Walk(j.fields[path[0]], path[1..])
    else None
  }

  /** `j` with the existing leaf at `path` replaced by `v`. */
  function SetPath(j: Json, path: seq<string>, v: Json): Json
    requires path != [] && Walk(j, path).Some?
    decreases |path|
  {
    var child := j.fields[path[0]];
    JObject(j.fields[path[0] := if |path| == 1 then v else SetPath(child, path[1..], v)])
  }

  lemma {:induction false} WalkAppend(j: Json, path: seq<string>, key: string)
    ensures Walk(j, path + [key]) ==
      if Walk(j, path).Some? && Walk(j, path).value.JObject? && key in Walk(j, path).value.fields
      then Some(Walk(j, path).value.fields[key]) else None
    decreases |path|
  {
    if path != [] {
      assert (path + [key])[0] == path[0] && (path + [key])[1..] == path[1..] + [key];
      if j.JObject? && path[0] in j.fields {
        WalkAppend(j.fields[path[0]], path[1..], key);
      }
    }
  }

  /** After a replacement the new value is found at its path. */
  lemma {:induction false} GetAfterSet(j: Json, path: seq<string>, v: Json)
    requires path != [] && Walk(j, path).Some?
    ensures Get(SetPath(j, path, v), path) == Ok(v)
    ensures Walk(SetPath(j, path, v), path) == Some(v)
    decreases |path|
  {
    if |path| > 1 {
      GetAfterSet(j.fields[path[0]], path[1..], v);
    }
  }

  /** A replacement leaves every path that branches off from it where it was. */
  lemma {:induction false} SetLeavesOthers(j: Json, path: seq<string>, v: Json, other: seq<string>, i: nat)
    requires path != [] && Walk(j, path).Some?
    requires i < |path| && i < |other| && path[..i] == other[..i] && path[i] != other[i]
    ensures Get(SetPath(j, path, v), other) == Get(j, other)
    ensures Walk(SetPath(j, path, v), other) == Walk(j, other)
    decreases i
  {
    if i > 0 {
      assert other[0] == path[0];
      assert path[1..][..i - 1] == other[1..][..i - 1];
      SetLeavesOthers(j.fields[path[0]], path[1..], v, other[1..], i - 1);
    }
  }

  /** A replacement changes no key set: the tree keeps its shape. */
  lemma {:induction false} SetKeepsKeys(j: Json, path: seq<string>, v: Json)
    requires path != [] && Walk(j, path).Some?
    ensures SetPath(j, path, v).fields.Keys == j.fields.Keys
  {
  }

  /** The loop of `getConfigEntry(entryName)` over the configuration dictionary. */
  method GetConfigEntry(config: map<string, Json>, entryName: string) returns (r: Result<Json, string>)
    ensures r == Get(JObject(config), Split(entryName, '.'))
  {
    var entryTree := Split(entryName, '.');
    var result := JObject(config);
    for k := 0 to |entryTree|
      invariant result != JNull
      invariant Get(result, entryTree[k..]) == Get(JObject(config), entryTree)
    {
      assert entryTree[k..][0] == entryTree[k] && entryTree[k..][1..] == entryTree[k + 1..];
      if !result.JObject? {
        return Err(NOT_A_DICT);
      }
      result := if entryTree[k] in result.fields then result.fields[entryTree[k]] else JNull;
      if result == JNull {
        return Ok(JNull);
      }
    }
    assert entryTree[|entryTree|..] == [];
    r := Ok(result);
  }

  /**
   * `modifyConfigEntry(entryName, newValue)`: walks all but the last key, then replaces
   * the last one. Returns whether it did, with the configuration afterwards.
   */
  method ModifyConfigEntry(config: map<string, Json>, entryName: string, newValue: Json)
    returns (modified: bool, result: map<string, Json>)
    ensures var path := Split(entryName, '.');
      (modified <==> Walk(JObject(config), path).Some?)
      && (modified ==> JObject(result) == SetPath(JObject(config), path, newValue))
      && (!modified ==> result == config)
  {
    var entryTree := Split(entryName, '.');
    var currentLevel := JObject(config);
    var n := |entryTree| - 1;
    for k := 0 to n
      invariant Walk(JObject(config), entryTree[..k]) == Some(currentLevel)
    {
      WalkAppend(JObject(config), entryTree[..k], entryTree[k]);
      assert entryTree[..k + 1] == entryTree[..k] + [entryTree[k]];
      if !currentLevel.JObject? || entryTree[k] !in currentLevel.fields {
        WalkNoExtension(JObject(config), entryTree[..k + 1], entryTree);
        return false, config;
      }
      currentLevel := currentLevel.fields[entryTree[k]];
    }
    var lastLevel := entryTree[n];
    WalkAppend(JObject(config), entryTree[..n], lastLevel);
    assert entryTree[..n] + [lastLevel] == entryTree;
    if !currentLevel.JObject? || lastLevel !in currentLevel.fields {
      return false, config;
    }
    var updated := SetPath(JObject(config), entryTree, newValue);
    return true, updated.fields;
  }

  /** A path that ends early cannot be walked any further. */
  lemma {:induction false} WalkNoExtension(j: Json, prefix: seq<string>, path: seq<string>)
    requires prefix <= path && Walk(j, prefix).None?
    ensures Walk(j, path).None?
    decreases |prefix|
  {
    if prefix != [] && j.JObject? && prefix[0] in j.fields {
      WalkNoExtension(j.fields[prefix[0]], prefix[1..], path[1..]);
    }
  }
}
