/**
 * The configuration loader: a JSON tree read from `config.json`, in which
 * every string of the form `{{NAME}}` is replaced by the typed value of the
 * environment variable `NAME`; values are read back with dot-separated
 * paths, and four keys must be present for loading to succeed.
 * The environment is a map from variable name to value; the parsed JSON
 * file is an input (absent when the file is missing or malformed).
 */
module ConfigLoader {
  import opened Wrappers
  import opened Text

  /** A JSON value (floating-point numbers are not modelled). */
  datatype Json =
    | JNull
    | JBool(b: bool)
    | JInt(i: int)
    | JStr(s: string)
    | JList(items: seq<Json>)
    | JObject(fields: map<string, Json>)

  // ---------- dot-path lookup ----------

  /** Follow `keys` from `v`: each step needs an object holding the key. */
  function Lookup(v: Json, keys: seq<string>): (r: Option<Json>)
    ensures keys == [] ==> r == Some(v)
    ensures keys != [] && !(v.JObject? && keys[0] in v.fields) ==> r == None
  {
    if keys == [] then Some(v)
    else if v.JObject? && keys[0] in v.fields then Lookup(v.fields[keys[0]], keys[1..])
    else None
  }

  /** Looking up a path in two parts is looking up the second part from where the first one ends. */
  lemma {:induction false} LookupAppend(v: Json, ks1: seq<string>, ks2: seq<string>)
    ensures Lookup(v, ks1 + ks2) == if Lookup(v, ks1).Some? then Lookup(Lookup(v, ks1).value, ks2) else None
  {
    if ks1 != [] {
      assert (ks1 + ks2)[0] == ks1[0] && (ks1 + ks2)[1..] == ks1[1..] + ks2;
      if v.JObject? && ks1[0] in v.fields {
        LookupAppend(v.fields[ks1[0]], ks1[1..], ks2);
      }
    } else {
      assert ks1 + ks2 == ks2;
    }
  }

  /** `get(key, default)`: the value at the dot-separated path, or `default` when the path breaks off. */
  function GetOr(config: Json, key: string, default: Json): Json {
    match Lookup(config, Split(key, '.'))
    case Some(v) => v
    case None => default
  }

  /** A two-part key `section.name` (neither part holding a dot) reads `config[section][name]`. */
  lemma GetTwoLevels(config: Json, section: string, name: string, default: Json)
    requires '.' !in section && '.' !in name
    ensures GetOr(config, section + "." + name, default) ==
      if config.JObject? && section in config.fields && config.fields[section].JObject? && name in config.fields[section].fields
      then config.fields[section].fields[name] else default
  {
    SplitJoin([section, name], '.');
    assert Join([section, name], ['.']) == section + "." + name;
    var keys := Split(section + "." + name, '.');
    assert keys == [section, name];
    if config.JObject? && section in config.fields {
      var inner := config.fields[section];
      assert Lookup(config, keys) == Lookup(inner, [name]) by { assert keys[1..] == [name]; }
      if inner.JObject? && name in inner.fields {
        assert Lookup(inner, [name]) == Lookup(inner.fields[name], []);
      }
    }
  }

  // ---------- environment values ----------

  /** The pieces of a comma-separated environment value, each stripped. */
  function StrippedPieces(value: string): (r: seq<Json>)
    ensures |r| == |Split(value, ',')|
    ensures forall k :: 0 <= k < |r| ==> r[k] == JStr(Strip(Split(value, ',')[k]))
    ensures forall k :: 0 <= k < |r| ==> r[k].JStr? && ',' !in r[k].s
    ensures forall k :: 0 <= k < |r| && r[k].s != [] ==> !IsSpace(r[k].s[0]) && !IsSpace(r[k].s[|r[k].s| - 1])
  {
    var pieces := Split(value, ',');
    seq(|pieces|, k requires 0 <= k < |pieces| => JStr(Strip(pieces[k])))
  }

  /**
   * `_get_env_variable(name)`: unset gives `null`; `true`/`false` in any
   * case give a boolean; all digits give an integer; a value with a comma
   * gives the list of its stripped pieces; anything else stays a string.
   */
  function EnvValue(env: map<string, string>, name: string): (r: Json)
    ensures name !in env <==> r == JNull
    ensures name in env && Lower(env[name]) == "true" ==> r == JBool(true)
    ensures name in env && Lower(env[name]) == "false" ==> r == JBool(false)
    ensures r.JBool? ==> name in env && Lower(env[name]) in {"true", "false"}
    ensures r.JInt? <==> name in env && Lower(env[name]) !in {"true", "false"} && IsDigits(env[name])
    ensures r.JInt? ==> r.i >= 0
    ensures r.JInt? ==> name in env && IsDigits(env[name]) && r.i == ParseNat(env[name])
    ensures r.JList? <==> name in env && !IsDigits(env[name]) && ',' in env[name] && Lower(env[name]) !in {"true", "false"}
    ensures r.JList? ==> |r.items| >= 2 && r.items == StrippedPieces(env[name])
    ensures r.JStr? ==> name in env && r.s == env[name] && ',' !in env[name]
    ensures !r.JObject?
  {
    if name !in env then JNull
    else
      var value := env[name];
      if Lower(value) == "true" then JBool(true)
      else if Lower(value) == "false" then JBool(false)
      else if IsDigits(value) then JInt(ParseNat(value))
      else if ',' in value then
        CommaSplitsInTwo(value);
        JList(StrippedPieces(value))
      else JStr(value)
  }

  lemma {:induction false} CommaSplitsInTwo(s: string)
    requires ',' in s
    ensures |Split(s, ',')| >= 2
  {
    if s[0] == ',' {
    } else {
      assert ',' in s[1..] by {
        var i :| 0 <= i < |s| && s[i] == ',';
        assert s[1..][i - 1] == ',';
      }
      CommaSplitsInTwo(s[1..]);
    }
  }

  /** An integer variable reads back as the number whose decimal form it is. */
  lemma EnvIntRoundTrip(env: map<string, string>, name: string, n: nat)
    requires name in env && env[name] == NatToString(n)
    ensures EnvValue(env, name) == JInt(n)
  {
    ParseNatToString(n);
    var s := env[name];
    assert s[0] != 't' && s[0] != 'T' && s[0] != 'f' && s[0] != 'F';
    assert Lower(s)[0] == LowerChar(s[0]);
  }

  /** The pieces of a list variable, before stripping, join back to the raw value. */
  lemma EnvListLosesOnlySpace(env: map<string, string>, name: string)
    requires EnvValue(env, name).JList?
    ensures Join(Split(env[name], ','), ",") == env[name]
  {
    JoinSplit(env[name], ',');
  }

  // ---------- placeholder substitution ----------

  /** `s.startswith('{{') and s.endswith('}}')`. */
  predicate IsPlaceholder(s: string) {
    StartsWith(s, "{{") && EndsWith(s, "}}")
  }

  /** `s[2:-2].strip()`: the variable a placeholder names. */
  function PlaceholderName(s: string): (r: string)
    requires IsPlaceholder(s)
  {
    assert s[0] == '{' && s[1] == '{' by { assert s[..2] == "{{"; }
    assert s[|s| - 2] == '}' && s[|s| - 1] == '}' by { assert s[|s| - 2..] == "}}"; }
    Strip(s[2..|s| - 2])
  }

  /**
   * `_process_config`: objects and lists are rebuilt element by element;
   * a placeholder string becomes its environment value; every other value
   * is returned as it is.
   */
  function ProcessConfig(v: Json, env: map<string, string>): (r: Json)
    ensures v.JObject? ==> r.JObject? && r.fields.Keys == v.fields.Keys
    ensures v.JList? ==> r.JList? && |r.items| == |v.items|
    ensures v.JStr? && IsPlaceholder(v.s) ==> r == EnvValue(env, PlaceholderName(v.s))
    ensures !v.JObject? && !v.JList? && !(v.JStr? && IsPlaceholder(v.s)) ==> r == v
    decreases v
  {
    match v
    case JObject(fields) => JObject(map k | k in fields :: ProcessConfig(fields[k], env))
    case JList(items) => JList(seq(|items|, i requires 0 <= i < |items| => ProcessConfig(items[i], env)))
    case JStr(s) => if IsPlaceholder(s) then EnvValue(env, PlaceholderName(s)) else v
    case _ => v
  }

  /** The shape of a tree: objects with their keys and lists with their lengths, at every depth. */
  predicate SameShape(a: Json, b: Json)
    decreases a
  {
    match a
    case JObject(fa) => b.JObject? && b.fields.Keys == fa.Keys && forall k :: k in fa ==> SameShape(fa[k], b.fields[k])
    case JList(xa) => b.JList? && |b.items| == |xa| && forall i :: 0 <= i < |xa| ==> SameShape(xa[i], b.items[i])
    case _ => true
  }

  /** Substitution keeps the shape of the tree at every depth. */
  lemma {:induction false} ProcessKeepsShape(v: Json, env: map<string, string>)
    ensures SameShape(v, ProcessConfig(v, env))
    decreases v
  {
    match v
    case JObject(fields) =>
      forall k | k in fields
        ensures SameShape(fields[k], ProcessConfig(v, env).fields[k])
      {
        ProcessKeepsShape(fields[k], env);
      }
    case JList(items) =>
      forall i | 0 <= i < |items|
        ensures SameShape(items[i], ProcessConfig(v, env).items[i])
      {
        ProcessKeepsShape(items[i], env);
      }
    case _ =>
  }

  /** No placeholder anywhere in the tree. */
  predicate PlaceholderFree(v: Json)
    decreases v
  {
    match v
    case JObject(fields) => forall k :: k in fields ==> PlaceholderFree(fields[k])
    case JList(items) => forall i :: 0 <= i < |items| ==> PlaceholderFree(items[i])
    case JStr(s) => !IsPlaceholder(s)
    case _ => true
  }

  /** A tree without placeholders comes out of substitution unchanged, whatever the environment. */
  lemma {:induction false} ProcessFixesPlaceholderFree(v: Json, env: map<string, string>)
    requires PlaceholderFree(v)
    ensures ProcessConfig(v, env) == v
    decreases v
  {
    match v
    case JObject(fields) =>
      forall k | k in fields
        ensures ProcessConfig(fields[k], env) == fields[k]
      {
        ProcessFixesPlaceholderFree(fields[k], env);
      }
      assert ProcessConfig(v, env).fields == fields;
    case JList(items) =>
      forall i | 0 <= i < |items|
        ensures ProcessConfig(items[i], env) == items[i]
      {
        ProcessFixesPlaceholderFree(items[i], env);
      }
      assert ProcessConfig(v, env).items == items;
    case _ =>
  }

  /** Substitution commutes with lookup: a path reaches the processed tree exactly where it reaches the original, and finds there the processed value. */
  lemma {:induction false} ProcessAtPath(v: Json, env: map<string, string>, path: seq<string>)
    ensures Lookup(ProcessConfig(v, env), path) ==
      if Lookup(v, path).Some? then Some(ProcessConfig(Lookup(v, path).value, env)) else None
    decreases path
  {
    if path != [] && v.JObject? && path[0] in v.fields {
      ProcessAtPath(v.fields[path[0]], env, path[1..]);
      assert ProcessConfig(v, env).fields[path[0]] == ProcessConfig(v.fields[path[0]], env);
    }
  }

  /** One step into a tree: a field of an object, or an element of a list. */
  datatype Hop = Field(k: string) | Element(i: nat)

  /** The node one step below `v`, or `None` where that field or element does not exist. */
  function Step(v: Json, h: Hop): Option<Json> {
    match h
    case Field(k) => if v.JObject? && k in v.fields then Some(v.fields[k]) else None
    case Element(i) => if v.JList? && i < |v.items| then Some(v.items[i]) else None
  }

  /** The node reached by following `hops` from `v`, or `None` where a step does not exist. */
  function Walk(v: Json, hops: seq<Hop>): Option<Json>
    decreases hops
  {
    if hops == [] then Some(v)
    else
      var next := Step(v, hops[0]);
      if next.Some? then Walk(next.value, hops[1..]) else None
  }

  /** Where the original has a node one step down, the processed tree has that node processed. */
  lemma ProcessAtStep(v: Json, env: map<string, string>, h: Hop)
    requires Step(v, h).Some?
    ensures Step(ProcessConfig(v, env), h) == Some(ProcessConfig(Step(v, h).value, env))
  {
    match h
    case Field(k) =>
      assert ProcessConfig(v, env).fields[k] == ProcessConfig(v.fields[k], env);
    case Element(i) =>
      assert ProcessConfig(v, env).items[i] == ProcessConfig(v.items[i], env);
  }

  /**
   * Processing keeps every object field and every list element in place: wherever the original
   * tree has a node, the processed tree has that node processed. (The converse does not hold: a
   * placeholder whose variable holds commas becomes a list, with elements the original lacked.)
   */
  lemma {:induction false} ProcessAtWalk(v: Json, env: map<string, string>, hops: seq<Hop>)
    requires Walk(v, hops).Some?
    ensures Walk(ProcessConfig(v, env), hops) == Some(ProcessConfig(Walk(v, hops).value, env))
    decreases hops
  {
    if hops != [] {
      ProcessAtStep(v, env, hops[0]);
      ProcessAtWalk(Step(v, hops[0]).value, env, hops[1..]);
    }
  }

  /** A placeholder at any depth, inside objects and lists alike, is replaced at the same place by the typed value of its variable. */
  lemma {:induction false} PlaceholderAtWalk(v: Json, env: map<string, string>, hops: seq<Hop>, s: string)
    requires Walk(v, hops) == Some(JStr(s)) && IsPlaceholder(s)
    ensures Walk(ProcessConfig(v, env), hops) == Some(EnvValue(env, PlaceholderName(s)))
  {
    ProcessAtWalk(v, env, hops);
    assert ProcessConfig(JStr(s), env) == EnvValue(env, PlaceholderName(s));
  }

  /** A scalar that is not a placeholder stays where it is, at any depth, inside objects and lists alike. */
  lemma {:induction false} LeafAtWalk(v: Json, env: map<string, string>, hops: seq<Hop>, x: Json)
    requires Walk(v, hops) == Some(x) && !x.JObject? && !x.JList? && !(x.JStr? && IsPlaceholder(x.s))
    ensures Walk(ProcessConfig(v, env), hops) == Some(x)
  {
    ProcessAtWalk(v, env, hops);
    assert ProcessConfig(x, env) == x;
  }

  /** So a list is processed element by element, in its own order: the element at index `i` of the result is element `i` processed, which for a placeholder is the value of its variable and for a plain scalar is the element itself. */
  lemma ListElementsInOrder(items: seq<Json>, env: map<string, string>, i: nat)
    requires i < |items|
    ensures ProcessConfig(JList(items), env).items[i] ==
      if items[i].JStr? && IsPlaceholder(items[i].s) then EnvValue(env, PlaceholderName(items[i].s))
      else if !items[i].JObject? && !items[i].JList? then items[i]
      else ProcessConfig(items[i], env)
  {
    var hops := [Element(i)];
    ProcessAtWalk(JList(items), env, hops);
    assert Step(JList(items), hops[0]) == Some(items[i]);
    assert Walk(items[i], hops[1..]) == Some(items[i]);
    assert Walk(JList(items), hops) == Some(items[i]);
    var processed := ProcessConfig(JList(items), env);
    assert Step(processed, hops[0]) == Some(processed.items[i]);
    assert Walk(processed.items[i], hops[1..]) == Some(processed.items[i]);
  }

  // ---------- validation ----------

  /** The keys that must resolve to a non-null value, in the order they are reported. */
  const RequiredKeys: seq<string> := ["urls.base_url", "paths.shared_folder", "analisis.default_parametro", "analisis.default_servicio"]

  /** `get(key) is None`: the path breaks off, or it holds `null`. */
  predicate IsMissing(config: Json, key: string) {
    GetOr(config, key, JNull) == JNull
  }

  /** The keys of `keys` that are missing, in their order. */
  function MissingFrom(config: Json, keys: seq<string>): (r: seq<string>)
    ensures |r| <= |keys|
    ensures forall k :: k in r <==> k in keys && IsMissing(config, k)
  {
    if keys == [] then []
    else
      var init := MissingFrom(config, keys[..|keys| - 1]);
      var k := keys[|keys| - 1];
      assert keys == keys[..|keys| - 1] + [k];
      if IsMissing(config, k) then init + [k] else init
  }

  /** The error text `_validate_config` raises with. */
  function MissingMessage(missing: seq<string>): string {
    "❌ Configuración requerida faltante: " + Join(missing, ", ")
  }

  datatype LoadError = ConfigFileError | MissingConfig(message: string)

  /** The singleton loader: its configuration tree and whether `__init__` completed. */
  class Loader {
    var config: Json
    var initialized: bool

    /** `__new__` of the first instance: not yet initialized, no configuration. */
    constructor ()
      ensures !initialized && config == JObject(map[])
    {
      initialized := false;
      config := JObject(map[]);
    }

    /** `get(key, default)`: walk the dot-separated path; return `default` as soon as a step fails. */
    method Get(key: string, default: Json) returns (r: Json)
      ensures Lookup(config, Split(key, '.')).Some? ==> r == Lookup(config, Split(key, '.')).value
      ensures Lookup(config, Split(key, '.')).None? ==> r == default
    {
      var keys := Split(key, '.');
      var value := config;
      var i := 0;
      while i < |keys|
        invariant i <= |keys|
        invariant Lookup(config, keys) == Lookup(value, keys[i..])
      {
        if value.JObject? && keys[i] in value.fields {
          assert keys[i..][1..] == keys[i + 1..];
          value := value.fields[keys[i]];
        } else {
          return default;
        }
        i := i + 1;
      }
      r := value;
    }

    /** `_validate_config`: collect the required keys that are missing, in their declared order. */
    method Validate() returns (missing: seq<string>)
      ensures missing == MissingFrom(config, RequiredKeys)
      ensures forall k :: k in missing <==> k in RequiredKeys && IsMissing(config, k)
    {
      missing := CollectMissing(RequiredKeys);
    }

    /** The loop of `_validate_config`, over any list of keys: read each with `get` and keep those that come back `None`. */
    method CollectMissing(keys: seq<string>) returns (missing: seq<string>)
      ensures missing == MissingFrom(config, keys)
    {
      missing := [];
      for i := 0 to |keys|
        invariant missing == MissingFrom(config, keys[..i])
      {
        assert keys[..i + 1][..i] == keys[..i];
        var v := Get(keys[i], JNull);
        if v == JNull {
          missing := missing + [keys[i]];
        }
      }
      assert keys[..|keys|] == keys;
    }

    /**
     * `__init__`: nothing when already initialized; otherwise load the file
     * (`raw`, absent when it is missing or malformed, which raises),
     * substitute placeholders, validate, and only then mark initialized.
     */
    method Init(raw: Option<Json>, env: map<string, string>) returns (r: Result<(), LoadError>)
      modifies this
      ensures old(initialized) ==> r == Success(()) && initialized && config == old(config)
      ensures !old(initialized) && raw.None? ==> r == Failure(ConfigFileError) && !initialized && config == JObject(map[])
      ensures !old(initialized) && raw.Some? ==> config == ProcessConfig(raw.value, env)
      ensures !old(initialized) && raw.Some? ==>
        (initialized <==> MissingFrom(config, RequiredKeys) == []) &&
        (r.Success? <==> initialized) &&
        (r.Failure? ==> r.error == MissingConfig(MissingMessage(MissingFrom(config, RequiredKeys))))
    {
      if initialized {
        return Success(());
      }
      config := JObject(map[]);
      if raw.None? {
        return Failure(ConfigFileError);
      }
      config := ProcessConfig(raw.value, env);
      var missing := Validate();
      if missing != [] {
        return Failure(MissingConfig(MissingMessage(missing)));
      }
      initialized := true;
      r := Success(());
    }

    /** `reload()`: clear the flag and run `__init__` again. */
    method Reload(raw: Option<Json>, env: map<string, string>) returns (r: Result<(), LoadError>)
      modifies this
      ensures raw.None? ==> r == Failure(ConfigFileError) && !initialized && config == JObject(map[])
      ensures raw.Some? ==> config == ProcessConfig(raw.value, env)
      ensures raw.Some? ==> (r.Success? <==> initialized) && (initialized <==> MissingFrom(config, RequiredKeys) == [])
    {
      initialized := false;
      r := Init(raw, env);
    }
  }
}
