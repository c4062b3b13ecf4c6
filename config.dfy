/** config.js: the configuration tree with strict lookups (`ConfigObject`)
    and the loaded configuration (`Config`). A nested `ConfigObject` is built
    once by `assign` and never changed afterwards, so nested objects are
    modelled as values (`CfgValue.Node`) inside the map of their parent. */
module Configuration {
  import opened Base
  import opened Json

  /** A configuration entry: a nested configuration object with its context
      string, or any other value stored as it is. `Inherited(name)` is what
      an object yields for a name it does not own but inherits from
      `Object.prototype`: a built-in function, or the prototype itself for
      `__proto__`; `assign` never stores one. */
  datatype CfgValue =
    | Leaf(value: Json)
    | Node(context: string, entries: map<string, CfgValue>)
    | Inherited(name: string)

  /** The names every plain object inherits from `Object.prototype`. */
  const InheritedNames: set<string> := {
    "constructor", "__defineGetter__", "__defineSetter__", "hasOwnProperty",
    "__lookupGetter__", "__lookupSetter__", "isPrototypeOf", "propertyIsEnumerable",
    "toString", "valueOf", "__proto__", "toLocaleString"}

  /** `key in obj` for a configuration object: own entries and inherited
      names alike. */
  predicate Has(entries: map<string, CfgValue>, key: string) {
    key in entries || key in InheritedNames
  }

  /** `obj[key]` for a name `obj` has: an own entry shadows an inherited
      name. */
  function Member(entries: map<string, CfgValue>, key: string): (v: CfgValue)
    requires Has(entries, key)
    ensures key in entries ==> v == entries[key]
    ensures key !in entries ==> v == Inherited(key)
  {
    if key in entries then entries[key] else Inherited(key)
  }

  /** What `get(...keys)` returns: 0 for no keys, the value for one key, the
      array of values for several. */
  datatype Got = Zero | One(value: CfgValue) | Many(values: seq<CfgValue>)

  function NotDefined(context: string, key: string): Error {
    Error(PlainError, Format("%s.%s is not defined", [context, key]))
  }

  /** The first of `keys` that `entries` lacks, if any. */
  function FirstMissing(entries: map<string, CfgValue>, keys: seq<string>): (r: Option<nat>)
    ensures r.None? <==> forall i :: 0 <= i < |keys| ==> Has(entries, keys[i])
    ensures r.Some? ==>
      r.value < |keys| && !Has(entries, keys[r.value]) && forall i :: 0 <= i < r.value ==> Has(entries, keys[i])
  {
    if keys == [] then None
    else if !Has(entries, keys[0]) then Some(0)
    else
      match FirstMissing(entries, keys[1..])
      case None => None
      case Some(i) => Some(i + 1)
  }

  /** `get(...keys)` on a configuration object with the given context and
      entries. The test is `key in this.cfg`, so an inherited name is found
      too. */
  function Lookup(context: string, entries: map<string, CfgValue>, keys: seq<string>): (r: Result<Got>)
    ensures |keys| == 0 ==> r == Ok(Zero)
    ensures |keys| == 1 ==>
      r == if Has(entries, keys[0]) then Ok(One(Member(entries, keys[0]))) else Err(NotDefined(context, keys[0]))
    ensures |keys| >= 2 && r.Ok? ==>
      && r.value.Many? && |r.value.values| == |keys|
      && forall i :: 0 <= i < |keys| ==> Has(entries, keys[i]) && r.value.values[i] == Member(entries, keys[i])
    ensures |keys| >= 2 && r.Err? ==>
      exists i :: (&& 0 <= i < |keys| && !Has(entries, keys[i])
                   && r.error == NotDefined(context, keys[i])
                   && forall j :: 0 <= j < i ==> Has(entries, keys[j]))
  {
    if |keys| == 0 then Ok(Zero)
    else if |keys| == 1 then
      if Has(entries, keys[0]) then Ok(One(Member(entries, keys[0]))) else Err(NotDefined(context, keys[0]))
    else
      match FirstMissing(entries, keys)
      case Some(i) => Err(NotDefined(context, keys[i]))
      case None => Ok(Many(seq(|keys|, i requires 0 <= i < |keys| => Member(entries, keys[i]))))
  }

  /** Keys that are not inherited names find exactly the own entries. */
  lemma OwnLookup(context: string, entries: map<string, CfgValue>, keys: seq<string>)
    requires forall i :: 0 <= i < |keys| ==> keys[i] !in InheritedNames
    ensures var r := Lookup(context, entries, keys);
      && (|keys| == 1 ==> r == if keys[0] in entries then Ok(One(entries[keys[0]])) else Err(NotDefined(context, keys[0])))
      && (|keys| >= 2 && r.Ok? ==> forall i :: 0 <= i < |keys| ==> keys[i] in entries && r.value.values[i] == entries[keys[i]])
  {
  }

  /** `.get(...keys)` on a configuration value: only nested configuration
      objects have a `get` method. */
  function GetOn(v: CfgValue, keys: seq<string>): (r: Result<Got>)
    ensures !v.Node? ==> r.Err? && r.error.kind == TypeError
    ensures v.Node? ==> r == Lookup(v.context, v.entries, keys)
  {
    match v
    case Node(ctx, entries) => Lookup(ctx, entries, keys)
    case _ => Err(Error(TypeError, "get is not a function"))
  }

  /** The keys `for (const key in vs)` visits, with `vs[key]`: the own
      properties of an object, the indices of an array or of a string, and
      nothing for other values. */
  function Enumerate(vs: Json): map<string, Json> {
    match vs
    case JObject(m) => m
    case JArray(items) => Indexed(items, 0)
    case JString(s) => Indexed(seq(|s|, i requires 0 <= i < |s| => JString([s[i]])), 0)
    case _ => map[]
  }

  function Indexed(items: seq<Json>, from: nat): map<string, Json>
    decreases |items| - from
  {
    if from >= |items| then map[] else Indexed(items, from + 1)[IntToString(from) := items[from]]
  }

  /** `value.constructor === Object` for a parsed value. A parsed object
      inherits `Object` as its constructor unless it has an own
      `constructor` key, whose parsed value is never the `Object` function;
      arrays, strings, numbers and booleans have other constructors. */
  predicate IsPlainObject(value: Json) {
    value.JObject? && "constructor" !in value.fields
  }

  /** The entry `assign` stores for `value` under `key` of an object with
      context `context`: a plain object becomes a nested configuration
      object with context "context.key"; anything else, null, arrays and
      objects with an own `constructor` key included, is stored as it is. */
  function Wrap(context: string, key: string, value: Json): CfgValue
    decreases value
  {
    match value
    case JObject(m) =>
      if !IsPlainObject(value) then Leaf(value)
      else
        var ctx := context + "." + key;
        Node(ctx, map k | k in m :: Wrap(ctx, k, m[k]))
    case _ => Leaf(value)
  }

  /** The entries `assign(vs)` writes. */
  function Assigned(context: string, vs: Json): map<string, CfgValue> {
    var e := Enumerate(vs);
    map k | k in e :: Wrap(context, k, e[k])
  }

  /** `toObject()` of an entry: nested configuration objects become plain
      objects again. An inherited built-in has no JSON form and stands as
      null; the lookups that convert entries use fixed option names, which
      are never inherited ones. */
  function ToJson(v: CfgValue): Json {
    match v
    case Leaf(j) => j
    case Node(_, entries) => JObject(map k | k in entries :: ToJson(entries[k]))
    case Inherited(_) => JNull
  }

  /** A strict, context-labelled dictionary. */
  class ConfigObject {
    const context: string
    var cfg: map<string, CfgValue>

    constructor(context: string)
      ensures this.context == context && cfg == map[]
    {
      this.context := context;
      cfg := map[];
    }

    /** `get(...keys)`: each key must be present, and the first absent one
      is reported. */
    method Get(keys: seq<string>) returns (r: Result<Got>)
      ensures r == Lookup(context, cfg, keys)
    {
      if |keys| == 0 {
        return Ok(Zero);
      }
      if |keys| == 1 {
        if Has(cfg, keys[0]) {
          return Ok(One(Member(cfg, keys[0])));
        }
        return Err(NotDefined(context, keys[0]));
      }
      var values: seq<CfgValue> := [];
      var i := 0;
      while i < |keys|
        invariant 0 <= i <= |keys| && |values| == i
        invariant forall j :: 0 <= j < i ==> Has(cfg, keys[j]) && values[j] == Member(cfg, keys[j])
      {
        if !Has(cfg, keys[i]) {
          assert FirstMissing(cfg, keys) == Some(i);
          return Err(NotDefined(context, keys[i]));
        }
        values := values + [Member(cfg, keys[i])];
        i := i + 1;
      }
      var c := cfg;
      assert FirstMissing(c, keys).None?;
      ghost var expected := seq(|keys|, j requires 0 <= j < |keys| => Member(c, keys[j]));
      assert forall j :: 0 <= j < |keys| ==> values[j] == expected[j];
      assert values == expected;
      r := Ok(Many(values));
    }

    /** `toObject()`. */
    function ToObject(): (r: Json)
      reads this
      ensures r.JObject? && r.fields.Keys == cfg.Keys
      ensures forall k :: k in cfg ==> r.fields[k] == ToJson(cfg[k])
    {
      JObject(map k | k in cfg :: ToJson(cfg[k]))
    }

    /** `assign(vs)`: every enumerable key of `vs` is (re)written; other
      entries stay as they were. */
    method Assign(vs: Json)
      modifies this
      ensures cfg == old(cfg) + Assigned(context, vs)
    {
      var e := Enumerate(vs);
      var keys := e.Keys;
      ghost var done: set<string> := {};
      while keys != {}
        invariant keys !! done && keys + done == e.Keys
        invariant cfg.Keys == old(cfg).Keys + done
        invariant forall k :: k in done ==> cfg[k] == Wrap(context, k, e[k])
        invariant forall k :: k in old(cfg) && k !in done ==> cfg[k] == old(cfg)[k]
        decreases keys
      {
        var key :| key in keys;
        keys := keys - {key};
        cfg := cfg[key := Wrap(context, key, e[key])];
        done := done + {key};
      }
      ghost var additions := Assigned(context, vs);
      assert additions.Keys == done;
      assert cfg.Keys == (old(cfg) + additions).Keys;
      assert forall k :: k in cfg ==> cfg[k] == (old(cfg) + additions)[k];
    }
  }

  /** The loaded configuration. */
  class Config {
    var cfg: ConfigObject

    constructor()
      ensures fresh(cfg) && cfg.context == "[Config]" && cfg.cfg == map[]
    {
      cfg := new ConfigObject("[Config]");
    }

    /** `get(...keys)`. */
    method Get(keys: seq<string>) returns (r: Result<Got>)
      ensures r == Lookup(cfg.context, cfg.cfg, keys)
    {
      r := cfg.Get(keys);
    }

    /** `load(configFile)` once the file has been read and parsed (`parsed`
      carries the read or parse failure). The old configuration is replaced
      by an empty one first, so a failed load leaves it empty. */
    method Load(configFile: string, parsed: Result<Json>) returns (r: Result<()>)
      modifies this
      ensures fresh(cfg) && cfg.context == "[" + configFile + "]"
      ensures r.Ok? <==> parsed.Ok? && LoadedTree(parsed.value).Ok?
      ensures r.Ok? ==> cfg.cfg == Assigned(cfg.context, LoadedTree(parsed.value).value)
      ensures r.Err? ==> cfg.cfg == map[]
    {
      cfg := new ConfigObject("[" + configFile + "]");
      if parsed.Err? {
        return Err(parsed.error);
      }
      var tree := parsed.value;
      if tree == JNull {
        return Err(Error(TypeError, "Cannot read properties of null (reading 'apps')"));
      }
      var apps := Prop(tree, "apps");
      if Truthy(apps) && apps.value.JArray? {
        var dict := IndexApps(apps.value.items);
        if dict.Err? {
          return Err(dict.error);
        }
        tree := JObject(tree.fields["appsIndexed" := apps.value]["apps" := JObject(dict.value)]);
      }
      cfg.Assign(tree);
      r := Ok(());
    }

    /** `clear()`. */
    method Clear()
      modifies this
      ensures fresh(cfg) && cfg.context == "[Config]" && cfg.cfg == map[]
    {
      cfg := new ConfigObject("[Config]");
    }
  }

  /** The key `dict[ent.id] = ent` writes: `String(ent.id)`. */
  function AppKey(ent: Json): string
    requires ent != JNull
  {
    JsString(Prop(ent, "id"))
  }

  /** The dictionary `apps.forEach((ent) => (dict[ent.id] = ent))` builds;
      a null entry throws. */
  const NullApp: Error := Error(TypeError, "Cannot read properties of null (reading 'id')")

  function IndexById(apps: seq<Json>): (r: Result<map<string, Json>>)
    ensures r.Err? <==> JNull in apps
    ensures r.Err? ==> r.error == NullApp
  {
    if apps == [] then Ok(map[])
    else
      var last := apps[|apps| - 1];
      match IndexById(apps[..|apps| - 1])
      case Err(e) =>
        assert JNull in apps by { assert apps[..|apps| - 1] <= apps; }
        Err(e)
      case Ok(dict) =>
        assert apps == apps[..|apps| - 1] + [last];
        if last == JNull then Err(NullApp)
        else Ok(dict[AppKey(last) := last])
  }

  method IndexApps(apps: seq<Json>) returns (r: Result<map<string, Json>>)
    ensures r == IndexById(apps)
  {
    var dict: map<string, Json> := map[];
    var i := 0;
    while i < |apps|
      invariant 0 <= i <= |apps|
      invariant IndexById(apps[..i]) == Ok(dict)
    {
      assert apps[..i + 1][..i] == apps[..i];
      if apps[i] == JNull {
        assert JNull in apps;
        return Err(NullApp);
      }
      dict := dict[AppKey(apps[i]) := apps[i]];
      i := i + 1;
    }
    assert apps[..i] == apps;
    r := Ok(dict);
  }

  /** The tree `load` hands to `assign`: an `apps` array is replaced by the
      dictionary of its entries keyed by id, and the array itself is kept as
      `appsIndexed`. */
  function LoadedTree(tree: Json): Result<Json> {
    if tree == JNull then Err(Error(TypeError, "Cannot read properties of null (reading 'apps')"))
    else
      var apps := Prop(tree, "apps");
      if Truthy(apps) && apps.value.JArray? then
        match IndexById(apps.value.items)
        case Err(e) => Err(e)
        case Ok(dict) => Ok(JObject(tree.fields["appsIndexed" := apps.value]["apps" := JObject(dict)]))
      else Ok(tree)
  }

  /** An entry of the apps dictionary is the last app with that id. */
  lemma LastAppWins(apps: seq<Json>, key: string)
    requires IndexById(apps).Ok?
    ensures key in IndexById(apps).value <==> exists i :: 0 <= i < |apps| && AppKey(apps[i]) == key
    ensures key in IndexById(apps).value ==>
      exists i :: 0 <= i < |apps| && AppKey(apps[i]) == key && IndexById(apps).value[key] == apps[i]
        && forall j :: i < j < |apps| ==> AppKey(apps[j]) != key
  {
    if key in IndexById(apps).value {
      var i := LastAppAt(apps, key);
    }
    if exists i :: 0 <= i < |apps| && AppKey(apps[i]) == key {
      var i :| 0 <= i < |apps| && AppKey(apps[i]) == key;
      KeyOfApp(apps, i);
    }
  }

  /** The position of the app a dictionary entry holds: the last one with
      that id. */
  lemma {:induction false} LastAppAt(apps: seq<Json>, key: string) returns (i: nat)
    requires IndexById(apps).Ok? && key in IndexById(apps).value
    ensures i < |apps| && AppKey(apps[i]) == key && IndexById(apps).value[key] == apps[i]
    ensures forall j :: i < j < |apps| ==> AppKey(apps[j]) != key
  {
    var last := |apps| - 1;
    var init := apps[..last];
    assert JNull !in init by { assert init <= apps; }
    assert IndexById(apps).value == IndexById(init).value[AppKey(apps[last]) := apps[last]];
    if AppKey(apps[last]) == key {
      i := last;
    } else {
      i := LastAppAt(init, key);
      assert forall j :: 0 <= j < last ==> init[j] == apps[j];
    }
  }

  /** Every app's id is a key of the dictionary. */
  lemma {:induction false} KeyOfApp(apps: seq<Json>, i: nat)
    requires IndexById(apps).Ok? && i < |apps|
    ensures AppKey(apps[i]) in IndexById(apps).value
  {
    var last := |apps| - 1;
    var init := apps[..last];
    assert JNull !in init by { assert init <= apps; }
    assert IndexById(apps).value == IndexById(init).value[AppKey(apps[last]) := apps[last]];
    if i < last {
      assert init[i] == apps[i];
      KeyOfApp(init, i);
    }
  }

  /** `toObject()` undoes `assign`: wrapping a value and converting it back
      gives the value. */
  lemma {:induction false} WrapToJson(context: string, key: string, value: Json)
    ensures ToJson(Wrap(context, key, value)) == value
    decreases value
  {
    if IsPlainObject(value) {
      var m := value.fields;
      var ctx := context + "." + key;
      forall k | k in m ensures ToJson(Wrap(ctx, k, m[k])) == m[k] {
        WrapToJson(ctx, k, m[k]);
      }
      assert (map k | k in m :: ToJson(Wrap(ctx, k, m[k]))) == m;
    }
  }

  /** On a fresh object, `toObject()` after `assign(vs)` gives back `vs` for
      a plain-object tree. */
  lemma AssignToObject(context: string, fields: map<string, Json>)
    ensures var a := Assigned(context, JObject(fields));
      && a.Keys == fields.Keys
      && forall k :: k in a ==> ToJson(a[k]) == fields[k]
  {
    var a := Assigned(context, JObject(fields));
    assert Enumerate(JObject(fields)) == fields;
    forall k | k in a ensures ToJson(a[k]) == fields[k] {
      WrapToJson(context, k, fields[k]);
    }
  }

  /** `assign` leaves every key that `vs` does not enumerate untouched and
      replaces a nested configuration object rather than merging into it. */
  lemma AssignFrame(context: string, old_cfg: map<string, CfgValue>, vs: Json, key: string)
    ensures key !in Enumerate(vs) && key in old_cfg ==> (old_cfg + Assigned(context, vs))[key] == old_cfg[key]
    ensures key in Enumerate(vs) ==> (old_cfg + Assigned(context, vs))[key] == Wrap(context, key, Enumerate(vs)[key])
  {
  }

  /** A value is nested exactly when it is a plain object; a nested
      object's context names its path and its entries are exactly the plain
      object's keys, and any other value is stored as it is. */
  lemma WrapContext(context: string, key: string, value: Json)
    ensures Wrap(context, key, value).Node? <==> IsPlainObject(value)
    ensures IsPlainObject(value) ==>
      && Wrap(context, key, value).context == context + "." + key
      && Wrap(context, key, value).entries.Keys == value.fields.Keys
    ensures !IsPlainObject(value) ==> Wrap(context, key, value) == Leaf(value)
  {
  }
}
