/** app/registry: a key-to-record store loaded from a JSON file and written
    back after every change, and the two kinds of registry built on it: filter
    templates and stream descriptions. The file itself is not modelled; what
    was last written to it is the ghost field `saved`. */
module Registries {
  import opened Values

  /** `Registry`: the decoded file as a map, plus the persisted copy. */
  class Registry {
    var entries: map<string, Json>
    ghost var saved: map<string, Json>

    /** The file holds exactly what is in memory. */
    ghost predicate Persisted()
      reads this
    {
      saved == entries
    }

    /** `__init__`: the registry holds what the file held. */
    constructor (loaded: map<string, Json>)
      ensures entries == loaded && Persisted()
    {
      entries := loaded;
      saved := loaded;
    }

    /** `get(item_id)`: the stored record, or None for an unknown id. */
    function Get(id: string): (r: Option<Json>)
      reads this
      ensures r.Some? <==> id in entries
      ensures r.Some? ==> r.value == entries[id]
    {
      if id in entries then Some(entries[id]) else None
    }

    /** `get(key)` with a key that came out of a decoded document. */
    function GetByValue(key: Json): (r: Result<Option<Json>, PyError>)
      reads this
      ensures r.Err? <==> !Hashable(key)
      ensures key.JStr? ==> r == Ok(Get(key.s))
      ensures r.Ok? && r.value.Some? ==> key.JStr? && key.s in entries
    {
      DictGet(entries, key)
    }

    /** `is_registered(item_id)` agrees with `get`. */
    function IsRegistered(id: string): (b: bool)
      reads this
      ensures b <==> Get(id).Some?
    {
      id in entries
    }

    /** `get_all()`: a copy. Maps are values here, so changing the copy can
        never reach the registry. */
    method GetAll() returns (copy: map<string, Json>)
      ensures copy == entries
      ensures forall id :: id in copy <==> IsRegistered(id)
    {
      copy := entries;
    }

    /** `update(item_id, new_data)`: stores without validating, then saves. */
    method Update(id: string, data: Json)
      modifies this
      ensures entries == old(entries)[id := data]
      ensures Get(id) == Some(data)
      ensures forall k :: k != id ==> Get(k) == old(Get(k))
      ensures Persisted()
    {
      entries := entries[id := data];
      saved := entries;
    }

    /** `remove(item_id)`: deletes and saves when present; otherwise does
        nothing, not even a save. */
    method Remove(id: string)
      modifies this
      ensures entries == old(entries) - {id}
      ensures !IsRegistered(id)
      ensures forall k :: k != id ==> Get(k) == old(Get(k))
      ensures id in old(entries) ==> Persisted()
      ensures id !in old(entries) ==> entries == old(entries) && saved == old(saved)
    {
      if id in entries {
        entries := entries - {id};
        saved := entries;
      }
    }
  }

  // ---------------------------------------------------------------------
  // FilterRegistry

  /** The classes `FILTER_TYPE_MAP` can hand out. */
  datatype FilterClass = KalmanFilter2DClass | KalmanFilter3DClass

  const FilterTypeMap: map<string, FilterClass> :=
    map["KalmanFilter2D" := KalmanFilter2DClass, "KalmanFilter3D" := KalmanFilter3DClass]

  /** `get_constructor(filter_name)`: None for an unknown or empty entry;
      otherwise the class the entry's "class" field names in the type map. */
  function GetConstructor(reg: Registry, name: string): (r: Result<Option<FilterClass>, PyError>)
    reads reg
    ensures (reg.Get(name).None? || !Truthy(reg.Get(name).value)) ==> r == Ok(None)
    ensures r.Ok? && r.value.Some? ==>
              name in reg.entries && reg.entries[name].JObj? && "class" in reg.entries[name].fields
              && reg.entries[name].fields["class"].JStr?
              && reg.entries[name].fields["class"].s in FilterTypeMap
              && FilterTypeMap[reg.entries[name].fields["class"].s] == r.value.value
    ensures (name in reg.entries && Truthy(reg.entries[name]) && reg.entries[name].JObj?
             && "class" !in reg.entries[name].fields) ==> r == Err(KeyError("class"))
    ensures name in reg.entries && Truthy(reg.entries[name]) && !reg.entries[name].JObj? ==> r.Err? && r.error.TypeError?
  {
    match reg.Get(name)
    case None => Ok(None)
    case Some(entry) =>
      if !Truthy(entry) then Ok(None)
      else if !entry.JObj? then Err(TypeError("object is not subscriptable"))
      else
        match Index(entry.fields, "class")
        case Err(e) => Err(e)
        case Ok(cls) => DictGet(FilterTypeMap, cls)
  }

  /** `get_params(filter_name)`: {} for an unknown or empty entry, otherwise
      `entry.get("params")` (None when absent). */
  function GetParams(reg: Registry, name: string): (r: Result<Json, PyError>)
    reads reg
    ensures (reg.Get(name).None? || !Truthy(reg.Get(name).value)) ==> r == Ok(JObj(map[]))
    ensures name in reg.entries && Truthy(reg.entries[name]) && reg.entries[name].JObj? ==>
              r == Ok(GetOrNull(reg.entries[name].fields, "params"))
    ensures name in reg.entries && Truthy(reg.entries[name]) && !reg.entries[name].JObj? ==>
              r == Err(AttributeError("get"))
  {
    match reg.Get(name)
    case None => Ok(JObj(map[]))
    case Some(entry) =>
      if !Truthy(entry) then Ok(JObj(map[]))
      else if !entry.JObj? then Err(AttributeError("get"))
      else Ok(GetOrNull(entry.fields, "params"))
  }

  const NotAnObject: string := "Item is not an object/dict."
  const TopKeyPrefix: string := "Missing required top-level key: '"
  const TypeNotDefined: string := "Field type not defined"
  const ParamsNotAnObject: string := "Field params must be an object/dict."
  const ParamPrefix: string := "Missing required param: '"

  /** The keys every template must have, in the order they are checked. */
  const TopKeys: seq<string> := ["type", "params"]

  const KnownTypes: seq<Json> := [JStr("KalmanFilter2D"), JStr("KalmanFilter3D")]

  /** `sorted(required)`: the base parameters, plus the acceleration for
      "KalmanFilter3D". */
  function Required(kfType: Json): (r: seq<string>)
    ensures "initial_acceleration" in r <==> kfType == JStr("KalmanFilter3D")
    ensures |r| == if kfType == JStr("KalmanFilter3D") then 7 else 6
  {
    if kfType == JStr("KalmanFilter3D") then
      assert RequiredWithAcceleration[1] == "initial_acceleration";
      RequiredWithAcceleration
    else
      assert forall k :: k in RequiredBase ==> |k| != |"initial_acceleration"|;
      RequiredBase
  }

  const RequiredBase: seq<string> :=
    ["dt", Initial + "rate", Initial + "value", Initial + "variance", "measurement_noise", "process_noise"]
  const RequiredWithAcceleration: seq<string> :=
    ["dt", Initial + "acceleration", Initial + "rate", Initial + "value", Initial + "variance",
     "measurement_noise", "process_noise"]
  const Initial: string := "initial_"

  /** Lexicographic order on strings, as Python's `sorted` uses. */
  predicate LexLess(a: string, b: string) {
    if |a| == 0 then |b| > 0
    else |b| > 0 && (a[0] < b[0] || (a[0] == b[0] && LexLess(a[1..], b[1..])))
  }

  predicate Ascending(s: seq<string>) {
    forall i :: 0 <= i < |s| - 1 ==> LexLess(s[i], s[i + 1])
  }

  /** Strings that agree before position `k` and differ there are ordered
      by their characters at `k`. */
  lemma {:induction false} LexLessAt(a: string, b: string, k: nat)
    requires k < |a| && k < |b| && a[..k] == b[..k] && a[k] < b[k]
    ensures LexLess(a, b)
    decreases k
  {
    if k > 0 {
      assert a[0] == a[..k][0] == b[..k][0] == b[0];
      assert a[1..][..k - 1] == a[1..k] == a[..k][1..];
      assert b[1..][..k - 1] == b[1..k] == b[..k][1..];
      LexLessAt(a[1..], b[1..], k - 1);
    }
  }

  /** A common prefix keeps the order. */
  lemma {:induction false} LexLessPrefix(p: string, a: string, b: string)
    requires LexLess(a, b)
    ensures LexLess(p + a, p + b)
    decreases |p|
  {
    if |p| > 0 {
      assert (p + a)[0] == p[0] == (p + b)[0];
      assert (p + a)[1..] == p[1..] + a && (p + b)[1..] == p[1..] + b;
      LexLessPrefix(p[1..], a, b);
    } else {
      assert p + a == a && p + b == b;
    }
  }

  /** The required parameters are listed in the order `sorted` gives them. */
  lemma RequiredSorted(kfType: Json)
    ensures Ascending(Required(kfType))
  {
    BaseSorted();
    WithAccelerationSorted();
  }

  lemma BaseSorted()
    ensures Ascending(RequiredBase)
  {
    LexLessAt("dt", Initial + "rate", 0);
    LexLessAt("rate", "value", 0);
    LexLessPrefix(Initial, "rate", "value");
    LexLessAt("value", "variance", 2);
    LexLessPrefix(Initial, "value", "variance");
    LexLessAt(Initial + "variance", "measurement_noise", 0);
    LexLessAt("measurement_noise", "process_noise", 0);
  }

  lemma WithAccelerationSorted()
    ensures Ascending(RequiredWithAcceleration)
  {
    LexLessAt("dt", Initial + "acceleration", 0);
    LexLessAt("acceleration", "rate", 0);
    LexLessPrefix(Initial, "acceleration", "rate");
    LexLessAt("rate", "value", 0);
    LexLessPrefix(Initial, "rate", "value");
    LexLessAt("value", "variance", 2);
    LexLessPrefix(Initial, "value", "variance");
    LexLessAt(Initial + "variance", "measurement_noise", 0);
    LexLessAt("measurement_noise", "process_noise", 0);
  }

  /** `a` is `b` with some elements left out, the rest in the same order. */
  predicate Subsequence(a: seq<string>, b: seq<string>)
    decreases |b|
  {
    |a| == 0 ||
    (|b| > 0 &&
     ((a[|a| - 1] == b[|b| - 1] && Subsequence(a[..|a| - 1], b[..|b| - 1]))
      || Subsequence(a, b[..|b| - 1])))
  }

  /** The keys of `keys` that `fields` lacks, in the order of `keys`. */
  function MissingKeys(fields: Record, keys: seq<string>): seq<string> {
    if |keys| == 0 then []
    else
      var last := keys[|keys| - 1];
      MissingKeys(fields, keys[..|keys| - 1]) + if last in fields then [] else [last]
  }

  /** Exactly the keys `fields` lacks are reported, in the order of `keys`. */
  lemma {:induction false} MissingKeysSpec(fields: Record, keys: seq<string>)
    ensures forall k :: k in MissingKeys(fields, keys) <==> k in keys && k !in fields
    ensures Subsequence(MissingKeys(fields, keys), keys)
  {
    MissingKeysMembers(fields, keys);
    MissingKeysOrder(fields, keys);
  }

  lemma {:induction false} MissingKeysMembers(fields: Record, keys: seq<string>)
    ensures forall k :: k in MissingKeys(fields, keys) <==> k in keys && k !in fields
  {
    if |keys| > 0 {
      var init := keys[..|keys| - 1];
      MissingKeysMembers(fields, init);
      assert keys == init + [keys[|keys| - 1]];
    }
  }

  lemma {:induction false} MissingKeysOrder(fields: Record, keys: seq<string>)
    ensures Subsequence(MissingKeys(fields, keys), keys)
  {
    if |keys| > 0 {
      var init := keys[..|keys| - 1];
      var last := keys[|keys| - 1];
      var m := MissingKeys(fields, init);
      MissingKeysOrder(fields, init);
      if last in fields {
        assert MissingKeys(fields, keys) == m;
        if |m| > 0 {
          assert Subsequence(m, init);
        }
      } else {
        var r := MissingKeys(fields, keys);
        assert r == m + [last];
        assert r[..|r| - 1] == m;
      }
    }
  }

  /** Checking one more key appends it when it is missing. */
  lemma MissingKeysAppend(fields: Record, keys: seq<string>, k: string)
    ensures MissingKeys(fields, keys + [k]) == MissingKeys(fields, keys) + (if k in fields then [] else [k])
  {
    assert (keys + [k])[..|keys|] == keys;
  }

  /** The top-level keys a template lacks, "type" before "params". */
  lemma TopKeysMissing(fields: Record)
    ensures MissingKeys(fields, TopKeys) ==
              (if "type" in fields then [] else ["type"]) + (if "params" in fields then [] else ["params"])
  {
    assert TopKeys == [] + ["type"] + ["params"];
    MissingKeysAppend(fields, [], "type");
    MissingKeysAppend(fields, ["type"], "params");
  }

  /** One report per key, `prefix + key + "'."`. */
  function Report(prefix: string, key: string): string {
    prefix + key + "'."
  }

  function Reports(prefix: string, keys: seq<string>): seq<string> {
    if |keys| == 0 then [] else Reports(prefix, keys[..|keys| - 1]) + [Report(prefix, keys[|keys| - 1])]
  }

  /** One report per key, in the same order. */
  lemma {:induction false} ReportsSpec(prefix: string, keys: seq<string>)
    ensures |Reports(prefix, keys)| == |keys|
    ensures forall i :: 0 <= i < |keys| ==> Reports(prefix, keys)[i] == Report(prefix, keys[i])
  {
    if |keys| > 0 {
      ReportsSpec(prefix, keys[..|keys| - 1]);
    }
  }

  lemma ReportsAppend(prefix: string, keys: seq<string>, k: string)
    ensures Reports(prefix, keys + [k]) == Reports(prefix, keys) + [Report(prefix, k)]
  {
    assert (keys + [k])[..|keys|] == keys;
  }

  /** Different keys give different reports. */
  lemma ReportInjective(prefix: string, k1: string, k2: string)
    requires Report(prefix, k1) == Report(prefix, k2)
    ensures k1 == k2
  {
    var s := Report(prefix, k1);
    assert s[|prefix|..|prefix| + |k1|] == k1;
    assert Report(prefix, k2)[|prefix|..|prefix| + |k2|] == k2;
  }

  /** `FilterRegistry.validate(item_data)` as a value: the verdict and the
      ordered error list, or the exception a list- or dict-valued "type"
      raises when it is looked up in a set. */
  function Validation(item: Json): (r: Result<(bool, seq<string>), PyError>)
    ensures r.Ok? ==> (r.value.0 <==> r.value.1 == [])
    ensures r.Err? <==> item.JObj? && "type" in item.fields && "params" in item.fields
                        && !Hashable(item.fields["type"])
  {
    if !item.JObj? then Ok((false, [NotAnObject]))
    else
      var absent := MissingKeys(item.fields, TopKeys);
      TopKeysMissing(item.fields);
      if absent != [] then Ok((false, Reports(TopKeyPrefix, absent)))
      else CheckTypeAndParams(item.fields["type"], item.fields["params"])
  }

  /** The part of `validate` after both top-level keys were found. */
  function CheckTypeAndParams(kfType: Json, params: Json): (r: Result<(bool, seq<string>), PyError>)
    ensures r.Ok? ==> (r.value.0 <==> r.value.1 == [])
    ensures r.Err? <==> !Hashable(kfType)
  {
    if !Hashable(kfType) then Err(TypeError("unhashable type"))
    else
      var typeErrors := if kfType in KnownTypes then [] else [TypeNotDefined];
      if !params.JObj? then Ok((false, typeErrors + [ParamsNotAnObject]))
      else
        var errors := typeErrors + Reports(ParamPrefix, MissingKeys(params.fields, Required(kfType)));
        Ok((|errors| == 0, errors))
  }

  /** A template is accepted exactly when it is an object with a known type
      and an object of params holding every required parameter. */
  lemma {:induction false} ValidationAccepts(item: Json)
    ensures Validation(item) == Ok((true, [])) <==>
              item.JObj? && "type" in item.fields && "params" in item.fields
              && item.fields["type"] in KnownTypes
              && item.fields["params"].JObj?
              && forall k :: k in Required(item.fields["type"]) ==> k in item.fields["params"].fields
  {
    if item.JObj? {
      TopKeysMissing(item.fields);
    }
    if item.JObj? && "type" in item.fields && "params" in item.fields {
      var kfType := item.fields["type"];
      var params := item.fields["params"];
      if kfType in KnownTypes && params.JObj? {
        var m := MissingKeys(params.fields, Required(kfType));
        MissingKeysSpec(params.fields, Required(kfType));
        ReportsSpec(ParamPrefix, m);
        if m != [] {
          assert m[0] in m;
        }
      }
    }
  }

  /** A template missing "type" or "params" gets one report per missing key,
      "type" first, and no other check runs. */
  lemma {:induction false} ValidationTopKeys(item: Json)
    requires item.JObj?
    ensures "type" !in item.fields && "params" !in item.fields ==>
              Validation(item) == Ok((false, [Report(TopKeyPrefix, "type"), Report(TopKeyPrefix, "params")]))
    ensures "type" !in item.fields && "params" in item.fields ==>
              Validation(item) == Ok((false, [Report(TopKeyPrefix, "type")]))
    ensures "type" in item.fields && "params" !in item.fields ==>
              Validation(item) == Ok((false, [Report(TopKeyPrefix, "params")]))
  {
    var fields := item.fields;
    TopKeysMissing(fields);
    var m := MissingKeys(fields, TopKeys);
    var r := Reports(TopKeyPrefix, m);
    ReportsSpec(TopKeyPrefix, m);
    if "type" !in fields && "params" !in fields {
      assert r == [Report(TopKeyPrefix, "type"), Report(TopKeyPrefix, "params")];
    } else if "type" !in fields && "params" in fields {
      assert r == [Report(TopKeyPrefix, "type")];
    } else if "type" in fields && "params" !in fields {
      assert r == [Report(TopKeyPrefix, "params")];
    }
  }

  /** With both top-level keys present and params an object, the errors are
      the unknown-type report (if any) followed by one report for each
      missing required parameter, and nothing else. */
  lemma {:induction false} ValidationReportsMissing(item: Json, key: string)
    requires item.JObj? && "type" in item.fields && "params" in item.fields
    requires Hashable(item.fields["type"]) && item.fields["params"].JObj?
    ensures Validation(item).Ok?
    ensures TypeNotDefined in Validation(item).value.1 <==> item.fields["type"] !in KnownTypes
    ensures Report(ParamPrefix, key) in Validation(item).value.1 <==>
              key in Required(item.fields["type"]) && key !in item.fields["params"].fields
  {
    var kfType := item.fields["type"];
    var params := item.fields["params"].fields;
    TopKeysMissing(item.fields);
    var missing := MissingKeys(params, Required(kfType));
    var reports := Reports(ParamPrefix, missing);
    MissingKeysSpec(params, Required(kfType));
    ReportsSpec(ParamPrefix, missing);
    var errors := Validation(item).value.1;
    assert errors == (if kfType in KnownTypes then [] else [TypeNotDefined]) + reports;
    assert TypeNotDefined !in reports by {
      forall i | 0 <= i < |reports| ensures reports[i] != TypeNotDefined {
        assert reports[i][0] == 'M';
      }
    }
    if Report(ParamPrefix, key) in errors {
      assert Report(ParamPrefix, key) != TypeNotDefined by {
        assert Report(ParamPrefix, key)[0] == 'M';
      }
      var i :| 0 <= i < |reports| && reports[i] == Report(ParamPrefix, key);
      ReportInjective(ParamPrefix, missing[i], key);
    }
    if key in Required(kfType) && key !in params {
      var i :| 0 <= i < |missing| && missing[i] == key;
      assert reports[i] == Report(ParamPrefix, key);
    }
  }

  /** The reports come in the order of the sorted required list. */
  lemma {:induction false} ValidationOrdered(item: Json)
    requires item.JObj? && "type" in item.fields && "params" in item.fields
    requires Hashable(item.fields["type"]) && item.fields["params"].JObj?
    ensures Ascending(Required(item.fields["type"]))
    ensures Subsequence(MissingKeys(item.fields["params"].fields, Required(item.fields["type"])),
                        Required(item.fields["type"]))
  {
    RequiredSorted(item.fields["type"]);
    MissingKeysSpec(item.fields["params"].fields, Required(item.fields["type"]));
  }

  /** `validate` accepts "type" while `get_constructor` reads "class": a
      template that passes validation and has no "class" field makes
      `get_constructor` raise KeyError once it is stored. */
  lemma {:induction false} ValidatedTemplateHasNoConstructor(reg: Registry, name: string)
    requires name in reg.entries && Validation(reg.entries[name]) == Ok((true, []))
    requires "class" !in reg.entries[name].fields
    ensures GetConstructor(reg, name) == Err(KeyError("class"))
  {
    ValidationAccepts(reg.entries[name]);
  }

  /** The `validate` loop: the top-level keys in order, then the required
      parameters in sorted order. */
  method Validate(item: Json) returns (r: Result<(bool, seq<string>), PyError>)
    ensures r == Validation(item)
  {
    if !item.JObj? {
      return Ok((false, [NotAnObject]));
    }
    var fields := item.fields;
    var errors := ReportMissing(fields, TopKeys, TopKeyPrefix);
    if errors != [] {
      return Ok((false, errors));
    }
    TopKeysMissing(fields);
    assert "type" in fields && "params" in fields;
    r := CheckFields(fields["type"], fields["params"]);
  }

  /** The rest of the `validate` loop: the type check, then every required
      parameter in sorted order. */
  method CheckFields(kfType: Json, params: Json) returns (r: Result<(bool, seq<string>), PyError>)
    ensures r == CheckTypeAndParams(kfType, params)
  {
    if !Hashable(kfType) {
      return Err(TypeError("unhashable type"));
    }
    var errors: seq<string> := [];
    if kfType !in KnownTypes {
      errors := errors + [TypeNotDefined];
    }
    ghost var typeErrors := if kfType in KnownTypes then [] else [TypeNotDefined];
    assert errors == typeErrors;
    if !params.JObj? {
      errors := errors + [ParamsNotAnObject];
      return Ok((false, errors));
    }
    var missing := ReportMissing(params.fields, Required(kfType), ParamPrefix);
    errors := errors + missing;
    r := Ok((|errors| == 0, errors));
  }

  /** The loop both halves of `validate` run: one report, in order, for
      each key of `keys` that `fields` lacks. */
  method ReportMissing(fields: Record, keys: seq<string>, prefix: string) returns (errors: seq<string>)
    ensures errors == Reports(prefix, MissingKeys(fields, keys))
  {
    errors := [];
    var i := 0;
    while i < |keys|
      invariant 0 <= i <= |keys|
      invariant errors == Reports(prefix, MissingKeys(fields, keys[..i]))
    {
      MissingStep(fields, keys, i, prefix);
      if keys[i] !in fields {
        errors := errors + [Report(prefix, keys[i])];
      }
      i := i + 1;
    }
    assert keys[..i] == keys;
  }

  /** Looking at one more key adds its report exactly when it is absent. */
  lemma MissingStep(fields: Record, keys: seq<string>, i: nat, prefix: string)
    requires i < |keys|
    ensures Reports(prefix, MissingKeys(fields, keys[..i + 1]))
            == Reports(prefix, MissingKeys(fields, keys[..i])) + (if keys[i] in fields then [] else [Report(prefix, keys[i])])
  {
    assert keys[..i + 1] == keys[..i] + [keys[i]];
    MissingKeysAppend(fields, keys[..i], keys[i]);
    var m := MissingKeys(fields, keys[..i]);
    if keys[i] in fields {
      assert m + [] == m;
    } else {
      ReportsAppend(prefix, m, keys[i]);
    }
  }

  // ---------------------------------------------------------------------
  // StreamRegistry

  /** `StreamRegistry.validate(item_data)`: only the presence of the two
      keys is checked, never their values (a null template passes). */
  function StreamValidate(item: Record): (b: bool)
    ensures b <==> "interval_sec" in item && "filter_template" in item
  {
    "interval_sec" in item && "filter_template" in item
  }

  /** `get_stream_type(stream_id)`: None (JSON null) for an unknown or empty
      entry, otherwise `entry.get("stream_type")`. */
  function GetStreamType(reg: Registry, id: string): (r: Result<Json, PyError>)
    reads reg
    ensures !reg.IsRegistered(id) ==> r == Ok(JNull)
    ensures id in reg.entries && reg.entries[id].JObj? ==>
              r == Ok(if Truthy(reg.entries[id]) then GetOrNull(reg.entries[id].fields, "stream_type") else JNull)
    ensures id in reg.entries && Truthy(reg.entries[id]) && !reg.entries[id].JObj? ==>
              r == Err(AttributeError("get"))
  {
    match reg.Get(id)
    case None => Ok(JNull)
    case Some(entry) =>
      if !Truthy(entry) then Ok(JNull)
      else if !entry.JObj? then Err(AttributeError("get"))
      else Ok(GetOrNull(entry.fields, "stream_type"))
  }
}
