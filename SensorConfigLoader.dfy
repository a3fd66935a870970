/** utils/config_loader.py `load_filters_from_config`: one filter per sensor
    of a validated configuration, the parameters passed positionally. Reading
    and schema-checking the file are not part of this model; the sensors
    arrive as decoded objects that passed the schema. */
module SensorConfigLoader {
  import opened Values
  import opened Filters
  import opened FilterFactory

  /** Keys read from `sensor["filter"]`, in argument order. */
  const Positional2: seq<string> :=
    ["initial_value", "initial_rate", "initial_variance", "dt", "process_noise", "measurement_noise"]
  const Positional3: seq<string> :=
    ["initial_value", "initial_rate", "initial_acceleration", "initial_variance", "dt",
     "process_noise", "measurement_noise"]

  /** What the schema guarantees of each sensor: a string "sensor_id" and an
      object "filter". */
  predicate Validated(sensor: Record) {
    "sensor_id" in sensor && sensor["sensor_id"].JStr?
    && "filter" in sensor && sensor["filter"].JObj?
  }

  function SensorId(sensor: Record): string
    requires Validated(sensor)
  {
    sensor["sensor_id"].s
  }

  function FilterOf(sensor: Record): Record
    requires Validated(sensor)
  {
    sensor["filter"].fields
  }

  /** `sample[k]` for each key in order: the first missing key raises
      KeyError; a non-numeric value is refused once all are read. */
  function Positional(sample: Record, keys: seq<string>): (r: Result<seq<real>, PyError>)
    ensures r.Ok? <==> forall i :: 0 <= i < |keys| ==> keys[i] in sample && AsNumber(sample[keys[i]]).Some?
    ensures r.Ok? ==> |r.value| == |keys|
                      && forall i :: 0 <= i < |keys| ==> r.value[i] == AsNumber(sample[keys[i]]).value
    ensures r.Err? && r.error.KeyError? ==> r.error.key in keys && r.error.key !in sample
    ensures r.Err? && r.error.KeyError? ==>
              exists i :: 0 <= i < |keys| && keys[i] == r.error.key && forall j :: 0 <= j < i ==> keys[j] in sample
    ensures (exists i :: 0 <= i < |keys| && keys[i] !in sample) ==> r.Err? && r.error.KeyError?
  {
    if |keys| == 0 then Ok([])
    else if keys[0] !in sample then Err(KeyError(keys[0]))
    else
      match Positional(sample, keys[1..])
      case Err(e) => if e.KeyError? then Err(e) else if AsNumber(sample[keys[0]]).None? then Err(NotANumber) else Err(e)
      case Ok(rest) =>
        if AsNumber(sample[keys[0]]).None? then Err(NotANumber)
        else Ok([AsNumber(sample[keys[0]]).value] + rest)
  }

  const NotANumber: PyError := TypeError("argument must be a number")

  /** What one sensor contributes: nothing for an unknown tag, a filter spec
      for "2D" and "3D", or the exception its lookups raise. */
  function SensorSpec(sensor: Record): (r: Result<Option<FilterSpec>, PyError>)
    requires Validated(sensor)
    ensures r.Ok? && r.value.Some? ==> WellFormed(r.value.value)
    ensures r.Ok? && r.value.Some? && r.value.value.Spec3? ==>
              "initial_acceleration" in FilterOf(sensor)
              && AsNumber(FilterOf(sensor)["initial_acceleration"]).Some?
              && r.value.value.args[2] == AsNumber(FilterOf(sensor)["initial_acceleration"]).value
  {
    var sample := FilterOf(sensor);
    match Index(sample, "type")
    case Err(e) => Err(e)
    case Ok(tag) =>
      if tag == JStr("2D") then
        match Positional(sample, Positional2)
        case Err(e) => Err(e)
        case Ok(a) => Ok(Some(Spec2(a)))
      else if tag == JStr("3D") then
        match Positional(sample, Positional3)
        case Err(e) => Err(e)
        case Ok(a) =>
          assert Positional3[2] == "initial_acceleration";
          Ok(Some(Spec3(a)))
      else Ok(None)
  }

  /** The whole loop as a value: the specs by sensor id after the sensors so
      far, later sensors overwriting earlier ones. */
  function Load(sensors: seq<Record>): (r: Result<map<string, FilterSpec>, PyError>)
    requires forall i :: 0 <= i < |sensors| ==> Validated(sensors[i])
    ensures r.Ok? ==> forall id :: id in r.value ==> WellFormed(r.value[id])
  {
    if |sensors| == 0 then Ok(map[])
    else
      var last := sensors[|sensors| - 1];
      match Load(sensors[..|sensors| - 1])
      case Err(e) => Err(e)
      case Ok(m) =>
        match SensorSpec(last)
        case Err(e) => Err(e)
        case Ok(None) => Ok(m)
        case Ok(Some(spec)) => Ok(m[SensorId(last) := spec])
  }

  /** The index of the last sensor with this id whose tag is "2D" or "3D". */
  function LastTagged(sensors: seq<Record>, id: string): (r: Option<nat>)
    requires forall i :: 0 <= i < |sensors| ==> Validated(sensors[i])
    ensures r.Some? ==> r.value < |sensors| && SensorId(sensors[r.value]) == id
  {
    if |sensors| == 0 then None
    else
      var last := sensors[|sensors| - 1];
      if SensorId(last) == id && "type" in FilterOf(last)
         && (FilterOf(last)["type"] == JStr("2D") || FilterOf(last)["type"] == JStr("3D"))
      then Some(|sensors| - 1)
      else LastTagged(sensors[..|sensors| - 1], id)
  }

  /** A successful load has an entry for an id exactly when some sensor with
      that id is tagged "2D" or "3D", and the entry is built from the last
      such sensor; sensors with other tags contribute nothing. */
  lemma {:induction false} LoadKeepsLast(sensors: seq<Record>, id: string)
    requires forall i :: 0 <= i < |sensors| ==> Validated(sensors[i])
    requires Load(sensors).Ok?
    ensures id in Load(sensors).value <==> LastTagged(sensors, id).Some?
    ensures id in Load(sensors).value ==>
              SensorSpec(sensors[LastTagged(sensors, id).value]) == Ok(Some(Load(sensors).value[id]))
  {
    if |sensors| > 0 {
      var init := sensors[..|sensors| - 1];
      LoadKeepsLast(init, id);
      var last := sensors[|sensors| - 1];
      if LastTagged(sensors, id) == LastTagged(init, id) && LastTagged(init, id).Some? {
        assert sensors[LastTagged(init, id).value] == init[LastTagged(init, id).value];
      }
    }
  }

  /** `load_filters_from_config` after validation: the loop over the sensors,
      allocating a filter for every "2D" and "3D" sensor. */
  method LoadFilters(sensors: seq<Record>) returns (r: Result<map<string, AnyFilter>, PyError>)
    requires forall i :: 0 <= i < |sensors| ==> Validated(sensors[i])
    ensures r.Err? <==> Load(sensors).Err?
    ensures r.Err? ==> r.error == Load(sensors).error
    ensures r.Ok? ==> r.value.Keys == Load(sensors).value.Keys
    ensures r.Ok? ==> forall id :: id in r.value ==>
              fresh(Obj(r.value[id])) && Describes(r.value[id], Load(sensors).value[id])
  {
    var filters: map<string, AnyFilter> := map[];
    var i := 0;
    while i < |sensors|
      invariant 0 <= i <= |sensors|
      invariant Load(sensors[..i]).Ok?
      invariant filters.Keys == Load(sensors[..i]).value.Keys
      invariant forall id :: id in filters ==>
                  fresh(Obj(filters[id])) && Describes(filters[id], Load(sensors[..i]).value[id])
    {
      var sensor := sensors[i];
      assert sensors[..i + 1][..i] == sensors[..i];
      var spec := SensorSpec(sensor);
      if spec.Err? {
        assert Load(sensors[..i + 1]).Err?;
        LoadStaysFailed(sensors, i + 1);
        return Err(spec.error);
      }
      if spec.value.Some? {
        var f := Build(spec.value.value);
        filters := filters[SensorId(sensor) := f];
      }
      i := i + 1;
    }
    assert sensors[..i] == sensors;
    r := Ok(filters);
  }

  /** Once a prefix fails, the whole load fails with the same exception. */
  lemma {:induction false} LoadStaysFailed(sensors: seq<Record>, n: nat)
    requires forall i :: 0 <= i < |sensors| ==> Validated(sensors[i])
    requires n <= |sensors| && Load(sensors[..n]).Err?
    ensures Load(sensors).Err? && Load(sensors).error == Load(sensors[..n]).error
    decreases |sensors| - n
  {
    if n < |sensors| {
      assert sensors[..n + 1][..n] == sensors[..n];
      LoadStaysFailed(sensors, n + 1);
    } else {
      assert sensors[..n] == sensors;
    }
  }
}
