/** app/utils/config_loader.py `instantiate_filter`: builds a filter from a
    template `{"type": tag, "params": {...}}`, the parameters passed as
    keyword arguments. The keyword binding (`Cls(**params)`) is modelled here
    once and reused for the imputation predictor. */
module FilterFactory {
  import opened Values
  import opened Matrix
  import opened Filters

  /** Parameter names of the constructors, in declaration order, with their
      defaults (filter/kalman_filter.py and the imputation predictor). */
  const Names2: seq<string> :=
    ["initial_value", "initial_rate", "initial_variance", "dt", "process_noise", "measurement_noise"]
  const Defaults2: seq<real> := [0.0, 0.0, 1.0, 1.0, 0.01, 0.1]
  const Names3: seq<string> :=
    ["initial_value", "initial_rate", "initial_acceleration", "initial_variance", "dt",
     "process_noise", "measurement_noise"]
  const Defaults3: seq<real> := [0.0, 0.0, 0.0, 1.0, 1.0, 0.01, 0.1]

  /** The constructor arguments a filter is built from, in declaration order. */
  datatype FilterSpec = Spec2(args: seq<real>) | Spec3(args: seq<real>)

  ghost predicate WellFormed(s: FilterSpec) {
    match s
    case Spec2(a) => |a| == 6
    case Spec3(a) => |a| == 7
  }

  /** The values bound to `names`, each from `kwargs` or else its default. */
  function BindValues(kwargs: map<string, Json>, names: seq<string>, defaults: seq<real>): (r: seq<real>)
    requires |names| == |defaults|
    requires forall k :: k in kwargs ==> AsNumber(kwargs[k]).Some?
    ensures |r| == |names|
    ensures forall i :: 0 <= i < |names| ==>
              r[i] == if names[i] in kwargs then AsNumber(kwargs[names[i]]).value else defaults[i]
  {
    if |names| == 0 then []
    else
      var head := if names[0] in kwargs then AsNumber(kwargs[names[0]]).value else defaults[0];
      [head] + BindValues(kwargs, names[1..], defaults[1..])
  }

  /** `Cls(**params)` against a constructor with parameters `names`: params
      must be a mapping, every key must name a parameter, and every value must
      be numeric; missing parameters take their defaults. */
  function BindKeywords(params: Json, names: seq<string>, defaults: seq<real>): (r: Result<seq<real>, PyError>)
    requires |names| == |defaults|
    ensures r.Ok? <==> params.JObj? && (forall k :: k in params.fields ==> k in names)
                       && (forall k :: k in params.fields ==> AsNumber(params.fields[k]).Some?)
    ensures r.Err? ==> r.error.TypeError?
    ensures r.Ok? ==> |r.value| == |names|
    ensures r.Ok? ==> forall i :: 0 <= i < |names| && names[i] in params.fields ==>
                        r.value[i] == AsNumber(params.fields[names[i]]).value
    ensures r.Ok? ==> forall i :: 0 <= i < |names| && names[i] !in params.fields ==>
                        r.value[i] == defaults[i]
  {
    if !params.JObj? then Err(TypeError("argument after ** must be a mapping"))
    else if exists k :: k in params.fields && k !in names then
      Err(TypeError("got an unexpected keyword argument"))
    else if exists k :: k in params.fields && AsNumber(params.fields[k]).None? then
      Err(TypeError("argument must be a number"))
    else Ok(BindValues(params.fields, names, defaults))
  }

  /** `instantiate_filter(template)` up to allocation: which filter, with
      which constructor arguments, or the exception raised. */
  function Instantiate(template: Record): (r: Result<FilterSpec, PyError>)
    ensures "type" !in template ==> r == Err(KeyError("type"))
    ensures "type" in template && "params" !in template ==> r == Err(KeyError("params"))
    ensures ("type" in template && "params" in template && template["type"] != JStr("2D")
             && template["type"] != JStr("3D")) ==> r.Err? && r.error.ValueError?
    ensures r.Ok? ==> WellFormed(r.value) && "params" in template && template["params"].JObj?
    ensures r.Ok? ==> forall k :: k in template["params"].fields ==> AsNumber(template["params"].fields[k]).Some?
    ensures r.Ok? && r.value.Spec2? ==> template["type"] == JStr("2D")
    ensures r.Ok? && r.value.Spec3? ==> template["type"] == JStr("3D")
    ensures r.Ok? && "initial_value" in template["params"].fields ==>
              r.value.args[0] == AsNumber(template["params"].fields["initial_value"]).value
  {
    match Index(template, "type")
    case Err(e) => Err(e)
    case Ok(ftype) =>
      match Index(template, "params")
      case Err(e) => Err(e)
      case Ok(params) =>
        if ftype == JStr("2D") then
          match BindKeywords(params, Names2, Defaults2)
          case Err(e) => Err(e)
          case Ok(args) => Ok(Spec2(args))
        else if ftype == JStr("3D") then
          match BindKeywords(params, Names3, Defaults3)
          case Err(e) => Err(e)
          case Ok(args) => Ok(Spec3(args))
        else Err(ValueError(UnknownTypeMessage(ftype)))
  }

  function UnknownTypeMessage(ftype: Json): string {
    if ftype.JStr? then "Unknown filter type '" + ftype.s + "'" else "Unknown filter type"
  }

  /** A tag of "2D" or "3D" with complete, numeric parameters builds that
      filter; the tag alone decides the kind. */
  lemma {:induction false} InstantiateByTag(template: Record)
    requires "type" in template && "params" in template
    requires template["params"].JObj? && template["params"].fields.Keys <= set n | n in Names3
    requires forall k :: k in template["params"].fields ==> template["params"].fields[k].JNum?
    ensures template["type"] == JStr("3D") ==> Instantiate(template).Ok? && Instantiate(template).value.Spec3?
    ensures template["type"] == JStr("2D") && "initial_acceleration" !in template["params"].fields ==>
              Instantiate(template).Ok? && Instantiate(template).value.Spec2?
  {
    var fields := template["params"].fields;
    assert forall k :: k in fields ==> k in Names3;
    if template["type"] == JStr("2D") && "initial_acceleration" !in fields {
      forall k | k in fields ensures k in Names2 {
        assert k in Names3;
      }
    }
  }

  /** The filter object `f` is what the constructor builds from `spec`. */
  ghost predicate Describes(f: AnyFilter, spec: FilterSpec)
    reads Obj(f)
  {
    FilterValid(f) &&
    match spec
    case Spec2(a) =>
      |a| == 6 && f.Cv? && f.cv.state == Vec2(a[0], a[1]) && f.cv.P == Diag2(a[2])
      && f.cv.dt == a[3] && f.cv.Q == Diag2(a[4]) && f.cv.R == a[5]
    case Spec3(a) =>
      |a| == 7 && f.Ca? && f.ca.state == Vec3(a[0], a[1], a[2]) && f.ca.P == Diag3(a[3])
      && f.ca.dt == a[4] && f.ca.Q == Diag3(a[5]) && f.ca.R == a[6]
  }

  /** Allocates the filter a spec describes. */
  method Build(spec: FilterSpec) returns (f: AnyFilter)
    requires WellFormed(spec)
    ensures fresh(Obj(f)) && Describes(f, spec)
  {
    match spec
    case Spec2(a) =>
      var k := new KalmanFilter2D(a[0], a[1], a[2], a[3], a[4], a[5]);
      f := Cv(k);
    case Spec3(a) =>
      var k := new KalmanFilter3D(a[0], a[1], a[2], a[3], a[4], a[5], a[6]);
      f := Ca(k);
  }

  /** `instantiate_filter(template)`. */
  method InstantiateFilter(template: Record) returns (r: Result<AnyFilter, PyError>)
    ensures r.Err? <==> Instantiate(template).Err?
    ensures r.Err? ==> r.error == Instantiate(template).error
    ensures r.Ok? ==> fresh(Obj(r.value)) && Describes(r.value, Instantiate(template).value)
  {
    var spec := Instantiate(template);
    if spec.Err? {
      return Err(spec.error);
    }
    var f := Build(spec.value);
    r := Ok(f);
  }
}
