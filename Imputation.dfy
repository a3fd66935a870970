/** app/imputation/Imputer.py and app/imputation/ImputersManager.py: one
    imputer per stream consumes the stream's observed events, keeps its
    predictor in step (predict on every event, update when a value was
    observed) and publishes the completed event on the "imputed" partition.
    The wall clock is an argument (`now`); logging is not modelled. */
module Imputation {
  import opened Values
  import opened Matrix
  import opened Kalman
  import opened Predictors
  import FilterFactory
  import Messaging

  // ------------------------------------------------------------ the record

  /** `event.get("value")`: a missing value and JSON null are both None. */
  function ObservedValue(event: Record): Json {
    GetOrNull(event, "value")
  }

  /** `event.get("extras", {})` */
  function Extras(event: Record): (x: Json)
    ensures "extras" in event ==> x == event["extras"]
    ensures "extras" !in event ==> x == JObj(map[])
  {
    if "extras" in event then event["extras"] else JObj(map[])
  }

  /** The prediction as stored in the record: None is JSON null. */
  function PredictionJson(prediction: Option<real>): (j: Json)
    ensures prediction.None? <==> j == JNull
    ensures prediction.Some? ==> j == JNum(prediction.value)
  {
    if prediction.Some? then JNum(prediction.value) else JNull
  }

  /** The keys `consume_event` writes into its copy of the event. */
  function WrittenKeys(observed: Json): set<string> {
    {"observed_value", "imputed_value", "value", "confidence", "method", "extras", "imputation_time"}
    + (if observed != JNull then {"imputation_flag"} else {})
  }

  /** The record `consume_event` publishes, given the prediction it ended
      with and, when there is a predictor, the predictor's name and
      confidence. Without a predictor a missing value cannot be imputed:
      `self.predictor.name` raises AttributeError on None. */
  function Processed(event: Record, prediction: Option<real>, predictor: Option<(string, real)>, now: real)
    : (r: Result<Record, PyError>)
    ensures r.Err? <==> ObservedValue(event) == JNull && predictor.None?
    ensures r.Err? ==> r.error == AttributeError("name")
    ensures r.Ok? ==> r.value.Keys == event.Keys + WrittenKeys(ObservedValue(event))
    ensures r.Ok? ==> forall k :: k in event && k !in WrittenKeys(ObservedValue(event)) ==> r.value[k] == event[k]
    ensures r.Ok? ==> r.value["observed_value"] == ObservedValue(event)
                      && r.value["extras"] == Extras(event) && r.value["imputation_time"] == JNum(now)
    ensures r.Ok? && ObservedValue(event) != JNull ==>
              r.value["value"] == ObservedValue(event) && r.value["confidence"] == JNum(1.0)
              && r.value["method"] == JStr("observed") && r.value["imputed_value"] == JNull
              && r.value["imputation_flag"] == JBool(false)
    ensures r.Ok? && ObservedValue(event) == JNull ==>
              r.value["value"] == PredictionJson(prediction) && r.value["imputed_value"] == PredictionJson(prediction)
              && r.value["confidence"] == JNum(predictor.value.1) && r.value["method"] == JStr(predictor.value.0)
              && ("imputation_flag" in r.value <==> "imputation_flag" in event)
  {
    var observed := ObservedValue(event);
    var base := event["observed_value" := observed];
    if observed == JNull then
      if predictor.None? then Err(AttributeError("name"))
      else
        var p := PredictionJson(prediction);
        var (name, confidence) := predictor.value;
        Ok(base["imputed_value" := p]["value" := p]["confidence" := JNum(confidence)]["method" := JStr(name)]
               ["extras" := Extras(event)]["imputation_time" := JNum(now)])
    else
      Ok(base["imputed_value" := JNull]["value" := observed]["confidence" := JNum(1.0)]["method" := JStr("observed")]
             ["imputation_flag" := JBool(false)]["extras" := Extras(event)]["imputation_time" := JNum(now)])
  }

  /** An observed event's record depends neither on the prediction nor on the
      predictor: the observation overrides them. */
  lemma ObservationOverrides(event: Record, p1: Option<real>, p2: Option<real>,
                             q1: Option<(string, real)>, q2: Option<(string, real)>, now: real)
    requires ObservedValue(event) != JNull
    ensures Processed(event, p1, q1, now) == Processed(event, p2, q2, now)
  {
    var r1 := Processed(event, p1, q1, now).value;
    var r2 := Processed(event, p2, q2, now).value;
    assert r1.Keys == r2.Keys;
    forall k | k in r1
      ensures r1[k] == r2[k]
    {
    }
  }

  /** Confidence always lies in [0,1] when the predictor's does: observed
      events carry exactly 1.0. */
  lemma ConfidenceInUnitRange(event: Record, prediction: Option<real>, predictor: Option<(string, real)>, now: real)
    requires predictor.Some? ==> 0.0 <= predictor.value.1 <= 1.0
    ensures var r := Processed(event, prediction, predictor, now);
            r.Ok? ==> r.value["confidence"].JNum? && 0.0 <= r.value["confidence"].n <= 1.0
  {
  }

  // ----------------------------------------------------------- the imputer

  /** A call the imputer makes on its predictor. */
  datatype PredictorCall = PredictCall | UpdateCall(observed: Json)

  /** The calls made for one event: predict always, update only for an
      observed value. */
  function CallsFor(observed: Json): (c: seq<PredictorCall>)
    ensures |c| >= 1 && c[0] == PredictCall
    ensures |c| == 2 <==> observed != JNull
    ensures |c| == 2 ==> c[1] == UpdateCall(observed)
    ensures |c| <= 2
  {
    if observed != JNull then [PredictCall, UpdateCall(observed)] else [PredictCall]
  }

  /** Over a run of events, predict is called once per event and update once
      per observed event. */
  function Trace(events: seq<Record>): seq<PredictorCall> {
    if events == [] then [] else Trace(events[..|events| - 1]) + CallsFor(ObservedValue(events[|events| - 1]))
  }

  function CountPredicts(calls: seq<PredictorCall>): nat {
    if calls == [] then 0 else CountPredicts(calls[..|calls| - 1]) + (if calls[|calls| - 1].PredictCall? then 1 else 0)
  }

  function CountObserved(events: seq<Record>): nat {
    if events == [] then 0
    else CountObserved(events[..|events| - 1]) + (if ObservedValue(events[|events| - 1]) != JNull then 1 else 0)
  }

  lemma CountPredictsAppend(a: seq<PredictorCall>, b: seq<PredictorCall>)
    ensures CountPredicts(a + b) == CountPredicts(a) + CountPredicts(b)
    decreases |b|
  {
    if b == [] {
      assert a + b == a;
    } else {
      assert (a + b)[..|a + b| - 1] == a + b[..|b| - 1];
      CountPredictsAppend(a, b[..|b| - 1]);
    }
  }

  /** One predict per event, and one update per observed event. */
  lemma {:induction false} TraceCounts(events: seq<Record>)
    ensures CountPredicts(Trace(events)) == |events|
    ensures |Trace(events)| == |events| + CountObserved(events)
  {
    if events != [] {
      var last := events[|events| - 1];
      TraceCounts(events[..|events| - 1]);
      CountPredictsAppend(Trace(events[..|events| - 1]), CallsFor(ObservedValue(last)));
      var c := CallsFor(ObservedValue(last));
      if |c| == 2 {
        assert c[..1] == [PredictCall] && c[..1][..0] == [];
        assert CountPredicts(c[..1]) == 1;
        assert CountPredicts(c) == CountPredicts(c[..1]);
      } else {
        assert c[..0] == [];
        assert CountPredicts(c) == 1;
      }
    }
  }

  /** The record `consume_event` builds, by successive assignments to a copy
      of the event. */
  method BuildRecord(event: Record, prediction: Option<real>, predictor: Option<(string, real)>, now: real)
    returns (r: Result<Record, PyError>)
    ensures r == Processed(event, prediction, predictor, now)
  {
    var observed := GetOrNull(event, "value");
    var processed := event;
    processed := processed["observed_value" := observed];
    if observed == JNull {
      processed := processed["imputed_value" := PredictionJson(prediction)];
      processed := processed["value" := PredictionJson(prediction)];
      if predictor.None? {
        // the only predictor without `confidence` is None, whose `.name`
        // raises on the next line, so the 0.5 fallback is never kept
        return Err(AttributeError("name"));
      }
      processed := processed["confidence" := JNum(predictor.value.1)];
      processed := processed["method" := JStr(predictor.value.0)];
    } else {
      processed := processed["imputed_value" := JNull];
      processed := processed["value" := observed];
      processed := processed["confidence" := JNum(1.0)];
      processed := processed["method" := JStr("observed")];
      processed := processed["imputation_flag" := JBool(false)];
    }
    processed := processed["extras" := Extras(event)];
    processed := processed["imputation_time" := JNum(now)];
    r := Ok(processed);
  }

  /** app/imputation/Imputer.py `Imputer`. A predictor of None is what the
      manager builds for a template of another type; an event stream of None
      publishes nothing. */
  class Imputer {
    const streamId: string
    const predictor: Option<KalmanFilter>
    const eventStream: Option<Messaging.EventStream>
    var currentPrediction: Option<real>
    /** The predictor calls made so far, in order. */
    ghost var calls: seq<PredictorCall>

    ghost predicate Valid()
      reads this, Footprint()
    {
      (predictor.Some? ==> predictor.value.Valid())
      && (eventStream.Some? ==> eventStream.value.Valid())
    }

    /** The predictor object, if any. */
    function Predictor(): set<object>
      reads this
    {
      if predictor.Some? then {predictor.value} else {}
    }

    /** The event stream's clients, if any. */
    function Clients(): set<object>
      reads this
    {
      if eventStream.Some? then {eventStream.value.observed, eventStream.value.imputed, eventStream.value.matched}
      else {}
    }

    /** What consuming an event may read or change besides the imputer. */
    function Footprint(): set<object>
      reads this
    {
      Predictor() + Clients() + (if eventStream.Some? then {eventStream.value} else {})
    }

    constructor (streamId: string, predictor: Option<KalmanFilter>, eventStream: Option<Messaging.EventStream>)
      ensures this.streamId == streamId && this.predictor == predictor && this.eventStream == eventStream
      ensures currentPrediction.None? && calls == []
    {
      this.streamId := streamId;
      this.predictor := predictor;
      this.eventStream := eventStream;
      currentPrediction := None;
      calls := [];
    }

    /** The predictor's name and confidence, as the missing-value branch
        reads them. */
    function Describe(): Option<(string, real)>
      reads this, Predictor()
    {
      if predictor.Some? then Some((predictor.value.name, predictor.value.GetConfidence())) else None
    }

    /** The predictor half of `consume_event`: predict, then update when a
        value was observed; a failing call is caught and keeps the
        prediction made so far (None when there is no predictor). */
    method Step(observed: Json)
      requires Valid()
      modifies this, Predictor()
      ensures Valid()
      ensures calls == old(calls) + CallsFor(observed)
      ensures predictor.None? ==> currentPrediction.None?
      ensures predictor.Some? ==> currentPrediction == Some(predictor.value.GetValue())
      ensures predictor.Some? ==>
                var k := predictor.value;
                var x := Apply3(k.F, old(k.state));
                var p := PredictCov3(k.F, old(k.P), k.Q);
                var m := AsNumber(observed);
                if observed != JNull && m.Some? && p.a00 + k.R != 0.0
                then k.state == CorrectState3(x, p, k.H, k.R, m.value) && k.P == CorrectCov3(p, k.H, k.R)
                else k.state == x && k.P == p
    {
      calls := calls + [PredictCall];
      if predictor.Some? {
        var v := predictor.value.Predict();
        currentPrediction := Some(v);
      } else {
        // `None.predict()` raises AttributeError, which is caught
        currentPrediction := None;
      }
      if observed != JNull {
        calls := calls + [UpdateCall(observed)];
        if predictor.Some? {
          var u := predictor.value.Update(observed);
          if u.Ok? {
            currentPrediction := Some(u.value);
          }
        }
      }
    }

    /** `consume_event(event)`: returns the record it built (published when
        there is an event stream), or the exception it raised. */
    method ConsumeEvent(event: Record, now: real) returns (r: Result<Record, PyError>)
      requires Valid()
      modifies this, Predictor(), Clients()
      ensures Valid()
      ensures calls == old(calls) + CallsFor(ObservedValue(event))
      ensures predictor.Some? ==> currentPrediction == Some(predictor.value.GetValue())
      ensures predictor.Some? ==>
                var k := predictor.value;
                var x := Apply3(k.F, old(k.state));
                var p := PredictCov3(k.F, old(k.P), k.Q);
                var observed := ObservedValue(event);
                var m := AsNumber(observed);
                if observed != JNull && m.Some? && p.a00 + k.R != 0.0
                then k.state == CorrectState3(x, p, k.H, k.R, m.value) && k.P == CorrectCov3(p, k.H, k.R)
                else k.state == x && k.P == p
      ensures r == Processed(event, currentPrediction, Describe(), now)
      ensures eventStream.Some? ==>
                var es := eventStream.value;
                es.imputed.sent == old(es.imputed.sent)
                                   + (if r.Ok? then [(Messaging.Topic("imputed", streamId),
                                                      r.value["__topic__" := JStr(Messaging.Topic("imputed", streamId))])]
                                      else [])
                && es.observed.sent == old(es.observed.sent) && es.matched.sent == old(es.matched.sent)
                && es.observed.subscribers == old(es.observed.subscribers)
                && es.imputed.subscribers == old(es.imputed.subscribers)
                && es.matched.subscribers == old(es.matched.subscribers)
    {
      var observed := GetOrNull(event, "value");
      Step(observed);
      r := BuildRecord(event, currentPrediction, Describe(), now);
      if r.Ok? && eventStream.Some? {
        var published := eventStream.value.AddEvent(r.value, "imputed", streamId);
      }
    }
  }

  // ----------------------------------------------------------- the manager

  /** `_create_predictor(filter_template)` up to allocation: the predictor's
      constructor arguments, None for a template of another type, or the
      exception raised. An unknown template gives `cfg` None, which cannot
      be indexed; "params" is read before the type is compared. */
  function PredictorFor(filtersConfig: map<string, Json>, template: Json): (r: Result<Option<seq<real>>, PyError>)
    ensures Hashable(template) && !(template.JStr? && template.s in filtersConfig) ==> r.Err? && r.error.TypeError?
    ensures r.Ok? ==> template.JStr? && template.s in filtersConfig && filtersConfig[template.s].JObj?
                      && "type" in filtersConfig[template.s].fields && "params" in filtersConfig[template.s].fields
    ensures r.Ok? && r.value.Some? <==>
              r.Ok? && filtersConfig[template.s].fields["type"] == JStr("KalmanFilter")
    ensures r.Ok? && r.value.Some? ==>
              FilterFactory.BindKeywords(filtersConfig[template.s].fields["params"], FilterFactory.Names3,
                                         FilterFactory.Defaults3) == Ok(r.value.value)
    ensures template.JStr? && template.s in filtersConfig && filtersConfig[template.s].JObj? ==>
              var cfg := filtersConfig[template.s].fields;
              if "type" !in cfg then r == Err(KeyError("type"))
              else if "params" !in cfg then r == Err(KeyError("params"))
              else if cfg["type"] != JStr("KalmanFilter") then r == Ok(None)
              else match FilterFactory.BindKeywords(cfg["params"], FilterFactory.Names3, FilterFactory.Defaults3)
                   case Err(e) => r == Err(e)
                   case Ok(args) => r == Ok(Some(args))
  {
    match DictGet(filtersConfig, template)
    case Err(e) => Err(e)
    case Ok(None) => Err(TypeError("'NoneType' object is not subscriptable"))
    case Ok(Some(cfg)) =>
      if !cfg.JObj? then Err(TypeError("object is not subscriptable by a string"))
      else
        match Index(cfg.fields, "type")
        case Err(e) => Err(e)
        case Ok(ftype) =>
          match Index(cfg.fields, "params")
          case Err(e) => Err(e)
          case Ok(params) =>
            if ftype == JStr("KalmanFilter") then
              match FilterFactory.BindKeywords(params, FilterFactory.Names3, FilterFactory.Defaults3)
              case Err(e) => Err(e)
              case Ok(args) => Ok(Some(args))
            else Ok(None)
  }

  /** `cfg.get("filter_template")` on a stream's entry, then the predictor. */
  function WorkerPredictor(filtersConfig: map<string, Json>, streamCfg: Json): (r: Result<Option<seq<real>>, PyError>)
    ensures !streamCfg.JObj? ==> r == Err(AttributeError("get"))
    ensures streamCfg.JObj? ==> r == PredictorFor(filtersConfig, GetOrNull(streamCfg.fields, "filter_template"))
  {
    if !streamCfg.JObj? then Err(AttributeError("get"))
    else PredictorFor(filtersConfig, GetOrNull(streamCfg.fields, "filter_template"))
  }

  /** What each stream's predictor lookup gives, in file order. */
  function Outcomes(filtersConfig: map<string, Json>, streams: seq<(string, Json)>)
    : (outs: seq<Result<Option<seq<real>>, PyError>>)
    ensures |outs| == |streams|
  {
    if streams == [] then []
    else
      var k := |streams| - 1;
      Outcomes(filtersConfig, streams[..k]) + [WorkerPredictor(filtersConfig, streams[k].1)]
  }

  /** Stream `j`'s entry of `Outcomes` is its own lookup. */
  lemma {:induction false} OutcomesAt(filtersConfig: map<string, Json>, streams: seq<(string, Json)>, j: nat)
    requires j < |streams|
    ensures Outcomes(filtersConfig, streams)[j] == WorkerPredictor(filtersConfig, streams[j].1)
  {
    var k := |streams| - 1;
    if j < k {
      assert streams[..k][j] == streams[j];
      OutcomesAt(filtersConfig, streams[..k], j);
    }
  }

  /** How many lookups succeed before the first one that raises: all of them
      when none does. */
  function FirstErr<T>(outs: seq<Result<T, PyError>>): (n: nat)
    ensures n <= |outs|
    ensures forall i :: 0 <= i < n ==> outs[i].Ok?
    ensures n < |outs| ==> outs[n].Err?
  {
    if outs == [] then 0
    else if outs[0].Err? then 0
    else 1 + FirstErr(outs[1..])
  }

  /** The predictor object built from `args`. */
  ghost predicate Builds(p: Option<KalmanFilter>, args: Option<seq<real>>)
    reads if p.Some? then {p.value} else {}
  {
    match args
    case None => p.None?
    case Some(a) =>
      |a| == 7 && p.Some? && p.value.Valid() && p.value.state == Vec3(a[0], a[1], a[2])
      && p.value.P == Diag3(a[3]) && p.value.dt == a[4] && p.value.Q == Diag3(a[5]) && p.value.R == a[6]
  }

  /** The workers map after recording `ws[j]` under `entries[j]`'s id, in
      order (a later entry with the same id would overwrite). */
  function WorkerMap(entries: seq<(string, Json)>, ws: seq<Imputer>): map<string, Imputer>
    requires |entries| == |ws|
  {
    if entries == [] then map[]
    else WorkerMap(entries[..|entries| - 1], ws[..|ws| - 1])[entries[|entries| - 1].0 := ws[|ws| - 1]]
  }

  /** The ids of the configured streams. */
  function IdsOf(entries: seq<(string, Json)>): set<string> {
    set e | e in entries :: e.0
  }

  /** With distinct ids the map holds exactly the entries' ids, each bound to
      the worker built for it. */
  lemma WorkerMapSpec(entries: seq<(string, Json)>, ws: seq<Imputer>)
    requires |entries| == |ws|
    requires DistinctIds(entries)
    ensures WorkerMap(entries, ws).Keys == IdsOf(entries)
    ensures forall j :: 0 <= j < |entries| ==> WorkerMap(entries, ws)[entries[j].0] == ws[j]
  {
    WorkerMapKeys(entries, ws);
    WorkerMapValues(entries, ws);
  }

  lemma {:induction false} WorkerMapKeys(entries: seq<(string, Json)>, ws: seq<Imputer>)
    requires |entries| == |ws|
    ensures WorkerMap(entries, ws).Keys == IdsOf(entries)
  {
    if entries != [] {
      var k := |entries| - 1;
      WorkerMapKeys(entries[..k], ws[..k]);
      assert entries == entries[..k] + [entries[k]];
      assert IdsOf(entries) == IdsOf(entries[..k]) + {entries[k].0};
    }
  }

  lemma {:induction false} WorkerMapValues(entries: seq<(string, Json)>, ws: seq<Imputer>)
    requires |entries| == |ws|
    requires DistinctIds(entries)
    ensures forall j :: 0 <= j < |entries| ==>
              entries[j].0 in WorkerMap(entries, ws) && WorkerMap(entries, ws)[entries[j].0] == ws[j]
  {
    if entries != [] {
      var k := |entries| - 1;
      WorkerMapValues(entries[..k], ws[..k]);
      forall j | 0 <= j < |entries|
        ensures entries[j].0 in WorkerMap(entries, ws) && WorkerMap(entries, ws)[entries[j].0] == ws[j]
      {
        if j < k {
          assert entries[..k][j] == entries[j] && ws[..k][j] == ws[j];
        }
      }
    }
  }

  /** The observed-partition table after subscribing `ws[j]` to
      "observed.<id of entries[j]>", in order. */
  function SubscribeAll(table: map<string, seq<object>>, entries: seq<(string, Json)>, ws: seq<Imputer>)
    : map<string, seq<object>>
    requires |entries| == |ws|
  {
    if entries == [] then table
    else
      var k := |entries| - 1;
      Messaging.Append(SubscribeAll(table, entries[..k], ws[..k]), Messaging.Topic("observed", entries[k].0), ws[k])
  }

  /** Recording the worker for one more entry extends the map by its id. */
  lemma WorkerMapStep(entries: seq<(string, Json)>, i: nat, ws: seq<Imputer>, w: Imputer)
    requires i < |entries| && |ws| == i
    ensures WorkerMap(entries[..i + 1], ws + [w]) == WorkerMap(entries[..i], ws)[entries[i].0 := w]
  {
    var e, v := entries[..i + 1], ws + [w];
    assert e[..i] == entries[..i] && v[..i] == ws;
    assert e[i] == entries[i] && v[i] == w;
    assert WorkerMap(e, v) == WorkerMap(e[..i], v[..i])[e[i].0 := v[i]];
  }

  /** Subscribing the worker for one more entry appends it under its
      topic. */
  lemma SubscribeAllStep(table: map<string, seq<object>>, entries: seq<(string, Json)>, i: nat,
                         ws: seq<Imputer>, w: Imputer)
    requires i < |entries| && |ws| == i
    ensures SubscribeAll(table, entries[..i + 1], ws + [w])
            == Messaging.Append(SubscribeAll(table, entries[..i], ws), Messaging.Topic("observed", entries[i].0), w)
  {
    var e, v := entries[..i + 1], ws + [w];
    assert e[..i] == entries[..i] && v[..i] == ws;
    assert e[i] == entries[i] && v[i] == w;
  }

  /** Each worker is registered under its own stream's topic. */
  lemma {:induction false} SubscribeAllRegisters(table: map<string, seq<object>>, entries: seq<(string, Json)>,
                                                 ws: seq<Imputer>, i: nat)
    requires |entries| == |ws| && i < |entries|
    ensures ws[i] in Messaging.Registered(SubscribeAll(table, entries, ws), Messaging.Topic("observed", entries[i].0))
  {
    var k := |entries| - 1;
    var before := SubscribeAll(table, entries[..k], ws[..k]);
    var t := Messaging.Topic("observed", entries[k].0);
    var after := Messaging.Append(before, t, ws[k]);
    assert SubscribeAll(table, entries, ws) == after;
    var u := Messaging.Topic("observed", entries[i].0);
    if i < k {
      SubscribeAllRegisters(table, entries[..k], ws[..k], i);
      assert entries[..k][i] == entries[i] && ws[..k][i] == ws[i];
      if u == t {
        assert Messaging.Registered(after, u) == Messaging.Registered(before, u) + [ws[k]];
      } else {
        assert Messaging.Registered(after, u) == Messaging.Registered(before, u);
      }
    } else {
      assert Messaging.Registered(after, t) == Messaging.Registered(before, t) + [ws[k]];
    }
  }

  /** The entries of a decoded dict: no id appears twice. */
  predicate DistinctIds(entries: seq<(string, Json)>) {
    forall i, j :: 0 <= i < j < |entries| ==> entries[i].0 != entries[j].0
  }

  /** app/imputation/ImputersManager.py `ImputerManager`, with both
      configuration files given as decoded values: the streams configuration
      as its entries in file order. */
  class ImputerManager {
    const eventStream: Messaging.EventStream
    const streamsConfig: seq<(string, Json)>
    const filtersConfig: map<string, Json>
    var workers: map<string, Imputer>

    constructor (eventStream: Messaging.EventStream, streamsConfig: seq<(string, Json)>, filtersConfig: map<string, Json>)
      requires DistinctIds(streamsConfig)
      ensures this.eventStream == eventStream && this.streamsConfig == streamsConfig
      ensures this.filtersConfig == filtersConfig && workers == map[]
    {
      this.eventStream := eventStream;
      this.streamsConfig := streamsConfig;
      this.filtersConfig := filtersConfig;
      workers := map[];
    }

    /** `_create_predictor(filter_template)` */
    method CreatePredictor(template: Json) returns (r: Result<Option<KalmanFilter>, PyError>)
      ensures r.Err? <==> PredictorFor(filtersConfig, template).Err?
      ensures r.Err? ==> r.error == PredictorFor(filtersConfig, template).error
      ensures r.Ok? ==> Builds(r.value, PredictorFor(filtersConfig, template).value)
      ensures r.Ok? && r.value.Some? ==> fresh(r.value.value)
    {
      var spec := PredictorFor(filtersConfig, template);
      if spec.Err? {
        return Err(spec.error);
      }
      if spec.value.None? {
        return Ok(None);
      }
      var a := spec.value.value;
      var k := new KalmanFilter(a[0], a[1], a[2], a[3], a[4], a[5], a[6]);
      r := Ok(Some(k));
    }

    /** The worker built for a configuration entry: its stream id, the
        manager's event stream, no prediction yet, and the predictor the
        entry's template describes. */
    ghost predicate WorkerFor(w: Imputer, streamId: string, args: Option<seq<real>>)
      reads w, if w.predictor.Some? then {w.predictor.value} else {}
    {
      WorkerShape(w, streamId, args) && w.currentPrediction.None? && Builds(w.predictor, args)
    }

    /** What about that worker never changes: its stream, its event stream,
        which predictor it has and that predictor's model constants. */
    ghost predicate WorkerShape(w: Imputer, streamId: string, args: Option<seq<real>>) {
      w.streamId == streamId && w.eventStream == Some(eventStream) && (w.predictor.Some? <==> args.Some?)
      && (args.Some? ==> |args.value| == 7 && w.predictor.value.dt == args.value[4]
                         && w.predictor.value.Q == Diag3(args.value[5]) && w.predictor.value.R == args.value[6])
    }

    /** WorkerShape of each worker in `ws` against the entry and the lookup at
        its index. */
    ghost predicate Shaped(ws: seq<Imputer>, entries: seq<(string, Json)>,
                           outs: seq<Result<Option<seq<real>>, PyError>>)
      requires |ws| == |entries| == |outs|
    {
      ws == [] ||
      (var k := |ws| - 1;
       Shaped(ws[..k], entries[..k], outs[..k]) && outs[k].Ok? && WorkerShape(ws[k], entries[k].0, outs[k].value))
    }

    /** Worker `j` has the shape its own entry and lookup give. */
    lemma {:induction false} ShapedAt(ws: seq<Imputer>, entries: seq<(string, Json)>,
                                      outs: seq<Result<Option<seq<real>>, PyError>>, j: nat)
      requires |ws| == |entries| == |outs| && j < |ws|
      requires Shaped(ws, entries, outs)
      ensures outs[j].Ok? && WorkerShape(ws[j], entries[j].0, outs[j].value)
    {
      var k := |ws| - 1;
      if j < k {
        ShapedAt(ws[..k], entries[..k], outs[..k], j);
        assert ws[..k][j] == ws[j] && entries[..k][j] == entries[j] && outs[..k][j] == outs[j];
      }
    }

    /** Adding one worker of the right shape keeps the prefix shaped. */
    lemma ShapedStep(ws: seq<Imputer>, w: Imputer, entries: seq<(string, Json)>,
                     outs: seq<Result<Option<seq<real>>, PyError>>, i: nat)
      requires |ws| == i < |entries| == |outs|
      requires Shaped(ws, entries[..i], outs[..i])
      requires outs[i].Ok? && WorkerShape(w, entries[i].0, outs[i].value)
      ensures Shaped(ws + [w], entries[..i + 1], outs[..i + 1])
    {
      var v, e, o := ws + [w], entries[..i + 1], outs[..i + 1];
      assert v[..i] == ws && e[..i] == entries[..i] && o[..i] == outs[..i];
      assert v[i] == w && e[i] == entries[i] && o[i] == outs[i];
    }

    /** One iteration of `_create_workers`: build the worker for an entry,
        record it and subscribe it to "observed.<id>". */
    method AddWorker(entry: (string, Json), ghost outcome: Result<Option<seq<real>>, PyError>)
      returns (r: Result<Imputer, PyError>)
      requires eventStream.Valid()
      requires outcome == WorkerPredictor(filtersConfig, entry.1)
      modifies this, eventStream.observed, eventStream.imputed, eventStream.matched
      ensures r.Err? <==> outcome.Err?
      ensures r.Err? ==> r.error == outcome.error
                         && workers == old(workers)
                         && eventStream.observed.subscribers == old(eventStream.observed.subscribers)
      ensures r.Ok? ==> fresh(r.value) && fresh(r.value.Predictor())
                        && WorkerFor(r.value, entry.0, outcome.value)
                        && workers == old(workers)[entry.0 := r.value]
                        && eventStream.observed.subscribers
                           == Messaging.Append(old(eventStream.observed.subscribers),
                                               Messaging.Topic("observed", entry.0), r.value)
      ensures eventStream.imputed.subscribers == old(eventStream.imputed.subscribers)
      ensures eventStream.matched.subscribers == old(eventStream.matched.subscribers)
    {
      var (streamId, cfg) := entry;
      if !cfg.JObj? {
        return Err(AttributeError("get"));
      }
      var predictor := CreatePredictor(GetOrNull(cfg.fields, "filter_template"));
      if predictor.Err? {
        return Err(predictor.error);
      }
      var worker := new Imputer(streamId, predictor.value, Some(eventStream));
      workers := workers[streamId := worker];
      var subscribed := eventStream.Subscribe(worker, "observed", streamId);
      r := Ok(worker);
    }

    /** One pass of the `_create_workers` loop, after the workers for the
        first `i` streams: the `i`-th stream's worker is added, or its lookup
        is the first that raises. */
    method WorkerStep(i: nat, ghost built: seq<Imputer>, ghost table: map<string, seq<object>>)
      returns (r: Result<Imputer, PyError>)
      requires eventStream.Valid() && i < |streamsConfig| && |built| == i
      requires i <= FirstErr(Outcomes(filtersConfig, streamsConfig))
      requires workers == WorkerMap(streamsConfig[..i], built)
      requires Shaped(built, streamsConfig[..i], Outcomes(filtersConfig, streamsConfig)[..i])
      requires eventStream.observed.subscribers == SubscribeAll(table, streamsConfig[..i], built)
      modifies this, eventStream.observed, eventStream.imputed, eventStream.matched
      ensures var outs := Outcomes(filtersConfig, streamsConfig);
              var n := FirstErr(outs);
              (r.Err? ==> i == n && outs[n] == Err(r.error)
                          && workers == old(workers)
                          && eventStream.observed.subscribers == old(eventStream.observed.subscribers))
              && (r.Ok? ==> i < n && fresh(r.value)
                            && Shaped(built + [r.value], streamsConfig[..i + 1], outs[..i + 1])
                            && workers == WorkerMap(streamsConfig[..i + 1], built + [r.value])
                            && eventStream.observed.subscribers
                               == SubscribeAll(table, streamsConfig[..i + 1], built + [r.value]))
      ensures eventStream.imputed.subscribers == old(eventStream.imputed.subscribers)
      ensures eventStream.matched.subscribers == old(eventStream.matched.subscribers)
    {
      ghost var outs := Outcomes(filtersConfig, streamsConfig);
      OutcomesAt(filtersConfig, streamsConfig, i);
      r := AddWorker(streamsConfig[i], outs[i]);
      if r.Ok? {
        ShapedStep(built, r.value, streamsConfig, outs, i);
        WorkerMapStep(streamsConfig, i, built, r.value);
        SubscribeAllStep(table, streamsConfig, i, built, r.value);
      }
    }

    /** `_create_workers()`: one imputer per configured stream, each
        subscribed to "observed.<id>"; an exception from a stream's predictor
        ends the loop, keeping the workers built before it. */
    method CreateWorkers() returns (r: Result<(), PyError>, ghost built: seq<Imputer>)
      requires eventStream.Valid()
      requires workers == map[]
      requires DistinctIds(streamsConfig)
      modifies this, eventStream.observed, eventStream.imputed, eventStream.matched
      ensures var outs := Outcomes(filtersConfig, streamsConfig);
              var n := FirstErr(outs);
              (r.Err? <==> n < |streamsConfig|)
              && (r.Err? ==> outs[n] == Err(r.error))
              && |built| == n && workers == WorkerMap(streamsConfig[..n], built)
              && (forall w :: w in built ==> fresh(w))
              && Shaped(built, streamsConfig[..n], outs[..n])
              && eventStream.observed.subscribers
                 == SubscribeAll(old(eventStream.observed.subscribers), streamsConfig[..n], built)
      ensures eventStream.imputed.subscribers == old(eventStream.imputed.subscribers)
      ensures eventStream.matched.subscribers == old(eventStream.matched.subscribers)
    {
      ghost var outs := Outcomes(filtersConfig, streamsConfig);
      ghost var n := FirstErr(outs);
      built := [];
      ghost var made: set<Imputer> := {};
      r := Ok(());
      var i := 0;
      while i < |streamsConfig|
        invariant 0 <= i <= n && |built| == i && r.Ok?
        invariant workers == WorkerMap(streamsConfig[..i], built)
        invariant fresh(made) && forall j :: 0 <= j < i ==> built[j] in made
        invariant Shaped(built, streamsConfig[..i], outs[..i])
        invariant eventStream.observed.subscribers
                  == SubscribeAll(old(eventStream.observed.subscribers), streamsConfig[..i], built)
        invariant eventStream.imputed.subscribers == old(eventStream.imputed.subscribers)
        invariant eventStream.matched.subscribers == old(eventStream.matched.subscribers)
      {
        var added := WorkerStep(i, built, old(eventStream.observed.subscribers));
        if added.Err? {
          r := Err(added.error);
          break;
        }
        built := built + [added.value];
        made := made + {added.value};
        i := i + 1;
      }
    }
  }

  /** `ImputerManager(event_stream, …)`: the constructor, whose last step is
      `_create_workers`. When a stream's predictor raises, the exception
      escapes `__init__`, so no manager results; the half-built manager
      (`made`) and the subscriptions made before the failure remain. */
  method CreateManager(eventStream: Messaging.EventStream, streamsConfig: seq<(string, Json)>,
                       filtersConfig: map<string, Json>)
    returns (r: Result<ImputerManager, PyError>, ghost made: ImputerManager, ghost built: seq<Imputer>)
    requires eventStream.Valid()
    requires DistinctIds(streamsConfig)
    modifies eventStream.observed, eventStream.imputed, eventStream.matched
    ensures fresh(made) && made.eventStream == eventStream
            && made.streamsConfig == streamsConfig && made.filtersConfig == filtersConfig
    ensures var outs := Outcomes(filtersConfig, streamsConfig);
            var n := FirstErr(outs);
            (r.Err? <==> n < |streamsConfig|)
            && (r.Err? ==> outs[n] == Err(r.error))
            && (r.Ok? ==> r.value == made)
            && |built| == n && made.workers == WorkerMap(streamsConfig[..n], built)
            && (forall w :: w in built ==> fresh(w))
            && made.Shaped(built, streamsConfig[..n], outs[..n])
            && eventStream.observed.subscribers
               == SubscribeAll(old(eventStream.observed.subscribers), streamsConfig[..n], built)
    ensures eventStream.imputed.subscribers == old(eventStream.imputed.subscribers)
    ensures eventStream.matched.subscribers == old(eventStream.matched.subscribers)
  {
    var m := new ImputerManager(eventStream, streamsConfig, filtersConfig);
    made := m;
    var created;
    created, built := m.CreateWorkers();
    if created.Err? {
      r := Err(created.error);
    } else {
      r := Ok(m);
    }
  }
}
