/** processor/stream_manager.py: the stream manager that filters sensor
    readings arriving over ZeroMQ and republishes them. Modelled here are the
    tables built from the configuration and `_process_event`. The sockets,
    the poller and the run loop are not: an event arrives as the decoded
    payload, and publishing appends a frame to the publisher. The filters
    come from `load_filters_from_config` (SensorConfigLoader.LoadFilters). */
module Processor {
  import opened Values
  import opened Kalman
  import opened Filters
  import opened SensorConfigLoader
  import opened ZmqFraming
  import FilterFactory
  import Confidence

  /** The ids of the configured sensors, the keys of `sensor_to_endpoint`. */
  function Ids(sensors: seq<Record>): set<string>
    requires forall i :: 0 <= i < |sensors| ==> Validated(sensors[i])
  {
    set i | 0 <= i < |sensors| :: SensorId(sensors[i])
  }

  /** The metadata kept for one sensor: its units, stream type and sampling
      interval, each defaulted when the sensor does not give it. */
  function SensorMetadata(sensor: Record): (m: Record)
    ensures m.Keys == {"units", "stream_type", "sampling_interval_sec"}
    ensures m["units"] == (if "units" in sensor then sensor["units"] else JStr("unknown"))
    ensures m["stream_type"] == (if "stream_type" in sensor then sensor["stream_type"] else JStr("unspecified"))
    ensures m["sampling_interval_sec"]
            == (if "sampling_interval_sec" in sensor then sensor["sampling_interval_sec"] else JNum(1.0))
  {
    map["units" := GetOr(sensor, "units", JStr("unknown")),
        "stream_type" := GetOr(sensor, "stream_type", JStr("unspecified")),
        "sampling_interval_sec" := GetOr(sensor, "sampling_interval_sec", JNum(1.0))]
  }

  /** `sensor_metadata`: the dict comprehension, a later sensor with the
      same id overwriting an earlier one. */
  function MetadataTable(sensors: seq<Record>): (t: map<string, Record>)
    requires forall i :: 0 <= i < |sensors| ==> Validated(sensors[i])
    ensures t.Keys == Ids(sensors)
  {
    if |sensors| == 0 then map[]
    else
      var init := sensors[..|sensors| - 1];
      var last := sensors[|sensors| - 1];
      assert Ids(sensors) == Ids(init) + {SensorId(last)} by {
        assert forall i :: 0 <= i < |init| ==> init[i] == sensors[i];
      }
      MetadataTable(init)[SensorId(last) := SensorMetadata(last)]
  }

  /** Each sensor's entry comes from the last sensor with its id. */
  lemma {:induction false} MetadataFromLast(sensors: seq<Record>, i: nat)
    requires forall j :: 0 <= j < |sensors| ==> Validated(sensors[j])
    requires i < |sensors|
    requires forall j :: i < j < |sensors| ==> SensorId(sensors[j]) != SensorId(sensors[i])
    ensures SensorId(sensors[i]) in MetadataTable(sensors)
    ensures MetadataTable(sensors)[SensorId(sensors[i])] == SensorMetadata(sensors[i])
  {
    if i < |sensors| - 1 {
      var init := sensors[..|sensors| - 1];
      assert init[i] == sensors[i];
      MetadataFromLast(init, i);
    }
  }

  /** `sensor_to_endpoint`: each sensor's "source_endpoint" under its id, a
      later sensor with the same id overwriting an earlier one. */
  function EndpointTable(sensors: seq<Record>): (t: map<string, Json>)
    requires forall i :: 0 <= i < |sensors| ==> Validated(sensors[i]) && "source_endpoint" in sensors[i]
    ensures t.Keys == Ids(sensors)
  {
    if |sensors| == 0 then map[]
    else
      var init := sensors[..|sensors| - 1];
      var last := sensors[|sensors| - 1];
      assert Ids(sensors) == Ids(init) + {SensorId(last)} by {
        assert forall i :: 0 <= i < |init| ==> init[i] == sensors[i];
      }
      EndpointTable(init)[SensorId(last) := last["source_endpoint"]]
  }

  /** Each sensor's endpoint comes from the last sensor with its id. */
  lemma {:induction false} EndpointFromLast(sensors: seq<Record>, i: nat)
    requires forall j :: 0 <= j < |sensors| ==> Validated(sensors[j]) && "source_endpoint" in sensors[j]
    requires i < |sensors|
    requires forall j :: i < j < |sensors| ==> SensorId(sensors[j]) != SensorId(sensors[i])
    ensures SensorId(sensors[i]) in EndpointTable(sensors)
    ensures EndpointTable(sensors)[SensorId(sensors[i])] == sensors[i]["source_endpoint"]
  {
    if i < |sensors| - 1 {
      var init := sensors[..|sensors| - 1];
      assert init[i] == sensors[i];
      EndpointFromLast(init, i);
    }
  }

  /** The `sensor_to_endpoint` comprehension: a sensor without
      "source_endpoint" raises KeyError; otherwise the table has one entry
      per configured id. */
  function Endpoints(sensors: seq<Record>): (r: Result<map<string, Json>, PyError>)
    requires forall i :: 0 <= i < |sensors| ==> Validated(sensors[i])
    ensures r.Err? <==> exists i :: 0 <= i < |sensors| && "source_endpoint" !in sensors[i]
    ensures r.Err? ==> r.error == KeyError("source_endpoint")
    ensures r.Ok? ==> r.value.Keys == Ids(sensors)
  {
    if exists i :: 0 <= i < |sensors| && "source_endpoint" !in sensors[i] then Err(KeyError("source_endpoint"))
    else Ok(EndpointTable(sensors))
  }

  /** `StreamManager(config_path)` once the configuration is validated:
      `load_filters_from_config` runs first and may raise, then building
      `sensor_to_endpoint` raises KeyError for a sensor without
      "source_endpoint"; otherwise the manager holds the loaded filters and
      the tables, and nothing has been published. */
  method Create(sensors: seq<Record>, encode: Record -> string) returns (r: Result<StreamManager, PyError>)
    requires forall i :: 0 <= i < |sensors| ==> Validated(sensors[i])
    ensures Load(sensors).Err? ==> r == Err(Load(sensors).error)
    ensures Load(sensors).Ok? && Endpoints(sensors).Err? ==> r == Err(KeyError("source_endpoint"))
    ensures Load(sensors).Ok? && Endpoints(sensors).Ok? ==>
              r.Ok? && fresh(r.value) && fresh(r.value.publisher) && r.value.Valid()
              && r.value.sensorToEndpoint == Endpoints(sensors).value
              && r.value.sensorMetadata == MetadataTable(sensors) && r.value.lastSeen == LastSeenInit(sensors)
              && r.value.filters.Keys == Load(sensors).value.Keys
              && (forall id :: id in r.value.filters ==>
                    fresh(Obj(r.value.filters[id])) && FilterFactory.Describes(r.value.filters[id], Load(sensors).value[id]))
              && r.value.publisher.frames == [] && r.value.publisher.encode == encode
  {
    var filters := LoadFilters(sensors);
    if filters.Err? {
      return Err(filters.error);
    }
    var endpoints := Endpoints(sensors);
    if endpoints.Err? {
      return Err(endpoints.error);
    }
    var m := new StreamManager(sensors, endpoints.value, filters.value, encode);
    r := Ok(m);
  }

  /** `last_seen` at start-up: 0 for every configured sensor. */
  function LastSeenInit(sensors: seq<Record>): (t: map<Json, Json>)
    requires forall i :: 0 <= i < |sensors| ==> Validated(sensors[i])
    ensures forall id :: JStr(id) in t <==> id in Ids(sensors)
    ensures forall k :: k in t ==> k.JStr? && t[k] == JNum(0.0)
  {
    map id | id in Ids(sensors) :: JStr(id) := JNum(0.0)
  }

  /** The three fields `_process_event` reads before anything else, in
      order, each missing one raising KeyError; a payload that is not an
      object cannot be indexed by a string. */
  function Fields(event: Json): (r: Result<(Json, Json, Json), PyError>)
    ensures !event.JObj? ==> r == Err(NotSubscriptable)
    ensures event.JObj? ==>
              r == if "sensor_id" !in event.fields then Err(KeyError("sensor_id"))
                   else if "value" !in event.fields then Err(KeyError("value"))
                   else if "timestamp" !in event.fields then Err(KeyError("timestamp"))
                   else Ok((event.fields["sensor_id"], event.fields["value"], event.fields["timestamp"]))
  {
    if !event.JObj? then Err(NotSubscriptable)
    else
      match Index(event.fields, "sensor_id")
      case Err(e) => Err(e)
      case Ok(id) =>
        match Index(event.fields, "value")
        case Err(e) => Err(e)
        case Ok(v) =>
          match Index(event.fields, "timestamp")
          case Err(e) => Err(e)
          case Ok(t) => Ok((id, v, t))
  }

  const NotSubscriptable: PyError := TypeError("object is not subscriptable")

  /** The published event. */
  function FilteredEvent(sensorId: string, timestamp: Json, value: real, confidence: real,
                         meta: Record, filterSource: string): Record
  {
    map["streamId" := JStr(sensorId),
        "timestamp" := timestamp,
        "filteredMeasurement" := JNum(value),
        "quality" := JObj(map["imputed" := JBool(false), "confidence" := JNum(confidence)]),
        "streamInfo" := JObj(map["streamType" := GetOr(meta, "stream_type", JStr("unspecified")),
                                 "unit" := GetOr(meta, "units", JStr("unspecified")),
                                 "filterSource" := JStr(filterSource)])]
  }

  /** A published event is never marked as imputed, names the filter kind
      and carries a confidence between 0 and 1 derived from the value
      variance. */
  lemma FilteredEventShape(sensorId: string, timestamp: Json, f: AnyFilter, value: real, variance: real, meta: Record)
    ensures var e := FilteredEvent(sensorId, timestamp, value, Confidence.ConfidenceOf(variance), meta, TypeOf(f));
            e["streamId"] == JStr(sensorId) && e["quality"].fields["imputed"] == JBool(false)
            && 0.0 <= e["quality"].fields["confidence"].n <= 1.0
            && (e["streamInfo"].fields["filterSource"] == JStr("2D") <==> f.Cv?)
            && (e["streamInfo"].fields["filterSource"] == JStr("3D") <==> f.Ca?)
  {
  }

  class StreamManager {
    const sensorToEndpoint: map<string, Json>
    const sensorMetadata: map<string, Record>
    const filters: map<string, AnyFilter>
    var lastSeen: map<Json, Json>
    const publisher: Publisher

    ghost function FilterObjects(): set<object> {
      set id | id in filters :: Obj(filters[id])
    }

    /** Every filter keeps its fixed matrices and a symmetric covariance. */
    ghost predicate Valid()
      reads FilterObjects()
    {
      AllValid(filters)
    }

    /** The rest of `__init__`, once the filters are loaded and
        `sensor_to_endpoint` is built (Create). */
    constructor (sensors: seq<Record>, endpoints: map<string, Json>, filters: map<string, AnyFilter>,
                 encode: Record -> string)
      requires forall i :: 0 <= i < |sensors| ==> Validated(sensors[i])
      requires AllValid(filters) && forall id :: id in filters ==> allocated(Obj(filters[id]))
      ensures sensorToEndpoint == endpoints
      ensures sensorMetadata == MetadataTable(sensors) && lastSeen == LastSeenInit(sensors)
      ensures this.filters == filters && fresh(publisher) && publisher.frames == [] && publisher.encode == encode
      ensures Valid()
    {
      publisher := new Publisher(encode);
      sensorToEndpoint := endpoints;
      sensorMetadata := MetadataTable(sensors);
      this.filters := filters;
      lastSeen := LastSeenInit(sensors);
    }

    /** `_process_event(event)`. `last_seen` is updated as soon as the three
        fields are read, even for a sensor that has no filter or is not
        configured at all. A sensor without a filter publishes nothing;
        otherwise the rest is FilterAndPublish. */
    method ProcessEvent(event: Json) returns (r: Result<Option<Record>, PyError>)
      requires Valid()
      modifies this, publisher, FilterObjects()
      ensures Valid()
      ensures Fields(event).Err? ==>
                r == Err(Fields(event).error) && lastSeen == old(lastSeen) && publisher.frames == old(publisher.frames)
      ensures Fields(event).Ok? ==>
                var (id, value, timestamp) := Fields(event).value;
                if !Hashable(id) then
                  r == Err(TypeError("unhashable type")) && lastSeen == old(lastSeen)
                  && publisher.frames == old(publisher.frames)
                else
                  lastSeen == old(lastSeen)[id := timestamp]
                  && (!(id.JStr? && id.s in filters) ==> r == Ok(None) && publisher.frames == old(publisher.frames))
                  && (id.JStr? && id.s in filters ==>
                        var f := filters[id.s];
                        (r.Err? <==> AsNumber(value).None? || old(PredictedVariance(f)) + NoiseOf(f) == 0.0)
                        && (r.Ok? ==> r.value.Some?
                                      && ValueOf(f) == CorrectedValue(old(PredictedValue(f)), old(PredictedVariance(f)),
                                                                      NoiseOf(f), AsNumber(value).value)
                                      && r.value.value == FilteredEvent(id.s, timestamp, ValueOf(f),
                                                                        Confidence.ConfidenceOf(ValueVariance(f)),
                                                                        GetOr(sensorMetadata, id.s, map[]), TypeOf(f))
                                      && publisher.frames == old(publisher.frames) + [Frame(id.s, publisher.encode(r.value.value))])
                        && (r.Err? ==> publisher.frames == old(publisher.frames)))
    ensures Fields(event).Ok? && Fields(event).value.0.JStr? && Fields(event).value.0.s in filters ==>
              var (id, value, _) := Fields(event).value;
              var f := filters[id.s];
              (AsNumber(value).None? ==> r == Err(Filters.NotANumber))
              && (AsNumber(value).Some? && old(PredictedVariance(f)) + NoiseOf(f) == 0.0 ==> r == Err(ZeroDivisionError))
              && (r.Err? ==> ValueOf(f) == old(PredictedValue(f)) && ValueVariance(f) == old(PredictedVariance(f)))
              && (r.Ok? ==> ValueVariance(f) == CorrectedVariance(old(PredictedVariance(f)), NoiseOf(f)))
              && unchanged(FilterObjects() - {Obj(f)})
    ensures !(Fields(event).Ok? && Fields(event).value.0.JStr? && Fields(event).value.0.s in filters) ==>
              unchanged(FilterObjects())
    {
      assert this !in FilterObjects() && this != publisher as object;
      var fields := Fields(event);
      if fields.Err? {
        return Err(fields.error);
      }
      var (sensorId, value, timestamp) := fields.value;
      if !Hashable(sensorId) {
        return Err(TypeError("unhashable type"));
      }
      lastSeen := lastSeen[sensorId := timestamp];
      if !(sensorId.JStr? && sensorId.s in filters) {
        return Ok(None);
      }
      var published := FilterAndPublish(sensorId.s, value, timestamp);
      if published.Err? {
        return Err(published.error);
      }
      r := Ok(Some(published.value));
    }

    /** The second half of `_process_event`: the sensor's filter predicts,
        then updates with the value, and the event built from the updated
        filter is published under the sensor id. The schema check of the
        outgoing event is not modelled. */
    method FilterAndPublish(sensorId: string, value: Json, timestamp: Json) returns (r: Result<Record, PyError>)
      requires Valid() && sensorId in filters
      modifies publisher, Obj(filters[sensorId])
      ensures Valid()
      ensures var f := filters[sensorId];
              (r.Err? <==> AsNumber(value).None? || old(PredictedVariance(f)) + NoiseOf(f) == 0.0)
              && (r.Ok? ==> ValueOf(f) == CorrectedValue(old(PredictedValue(f)), old(PredictedVariance(f)),
                                                         NoiseOf(f), AsNumber(value).value)
                            && r.value == FilteredEvent(sensorId, timestamp, ValueOf(f),
                                                        Confidence.ConfidenceOf(ValueVariance(f)),
                                                        GetOr(sensorMetadata, sensorId, map[]), TypeOf(f))
                            && publisher.frames == old(publisher.frames) + [Frame(sensorId, publisher.encode(r.value))])
              && (r.Err? ==> publisher.frames == old(publisher.frames))
    ensures var f := filters[sensorId];
            (AsNumber(value).None? ==> r == Err(Filters.NotANumber))
            && (AsNumber(value).Some? && old(PredictedVariance(f)) + NoiseOf(f) == 0.0 ==> r == Err(ZeroDivisionError))
            && (r.Err? ==> ValueOf(f) == old(PredictedValue(f)) && ValueVariance(f) == old(PredictedVariance(f)))
            && (r.Ok? ==> ValueVariance(f) == CorrectedVariance(old(PredictedVariance(f)), NoiseOf(f)))
    {
      assert this !in FilterObjects() && this != publisher as object && publisher !in FilterObjects();
      var meta := GetOr(sensorMetadata, sensorId, map[]);
      var kf := filters[sensorId];
      var step := PredictThenUpdate(filters, sensorId, value);
      if step.Err? {
        return Err(step.error);
      }
      var confidence := Confidence.ComputeConfidence(CovarianceOf(kf));
      r := Ok(FilteredEvent(sensorId, timestamp, ValueOf(kf), confidence.value, meta, TypeOf(kf)));
      publisher.Publish(sensorId, r.value);
    }
  }
}
