/** datastream/StreamManager.py: the stream manager that keeps stream
    metadata, filter templates and one filter per stream, and turns data
    messages into filtered events on "CEP." topics. The thread lifecycle and
    the command and configuration handlers (which only log) are not
    modelled. Templates are instantiated with the "2D"/"3D" factory
    (FilterFactory), the only `instantiate_filter` among the sources. */
module DatastreamManager {
  import opened Values
  import opened Strings
  import opened Kalman
  import opened Filters
  import opened FilterFactory
  import TopicClient
  import Confidence

  const NotSubscriptable: PyError := TypeError("object is not subscriptable")

  /** `instantiate_filter(template)` for a template out of a decoded
      document: anything but an object cannot be indexed by "type". */
  function TemplateSpec(template: Json): (r: Result<FilterSpec, PyError>)
    ensures r.Ok? ==> template.JObj? && r == Instantiate(template.fields)
    ensures r.Ok? ==> WellFormed(r.value)
    ensures template.JObj? && Instantiate(template.fields).Err? ==> r == Instantiate(template.fields)
  {
    if template.JObj? then Instantiate(template.fields) else Err(NotSubscriptable)
  }

  /** What `_initialize_filters` does for one stream: the spec of the filter
      it gets (None when it gets none) or the exception raised. A stream
      gets a filter exactly when it names a template that is loaded, and an
      unloaded or absent template is no error. */
  function InitialSpec(templates: map<string, Json>, meta: Json): (r: Result<Option<FilterSpec>, PyError>)
    ensures !meta.JObj? ==> r == Err(AttributeError("get"))
    ensures meta.JObj? ==>
              var tid := GetOrNull(meta.fields, "filter_template");
              (!Truthy(tid) ==> r == Ok(None))
              && (Truthy(tid) && !Hashable(tid) ==> r.Err? && r.error.TypeError?)
              && (Truthy(tid) && Hashable(tid) && !(tid.JStr? && tid.s in templates) ==> r == Ok(None))
              && (Truthy(tid) && tid.JStr? && tid.s in templates ==>
                    (r.Ok? <==> TemplateSpec(templates[tid.s]).Ok?)
                    && (r.Ok? ==> r.value == Some(TemplateSpec(templates[tid.s]).value)))
    ensures r.Ok? && r.value.Some? ==> WellFormed(r.value.value)
  {
    if !meta.JObj? then Err(AttributeError("get"))
    else
      var tid := GetOrNull(meta.fields, "filter_template");
      if !Truthy(tid) then Ok(None)
      else
        match DictGet(templates, tid)
        case Err(e) => Err(e)
        case Ok(None) => Ok(None)
        case Ok(Some(template)) =>
          match TemplateSpec(template)
          case Err(e) => Err(e)
          case Ok(spec) => Ok(Some(spec))
  }

  /** The published event. */
  function DataEvent(streamId: string, timestamp: Json, value: real, confidence: real,
                     meta: Record, filterSource: string): Record
  {
    map["origin" := JStr("StreamManager"),
        "streamId" := JStr(streamId),
        "timestamp" := timestamp,
        "filteredMeasurement" := JNum(value),
        "quality" := JObj(map["imputed" := JBool(false), "confidence" := JNum(confidence)]),
        "streamInfo" := JObj(map["streamType" := GetOr(meta, "stream_type", JStr("unknown")),
                                 "unit" := GetOr(meta, "units", JStr("unknown")),
                                 "filterSource" := JStr(filterSource)])]
  }

  /** A published event comes from this manager, is never marked as
      imputed, names the filter kind and carries a confidence between 0 and
      1; missing metadata reads as "unknown". */
  lemma DataEventShape(streamId: string, timestamp: Json, f: AnyFilter, value: real, variance: real, meta: Record)
    ensures var e := DataEvent(streamId, timestamp, value, Confidence.ConfidenceOf(variance), meta, TypeOf(f));
            e["origin"] == JStr("StreamManager") && e["streamId"] == JStr(streamId)
            && e["quality"].fields["imputed"] == JBool(false)
            && 0.0 <= e["quality"].fields["confidence"].n <= 1.0
            && (e["streamInfo"].fields["filterSource"] == JStr("2D") <==> f.Cv?)
            && ("stream_type" !in meta ==> e["streamInfo"].fields["streamType"] == JStr("unknown"))
            && ("units" !in meta ==> e["streamInfo"].fields["unit"] == JStr("unknown"))
  {
  }

  /** Every filter in `filters` was built from the loaded spec its stream has in `specs`. */
  ghost predicate BuiltFrom(filters: map<string, AnyFilter>, specs: map<string, Result<Option<FilterSpec>, PyError>>)
    reads set id | id in filters :: Obj(filters[id])
  {
    forall id :: id in filters ==>
      id in specs && specs[id].Ok? && specs[id].value.Some? && Describes(filters[id], specs[id].value.value)
  }

  lemma BuiltFromExtend(filters: map<string, AnyFilter>, specs: map<string, Result<Option<FilterSpec>, PyError>>,
                        id: string, f: AnyFilter)
    requires BuiltFrom(filters, specs)
    requires id in specs && specs[id].Ok? && specs[id].value.Some? && Describes(f, specs[id].value.value)
    ensures BuiltFrom(filters[id := f], specs)
  {
  }

  /** The filter spec of every stream in `metadata`, as `_initialize_filters` computes it. */
  ghost function InitialSpecs(templates: map<string, Json>, metadata: map<string, Json>): (specs: map<string, Result<Option<FilterSpec>, PyError>>)
    ensures specs.Keys == metadata.Keys
    ensures forall id :: id in metadata ==> specs[id] == InitialSpec(templates, metadata[id])
  {
    map id | id in metadata :: InitialSpec(templates, metadata[id])
  }

  /** How `_initialize_filters` ends, given each stream's spec and the
      streams `ids` it built filters for: it fails exactly when some
      stream's spec raises, and then with that stream's error; when it
      succeeds, every stream with a loaded template has a filter. */
  ghost predicate InitialOutcome(r: Result<(), PyError>, ids: set<string>,
                                 specs: map<string, Result<Option<FilterSpec>, PyError>>)
  {
    (r.Ok? <==> forall id :: id in specs ==> specs[id].Ok?)
    && (r.Err? ==> exists id :: id in specs && specs[id] == Err(r.error))
    && (r.Ok? ==> forall id :: (id in specs && specs[id].Ok? && specs[id].value.Some?) ==> id in ids)
  }

  lemma BuiltFromValid(filters: map<string, AnyFilter>, specs: map<string, Result<Option<FilterSpec>, PyError>>)
    requires BuiltFrom(filters, specs)
    ensures AllValid(filters)
  {
  }

  /** The loop of `_initialize_filters`: it visits the streams in some order,
      builds a filter for each one whose template is loaded and stops at the
      first stream whose spec raises. */
  method BuildFilters(templates: map<string, Json>, metadata: map<string, Json>)
    returns (r: Result<(), PyError>, filters: map<string, AnyFilter>)
    ensures InitialOutcome(r, filters.Keys, InitialSpecs(templates, metadata))
    ensures BuiltFrom(filters, InitialSpecs(templates, metadata))
    ensures forall id :: id in filters ==> fresh(Obj(filters[id]))
  {
    ghost var specOf := InitialSpecs(templates, metadata);
    filters := map[];
    var pending := metadata.Keys;
    while pending != {}
      invariant pending <= metadata.Keys
      invariant forall id :: id in metadata && id !in pending ==> specOf[id].Ok?
      invariant forall id :: id in filters ==> id !in pending && fresh(Obj(filters[id]))
      invariant BuiltFrom(filters, specOf)
      invariant forall id :: (id in metadata && id !in pending && specOf[id].Ok? && specOf[id].value.Some?)
                             ==> id in filters
      decreases pending
    {
      var id :| id in pending;
      var spec := InitialSpec(templates, metadata[id]);
      if spec.Err? {
        r := Err(spec.error);
        return;
      }
      if spec.value.Some? {
        var f := Build(spec.value.value);
        BuiltFromExtend(filters, specOf, id, f);
        filters := filters[id := f];
      }
      pending := pending - {id};
    }
    r := Ok(());
  }

  /** `StreamManager(...)` with the two files already loaded: when
      `_initialize_filters` raises, so does `__init__`, and no manager
      exists; otherwise the new manager holds the filters it built. */
  method Create(templates: map<string, Json>, metadata: map<string, Json>) returns (r: Result<StreamManager, PyError>)
    ensures r.Err? <==> exists id :: id in metadata && InitialSpec(templates, metadata[id]).Err?
    ensures r.Err? ==> exists id :: id in metadata && InitialSpec(templates, metadata[id]) == Err(r.error)
    ensures r.Ok? ==> var m := r.value;
              fresh(m) && fresh(m.client) && m.client.name == "StreamManager" && m.client.sent == []
              && m.client.subscriptions == {"data.", "command.", "config."}
              && m.filterTemplates == templates && m.streamMetadata == metadata && m.Valid()
    ensures r.Ok? ==> InitialOutcome(Ok(()), r.value.streamFilters.Keys, InitialSpecs(templates, metadata))
                      && BuiltFrom(r.value.streamFilters, InitialSpecs(templates, metadata))
                      && forall id :: id in r.value.streamFilters ==> fresh(Obj(r.value.streamFilters[id]))
  {
    var c := NewClient();
    var init, filters := BuildFilters(templates, metadata);
    if init.Err? {
      return Err(init.error);
    }
    ghost var specs := InitialSpecs(templates, metadata);
    var m := new StreamManager(c, templates, metadata, filters, specs);
    r := Ok(m);
  }

  /** The client `__init__` starts with: named "StreamManager" and
      subscribed to the three topic prefixes, with nothing sent yet. */
  method NewClient() returns (c: TopicClient.StreamClient)
    ensures fresh(c) && c.name == "StreamManager" && c.sent == []
    ensures c.subscriptions == {"data.", "command.", "config."}
  {
    c := new TopicClient.StreamClient("StreamManager");
    c.SubscribeTo("data.");
    c.SubscribeTo("command.");
    c.SubscribeTo("config.");
  }

  class StreamManager {
    const client: TopicClient.StreamClient
    var filterTemplates: map<string, Json>
    var streamMetadata: map<string, Json>
    var streamFilters: map<string, AnyFilter>

    ghost function FilterObjects(): set<object>
      reads this
    {
      set id | id in streamFilters :: Obj(streamFilters[id])
    }

    /** Every filter keeps its fixed matrices and a symmetric covariance. */
    ghost predicate Valid()
      reads this, FilterObjects()
    {
      AllValid(streamFilters)
    }

    /** The fields `__init__` sets, once the client is set up and
        `_initialize_filters` has built `filters` from `specs`. */
    constructor (c: TopicClient.StreamClient, templates: map<string, Json>, metadata: map<string, Json>,
                 filters: map<string, AnyFilter>, ghost specs: map<string, Result<Option<FilterSpec>, PyError>>)
      requires BuiltFrom(filters, specs)
      ensures client == c && filterTemplates == templates && streamMetadata == metadata && streamFilters == filters
      ensures BuiltFrom(streamFilters, specs) && Valid()
    {
      BuiltFromValid(filters, specs);
      client := c;
      filterTemplates := templates;
      streamMetadata := metadata;
      streamFilters := filters;
    }

    /** Builds the filter a spec describes and makes it the stream's filter. */
    method Install(streamId: string, spec: FilterSpec)
      requires Valid() && WellFormed(spec)
      modifies this
      ensures Valid()
      ensures streamId in streamFilters && streamFilters == old(streamFilters)[streamId := streamFilters[streamId]]
      ensures fresh(Obj(streamFilters[streamId])) && Describes(streamFilters[streamId], spec)
      ensures filterTemplates == old(filterTemplates) && streamMetadata == old(streamMetadata)
    {
      var f := Build(spec);
      streamFilters := streamFilters[streamId := f];
    }

    /** `register_filter_template(template_id, params)`: inserts or
        overwrites. */
    method RegisterFilterTemplate(templateId: string, params: Json)
      modifies this
      ensures filterTemplates == old(filterTemplates)[templateId := params]
      ensures streamMetadata == old(streamMetadata) && streamFilters == old(streamFilters)
    {
      filterTemplates := filterTemplates[templateId := params];
    }

    /** `register_filter_for_stream(stream_id, template_id)`: an unknown
        template changes nothing; a known one installs a fresh filter built
        from it, replacing any previous one. Ok(true) when a filter was
        installed. */
    method RegisterFilterForStream(streamId: string, templateId: Json) returns (r: Result<bool, PyError>)
      requires Valid()
      modifies this
      ensures Valid()
      ensures filterTemplates == old(filterTemplates) && streamMetadata == old(streamMetadata)
      ensures !Hashable(templateId) ==> r.Err? && r.error.TypeError?
      ensures Hashable(templateId) && !(templateId.JStr? && templateId.s in filterTemplates) ==> r == Ok(false)
      ensures templateId.JStr? && templateId.s in filterTemplates ==>
                (r.Err? <==> TemplateSpec(filterTemplates[templateId.s]).Err?)
                && (r.Err? ==> r.error == TemplateSpec(filterTemplates[templateId.s]).error)
      ensures r == Ok(true) ==>
                templateId.JStr? && templateId.s in filterTemplates && TemplateSpec(filterTemplates[templateId.s]).Ok?
                && streamId in streamFilters && streamFilters == old(streamFilters)[streamId := streamFilters[streamId]]
                && fresh(Obj(streamFilters[streamId]))
                && Describes(streamFilters[streamId], TemplateSpec(filterTemplates[templateId.s]).value)
      ensures r != Ok(true) ==> streamFilters == old(streamFilters)
    {
      var known := DictGet(filterTemplates, templateId);
      if known.Err? {
        return Err(known.error);
      }
      if known.value.None? {
        return Ok(false);
      }
      var spec := TemplateSpec(known.value.value);
      if spec.Err? {
        return Err(spec.error);
      }
      Install(streamId, spec.value);
      r := Ok(true);
    }

    /** `deregister_filter_for_stream(stream_id)`: removes a present filter;
        otherwise only warns. */
    method DeregisterFilterForStream(streamId: string) returns (removed: bool)
      requires Valid()
      modifies this
      ensures Valid()
      ensures removed <==> streamId in old(streamFilters)
      ensures streamFilters == old(streamFilters) - {streamId}
      ensures filterTemplates == old(filterTemplates) && streamMetadata == old(streamMetadata)
    {
      removed := streamId in streamFilters;
      if removed {
        streamFilters := streamFilters - {streamId};
      }
    }

    /** `register_stream(stream_id, metadata)`: stores the metadata, then
        assigns a filter only if the "filter_template" key is present. */
    method RegisterStream(streamId: string, metadata: Record) returns (r: Result<bool, PyError>)
      requires Valid()
      modifies this
      ensures Valid()
      ensures streamMetadata == old(streamMetadata)[streamId := JObj(metadata)]
      ensures filterTemplates == old(filterTemplates)
      ensures "filter_template" !in metadata ==> r == Ok(false) && streamFilters == old(streamFilters)
      ensures r == Ok(true) ==>
                "filter_template" in metadata && metadata["filter_template"].JStr?
                && metadata["filter_template"].s in filterTemplates
                && TemplateSpec(filterTemplates[metadata["filter_template"].s]).Ok?
                && streamId in streamFilters
                && streamFilters == old(streamFilters)[streamId := streamFilters[streamId]]
                && fresh(Obj(streamFilters[streamId]))
                && Describes(streamFilters[streamId], TemplateSpec(filterTemplates[metadata["filter_template"].s]).value)
      ensures r != Ok(true) ==> streamFilters == old(streamFilters)
    {
      streamMetadata := streamMetadata[streamId := JObj(metadata)];
      if "filter_template" in metadata {
        r := RegisterFilterForStream(streamId, metadata["filter_template"]);
      } else {
        r := Ok(false);
      }
    }

    /** `deregister_stream(stream_id)`: removes the metadata and the filter;
        an absent id changes nothing. */
    method DeregisterStream(streamId: string)
      requires Valid()
      modifies this
      ensures Valid()
      ensures streamMetadata == old(streamMetadata) - {streamId}
      ensures streamFilters == old(streamFilters) - {streamId}
      ensures filterTemplates == old(filterTemplates)
      ensures streamId !in old(streamMetadata) && streamId !in old(streamFilters) ==>
                streamMetadata == old(streamMetadata) && streamFilters == old(streamFilters)
    {
      streamMetadata := streamMetadata - {streamId};
      var _ := DeregisterFilterForStream(streamId);
    }

    /** Which stream a data message is for, or why it is dropped or raises:
        the topic must contain "data." (its text after it is the stream
        name), the message must be an object, and a message whose
        "sensor_id" is missing, empty or unregistered, or whose stream has
        no filter, is dropped (Ok(None)); an unhashable "sensor_id" raises
        TypeError. Then "value" and "timestamp" are read, each missing one
        raising KeyError, and a complete message is routed to its stream. */
    function Route(topic: string, msg: Json): (r: Result<Option<(string, Json, Json)>, PyError>)
      reads this
      ensures !Occurs("data.", topic) ==> r == Err(IndexError)
      ensures Occurs("data.", topic) && !msg.JObj? ==> r == Err(AttributeError("get"))
      ensures r.Ok? && r.value.Some? ==>
                msg.JObj? && GetOrNull(msg.fields, "sensor_id") == JStr(r.value.value.0)
                && r.value.value.0 != ""
                && r.value.value.0 in streamMetadata && r.value.value.0 in streamFilters
                && "value" in msg.fields && r.value.value.1 == msg.fields["value"]
                && "timestamp" in msg.fields && r.value.value.2 == msg.fields["timestamp"]
      ensures Occurs("data.", topic) && msg.JObj? ==>
                var id := GetOrNull(msg.fields, "sensor_id");
                (r == Ok(None) <==> !Truthy(id) || (Hashable(id) && !(id.JStr? && id.s in streamMetadata && id.s in streamFilters)))
                && (Truthy(id) && !Hashable(id) ==> r == Err(TypeError("unhashable type")))
                && (Truthy(id) && id.JStr? && id.s in streamMetadata && id.s in streamFilters ==>
                      r == if "value" !in msg.fields then Err(KeyError("value"))
                           else if "timestamp" !in msg.fields then Err(KeyError("timestamp"))
                           else Ok(Some((id.s, msg.fields["value"], msg.fields["timestamp"]))))
    {
      if !Occurs("data.", topic) then Err(IndexError)
      else if !msg.JObj? then Err(AttributeError("get"))
      else
        var id := GetOrNull(msg.fields, "sensor_id");
        if !Truthy(id) then Ok(None)
        else
          match DictGet(streamMetadata, id)
          case Err(e) => Err(e)
          case Ok(None) => Ok(None)
          case Ok(Some(_)) =>
            if id.s !in streamFilters then Ok(None)
            else
              match Index(msg.fields, "value")
              case Err(e) => Err(e)
              case Ok(value) =>
                match Index(msg.fields, "timestamp")
                case Err(e) => Err(e)
                case Ok(timestamp) => Ok(Some((id.s, value, timestamp)))
    }

    /** `handle_data(topic, msg)`: drops or raises as Route says, and
        otherwise leaves the rest to FilterAndPublish. */
    method HandleData(topic: string, msg: Json) returns (r: Result<Option<Record>, PyError>)
      requires Valid()
      modifies client, FilterObjects()
      ensures Valid()
      ensures Route(topic, msg).Err? ==> r == Err(Route(topic, msg).error) && client.sent == old(client.sent)
      ensures Route(topic, msg) == Ok(None) ==> r == Ok(None) && client.sent == old(client.sent)
      ensures Route(topic, msg).Ok? && Route(topic, msg).value.Some? ==>
                var (id, value, timestamp) := Route(topic, msg).value.value;
                var f := streamFilters[id];
                (r.Err? <==> AsNumber(value).None? || old(PredictedVariance(f)) + NoiseOf(f) == 0.0
                             || !streamMetadata[id].JObj?)
                && (r.Ok? ==> r.value.Some?
                              && ValueOf(f) == CorrectedValue(old(PredictedValue(f)), old(PredictedVariance(f)),
                                                              NoiseOf(f), AsNumber(value).value)
                              && r.value.value == DataEvent(id, timestamp, ValueOf(f),
                                                            Confidence.ConfidenceOf(ValueVariance(f)),
                                                            streamMetadata[id].fields, TypeOf(f))
                              && client.sent == old(client.sent) + [("CEP." + id, r.value.value)])
                && (r.Err? ==> client.sent == old(client.sent))
    ensures Route(topic, msg).Ok? && Route(topic, msg).value.Some? ==>
              var (id, value, _) := Route(topic, msg).value.value;
              var f := streamFilters[id];
              (AsNumber(value).None? ==> r == Err(Filters.NotANumber))
              && (AsNumber(value).Some? && old(PredictedVariance(f)) + NoiseOf(f) == 0.0 ==> r == Err(ZeroDivisionError))
              && (AsNumber(value).Some? && old(PredictedVariance(f)) + NoiseOf(f) != 0.0 && !streamMetadata[id].JObj? ==>
                    r == Err(AttributeError("get")))
              && (if AsNumber(value).None? || old(PredictedVariance(f)) + NoiseOf(f) == 0.0 then
                    ValueOf(f) == old(PredictedValue(f)) && ValueVariance(f) == old(PredictedVariance(f))
                  else
                    ValueOf(f) == CorrectedValue(old(PredictedValue(f)), old(PredictedVariance(f)),
                                                 NoiseOf(f), AsNumber(value).value)
                    && ValueVariance(f) == CorrectedVariance(old(PredictedVariance(f)), NoiseOf(f)))
              && unchanged(FilterObjects() - {Obj(f)})
    ensures !(Route(topic, msg).Ok? && Route(topic, msg).value.Some?) ==> unchanged(FilterObjects())
    {
      assert this !in FilterObjects() && this != client as object;
      var route := Route(topic, msg);
      if route.Err? {
        return Err(route.error);
      }
      if route.value.None? {
        return Ok(None);
      }
      var (id, value, timestamp) := route.value.value;
      var published := FilterAndPublish(id, value, timestamp);
      if published.Err? {
        return Err(published.error);
      }
      r := Ok(Some(published.value));
    }

    /** The second half of `handle_data`: the stream's filter predicts, then
        updates with the value; the event built from the updated filter and
        the stream's metadata is sent on "CEP." + the stream id. Metadata
        that is not an object makes building the event raise, after the
        filter has already changed. */
    method FilterAndPublish(id: string, value: Json, timestamp: Json) returns (r: Result<Record, PyError>)
      requires Valid() && id in streamFilters && id in streamMetadata
      modifies client, Obj(streamFilters[id])
      ensures Valid()
      ensures var f := streamFilters[id];
              (r.Err? <==> AsNumber(value).None? || old(PredictedVariance(f)) + NoiseOf(f) == 0.0
                           || !streamMetadata[id].JObj?)
              && (r.Ok? ==> ValueOf(f) == CorrectedValue(old(PredictedValue(f)), old(PredictedVariance(f)),
                                                         NoiseOf(f), AsNumber(value).value)
                            && r.value == DataEvent(id, timestamp, ValueOf(f), Confidence.ConfidenceOf(ValueVariance(f)),
                                                    streamMetadata[id].fields, TypeOf(f))
                            && client.sent == old(client.sent) + [("CEP." + id, r.value)])
              && (r.Err? ==> client.sent == old(client.sent))
    ensures var f := streamFilters[id];
            (AsNumber(value).None? ==> r == Err(Filters.NotANumber))
            && (AsNumber(value).Some? && old(PredictedVariance(f)) + NoiseOf(f) == 0.0 ==> r == Err(ZeroDivisionError))
            && (AsNumber(value).Some? && old(PredictedVariance(f)) + NoiseOf(f) != 0.0 && !streamMetadata[id].JObj? ==>
                  r == Err(AttributeError("get")))
            && (if AsNumber(value).None? || old(PredictedVariance(f)) + NoiseOf(f) == 0.0 then
                  ValueOf(f) == old(PredictedValue(f)) && ValueVariance(f) == old(PredictedVariance(f))
                else
                  ValueOf(f) == CorrectedValue(old(PredictedValue(f)), old(PredictedVariance(f)),
                                               NoiseOf(f), AsNumber(value).value)
                  && ValueVariance(f) == CorrectedVariance(old(PredictedVariance(f)), NoiseOf(f)))
    {
      assert this !in FilterObjects() && this != client as object;
      var kf := streamFilters[id];
      var step := PredictThenUpdate(streamFilters, id, value);
      if step.Err? {
        return Err(step.error);
      }
      var confidence := Confidence.ComputeConfidence(CovarianceOf(kf));
      var meta := streamMetadata[id];
      if !meta.JObj? {
        return Err(AttributeError("get"));
      }
      r := Ok(DataEvent(id, timestamp, ValueOf(kf), confidence.value, meta.fields, TypeOf(kf)));
      assert client !in FilterObjects();
      client.SendEvent(r.value, Some("CEP." + id));
    }
  }
}
