/** app/manager/StreamManager.py: the registry-backed stream manager. It keeps
    a filter registry, a stream registry and one DataStream per registered
    stream, and forwards each data message to its stream's `process_event`,
    publishing the result on a "cep." topic. The DataStream class it builds is
    not part of this model: a stream is the arguments it is built from, and
    `process_event` is a function argument. Threads, logging and the handler
    registrations are not modelled. */
module AppStreamManager {
  import opened Values
  import opened Registries
  import TopicClient

  /** `DataStream(stream_id, metadata, filter_entry, filter_registry)`: the
      stream's id, its registry record and the filter template entry it was
      given (JSON null for Python's None). The filter registry argument is
      the manager's own and is not repeated here. */
  datatype DataStream = DataStream(streamId: string, metadata: Json, filterEntry: Json)

  /** What `validate` hands back: `StreamRegistry.validate` returns a bare
      bool, `FilterRegistry.validate` a (verdict, errors) pair. */
  datatype Verdict = Bare(ok: bool) | Pair(ok: bool, errors: seq<string>)

  const NotIterable: PyError := TypeError("cannot unpack non-iterable bool object")

  /** `validation_result, errors = <verdict>`: only a pair unpacks. */
  function Unpack(v: Verdict): (r: Result<(bool, seq<string>), PyError>)
    ensures r.Ok? <==> v.Pair?
    ensures v.Pair? ==> r.value == (v.ok, v.errors)
    ensures v.Bare? ==> r == Err(NotIterable)
  {
    match v
    case Bare(_) => Err(NotIterable)
    case Pair(ok, errors) => Ok((ok, errors))
  }

  /** The stream `_initialize_streams` and `register_stream` build for
      `metadata`: a record that is not an object has no `get`; a truthy
      "filter_template" is looked up in the filter registry (an unhashable
      one raises), and a missing or falsy one, or one that is not
      registered, leaves the stream without a filter entry. */
  function NewStream(templates: map<string, Json>, id: string, metadata: Json): (r: Result<DataStream, PyError>)
    ensures !metadata.JObj? ==> r == Err(AttributeError("get"))
    ensures metadata.JObj? ==>
              var tid := GetOrNull(metadata.fields, "filter_template");
              (r.Err? <==> Truthy(tid) && !Hashable(tid))
              && (r.Err? ==> r.error.TypeError?)
              && (r.Ok? ==> r.value.streamId == id && r.value.metadata == metadata)
              && (r.Ok? && Truthy(tid) && tid.JStr? && tid.s in templates ==> r.value.filterEntry == templates[tid.s])
              && (r.Ok? && !(Truthy(tid) && tid.JStr? && tid.s in templates) ==> r.value.filterEntry == JNull)
  {
    if !metadata.JObj? then Err(AttributeError("get"))
    else
      var tid := GetOrNull(metadata.fields, "filter_template");
      if !Truthy(tid) then Ok(DataStream(id, metadata, JNull))
      else
        match DictGet(templates, tid)
        case Err(e) => Err(e)
        case Ok(None) => Ok(DataStream(id, metadata, JNull))
        case Ok(Some(entry)) => Ok(DataStream(id, metadata, entry))
  }

  /** The loop of `_initialize_streams` over the registry's records, in some
      order: it stops at the first record whose stream cannot be built, and
      otherwise has one stream per record, each built from that record. */
  method BuildStreams(templates: map<string, Json>, records: map<string, Json>)
    returns (r: Result<map<string, DataStream>, PyError>)
    ensures r.Ok? <==> forall id :: id in records ==> NewStream(templates, id, records[id]).Ok?
    ensures r.Err? ==> exists id :: id in records && NewStream(templates, id, records[id]) == Err(r.error)
    ensures r.Ok? ==> r.value.Keys == records.Keys
    ensures r.Ok? ==> forall id :: id in records ==> Ok(r.value[id]) == NewStream(templates, id, records[id])
  {
    var streams: map<string, DataStream> := map[];
    var pending := records.Keys;
    while pending != {}
      invariant pending <= records.Keys
      invariant streams.Keys == records.Keys - pending
      invariant forall id :: id in streams ==> Ok(streams[id]) == NewStream(templates, id, records[id])
      decreases pending
    {
      var id :| id in pending;
      var s := NewStream(templates, id, records[id]);
      if s.Err? {
        return Err(s.error);
      }
      streams := streams[id := s.value];
      pending := pending - {id};
    }
    r := Ok(streams);
  }

  /** `StreamManager(...)` with the two registry files already loaded: when
      `_initialize_streams` raises, so does `__init__`, and no manager
      exists; otherwise every registered stream has its DataStream. */
  method Create(filterFile: map<string, Json>, streamFile: map<string, Json>) returns (r: Result<StreamManager, PyError>)
    ensures r.Err? <==> exists id :: id in streamFile && NewStream(filterFile, id, streamFile[id]).Err?
    ensures r.Err? ==> exists id :: id in streamFile && NewStream(filterFile, id, streamFile[id]) == Err(r.error)
    ensures r.Ok? ==> var m := r.value;
              fresh(m) && fresh(m.client) && fresh(m.filterRegistry) && fresh(m.streamRegistry) && m.Valid()
              && m.client.name == "StreamManager" && m.client.sent == []
              && m.client.subscriptions == {"data", "command."}
              && m.filterRegistry.entries == filterFile && m.streamRegistry.entries == streamFile
              && m.streams.Keys == streamFile.Keys
              && forall id :: id in streamFile ==> Ok(m.streams[id]) == NewStream(filterFile, id, streamFile[id])
  {
    var c := NewClient();
    var filters := new Registry(filterFile);
    var registered := new Registry(streamFile);
    var records := registered.GetAll();
    var built := BuildStreams(filters.entries, records);
    if built.Err? {
      return Err(built.error);
    }
    var m := new StreamManager(c, filters, registered, built.value);
    r := Ok(m);
  }

  /** The client `__init__` sets up: named "StreamManager" and subscribed to
      "data" and "command.", with nothing sent yet. */
  method NewClient() returns (c: TopicClient.StreamClient)
    ensures fresh(c) && c.name == "StreamManager" && c.sent == []
    ensures c.subscriptions == {"data", "command."}
  {
    c := new TopicClient.StreamClient("StreamManager");
    c.SubscribeTo("data");
    c.SubscribeTo("command.");
  }

  /** Where `handle_data` sends a message: the stream named by its
      "stream_id", with its "value" (both JSON null when absent), or nowhere
      when no stream has that id. A message that is not an object has no
      `get`, and an unhashable id cannot be looked up. */
  function Target(streams: map<string, DataStream>, msg: Json): (r: Result<Option<(string, DataStream, Json)>, PyError>)
    ensures !msg.JObj? ==> r == Err(AttributeError("get"))
    ensures msg.JObj? ==>
              var sid := GetOrNull(msg.fields, "stream_id");
              (r.Err? <==> !Hashable(sid))
              && (r.Ok? && r.value.Some? <==> sid.JStr? && sid.s in streams)
              && (r.Ok? && r.value.Some? ==>
                    r.value.value == (sid.s, streams[sid.s], GetOrNull(msg.fields, "value")))
  {
    if !msg.JObj? then Err(AttributeError("get"))
    else
      var sid := GetOrNull(msg.fields, "stream_id");
      var value := GetOrNull(msg.fields, "value");
      match DictGet(streams, sid)
      case Err(e) => Err(e)
      case Ok(None) => Ok(None)
      case Ok(Some(s)) => Ok(Some((sid.s, s, value)))
  }

  class StreamManager {
    const client: TopicClient.StreamClient
    const filterRegistry: Registry
    const streamRegistry: Registry
    var streams: map<string, DataStream>

    /** The two registries are distinct objects, so writing one never
        changes the other. */
    ghost predicate Valid()
      reads this
    {
      filterRegistry != streamRegistry
    }

    /** The fields `__init__` sets, once the client and the registries are
        set up and `_initialize_streams` has built `streams`. */
    constructor (c: TopicClient.StreamClient, filters: Registry, registered: Registry, streams: map<string, DataStream>)
      requires filters != registered
      ensures client == c && filterRegistry == filters && streamRegistry == registered && this.streams == streams
      ensures Valid()
    {
      client := c;
      filterRegistry := filters;
      streamRegistry := registered;
      this.streams := streams;
    }

    /** `register_filter_template(template_id, filter_entry)`: the entry is
        stored only when `FilterRegistry.validate` accepts it; a "type" that
        cannot be looked up in a set makes `validate` raise. The streams
        keep the entries they were built with. */
    method RegisterFilterTemplate(templateId: string, entry: Json) returns (r: Result<bool, PyError>)
      requires Valid()
      modifies filterRegistry
      ensures r.Err? <==> Validation(entry).Err?
      ensures r.Ok? ==> (r.value <==> Validation(entry).value.0)
      ensures r == Ok(true) ==> filterRegistry.entries == old(filterRegistry.entries)[templateId := entry]
                                && filterRegistry.Persisted()
      ensures r != Ok(true) ==> filterRegistry.entries == old(filterRegistry.entries)
      ensures streams == old(streams) && streamRegistry.entries == old(streamRegistry.entries)
    {
      var v := Validation(entry);
      if v.Err? {
        return Err(v.error);
      }
      var checked := Unpack(Pair(v.value.0, v.value.1));
      if checked.value.0 {
        filterRegistry.Update(templateId, entry);
        r := Ok(true);
      } else {
        r := Ok(false);
      }
    }

    /** `deregister_filter_template(template_id)`: only the registry entry
        goes; streams built from it keep their copy. */
    method DeregisterFilterTemplate(templateId: string)
      requires Valid()
      modifies filterRegistry
      ensures filterRegistry.entries == old(filterRegistry.entries) - {templateId}
      ensures streams == old(streams) && streamRegistry.entries == old(streamRegistry.entries)
    {
      filterRegistry.Remove(templateId);
    }

    /** `register_stream(stream_id, metadata)` as written: it unpacks the
        bare bool `StreamRegistry.validate` returns, which raises before
        anything is stored, whatever the metadata. */
    method RegisterStream(streamId: string, metadata: Record) returns (r: Result<(), PyError>)
      requires Valid()
      modifies streamRegistry
      ensures r == Err(NotIterable)
      ensures streamRegistry.entries == old(streamRegistry.entries) && streams == old(streams)
      ensures filterRegistry.entries == old(filterRegistry.entries)
    {
      // unpacking a bare bool always raises, so the rest of the body is never reached
      var checked := Unpack(Bare(StreamValidate(metadata)));
      r := Err(checked.error);
    }

    /** `register_stream` as evidently intended, reading `validate`'s bool
        directly: valid metadata is stored in the stream registry and gets a
        stream built as at start-up; invalid metadata changes nothing. */
    method RegisterValidStream(streamId: string, metadata: Record) returns (r: Result<bool, PyError>)
      requires Valid()
      modifies streamRegistry, this
      ensures !StreamValidate(metadata) ==> r == Ok(false) && streams == old(streams)
                                              && streamRegistry.entries == old(streamRegistry.entries)
      ensures StreamValidate(metadata) ==>
                streamRegistry.entries == old(streamRegistry.entries)[streamId := JObj(metadata)]
                && (r.Err? <==> NewStream(filterRegistry.entries, streamId, JObj(metadata)).Err?)
                && (r.Err? ==> r == Err(NewStream(filterRegistry.entries, streamId, JObj(metadata)).error)
                               && streams == old(streams))
                && (r.Ok? ==> r.value && streams == old(streams)[streamId := NewStream(filterRegistry.entries, streamId, JObj(metadata)).value])
      ensures filterRegistry.entries == old(filterRegistry.entries)
    {
      if !StreamValidate(metadata) {
        return Ok(false);
      }
      streamRegistry.Update(streamId, JObj(metadata));
      var s := NewStream(filterRegistry.entries, streamId, JObj(metadata));
      if s.Err? {
        return Err(s.error);
      }
      streams := streams[streamId := s.value];
      r := Ok(true);
    }

    /** `deregister_stream(stream_id)`: the registry entry and the stream
        both go; an unknown id changes neither. */
    method DeregisterStream(streamId: string)
      requires Valid()
      modifies streamRegistry, this
      ensures streamRegistry.entries == old(streamRegistry.entries) - {streamId}
      ensures streams == old(streams) - {streamId}
      ensures streamId !in old(streams) && streamId !in old(streamRegistry.entries) ==>
                streams == old(streams) && streamRegistry.entries == old(streamRegistry.entries)
      ensures filterRegistry.entries == old(filterRegistry.entries)
    {
      streamRegistry.Remove(streamId);
      streams := streams - {streamId};
    }

    /** `handle_data(topic, msg)`: a message for a known stream is processed
        by that stream once and the result published on "cep." + its id; a
        message for an unknown stream changes nothing. */
    method HandleData(topic: string, msg: Json, process: (DataStream, Json) -> Record)
      returns (r: Result<Option<Record>, PyError>)
      modifies client
      ensures Target(streams, msg).Err? ==> r == Err(Target(streams, msg).error) && client.sent == old(client.sent)
      ensures Target(streams, msg) == Ok(None) ==> r == Ok(None) && client.sent == old(client.sent)
      ensures Target(streams, msg).Ok? && Target(streams, msg).value.Some? ==>
                var (id, s, value) := Target(streams, msg).value.value;
                r == Ok(Some(process(s, value)))
                && client.sent == old(client.sent) + [("cep." + id, process(s, value))]
    {
      var target := Target(streams, msg);
      if target.Err? {
        return Err(target.error);
      }
      if target.value.None? {
        return Ok(None);
      }
      var (id, s, value) := target.value.value;
      var result := process(s, value);
      client.SendEvent(result, Some("cep." + id));
      r := Ok(Some(result));
    }
  }

  /** Stream metadata that `StreamRegistry.validate` accepts still makes the
      written `register_stream` raise. */
  lemma AcceptedStreamStillRaises()
    ensures var metadata := map["interval_sec" := JNum(1.0), "filter_template" := JStr("kf")];
            StreamValidate(metadata) && Unpack(Bare(StreamValidate(metadata))) == Err(NotIterable)
  {
  }
}
