/** app/messaging: the partitioned event bus the imputation side uses. A
    `Client` publishes `(topic, event)` pairs under its prefix and keeps a
    table from topic to the consumers subscribed to it; `dispatch_once`
    takes one received message and hands the event to the consumers of its
    exact topic, then to the consumers of the prefix wildcard.

    Sockets are replaced by values: what was published is appended to `sent`,
    the SUBSCRIBE filters set on the socket are appended to `filters`, and
    the message a poll yields is a `Poll` argument. Consumers are not run: a
    dispatch returns the ordered deliveries it makes, and the consumers that
    raise are given as a map to the exception they raise. */
module Messaging {
  import opened Values

  /** One `consumer.consume_event(event)` call. */
  type Delivery = (object, Record)

  /** What one dispatch did: the deliveries made, in order, and the exception
      that ended it, if any. */
  datatype Outcome = Outcome(delivered: seq<Delivery>, error: Option<PyError>)

  /** What polling the subscriber socket yields: nothing within the timeout,
      a failure of the poll itself, or a message whose payload decoded to a
      document (None when it is not valid JSON). */
  datatype Poll = NoMessage | PollFailed | Received(topic: string, payload: Option<Json>)

  /** `f"{prefix}.{stream_id}"` */
  function Topic(prefix: string, streamId: string): string {
    prefix + "." + streamId
  }

  /** The table key a subscription goes under: the wildcard key for "*". */
  function SubscriptionKey(prefix: string, streamId: string): string {
    if streamId == "*" then Topic(prefix, "*") else Topic(prefix, streamId)
  }

  /** The SUBSCRIBE filter set on the socket: the bare `prefix.` for "*". */
  function TransportFilter(prefix: string, streamId: string): string {
    if streamId == "*" then prefix + "." else Topic(prefix, streamId)
  }

  /** Every event published under a prefix passes that prefix's filters: the
      wildcard filter is a prefix of every topic, and an exact filter is the
      topic itself, which is also the table key it is delivered from. */
  lemma FiltersAdmitPublished(prefix: string, streamId: string)
    ensures TransportFilter(prefix, "*") <= Topic(prefix, streamId)
    ensures streamId != "*" ==> TransportFilter(prefix, streamId) == Topic(prefix, streamId)
                                 && SubscriptionKey(prefix, streamId) == Topic(prefix, streamId)
  {
    assert Topic(prefix, streamId) == (prefix + ".") + streamId;
  }

  /** The consumers registered under `key`, oldest first. */
  function Registered(table: map<string, seq<object>>, key: string): seq<object> {
    if key in table then table[key] else []
  }

  /** `setdefault(key, []).append(consumer)` */
  function Append(table: map<string, seq<object>>, key: string, consumer: object): (t: map<string, seq<object>>)
    ensures Registered(t, key) == Registered(table, key) + [consumer]
    ensures forall k :: k != key ==> Registered(t, k) == Registered(table, k)
    ensures t.Keys == table.Keys + {key}
  {
    table[key := Registered(table, key) + [consumer]]
  }

  /** The same event handed to each consumer in turn. */
  function Deliver(consumers: seq<object>, event: Record): (d: seq<Delivery>)
    ensures |d| == |consumers|
    ensures forall i :: 0 <= i < |d| ==> d[i] == (consumers[i], event)
  {
    seq(|consumers|, i requires 0 <= i < |consumers| => (consumers[i], event))
  }

  /** The position of the first consumer that raises, if any. */
  function FirstRaising(consumers: seq<object>, raises: map<object, PyError>): (r: Option<nat>)
    ensures r.Some? ==> r.value < |consumers| && consumers[r.value] in raises
                        && forall j :: 0 <= j < r.value ==> consumers[j] !in raises
    ensures r.None? ==> forall j :: 0 <= j < |consumers| ==> consumers[j] !in raises
  {
    if |consumers| == 0 then None
    else if consumers[0] in raises then Some(0)
    else
      match FirstRaising(consumers[1..], raises)
      case None => None
      case Some(k) => Some(k + 1)
  }

  /** `for consumer in consumers: consumer.consume_event(event)`: every
      consumer up to and including the first one that raises. */
  function Fanout(consumers: seq<object>, event: Record, raises: map<object, PyError>): (o: Outcome)
    ensures o.error.None? <==> forall j :: 0 <= j < |consumers| ==> consumers[j] !in raises
    ensures o.error.None? ==> o.delivered == Deliver(consumers, event)
    ensures o.error.Some? ==> 0 < |o.delivered| <= |consumers|
                              && o.delivered == Deliver(consumers[..|o.delivered|], event)
                              && consumers[|o.delivered| - 1] in raises
                              && o.error.value == raises[consumers[|o.delivered| - 1]]
  {
    match FirstRaising(consumers, raises)
    case None => Outcome(Deliver(consumers, event), None)
    case Some(k) => Outcome(Deliver(consumers[..k + 1], event), Some(raises[consumers[k]]))
  }

  /** Exact-topic consumers, then wildcard consumers; an exception from an
      exact consumer means no wildcard consumer is reached. */
  function Route(exact: seq<object>, wildcard: seq<object>, event: Record, raises: map<object, PyError>): Outcome {
    var first := Fanout(exact, event, raises);
    if first.error.Some? then first
    else
      var second := Fanout(wildcard, event, raises);
      Outcome(first.delivered + second.delivered, second.error)
  }

  /** The loop over one consumer list. */
  method FanoutLoop(consumers: seq<object>, event: Record, raises: map<object, PyError>) returns (o: Outcome)
    ensures o == Fanout(consumers, event, raises)
  {
    var delivered: seq<Delivery> := [];
    var i := 0;
    while i < |consumers|
      invariant 0 <= i <= |consumers|
      invariant delivered == Deliver(consumers[..i], event)
      invariant forall j :: 0 <= j < i ==> consumers[j] !in raises
    {
      delivered := delivered + [(consumers[i], event)];
      if consumers[i] in raises {
        return Outcome(delivered, Some(raises[consumers[i]]));
      }
      i := i + 1;
    }
    assert consumers[..i] == consumers;
    o := Outcome(delivered, None);
  }

  /** The event a received document becomes: `event["__topic__"] = topic`,
      which only a JSON object supports. */
  function Stamp(payload: Option<Json>, topic: string): (r: Result<Record, PyError>)
    ensures r.Ok? <==> payload.Some? && payload.value.JObj?
    ensures r.Ok? ==> r.value == payload.value.fields["__topic__" := JStr(topic)]
    ensures payload.None? ==> r.Err? && r.error.ValueError?
  {
    match payload
    case None => Err(ValueError("Expecting value"))
    case Some(doc) =>
      if doc.JObj? then Ok(doc.fields["__topic__" := JStr(topic)])
      else Err(TypeError("object does not support item assignment"))
  }

  /** One dispatch over a subscriber table, exceptions propagating. */
  function Dispatch(table: map<string, seq<object>>, prefix: string, poll: Poll,
                    raises: map<object, PyError>): Outcome
  {
    match poll
    case NoMessage => Outcome([], None)
    case PollFailed => Outcome([], Some(ZMQError))
    case Received(topic, payload) =>
      match Stamp(payload, topic)
      case Err(e) => Outcome([], Some(e))
      case Ok(event) =>
        Route(Registered(table, topic), Registered(table, Topic(prefix, "*")), event, raises)
  }

  /** The consumers a list of deliveries went to, in order. */
  function Recipients(d: seq<Delivery>): (r: seq<object>)
    ensures |r| == |d|
    ensures forall i :: 0 <= i < |d| ==> r[i] == d[i].0
  {
    seq(|d|, i requires 0 <= i < |d| => d[i].0)
  }

  /** Routing without a raising consumer delivers to both lists in full. */
  lemma RouteNoRaise(exact: seq<object>, wildcard: seq<object>, event: Record, raises: map<object, PyError>)
    requires forall c :: c in exact ==> c !in raises
    requires forall c :: c in wildcard ==> c !in raises
    ensures Route(exact, wildcard, event, raises) == Outcome(Deliver(exact, event) + Deliver(wildcard, event), None)
  {
    assert forall j :: 0 <= j < |exact| ==> exact[j] in exact;
    assert forall j :: 0 <= j < |wildcard| ==> wildcard[j] in wildcard;
  }

  /** One list's deliveries are a prefix of delivering to all of it, and
      an exception comes from the last consumer reached. */
  lemma FanoutStops(consumers: seq<object>, event: Record, raises: map<object, PyError>)
    ensures Fanout(consumers, event, raises).delivered <= Deliver(consumers, event)
    ensures var o := Fanout(consumers, event, raises);
            o.error.Some? ==> |o.delivered| > 0 && o.delivered[|o.delivered| - 1].0 in raises
  {
    var o := Fanout(consumers, event, raises);
    if o.error.Some? {
      var all := Deliver(consumers, event);
      assert forall i :: 0 <= i < |o.delivered| ==> o.delivered[i] == all[i];
    }
  }

  lemma PrefixExtend<T>(a: seq<T>, b: seq<T>, c: seq<T>)
    requires a <= b
    ensures a <= b + c
  {
    assert forall i :: 0 <= i < |a| ==> a[i] == (b + c)[i];
  }

  lemma PrefixAfter<T>(a: seq<T>, b: seq<T>, c: seq<T>)
    requires b <= c
    ensures a + b <= a + c
  {
    assert forall i :: 0 <= i < |a| + |b| ==> (a + b)[i] == (a + c)[i];
  }

  /** What routing delivers is a prefix of what it delivers when nobody
      raises, and when it stops on an exception the last delivery went to a
      consumer that raises. */
  lemma RouteStops(exact: seq<object>, wildcard: seq<object>, event: Record, raises: map<object, PyError>)
    ensures Route(exact, wildcard, event, raises).delivered <= Deliver(exact, event) + Deliver(wildcard, event)
    ensures var o := Route(exact, wildcard, event, raises);
            o.error.Some? ==> |o.delivered| > 0 && o.delivered[|o.delivered| - 1].0 in raises
  {
    var first := Fanout(exact, event, raises);
    FanoutStops(exact, event, raises);
    if first.error.Some? {
      PrefixExtend(first.delivered, Deliver(exact, event), Deliver(wildcard, event));
    } else {
      var second := Fanout(wildcard, event, raises);
      FanoutStops(wildcard, event, raises);
      PrefixAfter(Deliver(exact, event), second.delivered, Deliver(wildcard, event));
      if second.error.Some? {
        var d := first.delivered + second.delivered;
        assert d[|d| - 1] == second.delivered[|second.delivered| - 1];
      }
    }
  }

  /** When no consumer raises, a received object reaches every consumer of
      its exact topic, in subscription order, and then every wildcard
      consumer: both groups fire, and a consumer subscribed n times gets it
      n times. Every delivered event carries the received topic. */
  lemma {:induction false} DispatchReachesBoth(table: map<string, seq<object>>, prefix: string, topic: string,
                                               doc: Json, raises: map<object, PyError>)
    requires doc.JObj?
    requires forall c :: c in Registered(table, topic) ==> c !in raises
    requires forall c :: c in Registered(table, Topic(prefix, "*")) ==> c !in raises
    ensures Dispatch(table, prefix, Received(topic, Some(doc)), raises).error.None?
    ensures Recipients(Dispatch(table, prefix, Received(topic, Some(doc)), raises).delivered)
            == Registered(table, topic) + Registered(table, Topic(prefix, "*"))
    ensures forall d :: d in Dispatch(table, prefix, Received(topic, Some(doc)), raises).delivered ==>
              "__topic__" in d.1 && d.1["__topic__"] == JStr(topic)
  {
    var exact := Registered(table, topic);
    var wild := Registered(table, Topic(prefix, "*"));
    var event := doc.fields["__topic__" := JStr(topic)];
    RouteNoRaise(exact, wild, event, raises);
    var all := Deliver(exact, event) + Deliver(wild, event);
    assert Dispatch(table, prefix, Received(topic, Some(doc)), raises).delivered == all;
    assert forall i :: 0 <= i < |all| ==> all[i].1 == event;
    assert forall i :: 0 <= i < |all| ==> all[i].0 == (exact + wild)[i];
  }

  /** When a consumer raises, the deliveries stop right after it: they are
      a prefix of the deliveries a dispatch with no raising consumer makes,
      and the last one went to a consumer that raises. */
  lemma {:induction false} RaisingStopsEarly(table: map<string, seq<object>>, prefix: string, poll: Poll,
                                             raises: map<object, PyError>)
    ensures Dispatch(table, prefix, poll, raises).delivered <= Dispatch(table, prefix, poll, map[]).delivered
    ensures Dispatch(table, prefix, poll, raises).error.Some? && poll.Received? && Stamp(poll.payload, poll.topic).Ok? ==>
              |Dispatch(table, prefix, poll, raises).delivered| > 0
              && Dispatch(table, prefix, poll, raises).delivered[|Dispatch(table, prefix, poll, raises).delivered| - 1].0 in raises
  {
    if poll.Received? && Stamp(poll.payload, poll.topic).Ok? {
      var event := Stamp(poll.payload, poll.topic).value;
      var exact := Registered(table, poll.topic);
      var wild := Registered(table, Topic(prefix, "*"));
      RouteNoRaise(exact, wild, event, map[]);
      RouteStops(exact, wild, event, raises);
    }
  }

  /** app/messaging/Client.py `Client`. */
  class Client {
    const prefix: string
    /** `self.subscribers`: topic key to consumers, in subscription order. */
    var subscribers: map<string, seq<object>>
    /** SUBSCRIBE filters set on the subscriber socket, in order. */
    var filters: seq<string>
    /** `(topic, event)` pairs sent on the publisher socket, in order. */
    var sent: seq<(string, Record)>

    constructor (prefix: string)
      ensures this.prefix == prefix && subscribers == map[] && filters == [] && sent == []
    {
      this.prefix := prefix;
      subscribers := map[];
      filters := [];
      sent := [];
    }

    /** `publish(event, stream_id)`: stamps the topic into the event and sends
        it; the stamped event is returned because the caller's dict is
        changed in place. */
    method Publish(event: Record, streamId: string) returns (stamped: Record)
      modifies this
      ensures stamped == event["__topic__" := JStr(Topic(prefix, streamId))]
      ensures sent == old(sent) + [(Topic(prefix, streamId), stamped)]
      ensures subscribers == old(subscribers) && filters == old(filters)
    {
      var topic := Topic(prefix, streamId);
      stamped := event["__topic__" := JStr(topic)];
      sent := sent + [(topic, stamped)];
    }

    /** `subscribe_to(stream_id, consumer)` */
    method SubscribeTo(streamId: string, consumer: object)
      modifies this
      ensures subscribers == Append(old(subscribers), SubscriptionKey(prefix, streamId), consumer)
      ensures filters == old(filters) + [TransportFilter(prefix, streamId)]
      ensures sent == old(sent)
    {
      var topic: string;
      if streamId == "*" {
        filters := filters + [prefix + "."];
        topic := prefix + ".*";
        assert topic == Topic(prefix, "*");
      } else {
        topic := prefix + "." + streamId;
        filters := filters + [topic];
      }
      subscribers := Append(subscribers, topic, consumer);
    }

    /** `dispatch_once()`: an exception from the poll, the decoding or a
        consumer propagates to the caller. */
    method DispatchOnce(poll: Poll, raises: map<object, PyError>) returns (o: Outcome)
      ensures o == Dispatch(subscribers, prefix, poll, raises)
      ensures poll.NoMessage? ==> o == Outcome([], None)
    {
      if poll.NoMessage? {
        return Outcome([], None);
      }
      if poll.PollFailed? {
        return Outcome([], Some(ZMQError));
      }
      var stamped := Stamp(poll.payload, poll.topic);
      if stamped.Err? {
        return Outcome([], Some(stamped.error));
      }
      var event := stamped.value;
      o := FanoutLoop(Registered(subscribers, poll.topic), event, raises);
      if o.error.None? {
        var wildcard := prefix + ".*";
        assert wildcard == Topic(prefix, "*");
        var second := FanoutLoop(Registered(subscribers, wildcard), event, raises);
        o := Outcome(o.delivered + second.delivered, second.error);
      }
    }
  }

  /** app/messaging/StreamClient.py `StreamClient`: the same table and the
      same routing on top of an inner `Client`'s sockets, but nothing raised
      while processing a message leaves `dispatch_once`. */
  class StreamClient {
    const prefix: string
    const client: Client
    var subscribers: map<string, seq<object>>

    /** Built around an inner client that already exists (see
        `StreamClientInit` for what the constructor as written does). */
    constructor (prefix: string, client: Client)
      ensures this.prefix == prefix && this.client == client && subscribers == map[]
    {
      this.prefix := prefix;
      this.client := client;
      subscribers := map[];
    }

    method Publish(event: Record, streamId: string) returns (stamped: Record)
      modifies client
      ensures stamped == event["__topic__" := JStr(Topic(prefix, streamId))]
      ensures client.sent == old(client.sent) + [(Topic(prefix, streamId), stamped)]
      ensures client.subscribers == old(client.subscribers) && client.filters == old(client.filters)
    {
      var topic := Topic(prefix, streamId);
      stamped := event["__topic__" := JStr(topic)];
      client.sent := client.sent + [(topic, stamped)];
    }

    method SubscribeTo(streamId: string, consumer: object)
      modifies this, client
      ensures subscribers == Append(old(subscribers), SubscriptionKey(prefix, streamId), consumer)
      ensures client.filters == old(client.filters) + [TransportFilter(prefix, streamId)]
      ensures client.sent == old(client.sent) && client.subscribers == old(client.subscribers)
    {
      var topic: string;
      if streamId == "*" {
        client.filters := client.filters + [prefix + "."];
        topic := prefix + ".*";
        assert topic == Topic(prefix, "*");
      } else {
        topic := prefix + "." + streamId;
        client.filters := client.filters + [topic];
      }
      subscribers := Append(subscribers, topic, consumer);
    }

    /** `dispatch_once()`: a failed poll returns at once; an exception while
        processing the message is logged, cutting the deliveries short. */
    method DispatchOnce(poll: Poll, raises: map<object, PyError>) returns (delivered: seq<Delivery>)
      ensures delivered == Dispatch(subscribers, prefix, poll, raises).delivered
    {
      if poll.NoMessage? || poll.PollFailed? {
        return [];
      }
      var stamped := Stamp(poll.payload, poll.topic);
      if stamped.Err? {
        return [];
      }
      var event := stamped.value;
      var first := FanoutLoop(Registered(subscribers, poll.topic), event, raises);
      delivered := first.delivered;
      if first.error.None? {
        var wildcard := prefix + ".*";
        assert wildcard == Topic(prefix, "*");
        var second := FanoutLoop(Registered(subscribers, wildcard), event, raises);
        delivered := delivered + second.delivered;
      }
    }
  }

  /** `StreamClient.__init__` calls `Client()` without the prefix argument
      `Client.__init__` requires, so constructing a StreamClient raises
      TypeError whatever prefix it is given. */
  function StreamClientInit(prefix: string, innerArgs: seq<string>): (r: Result<(), PyError>)
    ensures r.Ok? <==> |innerArgs| == 1
    ensures r.Err? ==> r.error.TypeError?
  {
    if |innerArgs| == 1 then Ok(()) else Err(TypeError("__init__() missing 1 required positional argument: 'prefix'"))
  }

  /** The arguments `StreamClient.__init__` passes to `Client`: none. */
  const StreamClientInnerArgs: seq<string> := []

  lemma StreamClientInitFails(prefix: string)
    ensures StreamClientInit(prefix, StreamClientInnerArgs).Err?
    ensures StreamClientInit(prefix, [prefix]).Ok?
  {
  }

  /** The partitions of app/messaging/EventStream.py, in dict order. */
  const PartitionNames: seq<string> := ["observed", "imputed", "matched"]

  function UnknownPartition(partition: string): PyError {
    ValueError("Unknown partition: " + partition)
  }

  /** app/messaging/EventStream.py `EventStream`: one Client per partition. */
  class EventStream {
    const observed: Client
    const imputed: Client
    const matched: Client
    var running: bool

    ghost predicate Valid()
      reads this
    {
      observed.prefix == "observed" && imputed.prefix == "imputed" && matched.prefix == "matched"
      && observed != imputed && observed != matched && imputed != matched
    }

    /** The partition client by name. */
    function Partition(name: string): (c: Option<Client>)
      reads this
      ensures c.Some? <==> name in PartitionNames
      ensures Valid() && c.Some? ==> c.value.prefix == name
    {
      if name == "observed" then Some(observed)
      else if name == "imputed" then Some(imputed)
      else if name == "matched" then Some(matched)
      else None
    }

    constructor ()
      ensures Valid() && !running
      ensures fresh(observed) && fresh(imputed) && fresh(matched)
      ensures observed.subscribers == map[] && imputed.subscribers == map[] && matched.subscribers == map[]
      ensures observed.sent == [] && imputed.sent == [] && matched.sent == []
    {
      observed := new Client("observed");
      imputed := new Client("imputed");
      matched := new Client("matched");
      running := false;
    }

    /** `add_event(event, partition, stream_id)`: publishes on that partition's
        client, or raises ValueError for an unknown partition. */
    method AddEvent(event: Record, partition: string, streamId: string) returns (r: Result<Record, PyError>)
      requires Valid()
      modifies observed, imputed, matched
      ensures r.Err? <==> partition !in PartitionNames
      ensures r.Err? ==> r.error == UnknownPartition(partition)
      ensures forall c :: c in {observed, imputed, matched} && Some(c) != Partition(partition) ==>
                c.sent == old(c.sent) && c.subscribers == old(c.subscribers) && c.filters == old(c.filters)
      ensures r.Ok? ==> Partition(partition).value.sent
                          == old(Partition(partition).value.sent) + [(Topic(partition, streamId), r.value)]
      ensures r.Ok? ==> r.value == event["__topic__" := JStr(Topic(partition, streamId))]
      ensures r.Ok? ==> Partition(partition).value.subscribers == old(Partition(partition).value.subscribers)
    {
      var c := Partition(partition);
      if c.None? {
        return Err(UnknownPartition(partition));
      }
      var stamped := c.value.Publish(event, streamId);
      r := Ok(stamped);
    }

    /** `subscribe(consumer, partition, stream_id)` */
    method Subscribe(consumer: object, partition: string, streamId: string) returns (r: Result<(), PyError>)
      requires Valid()
      modifies observed, imputed, matched
      ensures r.Err? <==> partition !in PartitionNames
      ensures r.Err? ==> r.error == UnknownPartition(partition)
      ensures forall c :: c in {observed, imputed, matched} && Some(c) != Partition(partition) ==>
                c.sent == old(c.sent) && c.subscribers == old(c.subscribers) && c.filters == old(c.filters)
      ensures r.Ok? ==> Partition(partition).value.subscribers
                          == Append(old(Partition(partition).value.subscribers), SubscriptionKey(partition, streamId), consumer)
      ensures r.Ok? ==> Partition(partition).value.sent == old(Partition(partition).value.sent)
    {
      var c := Partition(partition);
      if c.None? {
        return Err(UnknownPartition(partition));
      }
      c.value.SubscribeTo(streamId, consumer);
      r := Ok(());
    }

    /** `dispatch(once=True)`: sets the running flag, then one `dispatch_once`
        per partition in the order observed, imputed, matched; an exception
        from one ends the pass. The polls are what each partition's socket
        yields. */
    method DispatchOnce(polls: seq<Poll>, raises: map<object, PyError>) returns (o: Outcome)
      requires Valid() && |polls| == 3
      modifies this
      ensures running
      ensures o == Pass(old(observed.subscribers), old(imputed.subscribers), old(matched.subscribers), polls, raises)
    {
      running := true;
      o := observed.DispatchOnce(polls[0], raises);
      if o.error.Some? {
        return;
      }
      var o2 := imputed.DispatchOnce(polls[1], raises);
      o := Outcome(o.delivered + o2.delivered, o2.error);
      if o.error.Some? {
        return;
      }
      var o3 := matched.DispatchOnce(polls[2], raises);
      o := Outcome(o.delivered + o3.delivered, o3.error);
    }

    /** `stop()` */
    method Stop()
      modifies this
      ensures !running
    {
      running := false;
    }
  }

  /** One pass over the three partitions as a value. */
  function Pass(observedTable: map<string, seq<object>>, imputedTable: map<string, seq<object>>,
                matchedTable: map<string, seq<object>>, polls: seq<Poll>, raises: map<object, PyError>): Outcome
    requires |polls| == 3
  {
    var o1 := Dispatch(observedTable, "observed", polls[0], raises);
    if o1.error.Some? then o1
    else
      var o2 := Dispatch(imputedTable, "imputed", polls[1], raises);
      if o2.error.Some? then Outcome(o1.delivered + o2.delivered, o2.error)
      else
        var o3 := Dispatch(matchedTable, "matched", polls[2], raises);
        Outcome(o1.delivered + o2.delivered + o3.delivered, o3.error)
  }

  /** A pass in which nothing raises delivers what each partition delivers,
      observed first, then imputed, then matched. */
  lemma {:induction false} PassInOrder(t1: map<string, seq<object>>, t2: map<string, seq<object>>,
                                       t3: map<string, seq<object>>, polls: seq<Poll>)
    requires |polls| == 3
    requires forall i :: 0 <= i < 3 ==> polls[i].NoMessage? || (polls[i].Received? && polls[i].payload.Some? && polls[i].payload.value.JObj?)
    ensures Pass(t1, t2, t3, polls, map[]).error.None?
    ensures Pass(t1, t2, t3, polls, map[]).delivered
            == Dispatch(t1, "observed", polls[0], map[]).delivered
               + Dispatch(t2, "imputed", polls[1], map[]).delivered
               + Dispatch(t3, "matched", polls[2], map[]).delivered
  {
    NothingRaised(t1, "observed", polls[0]);
    NothingRaised(t2, "imputed", polls[1]);
    NothingRaised(t3, "matched", polls[2]);
  }

  /** With no raising consumers, only a failed poll or a bad payload can make
      a dispatch raise. */
  lemma NothingRaised(table: map<string, seq<object>>, prefix: string, poll: Poll)
    requires poll.NoMessage? || (poll.Received? && poll.payload.Some? && poll.payload.value.JObj?)
    ensures Dispatch(table, prefix, poll, map[]).error.None?
  {
  }
}
