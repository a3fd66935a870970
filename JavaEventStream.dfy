/** java/src/main/java/messaging/EventStream.java: the CEP side's event bus.
    Unlike the Python clients it keeps at most one handler per (partition,
    stream id), and a message goes to the exact handler or, failing that, to
    the partition's wildcard handler, never to both. The underlying
    StreamClient is replaced by what was handed to it: published pairs,
    subscription prefixes and whether it was closed. Handlers are not run;
    dispatching returns the one call it makes, if any. */
module JavaMessaging {
  import opened Values
  import opened Strings
  import Messaging

  class EventStream {
    /** partition -> stream id (or "*") -> handler */
    var subscribers: map<string, map<string, object>>
    /** `client.publish(topic, event)` calls, in order. */
    var published: seq<(string, Record)>
    /** `client.subscribeTo(prefix)` calls, in order. */
    var prefixes: seq<string>
    var closed: bool

    constructor ()
      ensures subscribers == map[] && published == [] && prefixes == [] && !closed
    {
      subscribers := map[];
      published := [];
      prefixes := [];
      closed := false;
    }

    /** `addEvent(partition, streamId, event)`: publishes on
        `partition + "." + streamId`. */
    method AddEvent(partition: string, streamId: string, event: Record)
      modifies this
      ensures published == old(published) + [(partition + "." + streamId, event)]
      ensures subscribers == old(subscribers) && prefixes == old(prefixes) && closed == old(closed)
    {
      var topic := partition + "." + streamId;
      published := published + [(topic, event)];
    }

    /** The handlers of one partition (empty when it has none). */
    function HandlersOf(partition: string): map<string, object>
      reads this
    {
      if partition in subscribers then subscribers[partition] else map[]
    }

    /** `subscribe(partition, streamId, handler)`: `put` replaces an earlier
        handler for the same pair; the transport prefix is `partition.` for
        the wildcard and `partition.streamId` otherwise. */
    method Subscribe(partition: string, streamId: string, handler: object)
      modifies this
      ensures subscribers == old(subscribers)[partition := old(HandlersOf(partition))[streamId := handler]]
      ensures HandlersOf(partition)[streamId] == handler
      ensures forall p, s :: (p != partition || s != streamId) ==>
                (s in HandlersOf(p) <==> s in old(HandlersOf(p)))
                && (s in HandlersOf(p) ==> HandlersOf(p)[s] == old(HandlersOf(p))[s])
      ensures prefixes == old(prefixes) + [partition + (if streamId == "*" then "." else "." + streamId)]
      ensures published == old(published) && closed == old(closed)
    {
      var inner := HandlersOf(partition);
      subscribers := subscribers[partition := inner[streamId := handler]];
      var prefix := partition + (if streamId == "*" then "." else "." + streamId);
      prefixes := prefixes + [prefix];
    }

    /** `dispatchEvent(topic, event)`: the topic is split at its first ".";
        the exact handler is called if there is one, otherwise the wildcard
        handler if there is one. */
    function DispatchEvent(topic: string, event: Record): (d: Option<Messaging.Delivery>)
      reads this
      ensures '.' !in topic ==> d.None?
      ensures d.Some? ==> d.value.1 == event
      ensures d.Some? ==> exists p, s :: topic == p + ['.'] + s && '.' !in p && p in subscribers
                                        && ((s in subscribers[p] && d.value.0 == subscribers[p][s])
                                            || (s !in subscribers[p] && "*" in subscribers[p]
                                                && d.value.0 == subscribers[p]["*"]))
    {
      match SplitOnce(topic, '.')
      case None => None
      case Some((partition, streamId)) =>
        if partition !in subscribers then None
        else
          var handlers := subscribers[partition];
          if streamId in handlers then Some((handlers[streamId], event))
          else if "*" in handlers then Some((handlers["*"], event))
          else None
    }

    /** `stop()`: closes the client. */
    method Stop()
      modifies this
      ensures closed
      ensures subscribers == old(subscribers) && published == old(published) && prefixes == old(prefixes)
    {
      closed := true;
    }
  }

  /** An event added under (partition, id) reaches the handler subscribed to
      exactly that pair, and only that handler, whatever the id contains; the
      partition's wildcard handler is skipped. A partition holding a "." would
      be split in the wrong place. */
  lemma {:induction false} ExactHandlerWins(es: EventStream, partition: string, streamId: string, event: Record)
    requires '.' !in partition
    requires partition in es.subscribers && streamId in es.subscribers[partition]
    ensures es.DispatchEvent(partition + "." + streamId, event) == Some((es.subscribers[partition][streamId], event))
  {
    assert partition + "." + streamId == partition + ['.'] + streamId;
    SplitOnceJoin(partition, '.', streamId);
  }

  /** Without an exact handler the wildcard handler gets the event; without
      either, nobody does. */
  lemma {:induction false} WildcardFallback(es: EventStream, partition: string, streamId: string, event: Record)
    requires '.' !in partition
    requires partition in es.subscribers && streamId !in es.subscribers[partition]
    ensures "*" in es.subscribers[partition] ==>
              es.DispatchEvent(partition + "." + streamId, event) == Some((es.subscribers[partition]["*"], event))
    ensures "*" !in es.subscribers[partition] ==> es.DispatchEvent(partition + "." + streamId, event).None?
  {
    assert partition + "." + streamId == partition + ['.'] + streamId;
    SplitOnceJoin(partition, '.', streamId);
  }

  /** A partition nobody subscribed to drops the event. */
  lemma {:induction false} UnknownPartitionDropped(es: EventStream, partition: string, streamId: string, event: Record)
    requires '.' !in partition && partition !in es.subscribers
    ensures es.DispatchEvent(partition + "." + streamId, event).None?
  {
    assert partition + "." + streamId == partition + ['.'] + streamId;
    SplitOnceJoin(partition, '.', streamId);
  }

  /** The two buses disagree when a stream has both an exact and a wildcard
      subscriber: the Python client calls both, the Java stream only the
      exact one. */
  lemma {:induction false} RoutingDiffers(es: EventStream, partition: string, streamId: string,
                                          exact: object, wildcard: object, doc: map<string, Json>)
    requires '.' !in partition && streamId != "*"
    requires es.subscribers == map[partition := map[streamId := exact, "*" := wildcard]]
    ensures es.DispatchEvent(partition + "." + streamId, doc) == Some((exact, doc))
    ensures var table := map[Messaging.Topic(partition, streamId) := [exact], Messaging.Topic(partition, "*") := [wildcard]];
            Messaging.Recipients(Messaging.Dispatch(table, partition, Messaging.Received(partition + "." + streamId, Some(JObj(doc))), map[]).delivered)
            == [exact, wildcard]
  {
    ExactHandlerWins(es, partition, streamId, doc);
    var table := map[Messaging.Topic(partition, streamId) := [exact], Messaging.Topic(partition, "*") := [wildcard]];
    assert Messaging.Topic(partition, streamId) != Messaging.Topic(partition, "*") by {
      assert Messaging.Topic(partition, streamId)[|partition| + 1..] == streamId;
      assert Messaging.Topic(partition, "*")[|partition| + 1..] == "*";
    }
    assert Messaging.Registered(table, partition + "." + streamId) == [exact];
    assert Messaging.Registered(table, Messaging.Topic(partition, "*")) == [wildcard];
    Messaging.DispatchReachesBoth(table, partition, partition + "." + streamId, JObj(doc), map[]);
  }
}
