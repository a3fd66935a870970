/** app/messaging/ClientTypes/StreamClient.py: the client the stream manager
    talks through. Messages are routed by the text of their topic before the
    first "." to at most one handler registered for that prefix. The base
    client's subscriber socket subscribes to "" when it is built, so every
    message arrives whatever `subscriptions` holds; the set only records the
    filters asked for. Sockets become values (`sent`, `socketOps`), the
    received frames are an argument, and `json.loads` is a function argument
    (None where it raises). */
module TopicClient {
  import opened Values
  import opened Strings

  const DefaultName: string := "default-stream"

  /** A SUBSCRIBE or UNSUBSCRIBE option set on the subscriber socket. */
  datatype SocketOp = Subscribe(topic: string) | Unsubscribe(topic: string)

  /** What a non-blocking receive gives: nothing (`zmq.Again`) or frames. */
  datatype Inbound = Again | Frames(parts: seq<string>)

  /** One `handler(topic, event)` call. */
  datatype HandlerCall = HandlerCall(handler: object, topic: string, event: Json)

  /** `topic or f"data.{name}"`: None and "" both fall back to the default. */
  function SendTopic(topic: Option<string>, name: string): (t: string)
    ensures topic.Some? && topic.value != "" ==> t == topic.value
    ensures topic.None? || topic.value == "" ==> t == "data." + name
    ensures t != ""
  {
    if topic.Some? && topic.value != "" then topic.value else "data." + name
  }

  class StreamClient {
    const name: string
    var subscriptions: set<string>
    var handlers: map<string, object>
    var sent: seq<(string, Record)>
    var socketOps: seq<SocketOp>

    constructor (name: string)
      ensures this.name == name && subscriptions == {} && handlers == map[] && sent == [] && socketOps == []
    {
      this.name := name;
      subscriptions := {};
      handlers := map[];
      sent := [];
      socketOps := [];
    }

    /** `send_event(event, topic)` */
    method SendEvent(event: Record, topic: Option<string>)
      modifies this
      ensures sent == old(sent) + [(SendTopic(topic, name), event)]
      ensures subscriptions == old(subscriptions) && handlers == old(handlers) && socketOps == old(socketOps)
    {
      var t := if topic.Some? && topic.value != "" then topic.value else "data." + name;
      sent := sent + [(t, event)];
    }

    /** `subscribe_to(topic)`: a set insertion, so repeating it changes
        nothing in the set. */
    method SubscribeTo(topic: string)
      modifies this
      ensures subscriptions == old(subscriptions) + {topic}
      ensures topic in old(subscriptions) ==> subscriptions == old(subscriptions)
      ensures socketOps == old(socketOps) + [Subscribe(topic)]
      ensures handlers == old(handlers) && sent == old(sent)
    {
      socketOps := socketOps + [Subscribe(topic)];
      subscriptions := subscriptions + {topic};
    }

    /** `unsubscribe_from(topic)`: `discard`, no error when absent. */
    method UnsubscribeFrom(topic: string)
      modifies this
      ensures subscriptions == old(subscriptions) - {topic}
      ensures topic !in old(subscriptions) ==> subscriptions == old(subscriptions)
      ensures socketOps == old(socketOps) + [Unsubscribe(topic)]
      ensures handlers == old(handlers) && sent == old(sent)
    {
      socketOps := socketOps + [Unsubscribe(topic)];
      subscriptions := subscriptions - {topic};
    }

    /** `register_handler(prefix, handler_fn)`: overwrites, reporting whether
        a handler was replaced (the source logs a warning then). */
    method RegisterHandler(prefix: string, handler: object) returns (replaced: bool)
      modifies this
      ensures replaced <==> prefix in old(handlers)
      ensures handlers == old(handlers)[prefix := handler]
      ensures subscriptions == old(subscriptions) && sent == old(sent) && socketOps == old(socketOps)
    {
      replaced := prefix in handlers;
      handlers := handlers[prefix := handler];
    }

    /** `deregister_handler(prefix)`: removes when present, otherwise only
        warns. */
    method DeregisterHandler(prefix: string) returns (removed: bool)
      modifies this
      ensures removed <==> prefix in old(handlers)
      ensures handlers == old(handlers) - {prefix}
      ensures !removed ==> handlers == old(handlers)
      ensures subscriptions == old(subscriptions) && sent == old(sent) && socketOps == old(socketOps)
    {
      removed := prefix in handlers;
      if removed {
        handlers := handlers - {prefix};
      }
    }

    /** `subscriberAction()`: which handler is called, with what. Nothing
        received, fewer than two frames, an undecodable payload or an
        unhandled prefix call nothing; exceptions a handler raises are
        caught and logged. */
    function SubscriberAction(msg: Inbound, decode: string -> Option<Json>): (call: Option<HandlerCall>)
      reads this
      ensures call.Some? <==> msg.Frames? && |msg.parts| >= 2 && decode(msg.parts[1]).Some?
                              && Head(msg.parts[0], '.') in handlers
      ensures call.Some? ==> call.value == HandlerCall(handlers[Head(msg.parts[0], '.')], msg.parts[0],
                                                       decode(msg.parts[1]).value)
    {
      match msg
      case Again => None
      case Frames(parts) =>
        if |parts| < 2 then None
        else
          var topic := parts[0];
          match decode(parts[1])
          case None => None
          case Some(event) =>
            var prefix := Head(topic, '.');
            if prefix in handlers then Some(HandlerCall(handlers[prefix], topic, event)) else None
    }
  }

  /** A message on `prefix.anything` goes to the handler registered for
      `prefix` (when the prefix has no "."), and a topic without any "."
      is its own prefix. */
  lemma {:induction false} RoutedByFirstSegment(c: StreamClient, prefix: string, rest: string, payload: string,
                                                decode: string -> Option<Json>)
    requires '.' !in prefix && prefix in c.handlers && decode(payload).Some?
    ensures c.SubscriberAction(Frames([prefix + "." + rest, payload]), decode)
            == Some(HandlerCall(c.handlers[prefix], prefix + "." + rest, decode(payload).value))
    ensures c.SubscriberAction(Frames([prefix, payload]), decode)
            == Some(HandlerCall(c.handlers[prefix], prefix, decode(payload).value))
  {
    assert prefix + "." + rest == prefix + ['.'] + rest;
    SplitOnceJoin(prefix, '.', rest);
  }

  /** What a client sends without a topic lands, once received by a client
      with a "data" handler, at that handler. */
  lemma {:induction false} DefaultTopicReachesDataHandler(sender: StreamClient, receiver: StreamClient,
                                                          payload: string, decode: string -> Option<Json>)
    requires "data" in receiver.handlers && decode(payload).Some?
    ensures receiver.SubscriberAction(Frames([SendTopic(None, sender.name), payload]), decode).Some?
    ensures receiver.SubscriberAction(Frames([SendTopic(None, sender.name), payload]), decode).value.handler
            == receiver.handlers["data"]
  {
    assert SendTopic(None, sender.name) == "data" + "." + sender.name;
    RoutedByFirstSegment(receiver, "data", sender.name, payload, decode);
  }
}
