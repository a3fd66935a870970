/** publish/zmq_setup.py: the text framing of the publisher and subscriber.
    A frame is the topic, one space, and the JSON text of the payload;
    receiving splits at the first space. The sockets are not modelled: the
    publisher's sent frames are a field, and a received frame is an
    argument. `json.dumps` is the publisher's `encode` function and
    `json.loads` an argument (None where it raises). */
module ZmqFraming {
  import opened Values
  import opened Strings

  /** `f"{topic} {message}"` */
  function Frame(topic: string, message: string): string {
    topic + " " + message
  }

  /** Unpacking a one-element split into `topic, message`. */
  const UnpackError: PyError := ValueError("not enough values to unpack (expected 2, got 1)")

  /** `json.JSONDecodeError`, a subclass of ValueError. */
  const DecodeError: PyError := ValueError("Expecting value")

  /** `ZMQSubscriber.receive()` once the frame has been read off the socket:
      the topic is the text before the first space and the payload is the
      decoded rest. A frame with no space fails to unpack. */
  function Receive(frame: string, loads: string -> Option<Json>): (r: Result<(string, Json), PyError>)
    ensures ' ' !in frame ==> r == Err(UnpackError)
    ensures ' ' in frame ==> r.Ok? || r == Err(DecodeError)
    ensures r.Ok? ==> ' ' !in r.value.0
                      && exists message :: frame == Frame(r.value.0, message) && loads(message) == Some(r.value.1)
  {
    match SplitOnce(frame, ' ')
    case None => Err(UnpackError)
    case Some(parts) =>
      match loads(parts.1)
      case None => Err(DecodeError)
      case Some(data) => Ok((parts.0, data))
  }

  /** A frame whose topic has no space comes apart into that topic and the
      whole message, spaces in the message included. */
  lemma {:induction false} ReceiveFrame(topic: string, message: string, loads: string -> Option<Json>)
    requires ' ' !in topic
    ensures Receive(Frame(topic, message), loads)
            == if loads(message).Some? then Ok((topic, loads(message).value)) else Err(DecodeError)
  {
    SplitOnceJoin(topic, ' ', message);
  }

  /** A topic with a space does not survive: the receiver sees the text
      before its first space as the topic, and the rest of the topic becomes
      the start of the message. */
  lemma {:induction false} SpacedTopicSplits(head: string, tail: string, message: string,
                                             loads: string -> Option<Json>)
    requires ' ' !in head
    ensures Receive(Frame(head + " " + tail, message), loads) == Receive(Frame(head, tail + " " + message), loads)
    ensures loads(tail + " " + message).Some? ==>
              Receive(Frame(head + " " + tail, message), loads) == Ok((head, loads(tail + " " + message).value))
  {
    assert Frame(head + " " + tail, message) == Frame(head, tail + " " + message);
    ReceiveFrame(head, tail + " " + message, loads);
  }

  /** `ZMQPublisher`: the frames sent so far. */
  class Publisher {
    const encode: Record -> string
    var frames: seq<string>

    constructor (encode: Record -> string)
      ensures this.encode == encode && frames == []
    {
      this.encode := encode;
      frames := [];
    }

    /** `publish(topic, data)` */
    method Publish(topic: string, data: Record)
      modifies this
      ensures frames == old(frames) + [Frame(topic, encode(data))]
    {
      var message := encode(data);
      frames := frames + [topic + " " + message];
    }
  }

  /** What a subscriber receives from a published frame: the topic and the
      payload back, provided the topic has no space and the decoder inverts
      the encoder on this payload. */
  lemma {:induction false} PublishReceiveRoundTrip(topic: string, data: Record, encode: Record -> string,
                                                   loads: string -> Option<Json>)
    requires ' ' !in topic
    requires loads(encode(data)) == Some(JObj(data))
    ensures Receive(Frame(topic, encode(data)), loads) == Ok((topic, JObj(data)))
  {
    ReceiveFrame(topic, encode(data), loads);
  }
}
