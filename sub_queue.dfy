/** The inbound path: the fixed-capacity queue of subscription messages
    (`subMsgQueue`, an ArduinoQueue), the default MQTT callback that fills it,
    and the client's service tick that runs the callback for each arrival. */
module SubQueue {
  import opened FixedWidth

  /** MQTT_QUEUE_LIMIT. */
  const MQTT_QUEUE_LIMIT: nat := 20

  /** `tSubMsg`. */
  datatype SubMsg = SubMsg(topic: string, payload: string)

  /** A PUBLISH packet the MQTT client hands to the callback: the topic and
      the payload bytes. */
  datatype Arrival = Arrival(topic: string, payload: seq<byte>)

  /** Each byte widened to a `char`, as `(char)payload[i]` does. */
  function Chars(bytes: seq<byte>): (s: string)
    ensures |s| == |bytes|
    ensures forall i :: 0 <= i < |s| ==> s[i] as int == bytes[i] as int
  {
    seq(|bytes|, i requires 0 <= i < |bytes| => bytes[i] as int as char)
  }

  /** The inverse of `Chars` on characters below 256. */
  function Bytes(s: string): (bytes: seq<byte>)
    requires forall i :: 0 <= i < |s| ==> s[i] as int < 0x100
    ensures |bytes| == |s|
    ensures forall i :: 0 <= i < |s| ==> bytes[i] as int == s[i] as int
  {
    seq(|s|, i requires 0 <= i < |s| => s[i] as int as byte)
  }

  /** No payload byte is lost or altered on the way into the queued string. */
  lemma CharsRoundTrip(bytes: seq<byte>)
    ensures Bytes(Chars(bytes)) == bytes
  {
  }

  /** The message `defCallback` builds from one arrival. */
  function Received(a: Arrival): (m: SubMsg)
    ensures m.topic == a.topic && |m.payload| == |a.payload|
    ensures forall i :: 0 <= i < |a.payload| ==> m.payload[i] as int == a.payload[i] as int
  {
    SubMsg(a.topic, Chars(a.payload))
  }

  /** The messages a run of arrivals adds to the queue, in arrival order. */
  function Messages(arrivals: seq<Arrival>): (ms: seq<SubMsg>)
    ensures |ms| == |arrivals|
    ensures forall i :: 0 <= i < |arrivals| ==> ms[i] == Received(arrivals[i])
  {
    if arrivals == [] then [] else [Received(arrivals[0])] + Messages(arrivals[1..])
  }

  lemma MessagesAppend(arrivals: seq<Arrival>, a: Arrival)
    ensures Messages(arrivals + [a]) == Messages(arrivals) + [Received(a)]
  {
  }

  /** The bounded FIFO of subscription messages. */
  class MsgQueue {
    const capacity: nat
    var items: seq<SubMsg>

    predicate Valid()
      reads this
    {
      |items| <= capacity
    }

    constructor (limit: nat)
      ensures Valid()
      ensures capacity == limit && items == []
    {
      capacity := limit;
      items := [];
    }

    method IsEmpty() returns (empty: bool)
      ensures empty <==> items == []
    {
      empty := |items| == 0;
    }

    /** Appends at the tail. What the container does when full is not part
        of this model, so the queue must have room. */
    method Enqueue(m: SubMsg)
      requires Valid() && |items| < capacity
      modifies this`items
      ensures Valid()
      ensures items == old(items) + [m]
    {
      items := items + [m];
    }

    /** Removes and returns the head; callers check `IsEmpty` first. */
    method Dequeue() returns (m: SubMsg)
      requires Valid() && items != []
      modifies this`items
      ensures Valid()
      ensures m == old(items)[0] && items == old(items)[1..]
    {
      m := items[0];
      items := items[1..];
    }
  }

  /** `defCallback(topic, payload, length)`: builds the payload string from
      the first `length` bytes, one byte at a time, and enqueues the pair. */
  method DefCallback(queue: MsgQueue, topic: string, payload: seq<byte>, length: nat)
    requires length <= |payload|
    requires queue.Valid() && |queue.items| < queue.capacity
    modifies queue`items
    ensures queue.Valid()
    ensures queue.items == old(queue.items) + [SubMsg(topic, Chars(payload[..length]))]
  {
    var msgTopic := topic;
    var msgPayload: string := "";
    for i := 0 to length
      invariant msgPayload == Chars(payload[..i])
    {
      assert payload[..i + 1] == payload[..i] + [payload[i]];
      msgPayload := msgPayload + [payload[i] as int as char];
    }
    queue.Enqueue(SubMsg(msgTopic, msgPayload));
  }

  /** `client.loop()` with the default callback installed: every arrival is
      handed to `defCallback` in order. */
  method ServiceTick(queue: MsgQueue, arrivals: seq<Arrival>)
    requires queue.Valid() && |queue.items| + |arrivals| <= queue.capacity
    modifies queue`items
    ensures queue.Valid()
    ensures queue.items == old(queue.items) + Messages(arrivals)
  {
    for k := 0 to |arrivals|
      invariant queue.Valid()
      invariant queue.items == old(queue.items) + Messages(arrivals[..k])
    {
      var a := arrivals[k];
      assert arrivals[..k + 1] == arrivals[..k] + [a];
      MessagesAppend(arrivals[..k], a);
      assert a.payload[..|a.payload|] == a.payload;
      DefCallback(queue, a.topic, a.payload, |a.payload|);
    }
    assert arrivals[..|arrivals|] == arrivals;
  }
}
