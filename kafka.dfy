/** `KafkaService`: a lazily connected producer/consumer pair. The broker is
    abstract: the topics created, the sends made (each with its messages, in
    order) and the topics subscribed to. Whether a call to the broker
    succeeds is a parameter. JSON serialisation is kept symbolic: the value
    of a message this service writes is the event it serialised. */
module Kafka {
  import opened Text
  import opened Values
  import opened Errors

  datatype EventMessage = EventMessage(
    id: string, appId: string, eventName: string,
    userId: Option<string>, deviceId: Option<string>, sessionId: Option<string>,
    timestamp: string, properties: Value, platform: string,
    version: Option<string>, metadata: Option<Value>)

  /** The bytes of a message value: the `JSON.stringify` of an event, or
      text this service did not write. */
  datatype MessageValue = EventJson(event: EventMessage) | Raw(text: string)

  datatype Headers = Headers(appId: string, eventName: string, timestamp: string)

  datatype Message = Message(key: string, value: MessageValue, headers: Headers)

  /** One `producer.send` call. */
  datatype Send = Send(topic: string, messages: seq<Message>)

  datatype TopicSpec = TopicSpec(partitions: int, replicationFactor: int)

  const DefaultPartitions := 3
  const DefaultReplicationFactor := 1

  /** The message a send builds for one event. */
  function MessageOf(e: EventMessage): (m: Message)
    ensures m.key == e.id
    ensures m.headers.appId == e.appId && m.headers.eventName == e.eventName && m.headers.timestamp == e.timestamp
  {
    Message(e.id, EventJson(e), Headers(e.appId, e.eventName, e.timestamp))
  }

  /** `events.map(...)` in `sendBatchEvents`. */
  function BatchMessages(events: seq<EventMessage>): (ms: seq<Message>)
    ensures |ms| == |events|
    ensures forall i :: 0 <= i < |events| ==> ms[i].key == events[i].id && ms[i].headers.appId == events[i].appId
  {
    seq(|events|, i requires 0 <= i < |events| => MessageOf(events[i]))
  }

  /** What the consumer hands on for one message: the parsed event; the
      empty object `{}` when the value is missing or empty; or text of
      another producer, whose parsing is not part of this model. */
  datatype Delivery = Handle(event: EventMessage) | HandleEmpty | Foreign(text: string)

  function Deliver(value: Option<MessageValue>): (d: Delivery)
    ensures value.None? ==> d == HandleEmpty
    ensures value == Some(Raw("")) ==> d == HandleEmpty
  {
    match value
    case None => HandleEmpty
    case Some(EventJson(e)) => Handle(e)
    case Some(Raw(t)) => if t == "" then HandleEmpty else Foreign(t)
  }

  /** Every message of a batch reaches the consumer as the event it was
      built from, in the order of the batch. */
  lemma {:induction false} BatchRoundTrip(events: seq<EventMessage>)
    ensures var ms := BatchMessages(events);
      forall i :: 0 <= i < |events| ==> Deliver(Some(ms[i].value)) == Handle(events[i])
  {
  }

  /** The consumer group is named after the client id. */
  function ConsumerGroupId(clientId: string): (g: string)
    ensures StartsWith(g, clientId) && g[|clientId|..] == "-consumer-group"
  {
    clientId + "-consumer-group"
  }

  lemma {:induction false} ConsumerGroupIdInjective(a: string, b: string)
    requires ConsumerGroupId(a) == ConsumerGroupId(b)
    ensures a == b
  {
    assert |a| == |b|;
    assert a == ConsumerGroupId(a)[..|a|];
  }

  const BrokerError := "Kafka broker error"

  class KafkaService {
    const clientId: string
    var isConnected: bool
    var topics: map<string, TopicSpec>
    var sent: seq<Send>
    var subscriptions: seq<string>

    constructor (clientId: string)
      ensures this.clientId == clientId && !isConnected
      ensures topics == map[] && sent == [] && subscriptions == []
    {
      this.clientId := clientId;
      isConnected := false;
      topics := map[];
      sent := [];
      subscriptions := [];
    }

    /** `connect`: the flag is set only once both the producer and the
        consumer have connected; a failure is rethrown and leaves the flag
        as it was. */
    method Connect(producerOk: bool, consumerOk: bool) returns (r: Result<()>)
      modifies this
      ensures r.Ok? <==> producerOk && consumerOk
      ensures isConnected == (r.Ok? || old(isConnected))
      ensures topics == old(topics) && sent == old(sent) && subscriptions == old(subscriptions)
    {
      if !producerOk || !consumerOk {
        return Err(PlainError(BrokerError));
      }
      isConnected := true;
      r := Ok(());
    }

    /** `disconnect`: clears the flag when both sides disconnect and
        swallows any failure. */
    method Disconnect(producerOk: bool, consumerOk: bool)
      modifies this
      ensures isConnected == (if producerOk && consumerOk then false else old(isConnected))
      ensures topics == old(topics) && sent == old(sent) && subscriptions == old(subscriptions)
    {
      if producerOk && consumerOk {
        isConnected := false;
      }
    }

    /** Connects first exactly when not connected. */
    method EnsureConnected(producerOk: bool, consumerOk: bool) returns (r: Result<()>)
      modifies this
      ensures old(isConnected) ==> r.Ok? && isConnected
      ensures !old(isConnected) ==> (r.Ok? <==> producerOk && consumerOk) && isConnected == r.Ok?
      ensures topics == old(topics) && sent == old(sent) && subscriptions == old(subscriptions)
    {
      r := Ok(());
      if !isConnected {
        r := Connect(producerOk, consumerOk);
      }
    }

    /** `sendEvent`: one send of one message. A failed lazy connect or a
        failed send is rethrown, and nothing is sent then. */
    method SendEvent(topic: string, event: EventMessage, producerOk: bool, consumerOk: bool, sendOk: bool)
      returns (r: Result<()>)
      modifies this
      ensures isConnected == (old(isConnected) || (producerOk && consumerOk))
      ensures r.Ok? <==> isConnected && sendOk
      ensures r.Ok? ==> sent == old(sent) + [Send(topic, [MessageOf(event)])]
      ensures r.Err? ==> sent == old(sent)
      ensures topics == old(topics) && subscriptions == old(subscriptions)
    {
      r := EnsureConnected(producerOk, consumerOk);
      if r.Err? {
        return;
      }
      if !sendOk {
        return Err(PlainError(BrokerError));
      }
      sent := sent + [Send(topic, [MessageOf(event)])];
    }

    /** `sendBatchEvents`: one send holding one message per event, in the
        order of the events. */
    method SendBatchEvents(topic: string, events: seq<EventMessage>, producerOk: bool, consumerOk: bool, sendOk: bool)
      returns (r: Result<()>)
      modifies this
      ensures isConnected == (old(isConnected) || (producerOk && consumerOk))
      ensures r.Ok? <==> isConnected && sendOk
      ensures r.Ok? ==> sent == old(sent) + [Send(topic, BatchMessages(events))]
      ensures r.Err? ==> sent == old(sent)
      ensures topics == old(topics) && subscriptions == old(subscriptions)
    {
      r := EnsureConnected(producerOk, consumerOk);
      if r.Err? {
        return;
      }
      if !sendOk {
        return Err(PlainError(BrokerError));
      }
      sent := sent + [Send(topic, BatchMessages(events))];
    }

    /** `subscribeToTopic`: the subscription is recorded once the consumer
        accepts it; failures are rethrown. Handling the messages that then
        arrive is the subscriber's `HandleMessage`, which never fails. */
    method SubscribeToTopic(topic: string, producerOk: bool, consumerOk: bool, subscribeOk: bool)
      returns (r: Result<()>)
      modifies this
      ensures isConnected == (old(isConnected) || (producerOk && consumerOk))
      ensures r.Ok? <==> isConnected && subscribeOk
      ensures r.Ok? ==> subscriptions == old(subscriptions) + [topic]
      ensures r.Err? ==> subscriptions == old(subscriptions)
      ensures topics == old(topics) && sent == old(sent)
    {
      r := EnsureConnected(producerOk, consumerOk);
      if r.Err? {
        return;
      }
      if !subscribeOk {
        return Err(PlainError(BrokerError));
      }
      subscriptions := subscriptions + [topic];
    }

    /** `createTopic`: any failure of the admin client is rethrown; a topic
        that already exists keeps its settings. */
    method CreateTopic(topic: string, partitions: int, replicationFactor: int, adminOk: bool)
      returns (r: Result<()>)
      modifies this
      ensures r.Ok? <==> adminOk
      ensures r.Ok? ==> topic in topics
      ensures r.Ok? && topic !in old(topics) ==> topics == old(topics)[topic := TopicSpec(partitions, replicationFactor)]
      ensures r.Err? || topic in old(topics) ==> topics == old(topics)
      ensures isConnected == old(isConnected) && sent == old(sent) && subscriptions == old(subscriptions)
    {
      if !adminOk {
        return Err(PlainError(BrokerError));
      }
      if topic !in topics {
        topics := topics[topic := TopicSpec(partitions, replicationFactor)];
      }
      r := Ok(());
    }
  }
}
