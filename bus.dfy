/** The in-process event bus: `EventEmitterService` publishes on three
    topics and `EventListenerService` forwards what it hears to the event
    processor. Publishing is recorded in a log of (topic, payload) entries;
    delivery is sequential. */
module Bus {
  import opened Text
  import opened Errors
  import opened Kafka
  import opened Processor

  const EventTracked := "event.tracked"
  const BatchEventsTracked := "batch.events.tracked"
  const DeviceLinked := "device.linked"

  /** The three topic names are distinct. */
  lemma {:induction false} TopicNamesDistinct()
    ensures EventTracked != BatchEventsTracked && EventTracked != DeviceLinked && BatchEventsTracked != DeviceLinked
  {
  }

  datatype Payload = EventPayload(event: EventMessage) | BatchPayload(events: seq<EventMessage>)

  datatype Entry = Entry(topic: string, payload: Payload)

  /** The payload shape each topic carries. */
  predicate WellShaped(e: Entry) {
    (e.topic == BatchEventsTracked && e.payload.BatchPayload?)
    || ((e.topic == EventTracked || e.topic == DeviceLinked) && e.payload.EventPayload?)
  }

  class EventEmitter {
    var published: seq<Entry>

    ghost predicate Valid()
      reads this
    {
      forall i :: 0 <= i < |published| ==> WellShaped(published[i])
    }

    constructor ()
      ensures Valid() && published == []
    {
      published := [];
    }

    /** `emitEventTracked` */
    method EmitEventTracked(event: EventMessage)
      requires Valid()
      modifies this
      ensures Valid() && published == old(published) + [Entry(EventTracked, EventPayload(event))]
    {
      published := published + [Entry(EventTracked, EventPayload(event))];
    }

    /** `emitBatchEventsTracked`: the whole list is one payload. */
    method EmitBatchEventsTracked(events: seq<EventMessage>)
      requires Valid()
      modifies this
      ensures Valid() && published == old(published) + [Entry(BatchEventsTracked, BatchPayload(events))]
    {
      published := published + [Entry(BatchEventsTracked, BatchPayload(events))];
    }

    /** `emitDeviceLinked`: the same payload shape on its own topic. */
    method EmitDeviceLinked(event: EventMessage)
      requires Valid()
      modifies this
      ensures Valid() && published == old(published) + [Entry(DeviceLinked, EventPayload(event))]
    {
      published := published + [Entry(DeviceLinked, EventPayload(event))];
    }
  }

  /** The send a delivered entry asks for: the topic decides the handler. */
  function Forwarded(e: Entry): (s: Option<Send>)
    ensures WellShaped(e) ==> s.Some? && s.value.topic == EventsTopic
    ensures e.topic == EventTracked && e.payload.EventPayload? ==> s == Some(Send(EventsTopic, [MessageOf(e.payload.event)]))
    ensures e.topic == DeviceLinked && e.payload.EventPayload? ==> s == Some(Send(EventsTopic, [MessageOf(e.payload.event)]))
    ensures e.topic == BatchEventsTracked && e.payload.BatchPayload? ==> s == Some(Send(EventsTopic, BatchMessages(e.payload.events)))
  {
    if (e.topic == EventTracked || e.topic == DeviceLinked) && e.payload.EventPayload? then
      Some(Send(EventsTopic, [MessageOf(e.payload.event)]))
    else if e.topic == BatchEventsTracked && e.payload.BatchPayload? then
      Some(Send(EventsTopic, BatchMessages(e.payload.events)))
    else None
  }

  /** A device link is forwarded exactly like a tracked event. */
  lemma {:induction false} DeviceLinkedForwardedAsTracked(event: EventMessage)
    ensures Forwarded(Entry(DeviceLinked, EventPayload(event))) == Forwarded(Entry(EventTracked, EventPayload(event)))
  {
  }

  /** Whether a forwarded send reaches the broker: the service is already
      connected or connects now, and the send itself succeeds. */
  predicate Sends(connected: bool, producerOk: bool, consumerOk: bool, sendOk: bool) {
    (connected || (producerOk && consumerOk)) && sendOk
  }

  class EventListener {
    const processor: EventProcessor

    constructor (processor: EventProcessor)
      ensures this.processor == processor
    {
      this.processor := processor;
    }

    /** `handleEventTracked` */
    method HandleEventTracked(event: EventMessage, producerOk: bool, consumerOk: bool, sendOk: bool)
      modifies processor.kafka
      ensures processor.kafka.sent == old(processor.kafka.sent)
        + (if Sends(old(processor.kafka.isConnected), producerOk, consumerOk, sendOk) then [Send(EventsTopic, [MessageOf(event)])] else [])
      ensures processor.kafka.isConnected == (old(processor.kafka.isConnected) || (producerOk && consumerOk))
      ensures processor.kafka.topics == old(processor.kafka.topics) && processor.kafka.subscriptions == old(processor.kafka.subscriptions)
    {
      var r := processor.SendEvent(event, producerOk, consumerOk, sendOk);
    }

    /** `handleBatchEventsTracked` */
    method HandleBatchEventsTracked(events: seq<EventMessage>, producerOk: bool, consumerOk: bool, sendOk: bool)
      modifies processor.kafka
      ensures processor.kafka.sent == old(processor.kafka.sent)
        + (if Sends(old(processor.kafka.isConnected), producerOk, consumerOk, sendOk) then [Send(EventsTopic, BatchMessages(events))] else [])
      ensures processor.kafka.isConnected == (old(processor.kafka.isConnected) || (producerOk && consumerOk))
      ensures processor.kafka.topics == old(processor.kafka.topics) && processor.kafka.subscriptions == old(processor.kafka.subscriptions)
    {
      var r := processor.SendBatchEvents(events, producerOk, consumerOk, sendOk);
    }

    /** `handleDeviceLinked`: one send, as for a tracked event, and nothing
        else. */
    method HandleDeviceLinked(event: EventMessage, producerOk: bool, consumerOk: bool, sendOk: bool)
      modifies processor.kafka
      ensures processor.kafka.sent == old(processor.kafka.sent)
        + (if Sends(old(processor.kafka.isConnected), producerOk, consumerOk, sendOk) then [Send(EventsTopic, [MessageOf(event)])] else [])
      ensures processor.kafka.isConnected == (old(processor.kafka.isConnected) || (producerOk && consumerOk))
      ensures processor.kafka.topics == old(processor.kafka.topics) && processor.kafka.subscriptions == old(processor.kafka.subscriptions)
    {
      var r := processor.SendEvent(event, producerOk, consumerOk, sendOk);
    }

    /** Delivery of one published entry to the handler of its topic. No
        failure leaves the handler. */
    method Deliver(e: Entry, producerOk: bool, consumerOk: bool, sendOk: bool)
      requires WellShaped(e)
      modifies processor.kafka
      ensures processor.kafka.sent == old(processor.kafka.sent)
        + (if Sends(old(processor.kafka.isConnected), producerOk, consumerOk, sendOk) then [Forwarded(e).value] else [])
      ensures processor.kafka.isConnected == (old(processor.kafka.isConnected) || (producerOk && consumerOk))
      ensures processor.kafka.topics == old(processor.kafka.topics) && processor.kafka.subscriptions == old(processor.kafka.subscriptions)
    {
      if e.topic == EventTracked {
        HandleEventTracked(e.payload.event, producerOk, consumerOk, sendOk);
      } else if e.topic == BatchEventsTracked {
        HandleBatchEventsTracked(e.payload.events, producerOk, consumerOk, sendOk);
      } else {
        HandleDeviceLinked(e.payload.event, producerOk, consumerOk, sendOk);
      }
    }
  }
}
