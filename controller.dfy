/** `EventsController`: turns tracking requests of an authenticated app into
    event messages, hands them to the event processor and acknowledges each
    one. The request's app is the one the api-key guard attached. Event ids
    (UUID v4) and the current instant are parameters. */
module Events {
  import opened Text
  import opened Values
  import opened Errors
  import opened AppEntity
  import opened Kafka
  import opened Processor

  /** `TrackEventDto`; an absent `properties` is `Undefined`. */
  datatype TrackEvent = TrackEvent(
    eventName: string, userId: string, sessionId: Option<string>, timestamp: Option<string>,
    properties: Value, platform: Option<string>, version: Option<string>, metadata: Option<Value>)

  /** `EventResponseDto` */
  datatype EventResponse = EventResponse(id: string, eventName: string, userId: string, timestamp: string, success: bool)

  /** The event message built for one tracked event. */
  function BuildEvent(app: App, dto: TrackEvent, eventId: string, now: string): (e: EventMessage)
    ensures e.id == eventId && e.appId == app.appId
    ensures e.eventName == dto.eventName && e.userId == Some(dto.userId) && e.sessionId == dto.sessionId
    ensures e.timestamp == OrElse(dto.timestamp, now)
    ensures e.properties == (if Truthy(dto.properties) then dto.properties else Obj([]))
    ensures e.platform == OrElse(dto.platform, PlatformName(app.platform))
    ensures e.deviceId.None?
    ensures e.version == dto.version && e.metadata == dto.metadata
  {
    EventMessage(eventId, app.appId, dto.eventName, Some(dto.userId), None, dto.sessionId,
                 OrElse(dto.timestamp, now), Or(dto.properties, Obj([])),
                 OrElse(dto.platform, PlatformName(app.platform)), dto.version, dto.metadata)
  }

  /** The acknowledgement of one tracked event. */
  function Acknowledge(dto: TrackEvent, eventId: string, now: string): (a: EventResponse)
    ensures a.success && a.id == eventId && a.eventName == dto.eventName && a.userId == dto.userId
    ensures a.timestamp == OrElse(dto.timestamp, now)
  {
    EventResponse(eventId, dto.eventName, dto.userId, OrElse(dto.timestamp, now), true)
  }

  /** An acknowledgement names the event that was sent: same id, same
      timestamp, same name and user. */
  lemma {:induction false} AcknowledgementMatchesEvent(app: App, dto: TrackEvent, eventId: string, now: string)
    ensures var e := BuildEvent(app, dto, eventId, now);
      var a := Acknowledge(dto, eventId, now);
      a.id == e.id && a.timestamp == e.timestamp && a.eventName == e.eventName && Some(a.userId) == e.userId
  {
  }

  /** Whatever the body says, the event belongs to the authenticated app. */
  lemma {:induction false} AppIdFromGuardOnly(app: App, dto: TrackEvent, other: TrackEvent, eventId: string, now: string)
    ensures BuildEvent(app, dto, eventId, now).appId == BuildEvent(app, other, eventId, now).appId == app.appId
  {
  }

  /** The `events.map` of `trackBatchEvents`: one event and one
      acknowledgement per tracked event, in order, the acknowledgements
      pushed as the events are built. */
  method BuildBatch(app: App, dtos: seq<TrackEvent>, ids: seq<string>, nows: seq<string>)
    returns (events: seq<EventMessage>, responses: seq<EventResponse>)
    requires |ids| == |dtos| && |nows| == |dtos|
    ensures |events| == |dtos| && |responses| == |dtos|
    ensures forall i :: 0 <= i < |dtos| ==> events[i] == BuildEvent(app, dtos[i], ids[i], nows[i])
    ensures forall i :: 0 <= i < |dtos| ==> responses[i] == Acknowledge(dtos[i], ids[i], nows[i])
  {
    events := [];
    responses := [];
    var k := 0;
    while k < |dtos|
      invariant 0 <= k <= |dtos|
      invariant |events| == k && |responses| == k
      invariant forall i :: 0 <= i < k ==> events[i] == BuildEvent(app, dtos[i], ids[i], nows[i])
      invariant forall i :: 0 <= i < k ==> responses[i] == Acknowledge(dtos[i], ids[i], nows[i])
    {
      responses := responses + [Acknowledge(dtos[k], ids[k], nows[k])];
      events := events + [BuildEvent(app, dtos[k], ids[k], nows[k])];
      k := k + 1;
    }
  }

  /** In a batch, the i-th acknowledgement carries the id and timestamp of
      the i-th event sent. */
  lemma {:induction false} BatchAcknowledgementsInOrder(app: App, dtos: seq<TrackEvent>, ids: seq<string>, nows: seq<string>,
                                      events: seq<EventMessage>, responses: seq<EventResponse>)
    requires |ids| == |dtos| && |nows| == |dtos| && |events| == |dtos| && |responses| == |dtos|
    requires forall i :: 0 <= i < |dtos| ==> events[i] == BuildEvent(app, dtos[i], ids[i], nows[i])
    requires forall i :: 0 <= i < |dtos| ==> responses[i] == Acknowledge(dtos[i], ids[i], nows[i])
    ensures forall i :: 0 <= i < |dtos| ==>
      responses[i].id == events[i].id && responses[i].timestamp == events[i].timestamp && responses[i].success
    ensures forall i :: 0 <= i < |dtos| ==> BatchMessages(events)[i].key == responses[i].id
  {
    forall i | 0 <= i < |dtos|
      ensures responses[i].id == events[i].id && responses[i].timestamp == events[i].timestamp && responses[i].success
    {
      AcknowledgementMatchesEvent(app, dtos[i], ids[i], nows[i]);
    }
  }

  class EventsController {
    const processor: EventProcessor

    constructor (processor: EventProcessor)
      ensures this.processor == processor
    {
      this.processor := processor;
    }

    /** `trackEvent`: one event sent, then acknowledged. A failed send is
        not caught, and nothing is acknowledged then. */
    method TrackEvent(app: App, dto: TrackEvent, eventId: string, now: string,
                      producerOk: bool, consumerOk: bool, sendOk: bool) returns (r: Result<EventResponse>)
      modifies processor.kafka
      ensures r.Ok? <==> (old(processor.kafka.isConnected) || (producerOk && consumerOk)) && sendOk
      ensures r.Ok? ==> r.value == Acknowledge(dto, eventId, now)
      ensures r.Ok? ==> processor.kafka.sent == old(processor.kafka.sent) + [Send(EventsTopic, [MessageOf(BuildEvent(app, dto, eventId, now))])]
      ensures r.Err? ==> processor.kafka.sent == old(processor.kafka.sent)
      ensures processor.kafka.isConnected == (old(processor.kafka.isConnected) || (producerOk && consumerOk))
      ensures processor.kafka.topics == old(processor.kafka.topics) && processor.kafka.subscriptions == old(processor.kafka.subscriptions)
    {
      var event := BuildEvent(app, dto, eventId, now);
      var sent := processor.SendEvent(event, producerOk, consumerOk, sendOk);
      if sent.Err? {
        return Err(sent.error);
      }
      r := Ok(Acknowledge(dto, eventId, now));
    }

    /** `trackBatchEvents`: all events are built first and then handed over
        in one send; the acknowledgements follow the order of the request. */
    method TrackBatchEvents(app: App, dtos: seq<TrackEvent>, ids: seq<string>, nows: seq<string>,
                            producerOk: bool, consumerOk: bool, sendOk: bool) returns (r: Result<seq<EventResponse>>)
      requires |ids| == |dtos| && |nows| == |dtos|
      modifies processor.kafka
      ensures r.Ok? <==> (old(processor.kafka.isConnected) || (producerOk && consumerOk)) && sendOk
      ensures r.Ok? ==> |r.value| == |dtos|
      ensures r.Ok? ==> forall i :: 0 <= i < |dtos| ==> r.value[i] == Acknowledge(dtos[i], ids[i], nows[i])
      ensures r.Ok? ==> |processor.kafka.sent| == |old(processor.kafka.sent)| + 1
      ensures r.Ok? ==> processor.kafka.sent[..|old(processor.kafka.sent)|] == old(processor.kafka.sent)
      ensures r.Ok? ==> var batch := processor.kafka.sent[|processor.kafka.sent| - 1];
        batch.topic == EventsTopic && |batch.messages| == |dtos|
        && forall i :: 0 <= i < |dtos| ==> batch.messages[i] == MessageOf(BuildEvent(app, dtos[i], ids[i], nows[i]))
      ensures r.Err? ==> processor.kafka.sent == old(processor.kafka.sent)
      ensures processor.kafka.isConnected == (old(processor.kafka.isConnected) || (producerOk && consumerOk))
      ensures processor.kafka.topics == old(processor.kafka.topics) && processor.kafka.subscriptions == old(processor.kafka.subscriptions)
    {
      var events, responses := BuildBatch(app, dtos, ids, nows);
      var sent := processor.SendBatchEvents(events, producerOk, consumerOk, sendOk);
      if sent.Err? {
        return Err(sent.error);
      }
      r := Ok(responses);
    }
  }
}
