/** `EventProcessorService`: consumes tracked events from the `events` topic
    and records each one in the `events` table of its app's tenant database,
    creating database and table on first use, then bumps the app's event
    counter. Every failure is swallowed. */
module Processor {
  import opened Text
  import opened Values
  import opened Errors
  import opened AppEntity
  import opened Apps
  import opened Auth
  import opened ClickHouse
  import opened Kafka

  const EventsTopic := "events"
  const EventsTableName := "events"

  /** The row `processEvent` inserts: session id and version default to the
      empty string, the properties are stored as JSON text, and the event's
      id, device id and metadata are not stored. */
  function EventRowOf(e: EventMessage): (row: EventRow)
    ensures row.appId == e.appId && row.eventName == e.eventName && row.userId == e.userId
    ensures row.timestamp == e.timestamp && row.platform == e.platform
    ensures row.properties == Stringified(e.properties)
    ensures row.sessionId == OrElse(e.sessionId, "") && row.version == OrElse(e.version, "")
  {
    EventRow(e.appId, e.eventName, e.userId, OrElse(e.sessionId, ""), e.timestamp,
             Stringified(e.properties), e.platform, OrElse(e.version, ""))
  }

  /** The event `JSON.parse('{}')` gives: no field is set. A text field
      left undefined is written as the empty text. */
  const EmptyEvent := EventMessage("", "", "", None, None, None, "", Undefined, "", None, None)

  /** Two events that differ only in id, device id or metadata give the
      same row: none of the three reaches the store. */
  lemma {:induction false} DeviceIdNotStored(e: EventMessage, id: string, deviceId: Option<string>, metadata: Option<Value>)
    ensures EventRowOf(e.(id := id, deviceId := deviceId, metadata := metadata)) == EventRowOf(e)
  {
  }

  /** The stored row gives back every field of the event it keeps, an
      absent session id or version coming back as the empty string. */
  lemma {:induction false} RowKeepsEventFields(a: EventMessage, b: EventMessage)
    requires EventRowOf(a) == EventRowOf(b)
    ensures a.appId == b.appId && a.eventName == b.eventName && a.userId == b.userId
    ensures a.timestamp == b.timestamp && a.platform == b.platform && a.properties == b.properties
  {
    assert Stringified(a.properties).value == Stringified(b.properties).value;
  }

  // ---------------------------------------------------------------------
  // The state `processEvent` touches, and what it does to it

  datatype Snapshot = Snapshot(
    databases: set<string>, tables: map<(string, string), Table>, statements: seq<string>,
    apps: map<string, App>)

  /** The rows of a table, none for a missing one. */
  function RowsOf(tables: map<(string, string), Table>, key: (string, string)): (rows: seq<EventRow>)
    ensures key in tables ==> rows == tables[key].rows
    ensures key !in tables ==> rows == []
  {
    if key in tables then tables[key].rows else []
  }

  /** `incrementEventCount`'s change to one app. */
  function Counted(a: App, now: int): (b: App)
    ensures b.eventCount == a.eventCount + 1 && b.lastEventAt == Some(now)
    ensures b.(eventCount := a.eventCount, lastEventAt := a.lastEventAt) == a
  {
    a.(eventCount := a.eventCount + 1, lastEventAt := Some(now))
  }

  /** `ensureTenantDatabase` on a snapshot: create the database and, when
      that worked, the events table; any failure ends the step quietly. */
  function AfterProvision(s: Snapshot, db: string, dbOk: bool, tableOk: bool): Snapshot {
    if !IsSafeName(db) then s
    else if !dbOk then s.(statements := s.statements + [CreateDatabaseStatement(db)])
    else
      var key := (db, EventsTableName);
      var s1 := s.(databases := s.databases + {db},
                   statements := s.statements + [CreateDatabaseStatement(db), CreateTableStatement(db, EventsTableName)]);
      if !tableOk || key in s1.tables then s1
      else s1.(tables := s1.tables[key := Table(EventsTable, [])])
  }

  /** Everything after the app lookup: provision, insert one row, count it. */
  function AfterRecord(s: Snapshot, app: App, event: EventMessage, dbOk: bool, tableOk: bool, insertOk: bool, now: int): Snapshot {
    var db := GetDatabaseNameFromAppId(app.appId);
    var key := (db, EventsTableName);
    var s1 := AfterProvision(s, db, dbOk, tableOk);
    if !insertOk || key !in s1.tables then s1
    else
      var t := s1.tables[key];
      s1.(tables := s1.tables[key := t.(rows := t.rows + [EventRowOf(event)])],
          apps := if app.id in s1.apps then s1.apps[app.id := Counted(s1.apps[app.id], now)] else s1.apps)
  }

  /** Provisioning never removes anything, and once the database and table
      exist a second provisioning leaves the catalog as it was. */
  lemma {:induction false} ProvisionIdempotent(s: Snapshot, db: string)
    ensures var s1 := AfterProvision(s, db, true, true);
      var s2 := AfterProvision(s1, db, true, true);
      s2.databases == s1.databases && s2.tables == s1.tables && s2.apps == s.apps
    ensures var s1 := AfterProvision(s, db, true, true);
      IsSafeName(db) ==> db in s1.databases && (db, EventsTableName) in s1.tables
  {
    var s1 := AfterProvision(s, db, true, true);
    if IsSafeName(db) {
      assert db in s1.databases;
      assert (db, EventsTableName) in s1.tables;
    }
  }

  /** One processed event adds at most one row, to its tenant's events
      table only, and that row is the event's row. */
  lemma {:induction false} OneRowPerEvent(s: Snapshot, app: App, event: EventMessage, dbOk: bool, tableOk: bool, insertOk: bool, now: int)
    ensures var key := (GetDatabaseNameFromAppId(app.appId), EventsTableName);
      var s2 := AfterRecord(s, app, event, dbOk, tableOk, insertOk, now);
      && (RowsOf(s2.tables, key) == RowsOf(s.tables, key) || RowsOf(s2.tables, key) == RowsOf(s.tables, key) + [EventRowOf(event)])
      && (forall k :: k in s.tables && k != key ==> k in s2.tables && s2.tables[k] == s.tables[k])
      && s2.tables.Keys <= s.tables.Keys + {key}
  {
    var db := GetDatabaseNameFromAppId(app.appId);
    var key := (db, EventsTableName);
    var s1 := AfterProvision(s, db, dbOk, tableOk);
    assert RowsOf(s1.tables, key) == RowsOf(s.tables, key);
    assert forall k :: k in s.tables && k != key ==> k in s1.tables && s1.tables[k] == s.tables[k];
  }

  /** The counter of the app moves only with its events table, and by the
      number of rows added: never before the insert, never without it. No
      other app changes. */
  lemma {:induction false} CounterFollowsInsert(s: Snapshot, app: App, event: EventMessage, dbOk: bool, tableOk: bool, insertOk: bool, now: int)
    requires app.id in s.apps
    ensures var key := (GetDatabaseNameFromAppId(app.appId), EventsTableName);
      var s2 := AfterRecord(s, app, event, dbOk, tableOk, insertOk, now);
      && app.id in s2.apps
      && s2.apps[app.id].eventCount == s.apps[app.id].eventCount + (|RowsOf(s2.tables, key)| - |RowsOf(s.tables, key)|)
      && (forall id :: id in s.apps && id != app.id ==> id in s2.apps && s2.apps[id] == s.apps[id])
      && s2.apps.Keys == s.apps.Keys
  {
    var db := GetDatabaseNameFromAppId(app.appId);
    var key := (db, EventsTableName);
    var s1 := AfterProvision(s, db, dbOk, tableOk);
    assert s1.apps == s.apps;
    assert RowsOf(s1.tables, key) == RowsOf(s.tables, key);
  }

  /** A generated app id gives a tenant name the store accepts. */
  lemma {:induction false} GeneratedTenantIsSafe(appId: string)
    requires IsGeneratedAppId(appId)
    ensures IsSafeName(GetDatabaseNameFromAppId(appId))
  {
    assert appId == appId[..4] + appId[4..];
    forall i | 0 <= i < |appId|
      ensures IsNameChar(appId[i])
    {
      if i >= 4 {
        assert appId[i] == appId[4..][i - 4];
        assert IsHexChar(appId[4..][i - 4]);
      }
    }
  }

  /** For an app with a generated app id, with every call to the store
      succeeding, the event's row lands in the tenant's events table and the
      counter goes up by one, whether or not database and table existed. */
  lemma {:induction false} RecordSucceeds(s: Snapshot, app: App, event: EventMessage, now: int)
    requires IsGeneratedAppId(app.appId) && app.id in s.apps
    ensures var key := (GetDatabaseNameFromAppId(app.appId), EventsTableName);
      var s2 := AfterRecord(s, app, event, true, true, true, now);
      && RowsOf(s2.tables, key) == RowsOf(s.tables, key) + [EventRowOf(event)]
      && s2.apps == s.apps[app.id := Counted(s.apps[app.id], now)]
  {
    var db := GetDatabaseNameFromAppId(app.appId);
    GeneratedTenantIsSafe(app.appId);
    ProvisionIdempotent(s, db);
    var key := (db, EventsTableName);
    var s1 := AfterProvision(s, db, true, true);
    assert key in s1.tables && s1.apps == s.apps;
    assert RowsOf(s1.tables, key) == RowsOf(s.tables, key);
  }

  // ---------------------------------------------------------------------
  // The service

  class EventProcessor {
    const kafka: KafkaService
    const store: Store
    const auth: AuthService

    ghost predicate Valid()
      reads this, store, auth, auth.users, auth.apps
    {
      store.Valid() && auth.Valid()
    }

    function Snap(): Snapshot
      reads this, store, auth, auth.apps
    {
      Snapshot(store.databases, store.tables, store.statements, auth.apps.apps)
    }

    constructor (kafka: KafkaService, store: Store, auth: AuthService)
      ensures this.kafka == kafka && this.store == store && this.auth == auth
    {
      this.kafka := kafka;
      this.store := store;
      this.auth := auth;
    }

    /** `onModuleInit`: create the topic, ignoring a failure, then subscribe
        `processEvent` to it; a failed subscription is not caught. */
    method OnModuleInit(adminOk: bool, producerOk: bool, consumerOk: bool, subscribeOk: bool)
      returns (r: Result<()>)
      modifies kafka
      ensures adminOk ==> EventsTopic in kafka.topics
      ensures r.Ok? <==> kafka.isConnected && subscribeOk
      ensures r.Ok? ==> kafka.subscriptions == old(kafka.subscriptions) + [EventsTopic]
      ensures kafka.sent == old(kafka.sent)
    {
      var created := kafka.CreateTopic(EventsTopic, DefaultPartitions, DefaultReplicationFactor, adminOk);
      r := kafka.SubscribeToTopic(EventsTopic, producerOk, consumerOk, subscribeOk);
    }

    /** `ensureTenantDatabase`: never fails; a failure creating the database
        skips the table. */
    method EnsureTenantDatabase(db: string, dbOk: bool, tableOk: bool)
      requires Valid()
      modifies store
      ensures Valid()
      ensures Snap() == AfterProvision(old(Snap()), db, dbOk, tableOk)
    {
      var r := store.CreateDatabase(db, dbOk);
      if r.Ok? {
        var t := store.CreateEventsTable(db, EventsTableName, tableOk);
      }
    }

    /** Steps two to four of `processEvent` for the app found. */
    method Record(app: App, event: EventMessage, dbOk: bool, tableOk: bool, insertOk: bool, now: int)
      requires Valid()
      modifies store, auth.apps
      ensures Valid()
      ensures Snap() == AfterRecord(old(Snap()), app, event, dbOk, tableOk, insertOk, now)
    {
      var tenantDatabase := TenantPrefix + app.appId;
      EnsureTenantDatabase(tenantDatabase, dbOk, tableOk);
      var inserted := store.Insert(tenantDatabase, EventsTableName, [EventRowOf(event)], insertOk);
      if inserted.Err? {
        return;
      }
      var counted := auth.IncrementEventCount(app.id, now);
    }

    /** `processEvent`: the app is looked up by passing the event's app id
        to `validateApiKey`; without a match nothing happens. */
    method ProcessEvent(event: EventMessage, dbOk: bool, tableOk: bool, insertOk: bool, now: int)
      requires Valid()
      modifies store, auth.apps
      ensures Valid()
      ensures old(auth.ValidateApiKey(event.appId)).None? ==> Snap() == old(Snap())
      ensures old(auth.ValidateApiKey(event.appId)).Some? ==>
        Snap() == AfterRecord(old(Snap()), old(auth.ValidateApiKey(event.appId)).value, event, dbOk, tableOk, insertOk, now)
    {
      var app := auth.ValidateApiKey(event.appId);
      if app.None? {
        return;
      }
      Record(app.value, event, dbOk, tableOk, insertOk, now);
    }

    /** The lookup the comment above it describes: the app whose app id the
        event carries, when that app is active. */
    function FindActiveByAppId(appId: string): (r: Option<App>)
      reads this, store, auth, auth.users, auth.apps
      requires Valid()
      ensures r.Some? <==> exists id :: id in auth.apps.apps && auth.apps.apps[id].appId == appId && IsActive(auth.apps.apps[id])
      ensures r.Some? ==> r.value.id in auth.apps.apps && auth.apps.apps[r.value.id] == r.value && r.value.appId == appId
    {
      var found := auth.apps.FindByAppId(appId);
      if found.Some? && IsActive(found.value) then found else None
    }

    /** `processEvent` with the app looked up by app id. */
    method ProcessEventIntended(event: EventMessage, dbOk: bool, tableOk: bool, insertOk: bool, now: int)
      requires Valid()
      modifies store, auth.apps
      ensures Valid()
      ensures old(FindActiveByAppId(event.appId)).None? ==> Snap() == old(Snap())
      ensures old(FindActiveByAppId(event.appId)).Some? ==>
        Snap() == AfterRecord(old(Snap()), old(FindActiveByAppId(event.appId)).value, event, dbOk, tableOk, insertOk, now)
    {
      var app := FindActiveByAppId(event.appId);
      if app.None? {
        return;
      }
      Record(app.value, event, dbOk, tableOk, insertOk, now);
    }

    /** The consumer callback. A delivered event is processed. A missing or
        empty value is parsed as `{}` and processed too: its `appId` is
        undefined, so `findOne` drops the api-key condition and
        `emptyLookup` stands for the row it returns, present exactly when
        the apps table is not empty. Foreign text is left alone. Nothing is
        ever rethrown. */
    method HandleMessage(value: Option<MessageValue>, emptyLookup: Option<App>, dbOk: bool, tableOk: bool, insertOk: bool, now: int)
      requires Valid()
      requires emptyLookup.None? <==> auth.apps.apps == map[]
      requires emptyLookup.Some? ==> emptyLookup.value.id in auth.apps.apps && auth.apps.apps[emptyLookup.value.id] == emptyLookup.value
      modifies store, auth.apps
      ensures Valid()
      ensures Deliver(value).Handle? && old(auth.ValidateApiKey(Deliver(value).event.appId)).None? ==> Snap() == old(Snap())
      ensures Deliver(value).Handle? && old(auth.ValidateApiKey(Deliver(value).event.appId)).Some? ==>
        Snap() == AfterRecord(old(Snap()), old(auth.ValidateApiKey(Deliver(value).event.appId)).value,
                              Deliver(value).event, dbOk, tableOk, insertOk, now)
      ensures Deliver(value).HandleEmpty? ==>
        Snap() == if emptyLookup.Some? && IsActive(emptyLookup.value)
                  then AfterRecord(old(Snap()), emptyLookup.value, EmptyEvent, dbOk, tableOk, insertOk, now)
                  else old(Snap())
      ensures Deliver(value).Foreign? ==> Snap() == old(Snap())
    {
      var d := Deliver(value);
      match d
      case Handle(event) =>
        ProcessEvent(event, dbOk, tableOk, insertOk, now);
      case HandleEmpty =>
        if emptyLookup.Some? && IsActive(emptyLookup.value) {
          Record(emptyLookup.value, EmptyEvent, dbOk, tableOk, insertOk, now);
        }
      case Foreign(_) =>
    }

    /** `sendEvent`: forwards to the `events` topic. */
    method SendEvent(event: EventMessage, producerOk: bool, consumerOk: bool, sendOk: bool) returns (r: Result<()>)
      modifies kafka
      ensures r.Ok? <==> (old(kafka.isConnected) || (producerOk && consumerOk)) && sendOk
      ensures r.Ok? ==> kafka.sent == old(kafka.sent) + [Send(EventsTopic, [MessageOf(event)])]
      ensures r.Err? ==> kafka.sent == old(kafka.sent)
      ensures kafka.isConnected == (old(kafka.isConnected) || (producerOk && consumerOk))
      ensures kafka.topics == old(kafka.topics) && kafka.subscriptions == old(kafka.subscriptions)
    {
      r := kafka.SendEvent(EventsTopic, event, producerOk, consumerOk, sendOk);
    }

    /** `sendBatchEvents`: forwards the whole batch to the `events` topic in
        one send. */
    method SendBatchEvents(events: seq<EventMessage>, producerOk: bool, consumerOk: bool, sendOk: bool) returns (r: Result<()>)
      modifies kafka
      ensures r.Ok? <==> (old(kafka.isConnected) || (producerOk && consumerOk)) && sendOk
      ensures r.Ok? ==> kafka.sent == old(kafka.sent) + [Send(EventsTopic, BatchMessages(events))]
      ensures r.Err? ==> kafka.sent == old(kafka.sent)
      ensures kafka.isConnected == (old(kafka.isConnected) || (producerOk && consumerOk))
      ensures kafka.topics == old(kafka.topics) && kafka.subscriptions == old(kafka.subscriptions)
    {
      r := kafka.SendBatchEvents(EventsTopic, events, producerOk, consumerOk, sendOk);
    }
  }

  // ---------------------------------------------------------------------
  // The app lookup of `processEvent`

  /** Api keys and app ids as `create` generates them. */
  ghost predicate GeneratedKeys(apps: map<string, App>) {
    forall id :: id in apps ==> IsGeneratedApiKey(apps[id].apiKey) && IsGeneratedAppId(apps[id].appId)
  }

  /** As written, the lookup can never find an app for an event that carries
      a generated app id: no generated api key equals it. */
  lemma {:induction false} LookupByApiKeyMissesAppIds(p: EventProcessor, event: EventMessage)
    requires p.Valid() && GeneratedKeys(p.auth.apps.apps)
    requires IsGeneratedAppId(event.appId)
    ensures p.auth.ValidateApiKey(event.appId).None?
  {
    var apps := p.auth.apps.apps;
    forall id | id in apps
      ensures apps[id].apiKey != event.appId
    {
      GeneratedKeyIsNeverAppId(apps[id].apiKey);
    }
  }

  /** The lookup by app id finds the active app an event belongs to. */
  lemma {:induction false} LookupByAppIdFindsApp(p: EventProcessor, event: EventMessage, id: string)
    requires p.Valid()
    requires id in p.auth.apps.apps && IsActive(p.auth.apps.apps[id]) && event.appId == p.auth.apps.apps[id].appId
    ensures p.FindActiveByAppId(event.appId) == Some(p.auth.apps.apps[id])
  {
    var r := p.FindActiveByAppId(event.appId);
    assert r.Some?;
    assert p.auth.apps.apps[r.value.id].appId == p.auth.apps.apps[id].appId;
  }
}
