/** lib/mqtt-client.ts: the broker client that stores moisture readings.
    Messages are routed by splitting the topic on '/': segment 1 is the
    sensor id, segment 2 the message kind. Only `moisture` writes a reading;
    `register` and `status` only log; every error is caught. The connected
    flag follows the session's connect, error and offline events and gates
    publish. The transport itself (mqtt.connect, reconnect timer, keepalive,
    subscribe acknowledgements) belongs to the MQTT library and is not
    modelled: its events are the methods OnConnect, OnError and OnOffline. */
module MqttClient {
  import opened JsValues
  import Strings
  import Database

  /** The topic filters subscribed on every connect, in order. */
  const SubscribedTopics: seq<string> := ["sensor/+/moisture", "sensor/+/register", "sensor/+/status"]

  datatype Kind = MoistureKind | RegisterKind | StatusKind

  function KindName(k: Kind): string
  {
    match k
    case MoistureKind => "moisture"
    case RegisterKind => "register"
    case StatusKind => "status"
  }

  /** The case of the `switch (messageType)` that a kind selects, if any. */
  function KindOf(name: string): (k: Option<Kind>)
    ensures k.Some? <==> name == "moisture" || name == "register" || name == "status"
    ensures k.Some? ==> KindName(k.value) == name
  {
    if name == "moisture" then Some(MoistureKind)
    else if name == "register" then Some(RegisterKind)
    else if name == "status" then Some(StatusKind)
    else None
  }

  /** The handler handleMessage calls, with the sensor id and parsed payload. */
  datatype Dispatch = NoHandler | Handle(kind: Kind, sensorId: string, data: Payload)

  /** `topicParts[i]`: undefined past the end of the array. */
  function Segment(parts: seq<string>, i: nat): (r: Option<string>)
    ensures r.Some? <==> i < |parts|
    ensures r.Some? ==> r.value == parts[i]
  {
    if i < |parts| then Some(parts[i]) else None
  }

  /** handleMessage's dispatch decision. `parsed` is the outcome of
      JSON.parse on the payload (None when it throws); parsing comes first,
      so a payload that is not JSON reaches no handler whatever the topic. */
  function Route(topic: string, parsed: Option<Payload>): (d: Dispatch)
    ensures parsed.None? ==> d == NoHandler
    ensures d.Handle? ==>
      && parsed == Some(d.data)
      && |Strings.Split(topic, '/')| >= 3
      && d.sensorId == Strings.Split(topic, '/')[1]
      && KindName(d.kind) == Strings.Split(topic, '/')[2]
    ensures (parsed.Some? && |Strings.Split(topic, '/')| >= 3
             && KindOf(Strings.Split(topic, '/')[2]).Some?) ==> d.Handle?
  {
    match parsed
    case None => NoHandler
    case Some(data) =>
      var parts := Strings.Split(topic, '/');
      var sensorId := Segment(parts, 1);
      var messageType := Segment(parts, 2);
      if messageType.None? then NoHandler
      else
        match KindOf(messageType.value)
        case None => NoHandler
        case Some(k) => Handle(k, sensorId.value, data)
  }

  /** A topic of the form `prefix/id/kind` is routed with sensor id `id`,
      and reaches a handler exactly when `kind` is one the switch knows. */
  lemma {:induction false} RouteOfTopic(prefix: string, id: string, kind: string, data: Payload)
    requires '/' !in prefix && '/' !in id && '/' !in kind
    ensures KindOf(kind).Some? ==>
      Route(prefix + "/" + id + "/" + kind, Some(data)) == Handle(KindOf(kind).value, id, data)
    ensures KindOf(kind).None? ==> Route(prefix + "/" + id + "/" + kind, Some(data)) == NoHandler
  {
    var topic := prefix + "/" + id + "/" + kind;
    assert topic == prefix + ['/'] + (id + ['/'] + kind);
    Strings.SplitCons(prefix, '/', id + ['/'] + kind);
    Strings.SplitCons(id, '/', kind);
    Strings.SplitNoSep(kind, '/');
    assert Strings.Split(topic, '/') == [prefix, id, kind];
  }

  /** A topic with fewer than three segments (`sensor/ESP32_001`, say)
      dispatches nothing. */
  lemma {:induction false} ShortTopicNoHandler(prefix: string, id: string, data: Payload)
    requires '/' !in prefix && '/' !in id
    ensures Route(prefix + "/" + id, Some(data)) == NoHandler
  {
    assert prefix + "/" + id == prefix + ['/'] + id;
    Strings.SplitCons(prefix, '/', id);
    Strings.SplitNoSep(id, '/');
    assert Strings.Split(prefix + "/" + id, '/') == [prefix, id];
  }

  /** The argument handleMoistureData passes to moistureDataOperations.create:
      `moisture_value: data.moisture || data.value`, with temperature and
      humidity carried through. Reading a field of a `null` payload throws. */
  function MoistureReading(sensorId: string, data: Payload): (r: Result<Database.NewReading, FieldError>)
    ensures r.Err? <==> data == Scalar(JsNull)
    ensures r.Ok? ==> r.value.sensorId == sensorId
    ensures r.Ok? ==> r.value.moistureValue == Or(Field(data, "moisture").value, Field(data, "value").value)
    ensures r.Ok? ==> (r.value.temperature == Field(data, "temperature").value
                       && r.value.humidity == Field(data, "humidity").value)
  {
    match Field(data, "moisture")
    case Err(e) => Err(e)
    case Ok(moisture) =>
      var value := Field(data, "value").value;
      var temperature := Field(data, "temperature").value;
      var humidity := Field(data, "humidity").value;
      Ok(Database.NewReading(sensorId, Or(moisture, value), temperature, humidity))
  }

  /** The reading a message writes, if any, given the sensors table, the id
      the store hands out next, the time, and whether the store fails. The
      foreign key drops a reading of a sensor that is not in the table. */
  function MessageEffect(topic: string, parsed: Option<Payload>, sensors: seq<Database.Sensor>,
                         nextId: nat, now: int, fault: bool)
    : (r: Option<Database.Reading>)
    ensures r.Some? ==> Route(topic, parsed).Handle? && Route(topic, parsed).kind == MoistureKind
    ensures r.Some? ==> !fault && r.value.id == nextId && r.value.timestamp == now
    ensures r.Some? ==> r.value.sensorId == Strings.Split(topic, '/')[1]
    ensures r.Some? ==> Database.HasSensor(sensors, r.value.sensorId)
    ensures parsed.None? || fault ==> r.None?
    ensures |Strings.Split(topic, '/')| < 3 ==> r.None?
    ensures |Strings.Split(topic, '/')| >= 3 && Strings.Split(topic, '/')[2] != "moisture" ==> r.None?
  {
    match Route(topic, parsed)
    case NoHandler => None
    case Handle(kind, sensorId, data) =>
      if kind != MoistureKind || fault then None
      else
        match MoistureReading(sensorId, data)
        case Err(_) => None
        case Ok(row) =>
          match Database.ReadingRow(row, nextId, now)
          case Err(_) => None
          case Ok(reading) => if Database.HasSensor(sensors, sensorId) then Some(reading) else None
  }

  /** A stored reading takes its value from `moisture` when that is truthy
      and from `value` otherwise, so a moisture of 0 falls through to
      `value`; with no usable value, or for a sensor not in the table,
      nothing is stored. */
  lemma {:induction false} StoredMoistureValue(id: string, fields: map<string, JsVal>, sensors: seq<Database.Sensor>,
                                               nextId: nat, now: int)
    requires '/' !in id
    ensures var r := MessageEffect("sensor/" + id + "/moisture", Some(Object(fields)), sensors, nextId, now, false);
      && ("moisture" in fields && Truthy(Some(fields["moisture"])) && fields["moisture"].JsNum?
          && Bindable(fields, "temperature") && Bindable(fields, "humidity") && Database.HasSensor(sensors, id) ==>
            r.Some? && r.value.moistureValue == fields["moisture"].n && r.value.sensorId == id)
      && (("moisture" !in fields || !Truthy(Some(fields["moisture"]))) && "value" in fields && fields["value"].JsNum?
          && Bindable(fields, "temperature") && Bindable(fields, "humidity") && Database.HasSensor(sensors, id) ==>
            r.Some? && r.value.moistureValue == fields["value"].n)
      && (("moisture" !in fields || !Truthy(Some(fields["moisture"]))) && "value" !in fields ==> r.None?)
      && (!Database.HasSensor(sensors, id) ==> r.None?)
  {
    var topic := "sensor/" + id + "/moisture";
    var data := Object(fields);
    assert topic == "sensor" + "/" + id + "/" + "moisture";
    RouteOfTopic("sensor", id, "moisture", data);
    assert Route(topic, Some(data)) == Handle(MoistureKind, id, data);
    var row := MoistureReading(id, data);
    assert row.Ok? && row.value.sensorId == id;
    assert row.value.temperature == (if "temperature" in fields then Some(fields["temperature"]) else None);
    assert row.value.humidity == (if "humidity" in fields then Some(fields["humidity"]) else None);
    assert row.value.moistureValue == Or(if "moisture" in fields then Some(fields["moisture"]) else None,
                                         if "value" in fields then Some(fields["value"]) else None);
  }

  /** The temperature or humidity field can be bound to its REAL column. */
  predicate Bindable(fields: map<string, JsVal>, key: string)
  {
    key !in fields || fields[key].JsNull? || fields[key].JsNum?
  }

  /** What publish hands to the session: a string as it is, an object as
      its JSON.stringify text (computed by the JSON library). */
  datatype Outgoing = Text(s: string) | Structured(json: string)

  function PayloadText(m: Outgoing): string
  {
    match m
    case Text(s) => s
    case Structured(json) => json
  }

  class Client {
    /** `this.client !== null`: set once the constructor has called connect. */
    var hasSession: bool
    var isConnected: bool
    /** The subscribe requests issued to the session, in order. */
    var subscriptions: seq<string>
    /** The publish requests handed to the session, in order. */
    var outbox: seq<(string, string)>
    /** `client.end()` was called. */
    var ended: bool
    /** The store behind moistureDataOperations. */
    const store: Database.Store

    ghost predicate Valid()
      reads this, store
    {
      hasSession && store.Valid()
    }

    /** `new MQTTClient()`: connect() opens the session; nothing is
        connected or subscribed until the session reports `connect`. */
    constructor (store: Database.Store)
      requires store.Valid()
      ensures Valid() && this.store == store
      ensures hasSession && !isConnected && !ended
      ensures subscriptions == [] && outbox == []
    {
      this.store := store;
      hasSession := true;
      isConnected := false;
      subscriptions := [];
      outbox := [];
      ended := false;
    }

    /** The `connect` event: connected, and all three filters subscribed
        again (the session is clean, so the broker keeps none). */
    method OnConnect()
      requires Valid()
      modifies this
      ensures Valid()
      ensures isConnected
      ensures subscriptions == old(subscriptions) + SubscribedTopics
      ensures hasSession == old(hasSession) && outbox == old(outbox) && ended == old(ended)
    {
      isConnected := true;
      SubscribeToTopics();
    }

    /** subscribeToTopics: one subscribe request per topic filter. */
    method SubscribeToTopics()
      modifies this`subscriptions
      ensures hasSession ==> subscriptions == old(subscriptions) + SubscribedTopics
      ensures !hasSession ==> subscriptions == old(subscriptions)
    {
      if !hasSession {
        return;
      }
      var topics := SubscribedTopics;
      for i := 0 to |topics|
        invariant subscriptions == old(subscriptions) + topics[..i]
      {
        subscriptions := subscriptions + [topics[i]];
      }
    }

    /** The `error` event. */
    method OnError()
      modifies this`isConnected
      ensures !isConnected
    {
      isConnected := false;
    }

    /** The `offline` event. */
    method OnOffline()
      modifies this`isConnected
      ensures !isConnected
    {
      isConnected := false;
    }

    /** The `message` event. Only a `moisture` message of a known sensor
        can change the store, by at most one reading; no error escapes. */
    method HandleMessage(topic: string, parsed: Option<Payload>, now: int, fault: bool)
      requires Valid()
      modifies store
      ensures Valid()
      ensures store.sensors == old(store.sensors)
      ensures var w := MessageEffect(topic, parsed, old(store.sensors), old(store.nextReadingId), now, fault);
        && (w.None? ==> store.readings == old(store.readings) && store.nextReadingId == old(store.nextReadingId))
        && (w.Some? ==> store.readings == old(store.readings) + [w.value]
                        && store.nextReadingId == old(store.nextReadingId) + 1)
    {
      match Route(topic, parsed)
      case NoHandler =>
      case Handle(kind, sensorId, data) =>
        match kind
        case MoistureKind => HandleMoistureData(sensorId, data, now, fault);
        case RegisterKind =>  // handleSensorRegistration only logs
        case StatusKind =>    // handleStatusUpdate only logs
    }

    /** handleMoistureData: one insert; a failure (a storage fault, a value
        the row cannot take, or a sensor not in the table) is caught and the
        message is dropped, never retried. */
    method HandleMoistureData(sensorId: string, data: Payload, now: int, fault: bool)
      requires Valid()
      modifies store
      ensures Valid()
      ensures store.sensors == old(store.sensors)
      ensures var row := MoistureReading(sensorId, data);
        var written := !fault && row.Ok? && Database.ReadingRow(row.value, old(store.nextReadingId), now).Ok?
                       && Database.HasSensor(old(store.sensors), sensorId);
        && (written ==> store.readings == old(store.readings)
                          + [Database.ReadingRow(row.value, old(store.nextReadingId), now).value]
                        && store.nextReadingId == old(store.nextReadingId) + 1)
        && (!written ==> store.readings == old(store.readings)
                         && store.nextReadingId == old(store.nextReadingId))
    {
      var row := MoistureReading(sensorId, data);
      if row.Err? {
        return;  // TypeError on a null payload, caught
      }
      var _ := store.CreateReading(row.value, now, fault);
    }

    /** publish: false and nothing sent without a connected session;
        otherwise the payload is handed to the session and the result is
        true (whether the broker accepts it is reported later, to the log). */
    method Publish(topic: string, message: Outgoing) returns (ok: bool)
      modifies this`outbox
      ensures ok <==> hasSession && isConnected
      ensures ok ==> outbox == old(outbox) + [(topic, PayloadText(message))]
      ensures !ok ==> outbox == old(outbox)
    {
      if !hasSession || !isConnected {
        return false;
      }
      outbox := outbox + [(topic, PayloadText(message))];
      return true;
    }

    /** disconnect: ends the session and clears the flag; without a session
        it does nothing. Calling it twice is the same as calling it once. */
    method Disconnect()
      modifies this`ended, this`isConnected
      ensures hasSession ==> ended && !isConnected
      ensures !hasSession ==> ended == old(ended) && isConnected == old(isConnected)
    {
      if hasSession {
        ended := true;
        isConnected := false;
      }
    }

    /** getConnectionStatus. */
    method GetConnectionStatus() returns (connected: bool)
      ensures connected == isConnected
    {
      connected := isConnected;
    }
  }

  /** The module-level `mqttClient` variable behind getMQTTClient. */
  class Singleton {
    var instance: Client?

    constructor ()
      ensures instance == null
    {
      instance := null;
    }

    /** getMQTTClient: creates the client on first use and returns that
        same client on every later call. */
    method GetMqttClient(store: Database.Store) returns (c: Client)
      requires store.Valid()
      requires instance != null ==> instance.Valid()
      modifies this
      ensures instance == c && c.Valid()
      ensures old(instance) != null ==> c == old(instance)
      ensures old(instance) == null ==> fresh(c) && c.store == store && !c.isConnected
    {
      if instance == null {
        instance := new Client(store);
      }
      c := instance;
    }
  }

  /** Two calls of getMQTTClient return the same client. */
  method SameClientTwice(s: Singleton, store: Database.Store) returns (a: Client, b: Client)
    requires store.Valid()
    requires s.instance != null ==> s.instance.Valid()
    modifies s
    ensures a == b
  {
    a := s.GetMqttClient(store);
    b := s.GetMqttClient(store);
  }
}
