/**
 * The bridge's MQTT client (agent/src/agent/mqtt.py). The paho client is not
 * modelled: what the client hands to it (topics, JSON payloads, qos, retain,
 * subscriptions) is returned as values, and paho's return codes are inputs.
 * The wall-clock timestamp that `time_now_ms()` would give is a parameter.
 */
module AgentMqtt {
  import opened Json
  import opened Strings

  /** paho's MQTT_ERR_SUCCESS. */
  const ErrSuccess := 0
  const Keepalive := 30
  const Qos := 2

  /** The three device statuses the bridge reports. */
  datatype Status = Online | SerialError | Offline

  function StatusText(s: Status): string {
    match s
    case Online => "online"
    case SerialError => "serial_error"
    case Offline => "offline"
  }

  /** A message handed to paho: topic, JSON payload, qos and retain flag. */
  datatype Message = Message(topic: string, payload: Object, qos: nat, retain: bool)

  datatype Subscription = Subscription(topic: string, qos: nat)

  /**
   * The fields an `MqttClient` keeps. `deviceId` is whatever value the
   * identify answer carried; `topic` is the namespace ("whac" for the bridge).
   * The `on_command` callback is the bridge's command handler (see AgentBridge).
   */
  datatype Client = Client(broker: string, port: int, deviceId: Json, topic: string)

  /** `f"{ns}/{segment}/{channel}"`. */
  function TopicFor(ns: string, segment: string, channel: string): string {
    ns + "/" + segment + "/" + channel
  }

  /** The topic `_pub` publishes to: `<topic>/<device_id>/<channel>`. */
  function Topic(c: Client, channel: string): string {
    TopicFor(c.topic, Str(c.deviceId), channel)
  }

  /** A topic built from three '/'-free segments splits back into exactly those segments. */
  lemma TopicSegments(ns: string, segment: string, channel: string)
    requires '/' !in ns && '/' !in segment && '/' !in channel
    ensures Split(TopicFor(ns, segment, channel), '/') == [ns, segment, channel]
  {
    var parts := [ns, segment, channel];
    assert Join(parts[2..], '/') == channel;
    assert Join(parts[1..], '/') == segment + "/" + channel;
    assert Join(parts, '/') == TopicFor(ns, segment, channel);
    SplitJoin(parts, '/');
  }

  /** Publishes on different channels never share a topic. */
  lemma TopicsDistinct(c: Client, ch1: string, ch2: string)
    requires ch1 != ch2
    ensures Topic(c, ch1) != Topic(c, ch2)
  {
    var p := c.topic + "/" + Str(c.deviceId) + "/";
    assert Topic(c, ch1) == p + ch1 && Topic(c, ch2) == p + ch2;
    if |ch1| == |ch2| {
      var k :| 0 <= k < |ch1| && ch1[k] != ch2[k];
      assert Topic(c, ch1)[|p| + k] != Topic(c, ch2)[|p| + k];
    }
  }

  /** `_common_payload`. */
  function CommonPayload(c: Client, ts: int): Object {
    map["device_id" := c.deviceId, "ts" := JInt(ts)]
  }

  /** `_status_payload`. */
  function StatusPayload(c: Client, status: Status, ts: int): Object {
    CommonPayload(c, ts)["status" := JStr(StatusText(status))]
  }

  /**
   * `_pub`: the payload goes out unchanged at qos 2, not retained, and when
   * the namespace, the device_id text and the channel are free of '/', the
   * topic names exactly those three levels, in that order.
   */
  function Pub(c: Client, channel: string, payload: Object): (m: Message)
    ensures '/' !in c.topic && '/' !in Str(c.deviceId) && '/' !in channel ==>
      Split(m.topic, '/') == [c.topic, Str(c.deviceId), channel]
    ensures m.qos == 2 && !m.retain && m.payload == payload
  {
    var m := Message(Topic(c, channel), payload, Qos, false);
    if '/' !in c.topic && '/' !in Str(c.deviceId) && '/' !in channel then
      TopicSegments(c.topic, Str(c.deviceId), channel);
      m
    else m
  }

  /** `publish_state`. */
  function PublishState(c: Client, status: Status, ts: int): Message {
    Pub(c, "state", StatusPayload(c, status, ts))
  }

  /** `publish_event`. */
  function PublishEvent(c: Client, event: Object, ts: int): Message {
    Pub(c, "game_events", event + CommonPayload(c, ts))
  }

  /**
   * A status publish goes to the "state" channel at qos 2, not retained,
   * with exactly the keys device_id, ts and status.
   */
  lemma PublishStateShape(c: Client, status: Status, ts: int)
    ensures var m := PublishState(c, status, ts);
      m.topic == Topic(c, "state") && m.qos == 2 && !m.retain
      && m.payload.Keys == {"device_id", "ts", "status"}
      && m.payload["device_id"] == c.deviceId && m.payload["ts"] == JInt(ts)
      && m.payload["status"] == JStr(StatusText(status))
  {
  }

  /**
   * An event publish goes to the "game_events" channel at qos 2, not
   * retained; its payload is the event merged with the common payload, the
   * bridge's device_id and ts winning over same-named fields of the event.
   */
  lemma PublishEventMerge(c: Client, event: Object, ts: int)
    ensures var m := PublishEvent(c, event, ts);
      m.topic == Topic(c, "game_events") && m.qos == 2 && !m.retain
      && m.payload.Keys == event.Keys + {"device_id", "ts"}
      && m.payload["device_id"] == c.deviceId && m.payload["ts"] == JInt(ts)
      && forall k :: k in event && k != "device_id" && k != "ts" ==> m.payload[k] == event[k]
  {
  }

  /**
   * The last will set in `__init__`: the same message `publish_state` would
   * send for the will status (state topic, qos 2, not retained).
   */
  function Will(c: Client, lastWill: Status, ts: int): (m: Message)
    ensures m == PublishState(c, lastWill, ts)
  {
    Message(TopicFor(c.topic, Str(c.deviceId), "state"), StatusPayload(c, lastWill, ts), 2, false)
  }

  /** What `connect` reports and whether it got as far as starting the network loop. */
  datatype ConnectOutcome = ConnectOutcome(ok: bool, loopStarted: bool)

  /**
   * `connect`: `loop_start` runs only after the broker connect succeeded, and
   * the result is True iff both calls returned MQTT_ERR_SUCCESS.
   */
  function Connect(connectRc: int, loopRc: int): (r: ConnectOutcome)
    ensures r.ok <==> connectRc == ErrSuccess && loopRc == ErrSuccess
    ensures r.loopStarted <==> connectRc == ErrSuccess
  {
    if connectRc != ErrSuccess then ConnectOutcome(false, false)
    else ConnectOutcome(loopRc == ErrSuccess, true)
  }

  /** Whether `disconnect` went on to call `loop_stop`, and whether it reached "Disconnected". */
  datatype DisconnectOutcome = DisconnectOutcome(loopStopCalled: bool, ok: bool)

  /**
   * `disconnect`: `loop_stop` is called only after the broker disconnect
   * succeeded, and the client reports itself disconnected iff both calls
   * returned MQTT_ERR_SUCCESS; a failure at either step stops there.
   */
  function Disconnect(disconnectRc: int, loopRc: int): (r: DisconnectOutcome)
    ensures r.loopStopCalled <==> disconnectRc == ErrSuccess
    ensures r.ok <==> disconnectRc == ErrSuccess && loopRc == ErrSuccess
    ensures r.ok ==> r.loopStopCalled
  {
    if disconnectRc != ErrSuccess then DisconnectOutcome(false, false)
    else DisconnectOutcome(true, loopRc == ErrSuccess)
  }

  /**
   * `_on_connect`: after a successful connect, the device's own command topic
   * and the broadcast command topic; after a failed one, nothing.
   */
  function OnConnect(c: Client, failure: bool): (subs: seq<Subscription>)
    ensures failure ==> subs == []
    ensures !failure ==>
      |subs| == 2 && subs[0].topic == Topic(c, "commands") && subs[1].topic == TopicFor(c.topic, "all", "commands")
    ensures forall i :: 0 <= i < |subs| ==> subs[i].qos == 2
  {
    if failure then []
    else [Subscription(Topic(c, "commands"), Qos), Subscription(TopicFor(c.topic, "all", "commands"), Qos)]
  }

  /**
   * Every subscription is to a "commands" channel of the namespace, addressed
   * either to this device or to "all".
   */
  lemma SubscriptionsAreCommandTopics(c: Client, failure: bool, i: nat)
    requires '/' !in c.topic && '/' !in Str(c.deviceId)
    requires i < |OnConnect(c, failure)|
    ensures var parts := Split(OnConnect(c, failure)[i].topic, '/');
      |parts| == 3 && parts[0] == c.topic && parts[2] == "commands"
      && (parts[1] == Str(c.deviceId) || parts[1] == "all")
  {
    if i == 0 {
      TopicSegments(c.topic, Str(c.deviceId), "commands");
    } else {
      TopicSegments(c.topic, "all", "commands");
    }
  }
}
