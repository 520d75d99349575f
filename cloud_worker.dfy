/**
 * The cloud backend's MQTT worker (cloud/mqtt_worker.py): it takes the
 * device id from the topic, stores finished sessions published on
 * `whac/<id>/events` and answers `whac/<id>/config_request` with the
 * device's configuration on its command topic.
 *
 * paho is not modelled: a handler's effect is returned as an `Action`.
 * `json.loads` is an input (None when the payload is not JSON), and so is
 * the pydantic validation of a session (a function from the payload object
 * to a session, or None when it is refused).
 */
module CloudWorker {
  import opened Wrappers
  import opened Strings
  import opened Json
  import AgentMqtt
  import CloudStorage
  import CloudConfig

  /** The subscriptions: every device's events and configuration requests. */
  const EventsTopic := "whac/+/events"
  const ConfigRequestTopic := "whac/+/config_request"

  /** `COMMAND_TOPIC_FMT`. */
  function CommandTopic(deviceId: string): string {
    "whac/" + deviceId + "/commands"
  }

  /** `_extract_device_id`: the second '/'-segment of a topic under "whac", or None where it raises. */
  function ExtractDeviceId(topic: string): (r: Option<string>)
    ensures r.Some? ==> '/' !in r.value
  {
    var parts := Split(topic, '/');
    if |parts| < 3 || parts[0] != "whac" then None else Some(parts[1])
  }

  /** A configuration published to a device: retained, qos 1, on its command topic. */
  datatype Publication = Publication(topic: string, payload: CloudConfig.DeviceConfig, qos: int, retain: bool)

  /** What a message leads to: nothing, a stored session, or a published configuration. */
  datatype Action = Ignore | Store(session: CloudStorage.GameSession) | Publish(publication: Publication)

  /** `data.setdefault("device_id", device_id)`. */
  function WithDeviceId(data: Object, deviceId: string): (r: Object)
    ensures "device_id" in r && r["device_id"] == (if "device_id" in data then data["device_id"] else JStr(deviceId))
    ensures forall k :: k in r && k != "device_id" ==> k in data && r[k] == data[k]
    ensures r.Keys == data.Keys + {"device_id"}
  {
    if "device_id" in data then data else data["device_id" := JStr(deviceId)]
  }

  /**
   * `_handle_event`: a payload that is a JSON object gets the topic's device
   * id where it has none and is validated into a session, which is stored.
   * Anything that fails on the way (not JSON, not an object, refused by
   * validation) stores nothing.
   */
  function HandleEvent(deviceId: string, payload: Option<Json>, validate: Object -> Option<CloudStorage.GameSession>): (r: Action)
    ensures r.Publish? == false
  {
    if payload.None? || !payload.value.JObj? then Ignore
    else
      match validate(WithDeviceId(payload.value.fields, deviceId))
      case None => Ignore
      case Some(session) => Store(session)
  }

  /** `_handle_config_request`: the device's merged configuration, retained at qos 1 on its command topic. */
  function HandleConfigRequest(deviceId: string, defaults: Object, overrides: map<string, Object>): (r: Publication)
    ensures r.qos == 1 && r.retain
  {
    var cfg := CloudConfig.DeviceConfig(CloudConfig.NameOf(Some(deviceId)), CloudConfig.Resolve(defaults, overrides, Some(deviceId)));
    Publication(CommandTopic(deviceId), cfg, 1, true)
  }

  /**
   * `on_message`: a topic without a device id is ignored; otherwise a topic
   * ending "/events" is a session, one ending "/config_request" a request
   * for configuration, and anything else is dropped.
   */
  function OnMessage(
    topic: string, payload: Option<Json>, validate: Object -> Option<CloudStorage.GameSession>,
    defaults: Object, overrides: map<string, Object>): (r: Action)
    ensures ExtractDeviceId(topic).None? ==> r == Ignore
    ensures r.Store? ==> EndsWith(topic, "/events")
    ensures r.Publish? ==> (EndsWith(topic, "/config_request") && !EndsWith(topic, "/events"))
  {
    match ExtractDeviceId(topic)
    case None => Ignore
    case Some(id) =>
      if EndsWith(topic, "/events") then HandleEvent(id, payload, validate)
      else if EndsWith(topic, "/config_request") then Publish(HandleConfigRequest(id, defaults, overrides))
      else Ignore
  }

  /** A topic built under "whac" gives back the device id it was built with. */
  lemma ExtractRoundTrip(id: string, channel: string)
    requires '/' !in id && '/' !in channel
    ensures ExtractDeviceId(AgentMqtt.TopicFor("whac", id, channel)) == Some(id)
  {
    AgentMqtt.TopicSegments("whac", id, channel);
  }

  /** The first segment of a split is what comes before the first separator. */
  lemma SplitHead(s: string, sep: char)
    requires |Split(s, sep)| >= 2
    ensures var h := Split(s, sep)[0]; |h| < |s| && s[..|h|] == h && s[|h|] == sep
  {
  }

  /** Only topics that start with "whac/" carry a device id. */
  lemma ExtractNeedsPrefix(topic: string)
    requires ExtractDeviceId(topic).Some?
    ensures StartsWith(topic, "whac/")
  {
    SplitHead(topic, '/');
  }

  /** A session published on a device's events topic is validated with that device's id unless it names its own. */
  lemma EventTopicStores(id: string, data: Object, validate: Object -> Option<CloudStorage.GameSession>, defaults: Object, overrides: map<string, Object>)
    requires '/' !in id
    ensures var r := OnMessage(AgentMqtt.TopicFor("whac", id, "events"), Some(JObj(data)), validate, defaults, overrides);
      && (r.Store? <==> validate(WithDeviceId(data, id)).Some?)
      && (r.Store? ==> r.session == validate(WithDeviceId(data, id)).value)
      && (r.Ignore? <==> validate(WithDeviceId(data, id)).None?)
  {
    ExtractRoundTrip(id, "events");
    assert EndsWith(AgentMqtt.TopicFor("whac", id, "events"), "/events");
  }

  /** A payload that is not a JSON object stores nothing, whatever the topic. */
  lemma BadPayloadIgnored(topic: string, payload: Option<Json>, validate: Object -> Option<CloudStorage.GameSession>, defaults: Object, overrides: map<string, Object>)
    requires payload.None? || !payload.value.JObj?
    ensures !OnMessage(topic, payload, validate, defaults, overrides).Store?
  {
  }

  /**
   * A configuration request on a device's topic is answered on that
   * device's command topic with what the configuration manager's `get`
   * returns for it.
   */
  lemma ConfigRequestAnswered(id: string, payload: Option<Json>, validate: Object -> Option<CloudStorage.GameSession>, m: CloudConfig.ConfigManager)
    requires '/' !in id && !m.locked
    ensures var r := OnMessage(AgentMqtt.TopicFor("whac", id, "config_request"), payload, validate, m.defaultConfig, m.deviceOverrides);
      && r.Publish?
      && r.publication.topic == AgentMqtt.TopicFor("whac", id, "commands")
      && r.publication.qos == 1 && r.publication.retain
      && m.Get(Some(id)) == Some(r.publication.payload)
  {
    var t := RequestTopicRouted(id);
    AnswerIsGet(id, m);
    assert OnMessage(t, payload, validate, m.defaultConfig, m.deviceOverrides)
      == Publish(HandleConfigRequest(id, m.defaultConfig, m.deviceOverrides));
  }

  /** The answer to a request carries what `get` returns, on the device's command topic. */
  lemma AnswerIsGet(id: string, m: CloudConfig.ConfigManager)
    requires !m.locked
    ensures var answer := HandleConfigRequest(id, m.defaultConfig, m.deviceOverrides);
      m.Get(Some(id)) == Some(answer.payload) && answer.topic == AgentMqtt.TopicFor("whac", id, "commands")
  {
  }

  /** A device's configuration request topic names the device and is routed as a request. */
  lemma RequestTopicRouted(id: string) returns (t: string)
    requires '/' !in id
    ensures t == AgentMqtt.TopicFor("whac", id, "config_request")
    ensures ExtractDeviceId(t) == Some(id) && EndsWith(t, "/config_request") && !EndsWith(t, "/events")
  {
    t := AgentMqtt.TopicFor("whac", id, "config_request");
    ExtractRoundTrip(id, "config_request");
    TopicSuffix("whac", id, "config_request");
    NotEvents(t);
  }

  /** A topic built by `TopicFor` ends with its channel after a slash. */
  lemma TopicSuffix(ns: string, segment: string, channel: string)
    ensures EndsWith(AgentMqtt.TopicFor(ns, segment, channel), "/" + channel)
  {
    var t := AgentMqtt.TopicFor(ns, segment, channel);
    assert t == (ns + "/" + segment) + ("/" + channel);
  }

  /** A topic ending "/config_request" does not end "/events". */
  lemma NotEvents(t: string)
    requires EndsWith(t, "/" + "config_request")
    ensures EndsWith(t, "/config_request") && !EndsWith(t, "/events")
  {
    assert t[|t| - 7..] == "request";
  }

  /**
   * The bridge publishes its game events on `whac/<id>/game_events`, a
   * topic the worker's "/events" suffix does not match: the worker stores
   * nothing from the bridge.
   */
  lemma BridgeEventsNotStored(c: AgentMqtt.Client, payload: Option<Json>, validate: Object -> Option<CloudStorage.GameSession>, defaults: Object, overrides: map<string, Object>)
    ensures OnMessage(AgentMqtt.Topic(c, "game_events"), payload, validate, defaults, overrides) == Ignore
  {
    var t := AgentMqtt.Topic(c, "game_events");
    assert !EndsWith(t, "/events") by {
      assert t[|t| - 7] == '_';
    }
    assert !EndsWith(t, "/config_request") by {
      assert t[|t| - 1] == 's';
    }
  }
}
