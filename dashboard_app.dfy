/**
 * The dashboard's HTTP layer (dashboard/src/dashboard/app.py): the command
 * endpoints that turn a button press into an MQTT command for one device,
 * and the `<base>` tag spliced into the page for deployment under a path
 * prefix. `pub_cmd` (dashboard/src/dashboard/mqtt.py) is modelled as the
 * message it publishes; FastAPI, the static files and the device and
 * leaderboard listings (plain serialisation) are not part of this model.
 */
module DashboardApp {
  import opened Wrappers
  import opened Strings
  import Json
  import AgentMqtt
  import AgentBridge
  import DashboardEnv

  /** The levels the device supports. */
  const LvlMin := 1
  const LvlMax := 8

  /** FastAPI's `HTTPException(status_code, detail)`. */
  datatype HttpError = HttpError(status: int, detail: string)

  /** What `pub_cmd` publishes: the command text on the device's command topic. */
  datatype CommandMessage = CommandMessage(topic: string, payload: string, qos: int)

  /** `pub_cmd`: the command goes to `whac/<device_id>/commands` at qos 2. */
  function PubCmd(deviceId: string, cmd: string): CommandMessage {
    CommandMessage("whac/" + deviceId + "/commands", cmd, 2)
  }

  /** The pause, reset and start endpoints: one fixed letter each. */
  function PauseCommand(deviceId: string): CommandMessage { PubCmd(deviceId, "P") }
  function ResetCommand(deviceId: string): CommandMessage { PubCmd(deviceId, "R") }
  function StartCommand(deviceId: string): CommandMessage { PubCmd(deviceId, "S") }

  /**
   * `post_level_command`: a level outside 1..8 is refused with status 400;
   * otherwise the level's decimal digit is sent.
   */
  function LevelCommand(deviceId: string, level: int): (r: Result<CommandMessage, HttpError>)
    ensures r.Err? <==> level < LvlMin || level > LvlMax
    ensures r.Err? ==> r.error == HttpError(400, "Level must be between 1 and 8")
    ensures r.Ok? ==> r.value == PubCmd(deviceId, [('0' as int + level) as char])
  {
    if level < LvlMin || level > LvlMax then Err(HttpError(400, "Level must be between 1 and 8"))
    else
      assert SignedDecimal(level) == Decimal(level) == [('0' as int + level) as char];
      Ok(PubCmd(deviceId, SignedDecimal(level)))
  }

  /** The bytes paho sends for a text payload made of ASCII characters. */
  function Encode(s: string): (b: seq<AgentBridge.Byte>)
    requires forall i :: 0 <= i < |s| ==> s[i] as int < 128
    ensures |b| == |s| && forall i :: 0 <= i < |b| ==> b[i] == s[i] as AgentBridge.Byte
  {
    seq(|s|, i requires 0 <= i < |s| => s[i] as AgentBridge.Byte)
  }

  /** Every command the dashboard can send, as the endpoints produce it. */
  predicate SentBy(deviceId: string, m: CommandMessage) {
    m == PauseCommand(deviceId) || m == ResetCommand(deviceId) || m == StartCommand(deviceId)
    || exists level :: LvlMin <= level <= LvlMax && LevelCommand(deviceId, level) == Ok(m)
  }

  /**
   * Every command the dashboard sends is one the bridge forwards to the
   * board: a single byte in the bridge's command table, written to the
   * serial port as it is.
   */
  lemma CommandsReachBoard(deviceId: string, m: CommandMessage, paused: bool, writeOk: bool)
    requires SentBy(deviceId, m)
    ensures |m.payload| == 1 && m.payload[0] as int < 128
    ensures AgentBridge.IsBoardCommand(Encode(m.payload))
    ensures AgentBridge.CommandEffect(paused, Encode(m.payload), writeOk).writes
      == [AgentBridge.Write(m.payload[0] as AgentBridge.Byte, writeOk)]
  {
    var b: AgentBridge.Byte;
    if m == PauseCommand(deviceId) {
      b := 0x50;
    } else if m == ResetCommand(deviceId) {
      b := 0x52;
    } else if m == StartCommand(deviceId) {
      b := 0x53;
    } else {
      var level :| LvlMin <= level <= LvlMax && LevelCommand(deviceId, level) == Ok(m);
      b := LevelByte(level);
    }
    assert m.payload[0] as AgentBridge.Byte == b;
    assert Encode(m.payload) == [b];
  }

  /** The byte a level's digit is sent as: '1' to '8' are 0x31 to 0x38. */
  lemma LevelByte(level: int) returns (b: AgentBridge.Byte)
    requires LvlMin <= level <= LvlMax
    ensures |LevelCommand("", level).value.payload| == 1
    ensures LevelCommand("", level).value.payload[0] as AgentBridge.Byte == b && 0x31 <= b <= 0x38
  {
    if level == 1 { b := 0x31; }
    else if level == 2 { b := 0x32; }
    else if level == 3 { b := 0x33; }
    else if level == 4 { b := 0x34; }
    else if level == 5 { b := 0x35; }
    else if level == 6 { b := 0x36; }
    else if level == 7 { b := 0x37; }
    else { b := 0x38; }
  }

  /**
   * The dashboard publishes to the topic the bridge subscribed to for its
   * own device, when the device id in the URL is the bridge's.
   */
  lemma CommandTopicMatches(c: AgentMqtt.Client, cmd: string)
    requires c.topic == "whac"
    ensures PubCmd(Json.Str(c.deviceId), cmd).topic == AgentMqtt.OnConnect(c, false)[0].topic
  {
  }

  /** `BASE_TAG`: a `<base>` element pointing at the root path, or nothing without one. */
  function BaseTag(rootPath: string): string {
    if rootPath != [] then "<base href=\"" + rootPath + "/\">" else ""
  }

  /** Python's `s.replace(old, new, 1)`: the first occurrence replaced, if any. */
  function ReplaceFirst(s: string, pat: string, rep: string): string {
    match Find(s, pat)
    case None => s
    case Some(i) => s[..i] + rep + s[i + |pat|..]
  }

  /** The `/` endpoint's page: the base tag spliced in after the first `<head>`. */
  function InjectBase(html: string, rootPath: string): string {
    if BaseTag(rootPath) != [] then ReplaceFirst(html, "<head>", "<head>\n  " + BaseTag(rootPath)) else html
  }

  /** Without a root path, or without a `<head>`, the page is served as it is. */
  lemma InjectBaseUnchanged(html: string, rootPath: string)
    requires rootPath == [] || Find(html, "<head>").None?
    ensures InjectBase(html, rootPath) == html
  {
  }

  /**
   * Otherwise the tag goes right after the first `<head>`, and cutting it
   * out again gives back the original page.
   */
  lemma InjectBaseSplice(html: string, rootPath: string, i: nat)
    requires rootPath != [] && Find(html, "<head>") == Some(i)
    ensures var ins := "\n  " + BaseTag(rootPath);
      var r := InjectBase(html, rootPath);
      && i + 6 <= |html| && html[i..i + 6] == "<head>"
      && r == html[..i + 6] + ins + html[i + 6..]
      && r[..i + 6] + r[i + 6 + |ins|..] == html
  {
    var ins := "\n  " + BaseTag(rootPath);
    assert i + 6 <= |html| && html[i..i + 6] == "<head>" by {
      assert OccursAt(html, "<head>", i);
    }
    assert "<head>\n  " + BaseTag(rootPath) == "<head>" + ins;
    assert InjectBase(html, rootPath) == ReplaceFirst(html, "<head>", "<head>" + ins);
    assert InjectBase(html, rootPath) == html[..i] + ("<head>" + ins) + html[i + 6..];
    SpliceAfter(html, i, "<head>", ins);
  }

  /** Inserting text right after an occurrence of a marker, and cutting it out again. */
  lemma SpliceAfter(s: string, i: nat, marker: string, ins: string)
    requires i + |marker| <= |s| && s[i..i + |marker|] == marker
    ensures var r := s[..i] + (marker + ins) + s[i + |marker|..];
      var k := i + |marker|;
      r == s[..k] + ins + s[k..] && r[..k] + r[k + |ins|..] == s
  {
    var k := i + |marker|;
    var r := s[..i] + (marker + ins) + s[i + |marker|..];
    assert s[..k] == s[..i] + marker;
    assert r == s[..k] + ins + s[k..];
    assert r[..k] == s[..k];
    assert r[k + |ins|..] == s[k..];
  }

  /**
   * With a root path the environment check accepts, the base URL ends in
   * exactly one '/': the path starts with '/' and adds none of its own at the end.
   */
  lemma BaseHrefSingleSlash(val: Option<string>)
    requires DashboardEnv.ValidateRootPath("APP_ROOT_PATH", val).Ok?
    requires DashboardEnv.ValidateRootPath("APP_ROOT_PATH", val).value != []
    ensures var p := DashboardEnv.ValidateRootPath("APP_ROOT_PATH", val).value;
      BaseTag(p) == "<base href=\"" + p + "/\">" && p[0] == '/' && p[|p| - 1] != '/'
  {
  }
}
