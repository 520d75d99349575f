/**
 * The dashboard's device registry (dashboard/src/dashboard/__main__.py and
 * the `DeviceState`/`Session` records of dashboard/src/dashboard/state.py):
 * MQTT messages from the bridges are routed by topic, state messages update
 * a device's status, game events drive its session lifecycle and feed the
 * leaderboard, and a watchdog marks silent devices offline.
 *
 * The global `devices` dictionary is the field of a `Registry`. Device
 * records live only inside it, so each is a value replaced under its key.
 * The lock is not modelled (every handler runs to completion). The current
 * time a handler would read is a parameter, and so is the score
 * `calculate_score` computes for a finished session.
 */
module DashboardRegistry {
  import opened Wrappers
  import opened Json
  import opened Strings
  import DashboardLeaderboard

  /** A device is considered offline after this long without a message (ms). */
  const DeviceTimeoutMs := 30000

  /** Completed sessions kept per device. */
  const MaxPastSessions := 5

  datatype DevStatus = Online | Offline | SerialError

  datatype GameState = Idle | Playing

  /** `Session`: the events of one game, its start and end times, and whether it was won. */
  datatype Session = Session(events: seq<Object>, startedAt: int, endedAt: int, won: Option<bool>)

  /** `DeviceState`. */
  datatype DeviceState = DeviceState(
    deviceId: Json, status: DevStatus, gameState: GameState, lastSeen: int,
    current: Option<Session>, past: seq<Session>)

  /** A device seen for the first time: offline, idle, no sessions. */
  function NewDevice(id: Json): DeviceState {
    DeviceState(id, Offline, Idle, 0, None, [])
  }

  /** The device's record, or a fresh one for an unknown id (auto-discovery). */
  function Known(devices: map<Json, DeviceState>, id: Json): DeviceState {
    if id in devices then devices[id] else NewDevice(id)
  }

  /** `data.get("ts", now)` for a message whose ts, when present, is an integer. */
  function Ts(data: Object, now: int): int {
    if "ts" in data && data["ts"].JInt? then data["ts"].i else now
  }

  /** `data.get(key) == JStr(text)`. */
  predicate Is(data: Object, key: string, text: string) {
    key in data && data[key] == JStr(text)
  }

  /** The status a state message gives: the bridge's error or offline status is kept, anything else means online. */
  function StatusFrom(data: Object): (s: DevStatus)
    ensures s == SerialError <==> Is(data, "status", "serial_error")
    ensures s == Offline <==> Is(data, "status", "offline")
  {
    if Is(data, "status", "serial_error") then SerialError
    else if Is(data, "status", "offline") then Offline
    else Online
  }

  /** What the registry keeps true of each device: playing exactly while a session is open, at most five past sessions. */
  ghost predicate WellFormed(d: DeviceState) {
    (d.gameState == Playing <==> d.current.Some?) && |d.past| <= MaxPastSessions
  }

  /** The session a "session_end" closes: end time, outcome and the end event itself recorded. */
  function Closed(s: Session, data: Object, ts: int): Session {
    s.(endedAt := ts, won := Some(Is(data, "win", "true")), events := s.events + [data])
  }

  /** Whether a game event closes an open session (and so adds a leaderboard entry). */
  predicate EndsSession(d: DeviceState, data: Object) {
    Is(data, "event_type", "session_end") && d.current.Some?
  }

  /** The device after one game event at time ts. */
  function AfterEvent(d: DeviceState, data: Object, ts: int): DeviceState {
    var seen := d.(lastSeen := ts);
    if Is(data, "event_type", "session_start") then
      seen.(gameState := Playing, current := Some(Session([], ts, 0, None)))
    else if Is(data, "event_type", "session_end") then
      if d.current.Some? then
        var past := [Closed(d.current.value, data, ts)] + d.past;
        seen.(gameState := Idle, current := None, past := if |past| > MaxPastSessions then past[..MaxPastSessions] else past)
      else seen.(gameState := Idle, current := None)
    else if d.current.Some? then
      seen.(current := Some(d.current.value.(events := d.current.value.events + [data])))
    else seen
  }

  /** The watchdog's verdict on one device at time now. */
  function Expire(d: DeviceState, now: int): DeviceState {
    if d.status == Online && now - d.lastSeen > DeviceTimeoutMs then d.(status := Offline) else d
  }

  /**
   * The registry after a state message: unchanged without a device_id;
   * otherwise that device (created if unknown) is last seen at the
   * message's ts and takes the message's status.
   */
  function OnState(devices: map<Json, DeviceState>, data: Object, now: int): map<Json, DeviceState> {
    if "device_id" !in data then devices
    else
      var id := data["device_id"];
      devices[id := Known(devices, id).(lastSeen := Ts(data, now), status := StatusFrom(data))]
  }

  /** The registry after a game event: unchanged without a device_id, otherwise that device after `AfterEvent`. */
  function OnEvent(devices: map<Json, DeviceState>, data: Object, now: int): map<Json, DeviceState> {
    if "device_id" !in data then devices
    else
      var id := data["device_id"];
      devices[id := AfterEvent(Known(devices, id), data, Ts(data, now))]
  }

  /** The leaderboard after a game event: the session's score enters it exactly when the event closes an open session. */
  function BoardOnEvent(devices: map<Json, DeviceState>, entries: seq<DashboardLeaderboard.Entry>, data: Object, now: int, score: int): seq<DashboardLeaderboard.Entry> {
    if "device_id" in data && EndsSession(Known(devices, data["device_id"]), data)
    then DashboardLeaderboard.Ranked(entries + [DashboardLeaderboard.Entry(score, data["device_id"], Ts(data, now))])
    else entries
  }

  class Registry {
    /** The global `devices` dictionary, keyed by device id. */
    var devices: map<Json, DeviceState>

    ghost predicate Valid()
      reads this
    {
      forall id :: id in devices ==> devices[id].deviceId == id && WellFormed(devices[id])
    }

    constructor ()
      ensures devices == map[] && Valid()
    {
      devices := map[];
    }

    /**
     * `handle_message`: a topic containing "/state" goes to the state
     * handler, otherwise one containing "/game_events" to the event handler,
     * anything else is ignored.
     */
    method HandleMessage(data: Object, topic: string, now: int, score: int, board: DashboardLeaderboard.Leaderboard)
      requires Valid()
      modifies this, board
      ensures Valid()
      ensures Contains(topic, "/state") ==>
        devices == OnState(old(devices), data, now) && board.entries == old(board.entries)
      ensures !Contains(topic, "/state") && Contains(topic, "/game_events") ==>
        devices == OnEvent(old(devices), data, now)
        && board.entries == BoardOnEvent(old(devices), old(board.entries), data, now, score)
      ensures !Contains(topic, "/state") && !Contains(topic, "/game_events") ==>
        devices == old(devices) && board.entries == old(board.entries)
    {
      if Contains(topic, "/state") {
        HandleState(data, now);
      } else if Contains(topic, "/game_events") {
        HandleGameEvent(data, now, score, board);
      }
    }

    /**
     * `handle_state`: a message without device_id is ignored; otherwise the
     * device is created if unknown, its last-seen time set to the message's
     * ts, and its status set from the message.
     */
    method HandleState(data: Object, now: int)
      requires Valid()
      modifies this
      ensures Valid()
      ensures devices == OnState(old(devices), data, now)
    {
      if "device_id" !in data {
        return;
      }
      var id := data["device_id"];
      var ts := Ts(data, now);
      if id !in devices {
        devices := devices[id := NewDevice(id).(lastSeen := ts)];
      }
      var device := devices[id];
      device := device.(lastSeen := ts);
      if Is(data, "status", "serial_error") {
        device := device.(status := SerialError);
      } else if Is(data, "status", "offline") {
        device := device.(status := Offline);
      } else {
        device := device.(status := Online);
      }
      devices := devices[id := device];
    }

    /**
     * `handle_game_event`: a message without device_id is ignored; otherwise
     * the device (created if unknown) is updated by `AfterEvent`, and a
     * session end that closes an open session adds the session's score to
     * the leaderboard.
     */
    method HandleGameEvent(data: Object, now: int, score: int, board: DashboardLeaderboard.Leaderboard)
      requires Valid()
      modifies this, board
      ensures Valid()
      ensures devices == OnEvent(old(devices), data, now)
      ensures board.entries == BoardOnEvent(old(devices), old(board.entries), data, now, score)
    {
      if "device_id" !in data {
        return;
      }
      var id := data["device_id"];
      var ts := Ts(data, now);
      if id !in devices {
        devices := devices[id := NewDevice(id)];
      }
      var device := devices[id];
      assert device == Known(old(devices), id);
      device := device.(lastSeen := ts);

      if Is(data, "event_type", "session_start") {
        device := device.(gameState := Playing, current := Some(Session([], ts, 0, None)));
      } else if Is(data, "event_type", "session_end") {
        device := device.(gameState := Idle);
        if device.current.Some? {
          var session := Closed(device.current.value, data, ts);
          board.AddEntry(id, score, ts);
          var past := [session] + device.past;
          if |past| > MaxPastSessions {
            past := past[..MaxPastSessions];
          }
          device := device.(past := past);
        }
        device := device.(current := None);
      } else if device.current.Some? {
        var session := device.current.value;
        device := device.(current := Some(session.(events := session.events + [data])));
      }
      EventKeepsWellFormed(Known(old(devices), id), data, ts);
      devices := devices[id := device];
    }

    /**
     * One pass of `check_device_timeouts`: every online device not heard
     * from for more than 30 s is marked offline; nothing else changes.
     */
    method CheckDeviceTimeouts(now: int)
      requires Valid()
      modifies this
      ensures Valid()
      ensures devices.Keys == old(devices).Keys
      ensures forall id :: id in devices ==> devices[id] == Expire(old(devices)[id], now)
    {
      ghost var before := devices;
      var todo := devices.Keys;
      while todo != {}
        invariant todo <= devices.Keys && devices.Keys == before.Keys
        invariant forall id :: id in devices ==> devices[id] == if id in todo then before[id] else Expire(before[id], now)
        decreases todo
      {
        var id :| id in todo;
        var device := devices[id];
        if device.status == Online && now - device.lastSeen > DeviceTimeoutMs {
          devices := devices[id := device.(status := Offline)];
        }
        todo := todo - {id};
      }
    }
  }

  /** Every game event keeps a device well formed. */
  lemma EventKeepsWellFormed(d: DeviceState, data: Object, ts: int)
    requires WellFormed(d)
    ensures WellFormed(AfterEvent(d, data, ts))
    ensures AfterEvent(d, data, ts).deviceId == d.deviceId && AfterEvent(d, data, ts).lastSeen == ts
  {
  }

  /**
   * A session end archives the open session newest first: the closed session
   * heads the history, followed by the previous sessions, of which only the
   * newest four survive.
   */
  lemma SessionArchived(d: DeviceState, data: Object, ts: int)
    requires WellFormed(d) && EndsSession(d, data)
    ensures var a := AfterEvent(d, data, ts);
      && a.gameState == Idle && a.current.None?
      && a.past[0] == Closed(d.current.value, data, ts)
      && a.past[0].events == d.current.value.events + [data]
      && a.past[1..] == d.past[..if |d.past| < MaxPastSessions then |d.past| else MaxPastSessions - 1]
  {
  }

  /**
   * Between a session start and its end, every other event is appended to
   * the open session, in arrival order; events outside a session are
   * dropped, and only a session end closes a session.
   */
  lemma MidSessionEvent(d: DeviceState, data: Object, ts: int)
    requires !Is(data, "event_type", "session_start") && !Is(data, "event_type", "session_end")
    ensures var a := AfterEvent(d, data, ts);
      && a.gameState == d.gameState && a.past == d.past
      && (d.current.Some? ==> a.current == Some(d.current.value.(events := d.current.value.events + [data])))
      && (d.current.None? ==> a.current.None?)
  {
  }

  /**
   * After the watchdog, no device is online that was last heard from more
   * than 30 s ago; it only ever turns online devices offline, and a second
   * pass at the same time changes nothing.
   */
  lemma ExpireSpec(d: DeviceState, now: int)
    ensures Expire(d, now).status == Online ==> now - d.lastSeen <= DeviceTimeoutMs
    ensures Expire(d, now) != d ==> d.status == Online && Expire(d, now) == d.(status := Offline)
    ensures Expire(Expire(d, now), now) == Expire(d, now)
  {
  }
}
