/**
 * The UART-to-MQTT bridge (agent/src/agent/bridge.py).
 *
 * The serial port, the broker and the clocks are inputs: every `readline()`
 * is a `Read`, every write attempt comes with whether it succeeded, each
 * reading of `time.monotonic()` is a `real` attached to the input it precedes,
 * and `json.loads` is the bridge's `loads` parameter (None where it raises).
 * What the bridge sends to the device and to the broker is appended, in
 * order, to the `out` log.
 */
module AgentBridge {
  import opened Wrappers
  import opened Seqs
  import opened Json
  import opened Strings
  import AgentMqtt

  type Byte = bv8

  const TopicNamespace := "whac"
  /** Seconds the bridge keeps trying to reopen a lost port. */
  const ReconnectTimeout: real := 600.0
  /** Seconds the bridge waits for the identify answer. */
  const DeviceIdTimeout: real := 10.0
  /** Seconds between "online" heartbeats. */
  const HeartbeatInterval: real := 20.0

  const Identify: Byte := 0x49    // 'I'
  const Pause: Byte := 0x50       // 'P'
  const Disconnect: Byte := 0x44  // 'D'

  /** BOARD_COMMANDS: the one-byte payloads the bridge forwards to the device. */
  const BoardCommands: map<seq<Byte>, string> := map[
    [0x49] := "identify",
    [0x50] := "pause toggle",
    [0x52] := "reset game",
    [0x53] := "start game",
    [0x44] := "disconnect (start buffering)",
    [0x31] := "set level 1",
    [0x32] := "set level 2",
    [0x33] := "set level 3",
    [0x34] := "set level 4",
    [0x35] := "set level 5",
    [0x36] := "set level 6",
    [0x37] := "set level 7",
    [0x38] := "set level 8"
  ]

  /** A command payload: one byte, I, P, R, S, D or a level digit '1'..'8'. */
  predicate IsBoardCommand(b: seq<Byte>) {
    |b| == 1 && (b[0] in {0x49, 0x50, 0x52, 0x53, 0x44} || 0x31 <= b[0] <= 0x38)
  }

  /** The keys of BOARD_COMMANDS are exactly the one-byte command payloads. */
  lemma BoardCommandKeys(b: seq<Byte>)
    ensures b in BoardCommands <==> IsBoardCommand(b)
  {
    if IsBoardCommand(b) {
      assert b == [b[0]];
    }
  }

  // ---------------------------------------------------------------------
  // Inputs and outputs
  // ---------------------------------------------------------------------

  /** One attempt of the reconnect loop: the clock reading before it, whether the port opened, whether the 'I' write then succeeded. */
  datatype Attempt = Attempt(now: real, opens: bool, writeOk: bool)

  /**
   * One `readline()`: no bytes before the port's timeout, a line, or a
   * SerialException. A failed read also carries what the read loop observes
   * next: whether the port is still enumerated, the clock reading that starts
   * the reconnect wait, and the reconnect attempts.
   */
  datatype Read =
    | Timeout
    | Line(bytes: seq<Byte>)
    | Fault(plugged: bool, start: real, attempts: seq<Attempt>)

  /** What `_serial_read_jsonl` returns or raises. */
  datatype Frame = NoFrame | Dict(obj: Object) | DecodeError | JsonError | SerialFault

  /** Everything the bridge sends, in order. */
  datatype Action =
    | Write(byte: Byte, ok: bool)                            // a serial write and whether it succeeded
    | Publish(message: AgentMqtt.Message, waited: bool)      // a publish, and whether the bridge waited for it
    | Connect(will: AgentMqtt.Message, ok: bool)             // MQTT connect with the will registered
    | MqttDisconnect(result: AgentMqtt.DisconnectOutcome)    // MQTT disconnect and how far it got
    | Reopen                                                 // the port opened again after a fault
    | CloseSerial

  // ---------------------------------------------------------------------
  // Frame classification (_serial_read_jsonl)
  // ---------------------------------------------------------------------

  predicate IsAscii(b: seq<Byte>) {
    forall i :: 0 <= i < |b| ==> b[i] < 0x80
  }

  /** `bytes.decode("ascii")` on bytes it accepts. */
  function DecodeAscii(b: seq<Byte>): string
    requires IsAscii(b)
  {
    if b == [] then [] else [(b[0] as int) as char] + DecodeAscii(b[1..])
  }

  /** ASCII decoding maps each byte to the character with the same code. */
  lemma {:induction false} DecodeAsciiChars(b: seq<Byte>)
    requires IsAscii(b)
    ensures var s := DecodeAscii(b); |s| == |b| && forall i :: 0 <= i < |b| ==> s[i] as int == b[i] as int
  {
    if b != [] {
      DecodeAsciiChars(b[1..]);
    }
  }

  /** `_serial_read_jsonl`. */
  function ReadJsonl(r: Read, loads: string -> Option<Json>): Frame {
    match r
    case Fault(_, _, _) => SerialFault
    case Timeout => NoFrame
    case Line(b) =>
      if b == [] then NoFrame
      else if !IsAscii(b) then DecodeError
      else
        var j := loads(Strip(DecodeAscii(b)));
        if j.Some? && j.value.JObj? then Dict(j.value.fields) else JsonError
  }

  /**
   * Frame classification: an empty read gives no frame, a non-ASCII line a
   * decode error, a line that `json.loads` rejects or that is not a JSON
   * object a JSON error, and only an object is ever returned, the one
   * `json.loads` made of the stripped line.
   */
  lemma ReadJsonlCases(r: Read, loads: string -> Option<Json>)
    ensures var f := ReadJsonl(r, loads);
      (f.SerialFault? <==> r.Fault?)
      && (f.NoFrame? <==> r.Timeout? || r == Line([]))
      && (f.DecodeError? <==> r.Line? && r.bytes != [] && !IsAscii(r.bytes))
      && (f.Dict? <==> r.Line? && r.bytes != [] && IsAscii(r.bytes) && loads(Strip(DecodeAscii(r.bytes))).Some?
                       && loads(Strip(DecodeAscii(r.bytes))).value.JObj?)
      && (f.Dict? ==> loads(Strip(DecodeAscii(r.bytes))).value.fields == f.obj)
  {
  }

  // ---------------------------------------------------------------------
  // Command handling (_handle_command)
  // ---------------------------------------------------------------------

  datatype CommandOutcome = CommandOutcome(paused: bool, writes: seq<Action>)

  /**
   * `_handle_command`: only a key of BOARD_COMMANDS reaches the serial write,
   * and the pause flag flips exactly when "P" was written successfully.
   */
  function CommandEffect(paused: bool, payload: seq<Byte>, writeOk: bool): (r: CommandOutcome)
    ensures r.writes != [] <==> IsBoardCommand(payload)
    ensures r.writes != [] ==> r.writes == [Write(payload[0], writeOk)]
    ensures r.paused != paused <==> payload == [Pause] && writeOk
  {
    if !IsBoardCommand(payload) then CommandOutcome(paused, [])
    else if !writeOk then CommandOutcome(paused, [Write(payload[0], false)])
    else CommandOutcome(if payload == [Pause] then !paused else paused, [Write(payload[0], true)])
  }

  // ---------------------------------------------------------------------
  // Identify handshake (_request_device_id)
  // ---------------------------------------------------------------------

  /** One pass of the handshake loop: the clock reading of its test and the read that follows. */
  datatype Step = Step(now: real, read: Read)

  /** A pass as the handshake sees it: the clock reading and the frame read. */
  datatype Pass = Pass(now: real, frame: Frame)

  /** The frames the handshake's reads produce. */
  function Passes(steps: seq<Step>, loads: string -> Option<Json>): (ps: seq<Pass>)
    ensures |ps| == |steps|
    ensures forall j :: 0 <= j < |steps| ==> ps[j] == Pass(steps[j].now, ReadJsonl(steps[j].read, loads))
  {
    if steps == [] then []
    else [Pass(steps[0].now, ReadJsonl(steps[0].read, loads))] + Passes(steps[1..], loads)
  }

  /** The clock eventually passes start + timeout: the last reading is past it. */
  predicate HandshakeExpires(steps: seq<Step>, start: real) {
    |steps| > 0 && steps[|steps| - 1].now - start >= DeviceIdTimeout
  }

  predicate IsIdentify(o: Object) {
    HasStr(o, "event_type", "identify") && "device_id" in o
  }

  /** Frames the handshake passes over: no data, invalid JSON, or an object that is not the identify answer. */
  predicate Skipped(f: Frame) {
    f.NoFrame? || f.JsonError? || (f.Dict? && !IsIdentify(f.obj))
  }

  /** The frame that ends the handshake with a device_id. */
  predicate Identified(f: Frame) {
    f.Dict? && IsIdentify(f.obj)
  }

  predicate InTime(ps: seq<Pass>, start: real, j: nat) {
    j < |ps| && ps[j].now - start < DeviceIdTimeout
  }

  /** Pass k answers the handshake begun at pass i: every reading up to k is in time, k is the identify answer, and every pass before it was skipped. */
  predicate AnswersAt(ps: seq<Pass>, start: real, i: nat, k: nat) {
    i <= k < |ps|
    && (forall j :: i <= j <= k ==> ps[j].now - start < DeviceIdTimeout)
    && Identified(ps[k].frame)
    && (forall j :: i <= j < k ==> Skipped(ps[j].frame))
  }

  /**
   * The handshake loop from pass i on: the device_id of the first identify
   * answer that arrives in time, or None when a serial or decode error comes
   * first or the time runs out.
   */
  function HandshakeFrom(ps: seq<Pass>, start: real, i: nat): Option<Json>
    requires i <= |ps|
    decreases |ps| - i
  {
    if i == |ps| || !InTime(ps, start, i) then None
    else if Identified(ps[i].frame) then Some(ps[i].frame.obj["device_id"])
    else if Skipped(ps[i].frame) then HandshakeFrom(ps, start, i + 1)
    else None
  }

  /** One pass of `HandshakeFrom`, read in time: an error ends it, an answer is returned, anything else is passed over. */
  lemma HandshakeAt(ps: seq<Pass>, start: real, i: nat, now: real, f: Frame)
    requires i < |ps| && ps[i] == Pass(now, f) && now - start < DeviceIdTimeout
    ensures f.SerialFault? || f.DecodeError? ==> HandshakeFrom(ps, start, i) == None
    ensures f.Dict? && IsIdentify(f.obj) ==> HandshakeFrom(ps, start, i) == Some(f.obj["device_id"])
    ensures Skipped(f) ==> HandshakeFrom(ps, start, i) == HandshakeFrom(ps, start, i + 1)
  {
  }

  /** No pass answers a handshake whose pass i is missing, late, or an error. */
  lemma NoAnswerFrom(ps: seq<Pass>, start: real, i: nat)
    requires i == |ps| || !InTime(ps, start, i) || (!Identified(ps[i].frame) && !Skipped(ps[i].frame))
    ensures forall k :: !AnswersAt(ps, start, i, k)
  {
    forall k: nat | AnswersAt(ps, start, i, k) ensures false {
      assert InTime(ps, start, i);
      if k > i { assert false; }
    }
  }

  /** An identify answer in time at pass i is the one and only answer from i. */
  lemma AnswerHere(ps: seq<Pass>, start: real, i: nat)
    requires InTime(ps, start, i) && Identified(ps[i].frame)
    ensures AnswersAt(ps, start, i, i)
    ensures forall k :: AnswersAt(ps, start, i, k) ==> k == i
  {
    forall k: nat | AnswersAt(ps, start, i, k) ensures k == i {
      if k > i {
        assert false;
      }
    }
  }

  /** A skipped pass in time passes the question on to the next pass. */
  lemma AnswerShift(ps: seq<Pass>, start: real, i: nat)
    requires InTime(ps, start, i) && Skipped(ps[i].frame)
    ensures forall k :: AnswersAt(ps, start, i, k) <==> AnswersAt(ps, start, i + 1, k)
  {
    forall k: nat | AnswersAt(ps, start, i, k) ensures AnswersAt(ps, start, i + 1, k) {
      assert k != i;
    }
  }

  /**
   * The handshake from pass i on returns a device_id exactly when some pass
   * answers it, and then the device_id of that answer.
   */
  lemma {:induction false} HandshakeFinds(ps: seq<Pass>, start: real, i: nat)
    requires i <= |ps|
    decreases |ps| - i
    ensures var r := HandshakeFrom(ps, start, i);
      (r.Some? <==> exists k :: AnswersAt(ps, start, i, k))
      && forall k: nat :: AnswersAt(ps, start, i, k) ==> r == Some(ps[k].frame.obj["device_id"])
  {
    if i == |ps| || !InTime(ps, start, i) {
      NoAnswerFrom(ps, start, i);
    } else if Identified(ps[i].frame) {
      AnswerHere(ps, start, i);
    } else if Skipped(ps[i].frame) {
      AnswerShift(ps, start, i);
      HandshakeFinds(ps, start, i + 1);
      assert HandshakeFrom(ps, start, i) == HandshakeFrom(ps, start, i + 1);
      if k :| AnswersAt(ps, start, i, k) {
        assert AnswersAt(ps, start, i + 1, k);
      }
      var next := i + 1;
      if k :| AnswersAt(ps, start, next, k) {
        assert AnswersAt(ps, start, i, k);
      }
    } else {
      NoAnswerFrom(ps, start, i);
    }
  }

  /**
   * `_request_device_id`: fails at once when the 'I' write fails; otherwise
   * returns a device_id exactly when some pass answers the handshake, and
   * then the device_id that answer carried.
   */
  function Handshake(writeOk: bool, ps: seq<Pass>, start: real): (r: Option<Json>)
    ensures r.Some? <==> writeOk && exists k :: AnswersAt(ps, start, 0, k)
    ensures forall k: nat :: writeOk && AnswersAt(ps, start, 0, k) ==> r == Some(ps[k].frame.obj["device_id"])
  {
    HandshakeFinds(ps, start, 0);
    if writeOk then HandshakeFrom(ps, start, 0) else None
  }

  /** Only the first identify answer can be the one the handshake returns. */
  lemma AnswerIsFirst(ps: seq<Pass>, start: real, k1: nat, k2: nat)
    requires AnswersAt(ps, start, 0, k1) && AnswersAt(ps, start, 0, k2)
    ensures k1 == k2
  {
    if k1 < k2 {
      assert false;
    } else if k2 < k1 {
      assert false;
    }
  }

  // ---------------------------------------------------------------------
  // Reconnect (_wait_for_reconnect)
  // ---------------------------------------------------------------------

  predicate ReconnectExpires(attempts: seq<Attempt>, start: real) {
    |attempts| > 0 && attempts[|attempts| - 1].now - start >= ReconnectTimeout
  }

  datatype ReconnectOutcome = ReconnectOutcome(ok: bool, actions: seq<Action>)

  /**
   * The reconnect loop from attempt i on. It succeeds only with an attempt
   * made in time that opened the port, followed by exactly one 'I' write; it
   * fails only once a clock reading is past the timeout, with every attempt
   * before that having failed to open.
   */
  function ReconnectFrom(attempts: seq<Attempt>, start: real, i: nat): (r: ReconnectOutcome)
    requires i < |attempts| && ReconnectExpires(attempts, start)
    decreases |attempts| - i
    ensures r.ok ==>
      exists k :: i <= k < |attempts| && attempts[k].now - start < ReconnectTimeout && attempts[k].opens
                   && r.actions == [Reopen, Write(Identify, attempts[k].writeOk)]
    ensures !r.ok ==>
      r.actions == [] && exists k :: i <= k < |attempts| && attempts[k].now - start >= ReconnectTimeout
                                     && forall j :: i <= j < k ==> !attempts[j].opens
  {
    if attempts[i].now - start >= ReconnectTimeout then ReconnectOutcome(false, [])
    else if attempts[i].opens then ReconnectOutcome(true, [Reopen, Write(Identify, attempts[i].writeOk)])
    else ReconnectFrom(attempts, start, i + 1)
  }

  // ---------------------------------------------------------------------
  // The read loop (_read_events)
  // ---------------------------------------------------------------------

  /**
   * What reaches the read loop between two of its steps: a read (with the
   * monotonic clock after it and the wall-clock timestamp its publishes
   * carry), or a command payload from the broker with whether its write
   * would succeed.
   */
  datatype Input =
    | Tick(read: Read, now: real, ts: int)
    | Command(payload: seq<Byte>, writeOk: bool)

  predicate WellFormed(x: Input) {
    x.Tick? && x.read.Fault? && x.read.plugged ==> ReconnectExpires(x.read.attempts, x.read.start)
  }

  predicate AllWellFormed(xs: seq<Input>) {
    forall i :: 0 <= i < |xs| ==> WellFormed(xs[i])
  }

  /** Why the read loop returned on its own. */
  datatype Exit = Unplugged | GaveUp

  /** The read loop's state: the pause flag, the last heartbeat, what it has sent, and whether it has returned. */
  datatype Loop = Loop(paused: bool, lastBeat: real, out: seq<Action>, exit: Option<Exit>)

  /** What one step of the read loop sends, in order. */
  function StepActions(c: AgentMqtt.Client, loads: string -> Option<Json>, s: Loop, x: Input): seq<Action>
    requires WellFormed(x)
  {
    match x
    case Command(p, ok) => CommandEffect(s.paused, p, ok).writes
    case Tick(read, now, ts) =>
      if read.Fault? then
        if !read.plugged then []
        else
          var rc := ReconnectFrom(read.attempts, read.start, 0);
          if rc.ok then rc.actions + [Publish(AgentMqtt.PublishState(c, AgentMqtt.Online, ts), true)]
          else [Publish(AgentMqtt.PublishState(c, AgentMqtt.SerialError, ts), true)]
      else
        var f := ReadJsonl(read, loads);
        (if f.Dict? then [Publish(AgentMqtt.PublishEvent(c, f.obj, ts), false)] else [])
        + (if now - s.lastBeat >= HeartbeatInterval
           then [Publish(AgentMqtt.PublishState(c, AgentMqtt.Online, ts), false)] else [])
  }

  /** One step of the read loop. */
  function LoopStep(c: AgentMqtt.Client, loads: string -> Option<Json>, s: Loop, x: Input): Loop
    requires WellFormed(x)
  {
    var out := s.out + StepActions(c, loads, s, x);
    match x
    case Command(p, ok) => s.(paused := CommandEffect(s.paused, p, ok).paused, out := out)
    case Tick(read, now, ts) =>
      if read.Fault? then
        var exit :=
          if !read.plugged then Some(Unplugged)
          else if ReconnectFrom(read.attempts, read.start, 0).ok then s.exit
          else Some(GaveUp);
        s.(out := out, exit := exit)
      else s.(out := out, lastBeat := if now - s.lastBeat >= HeartbeatInterval then now else s.lastBeat)
  }

  /** A step appends what it sends to the log. */
  lemma StepOut(c: AgentMqtt.Client, loads: string -> Option<Json>, s: Loop, x: Input)
    requires WellFormed(x)
    ensures LoopStep(c, loads, s, x).out == s.out + StepActions(c, loads, s, x)
  {
  }

  /** The read loop over a script of inputs; it stops consuming inputs once it has returned. */
  function LoopRun(c: AgentMqtt.Client, loads: string -> Option<Json>, s: Loop, xs: seq<Input>): Loop
    requires AllWellFormed(xs)
    decreases |xs|
  {
    if xs == [] then s
    else
      var t := LoopRun(c, loads, s, xs[..|xs| - 1]);
      if t.exit.Some? then t else LoopStep(c, loads, t, xs[|xs| - 1])
  }

  /** One more input, before the loop has returned, is one more step. */
  lemma RunSnoc(c: AgentMqtt.Client, loads: string -> Option<Json>, s: Loop, xs: seq<Input>, i: nat)
    requires AllWellFormed(xs) && i < |xs|
    requires LoopRun(c, loads, s, xs[..i]).exit.None?
    ensures LoopRun(c, loads, s, xs[..i + 1]) == LoopStep(c, loads, LoopRun(c, loads, s, xs[..i]), xs[i])
  {
    assert xs[..i + 1][..i] == xs[..i];
  }

  /** A run still going after its last input was still going before it, and took one step on it. */
  lemma RunLast(c: AgentMqtt.Client, loads: string -> Option<Json>, s: Loop, xs: seq<Input>) returns (t: Loop)
    requires AllWellFormed(xs) && xs != []
    requires LoopRun(c, loads, s, xs).exit.None?
    ensures t == LoopRun(c, loads, s, xs[..|xs| - 1]) && t.exit.None?
    ensures LoopRun(c, loads, s, xs) == LoopStep(c, loads, t, xs[|xs| - 1])
  {
    t := LoopRun(c, loads, s, xs[..|xs| - 1]);
  }

  /** Once the loop has returned, later inputs change nothing. */
  lemma {:induction false} ExitSticky(c: AgentMqtt.Client, loads: string -> Option<Json>, s: Loop, xs: seq<Input>, k: nat)
    requires AllWellFormed(xs) && k <= |xs|
    requires LoopRun(c, loads, s, xs[..k]).exit.Some?
    ensures LoopRun(c, loads, s, xs) == LoopRun(c, loads, s, xs[..k])
  {
    if k < |xs| {
      assert xs[..|xs| - 1][..k] == xs[..k];
      ExitSticky(c, loads, s, xs[..|xs| - 1], k);
    } else {
      assert xs[..k] == xs;
    }
  }

  /**
   * Empty reads, decode and JSON errors and forwarded objects never end the
   * loop; an object read is published once; the heartbeat is due exactly
   * when 20 s passed since the last one, and then one "online" status is
   * published and the timer reset to now.
   */
  lemma TickKeepsLooping(c: AgentMqtt.Client, loads: string -> Option<Json>, s: Loop, read: Read, now: real, ts: int)
    requires !read.Fault?
    ensures var t := LoopStep(c, loads, s, Tick(read, now, ts));
      var f := ReadJsonl(read, loads);
      var beat := now - s.lastBeat >= HeartbeatInterval;
      t.exit == s.exit && t.paused == s.paused
      && t.out == s.out + (if f.Dict? then [Publish(AgentMqtt.PublishEvent(c, f.obj, ts), false)] else [])
         + (if beat then [Publish(AgentMqtt.PublishState(c, AgentMqtt.Online, ts), false)] else [])
      && t.lastBeat == (if beat then now else s.lastBeat)
  {
  }

  /**
   * A failed read: an unplugged port ends the loop with nothing sent; a
   * successful reconnect (a reopen and one 'I' write) is followed by an
   * "online" status and the loop goes on; otherwise "serial_error" is
   * published and the loop ends.
   */
  lemma FaultOutcomes(c: AgentMqtt.Client, loads: string -> Option<Json>, s: Loop, read: Read, now: real, ts: int)
    requires read.Fault? && WellFormed(Tick(read, now, ts))
    ensures var t := LoopStep(c, loads, s, Tick(read, now, ts));
      t.paused == s.paused && t.lastBeat == s.lastBeat
      && (!read.plugged ==> t.out == s.out && t.exit == Some(Unplugged))
      && (read.plugged && ReconnectFrom(read.attempts, read.start, 0).ok ==>
            t.exit == s.exit
            && exists w :: t.out == s.out + [Reopen, Write(Identify, w), Publish(AgentMqtt.PublishState(c, AgentMqtt.Online, ts), true)])
      && (read.plugged && !ReconnectFrom(read.attempts, read.start, 0).ok ==>
            t.exit == Some(GaveUp) && t.out == s.out + [Publish(AgentMqtt.PublishState(c, AgentMqtt.SerialError, ts), true)])
  {
    if read.plugged && ReconnectFrom(read.attempts, read.start, 0).ok {
      var acts := ReconnectFrom(read.attempts, read.start, 0).actions;
      var online := Publish(AgentMqtt.PublishState(c, AgentMqtt.Online, ts), true);
      assert acts[1] == Write(Identify, acts[1].ok);
      assert acts + [online] == [Reopen, Write(Identify, acts[1].ok), online];
    }
  }

  /** The game events among what was sent: the messages published on the device's game_events topic. */
  function EventMessages(c: AgentMqtt.Client, out: seq<Action>): seq<AgentMqtt.Message> {
    if out == [] then []
    else
      var head := if out[0].Publish? && out[0].message.topic == AgentMqtt.Topic(c, "game_events")
        then [out[0].message] else [];
      head + EventMessages(c, out[1..])
  }

  lemma {:induction false} EventMessagesAppend(c: AgentMqtt.Client, a: seq<Action>, b: seq<Action>)
    ensures EventMessages(c, a + b) == EventMessages(c, a) + EventMessages(c, b)
  {
    if a == [] {
      assert a + b == b;
    } else {
      assert (a + b)[1..] == a[1..] + b;
      EventMessagesAppend(c, a[1..], b);
    }
  }

  /** Nothing but a publish on the game_events topic is a game event. */
  lemma {:induction false} NoEventMessages(c: AgentMqtt.Client, out: seq<Action>)
    requires forall i :: 0 <= i < |out| ==> !(out[i].Publish? && out[i].message.topic == AgentMqtt.Topic(c, "game_events"))
    ensures EventMessages(c, out) == []
  {
    if out != [] {
      NoEventMessages(c, out[1..]);
    }
  }

  /** The event a single input should forward: the object it read, if any. */
  function ForwardedBy(c: AgentMqtt.Client, loads: string -> Option<Json>, x: Input): seq<AgentMqtt.Message> {
    if x.Tick? && ReadJsonl(x.read, loads).Dict?
    then [AgentMqtt.PublishEvent(c, ReadJsonl(x.read, loads).obj, x.ts)] else []
  }

  /** The events a script's reads should forward: one per object read, in read order. */
  function Forwarded(c: AgentMqtt.Client, loads: string -> Option<Json>, xs: seq<Input>): seq<AgentMqtt.Message> {
    if xs == [] then [] else Forwarded(c, loads, xs[..|xs| - 1]) + ForwardedBy(c, loads, xs[|xs| - 1])
  }

  /** What one step publishes on game_events is exactly the object it read, if any. */
  lemma StepEvents(c: AgentMqtt.Client, loads: string -> Option<Json>, s: Loop, x: Input)
    requires WellFormed(x)
    ensures EventMessages(c, StepActions(c, loads, s, x)) == ForwardedBy(c, loads, x)
  {
    AgentMqtt.TopicsDistinct(c, "state", "game_events");
    var acts := StepActions(c, loads, s, x);
    if x.Tick? && !x.read.Fault? {
      var f := ReadJsonl(x.read, loads);
      var fwd := if f.Dict? then [Publish(AgentMqtt.PublishEvent(c, f.obj, x.ts), false)] else [];
      var beat := if x.now - s.lastBeat >= HeartbeatInterval
        then [Publish(AgentMqtt.PublishState(c, AgentMqtt.Online, x.ts), false)] else [];
      assert acts == fwd + beat;
      EventMessagesAppend(c, fwd, beat);
      NoEventMessages(c, beat);
      if f.Dict? {
        assert fwd[1..] == [];
      }
    } else {
      NoEventMessages(c, acts);
    }
  }

  /**
   * While the loop runs, every object read is published to game_events
   * exactly once, in read order, and nothing else is published there.
   */
  lemma {:induction false} ForwardedInOrder(c: AgentMqtt.Client, loads: string -> Option<Json>, s: Loop, xs: seq<Input>)
    requires AllWellFormed(xs) && s.exit.None?
    requires LoopRun(c, loads, s, xs).exit.None?
    ensures EventMessages(c, LoopRun(c, loads, s, xs).out) == EventMessages(c, s.out) + Forwarded(c, loads, xs)
  {
    if xs != [] {
      var init := xs[..|xs| - 1];
      var x := xs[|xs| - 1];
      var t := RunLast(c, loads, s, xs);
      StepOut(c, loads, t, x);
      ForwardedInOrder(c, loads, s, init);
      StepEvents(c, loads, t, x);
      EventMessagesAppend(c, t.out, StepActions(c, loads, t, x));
      assert Forwarded(c, loads, xs) == Forwarded(c, loads, init) + ForwardedBy(c, loads, x);
    }
  }

  /** Number of successful 'P' writes: how many times the device toggled its pause state. */
  function PauseToggles(out: seq<Action>): nat {
    if out == [] then 0
    else (if out[0] == Write(Pause, true) then 1 else 0) + PauseToggles(out[1..])
  }

  lemma {:induction false} PauseTogglesAppend(a: seq<Action>, b: seq<Action>)
    ensures PauseToggles(a + b) == PauseToggles(a) + PauseToggles(b)
  {
    if a == [] {
      assert a + b == b;
    } else {
      assert (a + b)[1..] == a[1..] + b;
      PauseTogglesAppend(a[1..], b);
    }
  }

  /** Only a successful 'P' write counts as a toggle. */
  lemma {:induction false} NoPauseWrites(out: seq<Action>)
    requires forall i :: 0 <= i < |out| ==> out[i] != Write(Pause, true)
    ensures PauseToggles(out) == 0
  {
    if out != [] {
      NoPauseWrites(out[1..]);
    }
  }

  /**
   * The bridge's pause flag tracks the device: starting from paused0, it is
   * set exactly when the device has received an odd number of 'P' writes.
   */
  predicate PauseTracks(paused0: bool, paused: bool, out: seq<Action>) {
    paused == (paused0 != (PauseToggles(out) % 2 == 1))
  }

  /** Sending `acts` keeps the flag in step when it flips exactly when `acts` toggles the device once. */
  lemma TracksAfter(paused0: bool, paused: bool, out: seq<Action>, acts: seq<Action>, paused2: bool)
    requires PauseTracks(paused0, paused, out)
    requires PauseToggles(acts) == (if paused2 != paused then 1 else 0)
    ensures PauseTracks(paused0, paused2, out + acts)
  {
    PauseTogglesAppend(out, acts);
  }

  /** A command writes a successful 'P' exactly when it flips the flag. */
  lemma CommandToggles(paused: bool, payload: seq<Byte>, writeOk: bool)
    ensures var r := CommandEffect(paused, payload, writeOk);
      PauseToggles(r.writes) == (if r.paused != paused then 1 else 0)
  {
    var r := CommandEffect(paused, payload, writeOk);
    if r.writes != [] {
      assert r.writes[1..] == [];
    }
  }

  /** One step of the read loop keeps the pause flag in step with the device. */
  lemma StepKeepsPauseTracking(c: AgentMqtt.Client, loads: string -> Option<Json>, t: Loop, x: Input, paused0: bool)
    requires WellFormed(x) && PauseTracks(paused0, t.paused, t.out)
    ensures var u := LoopStep(c, loads, t, x); PauseTracks(paused0, u.paused, u.out)
  {
    var u := LoopStep(c, loads, t, x);
    var acts := StepActions(c, loads, t, x);
    StepOut(c, loads, t, x);
    if x.Command? {
      CommandToggles(t.paused, x.payload, x.writeOk);
      assert u.paused == CommandEffect(t.paused, x.payload, x.writeOk).paused;
    } else {
      TickWritesNoPause(c, loads, t, x);
      assert u.paused == t.paused;
    }
    TracksAfter(paused0, t.paused, t.out, acts, u.paused);
  }

  /** A read of the loop writes no 'P': at most the identify request after a reopen. */
  lemma TickWritesNoPause(c: AgentMqtt.Client, loads: string -> Option<Json>, t: Loop, x: Input)
    requires WellFormed(x) && x.Tick?
    ensures PauseToggles(StepActions(c, loads, t, x)) == 0
  {
    var acts := StepActions(c, loads, t, x);
    if x.read.Fault? && x.read.plugged {
      var rc := ReconnectFrom(x.read.attempts, x.read.start, 0);
      assert forall i :: 0 <= i < |rc.actions| ==> rc.actions[i] != Write(Pause, true);
    }
    NoPauseWrites(acts);
  }

  lemma {:induction false} LoopKeepsPauseTracking(c: AgentMqtt.Client, loads: string -> Option<Json>, s: Loop, xs: seq<Input>, paused0: bool)
    requires AllWellFormed(xs)
    requires PauseTracks(paused0, s.paused, s.out)
    ensures var t := LoopRun(c, loads, s, xs); PauseTracks(paused0, t.paused, t.out)
  {
    if xs != [] {
      var t := LoopRun(c, loads, s, xs[..|xs| - 1]);
      LoopKeepsPauseTracking(c, loads, s, xs[..|xs| - 1], paused0);
      if t.exit.None? {
        StepKeepsPauseTracking(c, loads, t, xs[|xs| - 1], paused0);
      }
    }
  }

  // ---------------------------------------------------------------------
  // Cleanup (_cleanup_before_disconnect)
  // ---------------------------------------------------------------------

  /**
   * `_cleanup_before_disconnect`: nothing when the port is no longer
   * enumerated; otherwise 'P' first when paused (the flag cleared only if
   * that write succeeded), then always 'D'.
   */
  function CleanupEffect(plugged: bool, paused: bool, unpauseOk: bool, disconnectOk: bool): (r: CommandOutcome)
    ensures !plugged ==> r.writes == [] && r.paused == paused
    ensures plugged ==> r.writes == (if paused then [Write(Pause, unpauseOk)] else []) + [Write(Disconnect, disconnectOk)]
    ensures r.paused <==> paused && !(plugged && unpauseOk)
  {
    if !plugged then CommandOutcome(paused, [])
    else if paused then CommandOutcome(!unpauseOk, [Write(Pause, unpauseOk), Write(Disconnect, disconnectOk)])
    else CommandOutcome(false, [Write(Disconnect, disconnectOk)])
  }

  /** Cleanup keeps the pause flag in step with the device too. */
  lemma CleanupKeepsPauseTracking(out: seq<Action>, paused0: bool, paused: bool, plugged: bool, unpauseOk: bool, disconnectOk: bool)
    requires PauseTracks(paused0, paused, out)
    ensures var r := CleanupEffect(plugged, paused, unpauseOk, disconnectOk); PauseTracks(paused0, r.paused, out + r.writes)
  {
    var r := CleanupEffect(plugged, paused, unpauseOk, disconnectOk);
    PauseTogglesAppend(out, r.writes);
    if plugged && paused {
      assert r.writes == [Write(Pause, unpauseOk), Write(Disconnect, disconnectOk)];
      assert r.writes[1..] == [Write(Disconnect, disconnectOk)];
      assert PauseToggles(r.writes[1..]) == 0 by { assert r.writes[1..][1..] == []; }
      assert PauseToggles(r.writes) == (if unpauseOk then 1 else 0);
    } else if plugged {
      assert r.writes[1..] == [];
      assert PauseToggles(r.writes) == 0;
    }
  }

  // ---------------------------------------------------------------------
  // The bridge object
  // ---------------------------------------------------------------------

  /** Everything `run` learns from the outside world, in the order it asks. */
  datatype World = World(
    portOpens: bool,               // `_connect_to_serial`
    identifyWriteOk: bool,         // the handshake's 'I' write
    handshakeStart: real,
    handshake: seq<Step>,
    willTs: int,                   // timestamp of the will payload
    connectRc: int,
    loopStartRc: int,
    onlineTs: int,
    loopStart: real,               // first heartbeat reading
    inputs: seq<Input>,
    pluggedAtCleanup: bool,
    unpauseOk: bool,
    disconnectOk: bool,
    offlineTs: int,
    disconnectRc: int,
    loopStopRc: int)

  /**
   * What `run` does once MQTT is connected: "online" (waited for), the read
   * loop, the cleanup writes, "offline" (waited for), the MQTT disconnect and
   * the port close, in that order; and the pause flag the cleanup leaves.
   */
  function ServeEffect(c: AgentMqtt.Client, loads: string -> Option<Json>, w: World, paused0: bool): CommandOutcome
    requires AllWellFormed(w.inputs)
  {
    var l := LoopRun(c, loads, Loop(paused0, w.loopStart, [], None), w.inputs);
    var cl := CleanupEffect(w.pluggedAtCleanup, l.paused, w.unpauseOk, w.disconnectOk);
    CommandOutcome(cl.paused,
      [Action.Publish(AgentMqtt.PublishState(c, AgentMqtt.Online, w.onlineTs), true)] + l.out + cl.writes
      + [Action.Publish(AgentMqtt.PublishState(c, AgentMqtt.Offline, w.offlineTs), true),
         MqttDisconnect(AgentMqtt.Disconnect(w.disconnectRc, w.loopStopRc)), CloseSerial])
  }

  /**
   * What `run` does once it has the device_id: MQTT connect with an
   * "offline" will, then either the port close (connect failed) or the rest
   * of the session.
   */
  function SessionEffect(c: AgentMqtt.Client, loads: string -> Option<Json>, w: World, paused0: bool): CommandOutcome
    requires AllWellFormed(w.inputs)
  {
    var connected := AgentMqtt.Connect(w.connectRc, w.loopStartRc).ok;
    var connect := Connect(AgentMqtt.Will(c, AgentMqtt.Offline, w.willTs), connected);
    if !connected then CommandOutcome(paused0, [connect, CloseSerial])
    else
      var r := ServeEffect(c, loads, w, paused0);
      CommandOutcome(r.paused, [connect] + r.writes)
  }

  /**
   * What `run` does once it has the device_id, as written. `publish_state`
   * returns None, so the `.wait_for_publish()` chained on the "online"
   * publish raises AttributeError as soon as that publish is handed to paho:
   * after a successful connect the log ends with the "online" publish, never
   * waited for. The read loop, the cleanup writes, the "offline" publish,
   * the MQTT disconnect and the port close are all skipped.
   */
  function SessionAsWritten(c: AgentMqtt.Client, w: World): (r: seq<Action>)
    ensures CloseSerial in r <==> !AgentMqtt.Connect(w.connectRc, w.loopStartRc).ok
    ensures forall i :: 0 <= i < |r| ==> !r[i].MqttDisconnect? && !r[i].Write? && !(r[i].Publish? && r[i].waited)
  {
    var connected := AgentMqtt.Connect(w.connectRc, w.loopStartRc).ok;
    var connect := Connect(AgentMqtt.Will(c, AgentMqtt.Offline, w.willTs), connected);
    if !connected then [connect, CloseSerial]
    else [connect, Action.Publish(AgentMqtt.PublishState(c, AgentMqtt.Online, w.onlineTs), false)]
  }

  /**
   * Where the code as written and the intended session part ways: both
   * connect and hand the same "online" message to paho, but only the
   * intended session waits for it, and only the intended session ever
   * publishes "offline", disconnects MQTT and closes the port, the last as
   * its final action.
   */
  lemma SessionAsWrittenCrashes(c: AgentMqtt.Client, loads: string -> Option<Json>, w: World, paused0: bool)
    requires AllWellFormed(w.inputs) && AgentMqtt.Connect(w.connectRc, w.loopStartRc).ok
    ensures var intended := SessionEffect(c, loads, w, paused0).writes;
      var actual := SessionAsWritten(c, w);
      var offline := Action.Publish(AgentMqtt.PublishState(c, AgentMqtt.Offline, w.offlineTs), true);
      |actual| == 2 && |intended| >= 5
      && actual[0] == intended[0] && actual[1].message == intended[1].message
      && intended[1].waited && !actual[1].waited
      && intended[|intended| - 1] == CloseSerial && CloseSerial !in actual
      && offline in intended && offline !in actual
      && intended[|intended| - 2].MqttDisconnect? && actual[|actual| - 1].Publish?
  {
  }

  class Bridge {
    const mqttBroker: string
    const mqttPort: int
    /** `json.loads` on one decoded line: None where it raises. */
    const loads: string -> Option<Json>
    var deviceId: Json
    var paused: bool
    /** What the device and the broker have been sent, in order. */
    var out: seq<Action>

    constructor (mqttBroker: string, mqttPort: int, loads: string -> Option<Json>)
      ensures this.mqttBroker == mqttBroker && this.mqttPort == mqttPort && this.loads == loads
      ensures !paused && out == []
    {
      this.mqttBroker := mqttBroker;
      this.mqttPort := mqttPort;
      this.loads := loads;
      deviceId := JNull;
      paused := false;
      out := [];
    }

    /** `_serial_write`: attempts the write and reports whether it succeeded. */
    method SerialWrite(b: Byte, ok: bool) returns (written: bool)
      modifies this`out
      ensures written == ok && out == old(out) + [Write(b, ok)]
    {
      out := out + [Write(b, ok)];
      written := ok;
    }

    /** `_handle_command` (the `on_command` callback paho's `_on_message` calls with the payload unchanged). */
    method HandleCommand(payload: seq<Byte>, writeOk: bool)
      modifies this`paused, this`out
      ensures var e := CommandEffect(old(paused), payload, writeOk);
        paused == e.paused && out == old(out) + e.writes
    {
      BoardCommandKeys(payload);
      if payload !in BoardCommands {
        return;
      }
      var ok := SerialWrite(payload[0], writeOk);
      if !ok {
        return;
      }
      if payload == [Pause] {
        paused := !paused;
      }
    }

    /** `_request_device_id`. */
    method RequestDeviceId(writeOk: bool, start: real, steps: seq<Step>) returns (ok: bool)
      requires HandshakeExpires(steps, start)
      modifies this`deviceId, this`out
      ensures var r := Handshake(writeOk, Passes(steps, loads), start);
        ok == r.Some? && (ok ==> deviceId == r.value) && (!ok ==> deviceId == old(deviceId))
      ensures out == old(out) + [Write(Identify, writeOk)]
    {
      var written := SerialWrite(Identify, writeOk);
      if !written {
        return false;
      }
      var answer := AwaitIdentify(start, steps);
      if answer.Some? {
        deviceId := answer.value;
      }
      return answer.Some?;
    }

    /**
     * The read loop of `_request_device_id`, after the identify request:
     * the device_id of the first identify answer read in time, or None on a
     * serial or decode error or once the timeout has passed.
     */
    method AwaitIdentify(start: real, steps: seq<Step>) returns (answer: Option<Json>)
      requires HandshakeExpires(steps, start)
      ensures answer == HandshakeFrom(Passes(steps, loads), start, 0)
    {
      ghost var ps := Passes(steps, loads);
      var i := 0;
      while steps[i].now - start < DeviceIdTimeout
        invariant 0 <= i < |steps|
        invariant HandshakeFrom(ps, start, i) == HandshakeFrom(ps, start, 0)
        decreases |steps| - i
      {
        var f := ReadJsonl(steps[i].read, loads);
        HandshakeAt(ps, start, i, steps[i].now, f);
        if f.SerialFault? || f.DecodeError? {
          return None;
        }
        if f.Dict? && IsIdentify(f.obj) {
          return Some(f.obj["device_id"]);
        }
        i := i + 1;
      }
      return None;
    }

    /** `_wait_for_reconnect`. */
    method WaitForReconnect(start: real, attempts: seq<Attempt>) returns (ok: bool)
      requires ReconnectExpires(attempts, start)
      modifies this`out
      ensures var r := ReconnectFrom(attempts, start, 0); ok == r.ok && out == old(out) + r.actions
    {
      var i := 0;
      while attempts[i].now - start < ReconnectTimeout
        invariant 0 <= i < |attempts|
        invariant ReconnectFrom(attempts, start, i) == ReconnectFrom(attempts, start, 0)
        invariant out == old(out)
        decreases |attempts| - i
      {
        if attempts[i].opens {
          out := out + [Reopen];
          var _ := SerialWrite(Identify, attempts[i].writeOk);
          return true;
        }
        i := i + 1;
      }
      return false;
    }

    /** Appends a publish of the client. */
    method Send(m: AgentMqtt.Message, waited: bool)
      modifies this`out
      ensures out == old(out) + [Action.Publish(m, waited)]
    {
      out := out + [Action.Publish(m, waited)];
    }

    /** A pass of `_read_events` whose read raised SerialException. */
    method FaultPass(c: AgentMqtt.Client, ghost s: Loop, read: Read, now: real, ts: int, lastBeat: real)
      returns (beat: real, exit: Option<Exit>)
      requires read.Fault? && WellFormed(Tick(read, now, ts)) && s.exit.None? && paused == s.paused && lastBeat == s.lastBeat
      modifies this`out
      ensures var t := LoopStep(c, loads, s, Tick(read, now, ts));
        paused == t.paused && beat == t.lastBeat && exit == t.exit
        && out == old(out) + StepActions(c, loads, s, Tick(read, now, ts))
    {
      beat := lastBeat;
      if !read.plugged {
        return lastBeat, Some(Unplugged);
      }
      var back := WaitForReconnect(read.start, read.attempts);
      if !back {
        Send(AgentMqtt.PublishState(c, AgentMqtt.SerialError, ts), true);
        return lastBeat, Some(GaveUp);
      }
      Send(AgentMqtt.PublishState(c, AgentMqtt.Online, ts), true);
      exit := None;
    }

    /** A pass of `_read_events` whose read returned (or raised a decode or JSON error). */
    method FramePass(c: AgentMqtt.Client, ghost s: Loop, read: Read, now: real, ts: int, lastBeat: real)
      returns (beat: real)
      requires !read.Fault? && s.exit.None? && paused == s.paused && lastBeat == s.lastBeat
      modifies this`out
      ensures var t := LoopStep(c, loads, s, Tick(read, now, ts));
        paused == t.paused && beat == t.lastBeat && t.exit.None?
        && out == old(out) + StepActions(c, loads, s, Tick(read, now, ts))
    {
      var f := ReadJsonl(read, loads);
      if f.Dict? {
        Send(AgentMqtt.PublishEvent(c, f.obj, ts), false);
      }
      beat := lastBeat;
      if now - lastBeat >= HeartbeatInterval {
        Send(AgentMqtt.PublishState(c, AgentMqtt.Online, ts), false);
        beat := now;
      }
    }

    /** One pass of the read loop, or one command callback between two passes. */
    method LoopOnce(c: AgentMqtt.Client, ghost s: Loop, x: Input, lastBeat: real) returns (beat: real, exit: Option<Exit>)
      requires WellFormed(x) && s.exit.None? && paused == s.paused && lastBeat == s.lastBeat
      modifies this`paused, this`out
      ensures var t := LoopStep(c, loads, s, x);
        paused == t.paused && beat == t.lastBeat && exit == t.exit && out == old(out) + StepActions(c, loads, s, x)
    {
      match x {
        case Command(p, ok) =>
          HandleCommand(p, ok);
          beat, exit := lastBeat, None;
        case Tick(read, now, ts) =>
          if read.Fault? {
            beat, exit := FaultPass(c, s, read, now, ts, lastBeat);
          } else {
            beat := FramePass(c, s, read, now, ts, lastBeat);
            exit := None;
          }
      }
    }

    /**
     * `_read_events` over a script of inputs. It returns the reason it
     * stopped, or None when the script ran out (the process was interrupted).
     */
    method ReadEvents(c: AgentMqtt.Client, start: real, xs: seq<Input>) returns (exit: Option<Exit>)
      requires AllWellFormed(xs)
      modifies this`paused, this`out
      ensures var r := LoopRun(c, loads, Loop(old(paused), start, [], None), xs);
        paused == r.paused && out == old(out) + r.out && exit == r.exit
    {
      var init := Loop(paused, start, [], None);
      var lastBeat := start;
      var i := 0;
      ghost var run := init;
      while i < |xs|
        invariant 0 <= i <= |xs|
        decreases |xs| - i
        invariant run == LoopRun(c, loads, init, xs[..i])
        invariant run.exit.None? && paused == run.paused && lastBeat == run.lastBeat && out == old(out) + run.out
      {
        RunSnoc(c, loads, init, xs, i);
        StepOut(c, loads, run, xs[i]);
        ghost var sent := StepActions(c, loads, run, xs[i]);
        AppendAssoc(old(out), run.out, sent);
        var stop;
        lastBeat, stop := LoopOnce(c, run, xs[i], lastBeat);
        run := LoopStep(c, loads, run, xs[i]);
        if stop.Some? {
          ExitSticky(c, loads, init, xs, i + 1);
          return stop;
        }
        i := i + 1;
      }
      assert xs[..i] == xs;
      return None;
    }

    /** `_cleanup_before_disconnect`. */
    method CleanupBeforeDisconnect(plugged: bool, unpauseOk: bool, disconnectOk: bool)
      modifies this`paused, this`out
      ensures var r := CleanupEffect(plugged, old(paused), unpauseOk, disconnectOk);
        paused == r.paused && out == old(out) + r.writes
    {
      if !plugged {
        return;
      }
      if paused {
        var ok := SerialWrite(Pause, unpauseOk);
        if ok {
          paused := false;
        }
      }
      var _ := SerialWrite(Disconnect, disconnectOk);
    }

    /** The `finally` of `run`: clean up, announce "offline", disconnect MQTT, close the port. */
    method Shutdown(c: AgentMqtt.Client, w: World)
      modifies this`paused, this`out
      ensures var cl := CleanupEffect(w.pluggedAtCleanup, old(paused), w.unpauseOk, w.disconnectOk);
        paused == cl.paused
        && out == old(out) + cl.writes
           + [Action.Publish(AgentMqtt.PublishState(c, AgentMqtt.Offline, w.offlineTs), true),
              MqttDisconnect(AgentMqtt.Disconnect(w.disconnectRc, w.loopStopRc)), CloseSerial]
    {
      CleanupBeforeDisconnect(w.pluggedAtCleanup, w.unpauseOk, w.disconnectOk);
      Send(AgentMqtt.PublishState(c, AgentMqtt.Offline, w.offlineTs), true);
      out := out + [MqttDisconnect(AgentMqtt.Disconnect(w.disconnectRc, w.loopStopRc)), CloseSerial];
    }

    /**
     * The part of `run` after the MQTT connect: announce "online", run the
     * read loop, then (its `finally`) clean up, announce "offline",
     * disconnect MQTT and close the port.
     */
    method Serve(c: AgentMqtt.Client, w: World)
      requires AllWellFormed(w.inputs)
      modifies this`paused, this`out
      ensures var r := ServeEffect(c, loads, w, old(paused)); paused == r.paused && out == old(out) + r.writes
    {
      ghost var out0 := out;
      ghost var l := LoopRun(c, loads, Loop(paused, w.loopStart, [], None), w.inputs);
      ghost var cl := CleanupEffect(w.pluggedAtCleanup, l.paused, w.unpauseOk, w.disconnectOk);
      var online := Action.Publish(AgentMqtt.PublishState(c, AgentMqtt.Online, w.onlineTs), true);
      ghost var tail := [Action.Publish(AgentMqtt.PublishState(c, AgentMqtt.Offline, w.offlineTs), true),
                         MqttDisconnect(AgentMqtt.Disconnect(w.disconnectRc, w.loopStopRc)), CloseSerial];
      Send(online.message, true);
      var _ := ReadEvents(c, w.loopStart, w.inputs);
      AppendAssoc(out0, [online], l.out);
      ghost var mid := out;
      Shutdown(c, w);
      AppendAssoc(mid, cl.writes, tail);
      AppendAssoc(out0, [online] + l.out, cl.writes + tail);
      AppendAssoc([online] + l.out, cl.writes, tail);
    }

    /**
     * The part of `run` after the handshake: connect MQTT with an "offline"
     * will; on failure close the port, otherwise serve.
     */
    method Session(w: World)
      requires AllWellFormed(w.inputs)
      modifies this`paused, this`out
      ensures var r := SessionEffect(AgentMqtt.Client(mqttBroker, mqttPort, deviceId, TopicNamespace), loads, w, old(paused));
        paused == r.paused && out == old(out) + r.writes
    {
      var c := AgentMqtt.Client(mqttBroker, mqttPort, deviceId, TopicNamespace);
      var will := AgentMqtt.Will(c, AgentMqtt.Offline, w.willTs);
      var connected := AgentMqtt.Connect(w.connectRc, w.loopStartRc).ok;
      out := out + [Connect(will, connected)];
      if !connected {
        out := out + [CloseSerial];
        return;
      }
      ghost var head := out;
      Serve(c, w);
      AppendAssoc(old(out), [Connect(will, connected)], ServeEffect(c, loads, w, old(paused)).writes);
    }

    /**
     * `run` as written: the same port open, handshake and MQTT connect as
     * Run, after which the "online" publish raises AttributeError out of
     * `run` (`crashed`), leaving the pause flag alone, the port open and the
     * MQTT client connected.
     */
    method RunAsWritten(w: World) returns (crashed: bool)
      requires HandshakeExpires(w.handshake, w.handshakeStart)
      modifies this
      ensures crashed <==>
        (w.portOpens && Handshake(w.identifyWriteOk, Passes(w.handshake, loads), w.handshakeStart).Some?
         && AgentMqtt.Connect(w.connectRc, w.loopStartRc).ok)
      ensures !w.portOpens ==> out == old(out)
      ensures w.portOpens && Handshake(w.identifyWriteOk, Passes(w.handshake, loads), w.handshakeStart).None? ==>
        out == old(out) + [Write(Identify, w.identifyWriteOk), CloseSerial]
      ensures w.portOpens && Handshake(w.identifyWriteOk, Passes(w.handshake, loads), w.handshakeStart).Some? ==>
        deviceId == Handshake(w.identifyWriteOk, Passes(w.handshake, loads), w.handshakeStart).value
        && paused == old(paused)
        && out == old(out) + [Write(Identify, w.identifyWriteOk)]
                 + SessionAsWritten(AgentMqtt.Client(mqttBroker, mqttPort, deviceId, TopicNamespace), w)
    {
      crashed := false;
      if !w.portOpens {
        return;
      }
      var ok := RequestDeviceId(w.identifyWriteOk, w.handshakeStart, w.handshake);
      if !ok {
        out := out + [CloseSerial];
        return;
      }
      var c := AgentMqtt.Client(mqttBroker, mqttPort, deviceId, TopicNamespace);
      var connected := AgentMqtt.Connect(w.connectRc, w.loopStartRc).ok;
      out := out + [Connect(AgentMqtt.Will(c, AgentMqtt.Offline, w.willTs), connected)];
      if !connected {
        out := out + [CloseSerial];
        return;
      }
      Send(AgentMqtt.PublishState(c, AgentMqtt.Online, w.onlineTs), false);
      crashed := true;
    }

    /**
     * `run`: open the port and identify; a failed open does nothing, a
     * failed handshake closes the port having published nothing; otherwise
     * the device_id is the handshake's and the MQTT session follows.
     */
    method Run(w: World)
      requires HandshakeExpires(w.handshake, w.handshakeStart) && AllWellFormed(w.inputs)
      modifies this
      ensures !w.portOpens ==> out == old(out)
      ensures w.portOpens && Handshake(w.identifyWriteOk, Passes(w.handshake, loads), w.handshakeStart).None? ==>
        out == old(out) + [Write(Identify, w.identifyWriteOk), CloseSerial]
      ensures w.portOpens && Handshake(w.identifyWriteOk, Passes(w.handshake, loads), w.handshakeStart).Some? ==>
        deviceId == Handshake(w.identifyWriteOk, Passes(w.handshake, loads), w.handshakeStart).value
        && var r := SessionEffect(AgentMqtt.Client(mqttBroker, mqttPort, deviceId, TopicNamespace), loads, w, old(paused));
           paused == r.paused && out == old(out) + [Write(Identify, w.identifyWriteOk)] + r.writes
    {
      if !w.portOpens {
        return;
      }
      var ok := RequestDeviceId(w.identifyWriteOk, w.handshakeStart, w.handshake);
      if !ok {
        out := out + [CloseSerial];
        return;
      }
      Session(w);
    }
  }
}
