/**
 * The firmware's side of the serial link, emb/src/agent.c:
 * - every queued game event goes out as one JSON line;
 * - received characters are collected into a 128-byte line buffer;
 * - a complete line asking to pause queues a pause command.
 *
 * Queued events carry the tick count they were made at, which only the
 * `session_start` line prints. The command queue is a sequence of
 * `agent_command_t` values of eight slots, where `xQueueSend` with no
 * waiting drops a command that does not fit. The waiting done by
 * `xQueueReceive` and `MS_SLEEP` is not modelled: one pass of the task
 * drains what is queued, then reads the characters the UART holds.
 */
module EmbAgent {
  import opened Wrappers
  import opened Seqs
  import opened Strings
  import EmbGame

  /** `RX_BUF_SIZE`: the line buffer, NUL terminator included. */
  const RxBufSize: nat := 128

  /** The command queue's `CMD_QUEUE_LENGTH`. */
  const CmdQueueLength: nat := 8

  /** The pattern `process_rx_line` looks for. */
  const PausePattern: string := "\"c\":\"pause\""

  /** `agent_command_t`: the one command type this file queues, `CMD_PAUSE`. */
  datatype AgentCommand = CmdPause

  /** A queued `game_event_t` and its `timestamp`. */
  datatype Queued = Queued(event: EmbGame.Event, timestamp: nat)

  /** `OUTCOME_STR`, indexed by the outcome's enumeration value. */
  const OutcomeStr: seq<string> := ["hit", "miss", "late"]

  /** The enumeration value of `pop_outcome_t`. */
  function OutcomeIndex(o: EmbGame.Outcome): (i: nat)
    ensures i < |OutcomeStr|
  {
    match o
    case Hit => 0
    case Miss => 1
    case Late => 2
  }

  /** Each outcome prints as its own name, and different outcomes print differently. */
  lemma OutcomeNames(o: EmbGame.Outcome, o': EmbGame.Outcome)
    ensures OutcomeStr[OutcomeIndex(o)] == "hit" <==> o.Hit?
    ensures OutcomeStr[OutcomeIndex(o)] == "miss" <==> o.Miss?
    ensures OutcomeStr[OutcomeIndex(o)] == "late" <==> o.Late?
    ensures OutcomeStr[OutcomeIndex(o)] == OutcomeStr[OutcomeIndex(o')] <==> o == o'
  {
  }

  /** `TF(b)`: the JSON literal for a boolean. */
  function TF(b: bool): string {
    if b then "true" else "false"
  }

  /** The `event_type` each kind of event is printed with. */
  function EventType(e: EmbGame.Event): (t: string)
    ensures '"' !in t && '\n' !in t && ':' !in t
  {
    match e
    case SessionStart => "session_start"
    case PopResult(_, _, _, _, _) => "pop_result"
    case LevelComplete(_) => "level_complete"
    case SessionEnd(_) => "session_end"
  }

  /** The text up to the event type: `{"event_type":"`. */
  const Opening: string := "{\"event_type\":\""

  /** One `,"key":value` member of the object. */
  function Field(key: string, value: string): string {
    ",\"" + key + "\"" + ":" + value
  }

  /** `%u` and `%lu`: the decimal digits. */
  lemma DecimalPlain(n: nat)
    ensures ':' !in Decimal(n) && '\n' !in Decimal(n)
  {
    var d := Decimal(n);
    forall i | 0 <= i < |d|
      ensures d[i] != ':' && d[i] != '\n'
    {
      assert IsDigit(d[i]);
    }
  }

  /** The members after the event type, in the order `send_event_json` prints them. */
  function Fields(q: Queued): string {
    match q.event
    case SessionStart => Field("time", Decimal(q.timestamp))
    case PopResult(mole, outcome, reactionMs, lives, level) =>
      Field("mole_id", Decimal(mole as nat)) + Field("outcome", "\"" + OutcomeStr[OutcomeIndex(outcome)] + "\"")
      + Field("reaction_ms", Decimal(reactionMs)) + Field("lives", Decimal(lives)) + Field("lvl", Decimal(level))
    case LevelComplete(level) => Field("lvl", Decimal(level))
    case SessionEnd(won) => Field("w", TF(won))
  }

  /** A member holds a newline only where its key or its value does. */
  lemma FieldNewline(key: string, value: string)
    ensures '\n' in Field(key, value) <==> '\n' in key || '\n' in value
  {
    assert Field(key, value) == ",\"" + key + "\":" + value;
  }

  /** No member prints a newline. */
  lemma FieldsNoNewline(q: Queued)
    ensures '\n' !in Fields(q)
  {
    match q.event
    case SessionStart =>
      DecimalPlain(q.timestamp);
      FieldNewline("time", Decimal(q.timestamp));
    case PopResult(mole, outcome, reactionMs, lives, level) =>
      var name := OutcomeStr[OutcomeIndex(outcome)];
      assert '\n' !in name;
      PopNoNewline(Decimal(mole as nat), name, reactionMs, lives, level);
    case LevelComplete(level) =>
      DecimalPlain(level);
      FieldNewline("lvl", Decimal(level));
    case SessionEnd(won) =>
      FieldNewline("w", TF(won));
  }

  lemma PopNoNewline(mole: string, name: string, reactionMs: nat, lives: nat, level: nat)
    requires '\n' !in mole && '\n' !in name
    ensures '\n' !in Field("mole_id", mole) + Field("outcome", "\"" + name + "\"")
      + Field("reaction_ms", Decimal(reactionMs)) + Field("lives", Decimal(lives)) + Field("lvl", Decimal(level))
  {
    DecimalPlain(reactionMs);
    DecimalPlain(lives);
    DecimalPlain(level);
    FieldNewline("mole_id", mole);
    FieldNewline("outcome", "\"" + name + "\"");
    FieldNewline("reaction_ms", Decimal(reactionMs));
    FieldNewline("lives", Decimal(lives));
    FieldNewline("lvl", Decimal(level));
  }

  /**
   * `send_event_json`: what it prints for an event. The line is one JSON
   * object that names its event type first and ends in its only newline.
   */
  function SendEventJson(q: Queued): string {
    Opening + EventType(q.event) + "\"" + Fields(q) + "}\n"
  }

  /** Every line opens with its event type, closes the object, and ends in its only newline. */
  lemma LineShape(q: Queued)
    ensures var line := SendEventJson(q);
      && StartsWith(line, Opening + EventType(q.event) + "\"")
      && |line| >= 2 && line[|line| - 2..] == "}\n"
      && '\n' !in line[..|line| - 1]
  {
    var head := Opening + EventType(q.event) + "\"";
    assert '\n' !in Opening;
    FieldsNoNewline(q);
    ObjectLine(head, Fields(q));
  }

  /** A head and members free of newlines, closed and terminated. */
  lemma ObjectLine(head: string, fields: string)
    requires '\n' !in head && '\n' !in fields
    ensures var line := head + fields + "}\n";
      StartsWith(line, head) && |line| >= 2 && line[|line| - 2..] == "}\n" && '\n' !in line[..|line| - 1]
  {
    var line := head + fields + "}\n";
    assert line[..|head|] == head;
    assert line[..|line| - 1] == head + fields + "}";
  }

  /** The prefix of `s` before the first `stop` (all of `s` when there is none). */
  function Until(s: string, stop: char): (r: string)
    ensures |r| <= |s| && r == s[..|r|] && stop !in r
    ensures |r| < |s| ==> s[|r|] == stop
  {
    if s == [] || s[0] == stop then [] else [s[0]] + Until(s[1..], stop)
  }

  /** Text free of `stop` followed by `stop` is read back whole. */
  lemma {:induction false} UntilStop(t: string, stop: char, rest: string)
    requires stop !in t
    ensures Until(t + [stop] + rest, stop) == t
  {
    if t != [] {
      assert (t + [stop] + rest)[1..] == t[1..] + [stop] + rest;
      UntilStop(t[1..], stop, rest);
    }
  }

  /**
   * A reader that takes the text after `{"event_type":"` up to the next
   * quote gets the event type back; so different kinds of event never
   * print the same line.
   */
  lemma TypeReadsBack(q: Queued)
    ensures var line := SendEventJson(q);
      |Opening| <= |line| && Until(line[|Opening|..], '"') == EventType(q.event)
  {
    var line := SendEventJson(q);
    var t := EventType(q.event);
    assert line[|Opening|..] == t + ['"'] + (Fields(q) + "}\n");
    UntilStop(t, '"', Fields(q) + "}\n");
  }

  /** The text after the last ':' (all of it when there is none). */
  function AfterLastColon(s: string): (r: string)
    ensures ':' !in r
    ensures |r| <= |s| && r == s[|s| - |r|..]
  {
    if s == [] || s[|s| - 1] == ':' then []
    else AfterLastColon(s[..|s| - 1]) + [s[|s| - 1]]
  }

  /** A value with no colon after a colon is what follows the last colon. */
  lemma {:induction false} AfterColon(a: string, v: string)
    requires ':' !in v
    ensures AfterLastColon(a + ":" + v) == v
  {
    var s := a + ":" + v;
    if v != [] {
      var w := v[..|v| - 1];
      assert s[..|s| - 1] == a + ":" + w;
      assert s[|s| - 1] == v[|v| - 1];
      AfterColon(a, w);
      assert w + [v[|v| - 1]] == v;
    }
  }

  /** What a reader takes as the last member's value: the text between the last ':' and the closing "}\n". */
  function LastValue(line: string): string
    requires |line| >= 2
  {
    AfterLastColon(line[..|line| - 2])
  }

  /** A line whose last member is `key` with a colon-free value. */
  lemma EndsWithField(head: string, key: string, value: string)
    requires ':' !in value
    ensures LastValue(head + Field(key, value) + "}\n") == value
  {
    var line := head + Field(key, value) + "}\n";
    var a := head + ",\"" + key + "\"";
    assert line[..|line| - 2] == a + ":" + value;
    AfterColon(a, value);
  }

  lemma LastOfSeveral(head: string, others: string, last: string)
    ensures head + (others + last) + "}\n" == (head + others) + last + "}\n"
  {
  }

  /**
   * The last member of every line reads back as what was sent: the tick
   * count of `session_start`, the level of `pop_result` and
   * `level_complete`, and whether `session_end` was a win.
   */
  lemma LastFieldReadsBack(q: Queued)
    ensures var v := LastValue(SendEventJson(q));
      match q.event
      case SessionStart => ParseDecimal(v) == Some(q.timestamp)
      case PopResult(_, _, _, _, level) => ParseDecimal(v) == Some(level)
      case LevelComplete(level) => ParseDecimal(v) == Some(level)
      case SessionEnd(won) => v == TF(won)
  {
    var head := Opening + EventType(q.event) + "\"";
    match q.event
    case SessionStart =>
      DecimalPlain(q.timestamp);
      EndsWithField(head, "time", Decimal(q.timestamp));
    case PopResult(mole, outcome, reactionMs, lives, level) =>
      DecimalPlain(level);
      var others := Field("mole_id", Decimal(mole as nat)) + Field("outcome", "\"" + OutcomeStr[OutcomeIndex(outcome)] + "\"")
        + Field("reaction_ms", Decimal(reactionMs)) + Field("lives", Decimal(lives));
      LastOfSeveral(head, others, Field("lvl", Decimal(level)));
      EndsWithField(head + others, "lvl", Decimal(level));
    case LevelComplete(level) =>
      DecimalPlain(level);
      EndsWithField(head, "lvl", Decimal(level));
    case SessionEnd(won) =>
      EndsWithField(head, "w", TF(won));
  }

  /** The lines printed for a run of events, in queue order. */
  function LineSeq(qs: seq<Queued>): (ls: seq<string>)
    ensures |ls| == |qs|
  {
    if qs == [] then [] else LineSeq(qs[..|qs| - 1]) + [SendEventJson(qs[|qs| - 1])]
  }

  /** The `n`th line printed is the `n`th event's. */
  lemma {:induction false} LineSeqAt(qs: seq<Queued>, n: nat)
    requires n < |qs|
    ensures LineSeq(qs)[n] == SendEventJson(qs[n])
  {
    if n < |qs| - 1 {
      LineSeqAt(qs[..|qs| - 1], n);
    }
  }

  /** The text on the wire: the lines one after another. */
  function Wire(ls: seq<string>): string {
    if ls == [] then "" else Wire(ls[..|ls| - 1]) + ls[|ls| - 1]
  }

  /** The number of newlines in a text. */
  function Newlines(s: string): nat {
    if s == [] then 0 else Newlines(s[..|s| - 1]) + (if s[|s| - 1] == '\n' then 1 else 0)
  }

  lemma {:induction false} NewlinesAppend(s: string, t: string)
    ensures Newlines(s + t) == Newlines(s) + Newlines(t)
  {
    if t != [] {
      assert (s + t)[..|s + t| - 1] == s + t[..|t| - 1];
      NewlinesAppend(s, t[..|t| - 1]);
    } else {
      assert s + t == s;
    }
  }

  /** A line holds exactly one newline. */
  lemma {:induction false} OneNewline(q: Queued)
    ensures Newlines(SendEventJson(q)) == 1
  {
    var line := SendEventJson(q);
    LineShape(q);
    var b := line[..|line| - 1];
    assert line == b + "\n";
    NoNewlineCount(b);
    NewlinesAppend(b, "\n");
  }

  lemma {:induction false} NoNewlineCount(s: string)
    requires '\n' !in s
    ensures Newlines(s) == 0
  {
    if s != [] {
      assert s[|s| - 1] in s;
      NoNewlineCount(s[..|s| - 1]);
    }
  }

  /** Lines of one newline each make a text of as many newlines as lines. */
  lemma {:induction false} WireCount(ls: seq<string>)
    requires forall i :: 0 <= i < |ls| ==> Newlines(ls[i]) == 1
    ensures Newlines(Wire(ls)) == |ls|
  {
    if ls != [] {
      WireCount(ls[..|ls| - 1]);
      NewlinesAppend(Wire(ls[..|ls| - 1]), ls[|ls| - 1]);
    }
  }

  /** A run of `n` events puts exactly `n` newlines on the wire. */
  lemma LinesCount(qs: seq<Queued>)
    ensures Newlines(Wire(LineSeq(qs))) == |qs|
  {
    var ls := LineSeq(qs);
    forall i | 0 <= i < |ls|
      ensures Newlines(ls[i]) == 1
    {
      LineSeqAt(qs, i);
      OneNewline(qs[i]);
    }
    WireCount(ls);
  }

  /** `xQueueSend(cmd_queue, &cmd, 0)`: appended when a slot is free, dropped otherwise. */
  function Send(q: seq<AgentCommand>, c: AgentCommand): seq<AgentCommand> {
    if |q| < CmdQueueLength then q + [c] else q
  }

  /**
   * `process_rx_line`: one pause command is offered to the queue exactly
   * when the line contains `"c":"pause"`; nothing else is queued.
   */
  function ProcessRxLine(q: seq<AgentCommand>, line: string): (r: seq<AgentCommand>)
    ensures r == q || r == q + [CmdPause]
    ensures r == q + [CmdPause] <==> Contains(line, PausePattern) && |q| < CmdQueueLength
  {
    if Find(line, PausePattern).Some? then Send(q, CmdPause) else q
  }

  /** The C string a buffer holds: its characters up to the first NUL. */
  function CString(s: string): string {
    Until(s, '\0')
  }

  /** A NUL written after some characters ends the C string there. */
  lemma {:induction false} CStringAtNul(s: string, k: nat)
    requires k < |s| && s[k] == '\0'
    ensures CString(s) == CString(s[..k])
  {
    if k > 0 && s[0] != '\0' {
      assert s[1..][..k - 1] == s[..k][1..];
      CStringAtNul(s[1..], k - 1);
    }
  }

  /** Without a NUL among them, the characters are the C string. */
  lemma {:induction false} CStringNoNul(s: string)
    requires '\0' !in s
    ensures CString(s) == s
  {
    if s != [] {
      CStringNoNul(s[1..]);
    }
  }

  /** The line buffer's state: the characters buffered, the queue and (ghost) the lines delivered. */
  datatype Rx = Rx(pending: string, queue: seq<AgentCommand>, lines: seq<string>)

  predicate IsTerminator(ch: char) { ch == '\n' || ch == '\r' }

  /**
   * `process_rx_char`: a terminator delivers a non-empty buffer as a C
   * string and empties it, and does nothing to an empty one; any other
   * character is kept while there is room for it and the terminating NUL.
   */
  function RxChar(s: Rx, ch: char): (r: Rx)
    ensures |s.pending| < RxBufSize ==> |r.pending| < RxBufSize
  {
    if IsTerminator(ch) then
      if |s.pending| > 0 then
        var line := CString(s.pending);
        Rx([], ProcessRxLine(s.queue, line), s.lines + [line])
      else s
    else if |s.pending| < RxBufSize - 1 then s.(pending := s.pending + [ch])
    else s
  }

  /** `process_rx_char` over received characters, in order. */
  function RxFeed(s: Rx, cs: string): Rx {
    if cs == [] then s else RxChar(RxFeed(s, cs[..|cs| - 1]), cs[|cs| - 1])
  }

  /** A terminator on an empty buffer changes nothing. */
  lemma EmptyTerminator(s: Rx, ch: char)
    requires s.pending == [] && IsTerminator(ch)
    ensures RxChar(s, ch) == s
  {
  }

  /** Characters with no terminator among them are kept up to the 127th and dropped after it. */
  lemma {:induction false} FeedText(s: Rx, text: string)
    requires forall i :: 0 <= i < |text| ==> !IsTerminator(text[i])
    requires |s.pending| < RxBufSize
    ensures var all := s.pending + text;
      RxFeed(s, text) == s.(pending := if |all| < RxBufSize then all else all[..RxBufSize - 1])
  {
    if text != [] {
      var t := text[..|text| - 1];
      FeedText(s, t);
      var all := s.pending + text;
      var p := s.pending + t;
      assert all == p + [text[|text| - 1]];
      if |p| >= RxBufSize - 1 {
        assert p[..RxBufSize - 1] == all[..RxBufSize - 1];
      }
    }
  }

  /**
   * A line of text and its terminator, from an empty buffer: the line is
   * delivered once, cut to its first 127 characters and at its first NUL,
   * a pause command is offered exactly when that holds `"c":"pause"`, and
   * the buffer is empty again.
   */
  lemma LineDelivered(s: Rx, text: string, term: char)
    requires s.pending == [] && text != [] && IsTerminator(term)
    requires forall i :: 0 <= i < |text| ==> !IsTerminator(text[i])
    ensures var kept := if |text| < RxBufSize then text else text[..RxBufSize - 1];
      RxFeed(s, text + [term]) == Rx([], ProcessRxLine(s.queue, CString(kept)), s.lines + [CString(kept)])
  {
    var cs := text + [term];
    assert cs[..|cs| - 1] == text;
    FeedText(s, text);
    assert s.pending + text == text;
  }

  /** What `agent_task` does, step by step: a line sent, or a character taken from the UART. */
  datatype Step = Sent(q: Queued) | Read(c: int)

  function SentAll(qs: seq<Queued>): (r: seq<Step>)
    ensures |r| == |qs| && forall i :: 0 <= i < |qs| ==> r[i] == Sent(qs[i])
  {
    if qs == [] then [] else [Sent(qs[0])] + SentAll(qs[1..])
  }

  function ReadAll(fifo: seq<int>): (r: seq<Step>)
    ensures |r| == |fifo| && forall i :: 0 <= i < |fifo| ==> r[i] == Read(fifo[i])
  {
    if fifo == [] then [] else [Read(fifo[0])] + ReadAll(fifo[1..])
  }

  /** `(char)c` for what `MXC_UART_ReadCharacter` returns; negative values are errors and skipped. */
  function Received(fifo: seq<int>): string {
    if fifo == [] then []
    else Received(fifo[..|fifo| - 1]) + (if fifo[|fifo| - 1] >= 0 then [(fifo[|fifo| - 1] % 256) as char] else [])
  }

  class Agent {
    /** `rx_buffer` and `rx_index`. */
    var rxBuffer: array<char>
    var rxIndex: nat
    /** The contents of `cmd_queue` as this file fills it, and of `event_queue`. */
    var cmdQueue: seq<AgentCommand>
    var eventQueue: seq<Queued>
    /** The lines printed to the UART, in order. */
    var printed: seq<string>
    /** The lines handed to `process_rx_line`, and every step the task took. */
    ghost var lines: seq<string>
    ghost var trace: seq<Step>

    ghost predicate Valid()
      reads this
    {
      rxBuffer.Length == RxBufSize && rxIndex < RxBufSize
    }

    /** The line buffer as a value. */
    ghost function State(): Rx
      reads this, rxBuffer
      requires rxIndex <= rxBuffer.Length
    {
      Rx(rxBuffer[..rxIndex], cmdQueue, lines)
    }

    /** The statics at start-up: a zeroed buffer, nothing buffered, queues empty. */
    constructor ()
      ensures Valid() && fresh(rxBuffer)
      ensures rxIndex == 0 && cmdQueue == [] && eventQueue == [] && printed == [] && lines == [] && trace == []
    {
      rxBuffer := new char[RxBufSize](_ => '\0');
      rxIndex := 0;
      cmdQueue := [];
      eventQueue := [];
      printed := [];
      lines := [];
      trace := [];
    }

    /** `process_rx_char`. */
    method ProcessRxChar(ch: char)
      requires Valid()
      modifies this`rxIndex, this`cmdQueue, this`lines, rxBuffer
      ensures Valid()
      ensures State() == RxChar(old(State()), ch)
    {
      if IsTerminator(ch) {
        if rxIndex > 0 {
          ghost var pending := rxBuffer[..rxIndex];
          rxBuffer[rxIndex] := '\0';
          assert rxBuffer[..rxIndex] == pending;
          CStringAtNul(rxBuffer[..], rxIndex);
          assert rxBuffer[..][..rxIndex] == pending;
          var line := CString(rxBuffer[..]);
          cmdQueue := ProcessRxLine(cmdQueue, line);
          lines := lines + [line];
          rxIndex := 0;
        }
      } else if rxIndex < RxBufSize - 1 {
        rxBuffer[rxIndex] := ch;
        rxIndex := rxIndex + 1;
      }
    }

    /** `send_event_json`. */
    method SendEvent(q: Queued)
      modifies this`printed, this`trace
      ensures printed == old(printed) + [SendEventJson(q)]
      ensures trace == old(trace) + [Sent(q)]
    {
      printed := printed + [SendEventJson(q)];
      trace := trace + [Sent(q)];
    }

    /** The inner loop that drains the event queue, sending each event in queue order. */
    method DrainEvents()
      modifies this`eventQueue, this`printed, this`trace
      ensures eventQueue == []
      ensures printed == old(printed) + LineSeq(old(eventQueue))
      ensures trace == old(trace) + SentAll(old(eventQueue))
    {
      ghost var all := eventQueue;
      ghost var k := 0;
      while |eventQueue| > 0
        invariant 0 <= k <= |all| && eventQueue == all[k..]
        invariant printed == old(printed) + LineSeq(all[..k])
        invariant trace == old(trace) + SentAll(all[..k])
        decreases |eventQueue|
      {
        var q := eventQueue[0];
        eventQueue := eventQueue[1..];
        DrainStep(all, k);
        SendEvent(q);
        AppendAssoc(old(printed), LineSeq(all[..k]), [SendEventJson(q)]);
        AppendAssoc(old(trace), SentAll(all[..k]), [Sent(q)]);
        k := k + 1;
      }
      assert all[..k] == all;
    }

    /** The inner loop that reads the UART while its FIFO holds characters. */
    method ReadUart(fifo: seq<int>)
      requires Valid()
      modifies this`trace, this`rxIndex, this`cmdQueue, this`lines, rxBuffer
      ensures Valid()
      ensures trace == old(trace) + ReadAll(fifo)
      ensures State() == RxFeed(old(State()), Received(fifo))
    {
      var i := 0;
      while i < |fifo|
        invariant 0 <= i <= |fifo| && Valid()
        invariant trace == old(trace) + ReadAll(fifo[..i])
        invariant State() == RxFeed(old(State()), Received(fifo[..i]))
      {
        var c := fifo[i];
        ReadAllSnoc(fifo[..i], c);
        ReadStep(old(State()), fifo, i);
        assert fifo[..i + 1] == fifo[..i] + [c];
        trace := trace + [Read(c)];
        if c >= 0 {
          ProcessRxChar((c % 256) as char);
        }
        i := i + 1;
      }
      assert fifo[..i] == fifo;
    }

    /**
     * One pass of `agent_task`'s loop: every queued event is sent, in queue
     * order, and only then are the UART's characters read and buffered.
     */
    method AgentTaskPass(fifo: seq<int>)
      requires Valid()
      modifies this`eventQueue, this`printed, this`trace, this`rxIndex, this`cmdQueue, this`lines, rxBuffer
      ensures Valid()
      ensures eventQueue == []
      ensures printed == old(printed) + LineSeq(old(eventQueue))
      ensures trace == old(trace) + SentAll(old(eventQueue)) + ReadAll(fifo)
      ensures State() == RxFeed(old(State()), Received(fifo))
    {
      DrainEvents();
      ReadUart(fifo);
    }
  }

  /** Reading one more character from the FIFO. */
  lemma ReadStep(s: Rx, fifo: seq<int>, i: nat)
    requires i < |fifo|
    ensures var before := RxFeed(s, Received(fifo[..i]));
      RxFeed(s, Received(fifo[..i + 1])) == if fifo[i] >= 0 then RxChar(before, (fifo[i] % 256) as char) else before
  {
    assert fifo[..i + 1][..i] == fifo[..i];
    var cs := Received(fifo[..i]);
    if fifo[i] >= 0 {
      var ch := (fifo[i] % 256) as char;
      assert Received(fifo[..i + 1]) == cs + [ch];
      assert (cs + [ch])[..|cs|] == cs;
    } else {
      assert Received(fifo[..i + 1]) == cs;
    }
  }

  /** Sending the queue's next event extends both what was printed and the trace by that event. */
  lemma DrainStep(all: seq<Queued>, k: nat)
    requires k < |all|
    ensures LineSeq(all[..k + 1]) == LineSeq(all[..k]) + [SendEventJson(all[k])]
    ensures SentAll(all[..k + 1]) == SentAll(all[..k]) + [Sent(all[k])]
  {
    assert all[..k + 1] == all[..k] + [all[k]];
    assert all[..k + 1][..k] == all[..k];
    SentAllSnoc(all[..k], all[k]);
  }

  lemma SentAllSnoc(qs: seq<Queued>, q: Queued)
    ensures SentAll(qs + [q]) == SentAll(qs) + [Sent(q)]
  {
  }

  lemma ReadAllSnoc(fifo: seq<int>, c: int)
    ensures ReadAll(fifo + [c]) == ReadAll(fifo) + [Read(c)]
  {
  }

  /** In a pass, every line is sent before any character is read. */
  lemma SendsBeforeReads(qs: seq<Queued>, fifo: seq<int>, i: nat, j: nat)
    requires i < |qs| && |qs| <= j < |qs| + |fifo|
    ensures var t := SentAll(qs) + ReadAll(fifo);
      t[i].Sent? && t[j].Read? && t[i] == Sent(qs[i]) && t[j] == Read(fifo[j - |qs|])
  {
  }
}
