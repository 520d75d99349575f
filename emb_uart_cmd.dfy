/**
 * The UART command handler of emb/src/uart_cmd.c. Its interrupt handler
 * reads every character in the receive FIFO and dispatches on it:
 * - 'P' notifies the pause task;
 * - 'D' marks the bridge as disconnected;
 * - 'R' and 'S' queue a reset or a start command;
 * - '1'..'8' queue a set-level command;
 * - 'I' requests identification.
 *
 * Every character except 'D' also refreshes the time of the last command.
 * The pause task suspends and resumes the game task exactly as in
 * emb/src/pause.c, on this file's own `paused`.
 *
 * The tick count the handler reads is a parameter (it does not advance
 * while the handler runs). The command queue is the one of
 * emb/include/rtos_queues.h: eight slots, and `xQueueSendFromISR` on a full
 * queue drops the command. Only this handler adds to the queue while it
 * runs, so the game task's reads are not modelled here.
 */
module EmbUartCmd {
  import opened Wrappers
  import EmbPause

  /** `CMD_QUEUE_LENGTH`. */
  const CmdQueueLength: nat := 8

  /** `cmd_type_t`. */
  datatype CmdType = CmdSetLevel | CmdReset | CmdStart

  /** `cmd_msg_t`; a reset or start command leaves `level` at zero. */
  datatype CmdMsg = CmdMsg(kind: CmdType, level: nat)

  /** The globals the handler writes, and the pause task's pending notification. */
  datatype Globals = Globals(
    lastCommandTick: nat,
    agentConnected: bool,
    identifyRequested: bool,
    notified: bool,
    notifyCalls: nat,
    cmdQueue: seq<CmdMsg>)

  /** `xQueueSendFromISR`: appended when a slot is free, dropped otherwise. */
  function Send(q: seq<CmdMsg>, m: CmdMsg): (r: seq<CmdMsg>)
    ensures |q| < CmdQueueLength ==> r == q + [m]
    ensures |q| >= CmdQueueLength ==> r == q
  {
    if |q| < CmdQueueLength then q + [m] else q
  }

  /** The command a character queues, if any. */
  function CommandOf(c: int): (r: Option<CmdMsg>)
    ensures r.Some? <==> c == 'R' as int || c == 'S' as int || '1' as int <= c <= '8' as int
    ensures r.Some? && r.value.kind == CmdSetLevel ==> 1 <= r.value.level <= 8 && r.value.level == c - '0' as int
    ensures r.Some? && r.value.kind != CmdSetLevel ==> r.value.level == 0
    ensures r == Some(CmdMsg(CmdReset, 0)) <==> c == 'R' as int
    ensures r == Some(CmdMsg(CmdStart, 0)) <==> c == 'S' as int
  {
    if c == 'R' as int then Some(CmdMsg(CmdReset, 0))
    else if c == 'S' as int then Some(CmdMsg(CmdStart, 0))
    else if '1' as int <= c <= '8' as int then Some(CmdMsg(CmdSetLevel, c - '0' as int))
    else None
  }

  /** The handler's work for one character read at tick `now`. */
  function Dispatch(g: Globals, c: int, now: nat): Globals {
    var g := if c != 'D' as int then g.(lastCommandTick := now) else g;
    if c == 'P' as int then g.(notified := true, notifyCalls := g.notifyCalls + 1)
    else if c == 'D' as int then g.(agentConnected := false)
    else if c == 'R' as int then g.(cmdQueue := Send(g.cmdQueue, CmdMsg(CmdReset, 0)))
    else if c == 'S' as int then g.(cmdQueue := Send(g.cmdQueue, CmdMsg(CmdStart, 0)))
    else if '1' as int <= c <= '8' as int then g.(cmdQueue := Send(g.cmdQueue, CmdMsg(CmdSetLevel, c - '0' as int)))
    else if c == 'I' as int then g.(identifyRequested := true)
    else g
  }

  /** The handler's work for the FIFO's characters, in order. */
  function Handle(g: Globals, fifo: seq<int>, now: nat): Globals
    decreases |fifo|
  {
    if fifo == [] then g
    else Dispatch(Handle(g, fifo[..|fifo| - 1], now), fifo[|fifo| - 1], now)
  }

  /** The commands the FIFO's characters ask for, in order. */
  function Commands(fifo: seq<int>): (r: seq<CmdMsg>)
    ensures |r| <= |fifo|
  {
    if fifo == [] then []
    else
      var c := CommandOf(fifo[|fifo| - 1]);
      Commands(fifo[..|fifo| - 1]) + (if c.Some? then [c.value] else [])
  }

  /** The queue after offering it `ms` in order: the first ones that fit, up to eight. */
  function Filled(q: seq<CmdMsg>, ms: seq<CmdMsg>): seq<CmdMsg> {
    var all := q + ms;
    if |all| <= CmdQueueLength then all else all[..CmdQueueLength]
  }

  /**
   * One character: the tick is refreshed unless it is 'D'; 'P' notifies
   * once; 'D' clears the connection flag; 'I' sets the identify flag; the
   * queue gets the character's command when it has room; nothing else moves.
   */
  lemma DispatchEffect(g: Globals, c: int, now: nat)
    requires |g.cmdQueue| <= CmdQueueLength
    ensures var r := Dispatch(g, c, now);
      && r.lastCommandTick == (if c != 'D' as int then now else g.lastCommandTick)
      && r.notifyCalls == g.notifyCalls + (if c == 'P' as int then 1 else 0)
      && r.notified == (g.notified || c == 'P' as int)
      && r.agentConnected == (g.agentConnected && c != 'D' as int)
      && r.identifyRequested == (g.identifyRequested || c == 'I' as int)
      && r.cmdQueue == Filled(g.cmdQueue, if CommandOf(c).Some? then [CommandOf(c).value] else [])
  {
    assert g.cmdQueue + [] == g.cmdQueue;
  }

  /** A character outside "PDRSI12345678" only refreshes the tick. */
  lemma UnlistedOnlyTicks(g: Globals, c: int, now: nat)
    requires c !in {'P' as int, 'D' as int, 'R' as int, 'S' as int, 'I' as int}
    requires !('1' as int <= c <= '8' as int)
    ensures Dispatch(g, c, now) == g.(lastCommandTick := now)
  {
  }

  /** Offering one more command to a queue already offered some. */
  lemma FilledSnoc(q: seq<CmdMsg>, ms: seq<CmdMsg>, m: CmdMsg)
    requires |q| <= CmdQueueLength
    ensures Filled(q, ms + [m]) == Send(Filled(q, ms), m)
  {
    assert q + (ms + [m]) == (q + ms) + [m];
    if |q + ms| >= CmdQueueLength {
      assert (q + ms + [m])[..CmdQueueLength] == (q + ms)[..CmdQueueLength];
    }
  }

  /** The whole FIFO: the queue keeps the FIFO's commands in arrival order, as many as fit. */
  lemma {:induction false} HandleQueue(g: Globals, fifo: seq<int>, now: nat)
    requires |g.cmdQueue| <= CmdQueueLength
    ensures Handle(g, fifo, now).cmdQueue == Filled(g.cmdQueue, Commands(fifo))
  {
    if fifo == [] {
      assert g.cmdQueue + [] == g.cmdQueue;
    } else {
      var init := fifo[..|fifo| - 1];
      var c := fifo[|fifo| - 1];
      HandleQueue(g, init, now);
      var h := Handle(g, init, now);
      DispatchEffect(h, c, now);
      var cs := if CommandOf(c).Some? then [CommandOf(c).value] else [];
      assert Commands(fifo) == Commands(init) + cs;
      if cs == [] {
        assert Commands(init) + cs == Commands(init);
        assert h.cmdQueue + [] == h.cmdQueue;
      } else {
        FilledSnoc(g.cmdQueue, Commands(init), cs[0]);
      }
    }
  }

  /** The whole FIFO: the tick is `now` exactly when some character other than 'D' came. */
  lemma {:induction false} HandleTick(g: Globals, fifo: seq<int>, now: nat)
    requires |g.cmdQueue| <= CmdQueueLength
    ensures Handle(g, fifo, now).lastCommandTick ==
      if exists i :: 0 <= i < |fifo| && fifo[i] != 'D' as int then now else g.lastCommandTick
  {
    if fifo != [] {
      var init := fifo[..|fifo| - 1];
      var c := fifo[|fifo| - 1];
      HandleTick(g, init, now);
      HandleQueue(g, init, now);
      DispatchEffect(Handle(g, init, now), c, now);
      if c != 'D' as int {
        assert fifo[|fifo| - 1] != 'D' as int;
      } else {
        assert (exists i :: 0 <= i < |fifo| && fifo[i] != 'D' as int) <==>
          (exists i :: 0 <= i < |init| && init[i] != 'D' as int) by {
          forall i | 0 <= i < |init| ensures fifo[i] == init[i] {}
        }
      }
    }
  }

  /**
   * The whole FIFO: the bridge counts as disconnected after any 'D',
   * identification is requested after any 'I', and the pause task is
   * notified once per 'P'.
   */
  lemma {:induction false} HandleFlags(g: Globals, fifo: seq<int>, now: nat)
    requires |g.cmdQueue| <= CmdQueueLength
    ensures var r := Handle(g, fifo, now);
      && r.agentConnected == (g.agentConnected && 'D' as int !in fifo)
      && r.identifyRequested == (g.identifyRequested || 'I' as int in fifo)
      && r.notified == (g.notified || 'P' as int in fifo)
      && r.notifyCalls == g.notifyCalls + EmbPause.NotifyCount(fifo)
  {
    if fifo != [] {
      var init := fifo[..|fifo| - 1];
      var c := fifo[|fifo| - 1];
      assert fifo == init + [c];
      HandleFlags(g, init, now);
      HandleQueue(g, init, now);
      DispatchEffect(Handle(g, init, now), c, now);
    }
  }

  /** With room for every command, the FIFO's commands are all queued, in order. */
  lemma AllQueuedWhenRoom(g: Globals, fifo: seq<int>, now: nat)
    requires |g.cmdQueue| + |Commands(fifo)| <= CmdQueueLength
    ensures Handle(g, fifo, now).cmdQueue == g.cmdQueue + Commands(fifo)
  {
    HandleQueue(g, fifo, now);
  }

  class UartCmd {
    /** `last_command_tick`. */
    var lastCommandTick: nat
    /** `agent_connected`. */
    var agentConnected: bool
    /** `identify_requested`. */
    var identifyRequested: bool
    /** Whether a notification is pending on the pause task, and how many were sent. */
    var notified: bool
    var notifyCalls: nat
    /** The contents of `cmd_queue`. */
    var cmdQueue: seq<CmdMsg>
    /** This file's static `paused`, and the game task as the scheduler sees it. */
    var paused: bool
    var game: EmbPause.TaskState

    ghost predicate Valid()
      reads this
    {
      |cmdQueue| <= CmdQueueLength && EmbPause.Consistent(EmbPause.PauseState(paused, game))
    }

    function Snapshot(): Globals
      reads this
    {
      Globals(lastCommandTick, agentConnected, identifyRequested, notified, notifyCalls, cmdQueue)
    }

    /**
     * `UART_Handler`: read every character in the FIFO and dispatch on it.
     * Reading the interrupt flags and clearing them is not modelled.
     */
    method UartHandler(fifo: seq<int>, now: nat)
      requires Valid()
      modifies this`lastCommandTick, this`agentConnected, this`identifyRequested,
        this`notified, this`notifyCalls, this`cmdQueue
      ensures Valid()
      ensures Snapshot() == Handle(old(Snapshot()), fifo, now)
    {
      var i := 0;
      while i < |fifo|
        invariant 0 <= i <= |fifo|
        invariant |cmdQueue| <= CmdQueueLength
        invariant Snapshot() == Handle(old(Snapshot()), fifo[..i], now)
      {
        var c := fifo[i];
        assert fifo[..i + 1][..i] == fifo[..i];
        if c != 'D' as int {
          lastCommandTick := now;
        }
        if c == 'P' as int {
          notifyCalls := notifyCalls + 1;  // xTaskNotifyFromISR
          notified := true;
        } else if c == 'D' as int {
          agentConnected := false;
        } else if c == 'R' as int {
          cmdQueue := Send(cmdQueue, CmdMsg(CmdReset, 0));
        } else if c == 'S' as int {
          cmdQueue := Send(cmdQueue, CmdMsg(CmdStart, 0));
        } else if '1' as int <= c <= '8' as int {
          cmdQueue := Send(cmdQueue, CmdMsg(CmdSetLevel, c - '0' as int));
        } else if c == 'I' as int {
          identifyRequested := true;
        }
        i := i + 1;
      }
      assert fifo[..i] == fifo;
    }

    /** One turn of `pause_task`'s loop, as in emb/src/pause.c. */
    method PauseTaskStep() returns (woke: bool)
      modifies this`paused, this`game, this`notified
      ensures woke == old(notified) && !notified
      ensures EmbPause.PauseState(paused, game) ==
        if woke then EmbPause.Toggle(EmbPause.PauseState(old(paused), old(game)))
        else EmbPause.PauseState(old(paused), old(game))
    {
      woke := notified;
      if !notified {
        return;
      }
      notified := false;
      if paused {
        game := EmbPause.Running;  // vTaskResume
        paused := false;
      } else {
        game := EmbPause.Suspended;  // vTaskSuspend
        paused := true;
      }
    }
  }
}
