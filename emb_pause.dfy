/**
 * The pause unit of emb/src/pause.c: a UART interrupt handler that reacts
 * to 'P' only, by notifying the pause task, and the pause task, which
 * suspends the game task on one notification and resumes it on the next.
 *
 * The FreeRTOS task notification is a pending flag on the pause task:
 * `xTaskNotifyFromISR(..., eNoAction, ...)` sets it, `xTaskNotifyWait`
 * returns once it is set and leaves it clear. Several notifications sent
 * before the pause task runs are therefore one wake-up. The UART receive
 * FIFO is a sequence of the values `MXC_UART_ReadCharacterRaw` returns.
 */
module EmbPause {
  /** The scheduler's view of the game task. */
  datatype TaskState = Running | Suspended

  /** The pause task's state: the static `paused` and what it did to the game task. */
  datatype PauseState = PauseState(paused: bool, game: TaskState)

  /** The game task is suspended exactly while `paused` is set. */
  predicate Consistent(s: PauseState) {
    s.game == (if s.paused then Suspended else Running)
  }

  /**
   * One pass of the pause task's loop after a wake-up: resume and clear the
   * flag when paused, otherwise suspend and set it.
   */
  function Toggle(s: PauseState): (r: PauseState)
    ensures r.paused == !s.paused
    ensures Consistent(r)
  {
    if s.paused then PauseState(false, Running) else PauseState(true, Suspended)
  }

  /** The state after `n` wake-ups. */
  function ToggleN(s: PauseState, n: nat): PauseState {
    if n == 0 then s else Toggle(ToggleN(s, n - 1))
  }

  /** Two wake-ups restore both the flag and the game task's state. */
  lemma ToggleTwice(s: PauseState)
    requires Consistent(s)
    ensures Toggle(Toggle(s)) == s
  {
  }

  /** After `n` wake-ups from a consistent state, paused flips exactly when `n` is odd. */
  lemma {:induction false} ToggleParity(s: PauseState, n: nat)
    requires Consistent(s)
    ensures ToggleN(s, n).paused == (s.paused != (n % 2 == 1))
    ensures Consistent(ToggleN(s, n))
  {
    if n > 0 {
      ToggleParity(s, n - 1);
    }
  }

  /** How many times the handler calls `xTaskNotifyFromISR` for a FIFO's contents: once per 'P'. */
  function NotifyCount(fifo: seq<int>): (n: nat)
    ensures n <= |fifo|
    ensures n == 0 <==> 'P' as int !in fifo
  {
    if fifo == [] then 0
    else NotifyCount(fifo[..|fifo| - 1]) + (if fifo[|fifo| - 1] == 'P' as int then 1 else 0)
  }

  class Pause {
    /** The static `paused`. */
    var paused: bool
    /** The game task, as the scheduler sees it. */
    var game: TaskState
    /** Whether a notification is pending on the pause task. */
    var notified: bool
    /** Every `xTaskNotifyFromISR` call so far. */
    var notifyCalls: nat

    ghost predicate Valid()
      reads this
    {
      Consistent(State())
    }

    function State(): PauseState
      reads this
    {
      PauseState(paused, game)
    }

    /** `pause_init` followed by the start of the scheduler: not paused, the game running, nothing pending. */
    constructor ()
      ensures !paused && game == Running && !notified && notifyCalls == 0
      ensures Valid()
    {
      paused := false;
      game := Running;
      notified := false;
      notifyCalls := 0;
    }

    /**
     * `UART_Handler`: read the whole FIFO; each 'P' notifies the pause task,
     * every other character is ignored.
     */
    method UartHandler(fifo: seq<int>)
      modifies this`notified, this`notifyCalls
      ensures notifyCalls == old(notifyCalls) + NotifyCount(fifo)
      ensures notified == (old(notified) || 'P' as int in fifo)
    {
      var i := 0;
      while i < |fifo|
        invariant 0 <= i <= |fifo|
        invariant notifyCalls == old(notifyCalls) + NotifyCount(fifo[..i])
        invariant notified == (old(notified) || 'P' as int in fifo[..i])
      {
        var c := fifo[i];
        assert fifo[..i + 1][..i] == fifo[..i];
        if c == 'P' as int {
          notifyCalls := notifyCalls + 1;
          notified := true;
        }
        assert fifo[..i + 1] == fifo[..i] + [c];
        i := i + 1;
      }
      assert fifo[..i] == fifo;
    }

    /**
     * One turn of `pause_task`'s loop: it stays blocked without a pending
     * notification; with one, it consumes it and toggles.
     */
    method PauseTaskStep() returns (woke: bool)
      modifies this`paused, this`game, this`notified
      ensures woke == old(notified) && !notified
      ensures State() == if woke then Toggle(old(State())) else old(State())
    {
      woke := notified;
      if !notified {
        return;
      }
      notified := false;
      if paused {
        game := Running;  // vTaskResume
        paused := false;
      } else {
        game := Suspended;  // vTaskSuspend
        paused := true;
      }
    }

    /**
     * Bursts of received characters, each handled by the interrupt and then
     * by the pause task, which has the highest priority and so runs as soon
     * as the handler returns: the game is paused exactly when an odd number
     * of bursts held a 'P', however many each held.
     */
    method Replay(bursts: seq<seq<int>>)
      requires Valid() && !notified
      modifies this`paused, this`game, this`notified, this`notifyCalls
      ensures Valid() && !notified
      ensures State() == ToggleN(old(State()), BurstsWithP(bursts))
      ensures paused == (old(paused) != (BurstsWithP(bursts) % 2 == 1))
    {
      var i := 0;
      while i < |bursts|
        invariant 0 <= i <= |bursts|
        invariant !notified
        invariant State() == ToggleN(old(State()), BurstsWithP(bursts[..i]))
      {
        assert bursts[..i + 1][..i] == bursts[..i];
        UartHandler(bursts[i]);
        var _ := PauseTaskStep();
        i := i + 1;
      }
      assert bursts[..i] == bursts;
      ToggleParity(old(State()), BurstsWithP(bursts));
    }
  }

  /** The number of bursts holding at least one 'P'. */
  function BurstsWithP(bursts: seq<seq<int>>): (n: nat)
    ensures n <= |bursts|
  {
    if bursts == [] then 0
    else BurstsWithP(bursts[..|bursts| - 1]) + (if 'P' as int in bursts[|bursts| - 1] then 1 else 0)
  }
}
