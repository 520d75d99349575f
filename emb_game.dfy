/**
 * The game of emb/src/game.c: eight levels of ten pops each; a pop lights
 * one LED chosen by the random number generator and polls the buttons
 * every 5 ms until its duration runs out. Hitting the lit LED's button
 * keeps the player's lives; pressing another button or none at all costs
 * one; the game ends when lives run out or every level is done. Each step
 * queues an event for the bridge.
 *
 * The button reads are an input: `Polls` gives the state read at each
 * elapsed time of a pop, and `Buttons` one such reader per level and pop.
 * Sleeping, the LED animations and the event timestamps are not modelled.
 */
module EmbGame {
  import opened Wrappers
  import opened Seqs
  import EmbUtils
  import EmbIoExpander
  import EmbBtnsHeader

  /** `LVLS`, `LIVES`, `RNG_INIT_STATE`. */
  const Lvls: nat := 8
  const Lives: nat := 5
  const RngInitState: bv32 := 0xDEADBEEF

  /** `POPS_PER_LVL` and `POP_DURATIONS` (ms), per level. */
  const PopsPerLvl: seq<nat> := [10, 10, 10, 10, 10, 10, 10, 10]
  const PopDurations: seq<nat> := [1500, 1250, 1000, 750, 600, 500, 350, 275]

  /** The button poll period inside a pop (ms). */
  const PollInterval: nat := 5

  /** `pop_outcome_t`. */
  datatype Outcome = Hit | Miss | Late

  /** `game_event_t`, without its timestamp. */
  datatype Event =
    | SessionStart
    | PopResult(mole: bv8, outcome: Outcome, reactionMs: nat, lives: nat, level: nat)
    | LevelComplete(level: nat)
    | SessionEnd(won: bool)

  /** The button state read when a pop has run for the given number of ms. */
  type Polls = nat -> bv8

  /** The button reads of every pop, by level index and pop index. */
  type Buttons = (nat, nat) -> Polls

  /**
   * The mole a generator output picks: the unsigned remainder
   * `next_rand(...) % LED_COUNT` (eight), stored in a byte; it is always
   * one of the eight LEDs.
   */
  function Target(r: bv32): (m: bv8)
    ensures m < 8
  {
    (r % 8) as bv8
  }

  /**
   * The first poll from `elapsed` on, stepping by the poll period, that
   * reads some button down before the duration is reached.
   */
  function FirstPress(poll: Polls, elapsed: nat, duration: nat): Option<nat>
    decreases duration - elapsed
  {
    if elapsed >= duration then None
    else if poll(elapsed) != EmbIoExpander.BtnHwState then Some(elapsed)
    else FirstPress(poll, elapsed + PollInterval, duration)
  }

  /**
   * `FirstPress` finds a poll that reads a button down, on the poll grid
   * and before the duration, with every earlier poll reading all buttons
   * up; when it finds none, every poll before the duration reads them up.
   */
  lemma {:induction false} FirstPressSpec(poll: Polls, elapsed: nat, duration: nat)
    decreases duration - elapsed
    ensures var r := FirstPress(poll, elapsed, duration);
      && (r.Some? ==> elapsed <= r.value < duration && (r.value - elapsed) % PollInterval == 0)
      && (r.Some? ==> poll(r.value) != EmbIoExpander.BtnHwState)
      && (r.Some? ==> forall e :: elapsed <= e < r.value && (e - elapsed) % PollInterval == 0 ==> poll(e) == EmbIoExpander.BtnHwState)
      && (r.None? ==> forall e :: elapsed <= e < duration && (e - elapsed) % PollInterval == 0 ==> poll(e) == EmbIoExpander.BtnHwState)
  {
    if elapsed < duration && poll(elapsed) == EmbIoExpander.BtnHwState {
      FirstPressSpec(poll, elapsed + PollInterval, duration);
    }
  }

  /** What a pop yields: its outcome, the mole and the reaction time. */
  datatype Pop = Pop(outcome: Outcome, mole: bv8, reactionMs: nat)

  /**
   * A pop on a level from a generator state: the mole from the next
   * generator output; no press within the duration is late with the whole
   * duration as reaction time; otherwise the first press decides, a hit
   * exactly when the mole's own button is down.
   */
  function PopSpec(lvlIdx: nat, rng: bv32, poll: Polls): Pop
    requires lvlIdx < Lvls
  {
    var target := Target(EmbUtils.Xorshift(rng));
    var duration := PopDurations[lvlIdx];
    match FirstPress(poll, 0, duration)
    case None => Pop(Late, target, duration)
    case Some(e) => Pop(if EmbBtnsHeader.IsBtnPressed(target, poll(e)) then Hit else Miss, target, e)
  }

  /**
   * The rules of a pop: the mole is one of the eight; a pop is late
   * exactly when no poll before the duration reads a button down, and
   * then the reaction time is the duration; otherwise the reaction time is
   * the first such poll, below the duration, and the pop is a hit exactly
   * when the mole's button is down then.
   */
  lemma PopRules(lvlIdx: nat, rng: bv32, poll: Polls)
    requires lvlIdx < Lvls
    ensures var p := PopSpec(lvlIdx, rng, poll);
      && p.mole < 8
      && (p.outcome == Late <==> forall e :: 0 <= e < PopDurations[lvlIdx] && e % PollInterval == 0 ==> poll(e) == EmbIoExpander.BtnHwState)
      && (p.outcome == Late ==> p.reactionMs == PopDurations[lvlIdx])
  {
    FirstPressSpec(poll, 0, PopDurations[lvlIdx]);
  }

  lemma PressRules(lvlIdx: nat, rng: bv32, poll: Polls)
    requires lvlIdx < Lvls && PopSpec(lvlIdx, rng, poll).outcome != Late
    ensures var p := PopSpec(lvlIdx, rng, poll);
      && p.reactionMs < PopDurations[lvlIdx] && p.reactionMs % PollInterval == 0
      && poll(p.reactionMs) != EmbIoExpander.BtnHwState
      && (forall e :: 0 <= e < p.reactionMs && e % PollInterval == 0 ==> poll(e) == EmbIoExpander.BtnHwState)
      && (p.outcome == Hit <==> EmbBtnsHeader.IsBtnPressed(p.mole, poll(p.reactionMs)))
  {
    FirstPressSpec(poll, 0, PopDurations[lvlIdx]);
  }

  /** `pop_wait_delay`: a pause of 250 to 1000 ms drawn from the generator. */
  method PopWaitDelay(rng: EmbUtils.Word32) returns (delay: nat)
    modifies rng
    ensures rng.value == EmbUtils.Xorshift(old(rng.value))
    ensures delay == 250 + rng.value as int % 751 && 250 <= delay <= 1000
  {
    var r := EmbUtils.NextRand(rng);
    delay := 250 + (r as int) % 751;
  }

  /**
   * `pop_do`: draw the mole, light it, and poll the buttons every 5 ms
   * until one is down or the level's duration is over.
   */
  method PopDo(lvlIdx: nat, rng: EmbUtils.Word32, poll: Polls) returns (outcome: Outcome, mole: bv8, reactionMs: nat)
    requires lvlIdx < Lvls
    modifies rng
    ensures rng.value == EmbUtils.Xorshift(old(rng.value))
    ensures Pop(outcome, mole, reactionMs) == PopSpec(lvlIdx, old(rng.value), poll)
  {
    var durationMs := PopDurations[lvlIdx];
    var r := EmbUtils.NextRand(rng);
    var targetLed := Target(r);
    mole := targetLed;
    var elapsed := 0;
    while elapsed < durationMs
      invariant FirstPress(poll, elapsed, durationMs) == FirstPress(poll, 0, durationMs)
      decreases durationMs - elapsed
    {
      var btnState := poll(elapsed);
      if btnState != EmbIoExpander.BtnHwState {
        reactionMs := elapsed;
        outcome := if EmbBtnsHeader.IsBtnPressed(targetLed, btnState) then Hit else Miss;
        return;
      }
      elapsed := elapsed + PollInterval;
    }
    reactionMs := durationMs;
    outcome := Late;
  }

  /** Where a stretch of play leaves the lives, the generator, and the events it queued. */
  /** A state of the random number generator, `rng_state`, as a value. */
  datatype Gen = Gen(state: bv32)

  datatype Run = Run(lives: nat, rng: Gen, events: seq<Event>)

  /**
   * The rest of a level from pop `pop` on: pop after pop until the lives
   * run out, and a level played to the end queues its completion.
   */
  function LevelFrom(lvlIdx: nat, pop: nat, pops: nat, lives: nat, rng: Gen, buttons: Buttons): Run
    requires lvlIdx < Lvls && lives > 0
    // The pops left decrease; the last component never matters, but naming
    // the button reads in the measure stops the verifier from unrolling a
    // level whose counters are literals.
    decreases pops - pop, 1, buttons(0, 0)(0)
  {
    if pop >= pops then Run(lives, rng, [LevelComplete(lvlIdx + 1)])
    else PopThen(lvlIdx, pop, pops, lives, rng, buttons)
  }

  /**
   * Pop `pop` and the rest of the level: the wait before it spends one
   * generator step, the pop another; a hit keeps the lives, anything else
   * costs one before its event is queued, and the level stops there when
   * none are left.
   */
  function PopThen(lvlIdx: nat, pop: nat, pops: nat, lives: nat, rng: Gen, buttons: Buttons): Run
    requires lvlIdx < Lvls && lives > 0 && pop < pops
    decreases pops - pop, 0, buttons(0, 0)(0)
  {
    var rngWait := EmbUtils.Xorshift(rng.state);
    var p := PopSpec(lvlIdx, rngWait, buttons(lvlIdx, pop));
    var rngPop := Gen(EmbUtils.Xorshift(rngWait));
    var left := if p.outcome == Hit then lives else lives - 1;
    var e := PopResult(p.mole, p.outcome, p.reactionMs, left, lvlIdx + 1);
    if left == 0 then Run(0, rngPop, [e])
    else
      var rest := LevelFrom(lvlIdx, pop + 1, pops, left, rngPop, buttons);
      Run(rest.lives, rest.rng, [e] + rest.events)
  }

  /** The rest of a game from level `lvl` on; a game through all eight levels is won. */
  function GameFrom(lvl: nat, lives: nat, rng: Gen, buttons: Buttons): Run
    requires lvl <= Lvls && lives > 0
    // As for `LevelFrom`: the levels left decrease, and the button reads
    // keep a game from literal counters from being unrolled.
    decreases Lvls - lvl, 1, buttons(0, 0)(0)
  {
    if lvl == Lvls then Run(lives, rng, [SessionEnd(true)])
    else LevelThen(lvl, lives, rng, buttons)
  }

  /**
   * Level `lvl` and the rest of the game: a level that uses up the lives
   * ends the game lost; otherwise play goes on to the next level.
   */
  function LevelThen(lvl: nat, lives: nat, rng: Gen, buttons: Buttons): Run
    requires lvl < Lvls && lives > 0
    decreases Lvls - lvl, 0, buttons(0, 0)(0)
  {
    var l := LevelFrom(lvl, 0, PopsPerLvl[lvl], lives, rng, buttons);
    if l.lives == 0 then Run(0, l.rng, l.events + [SessionEnd(false)])
    else
      var rest := GameFrom(lvl + 1, l.lives, l.rng, buttons);
      Run(rest.lives, rest.rng, l.events + rest.events)
  }

  /** One pop of `LevelFrom`, given the pop's result. */
  lemma LevelStep(lvlIdx: nat, pop: nat, pops: nat, lives: nat, rng: Gen, buttons: Buttons, p: Pop)
    requires lvlIdx < Lvls && lives > 0 && pop < pops
    requires p == PopSpec(lvlIdx, EmbUtils.Xorshift(rng.state), buttons(lvlIdx, pop))
    ensures var r := LevelFrom(lvlIdx, pop, pops, lives, rng, buttons);
      var rng2 := Gen(EmbUtils.Xorshift(EmbUtils.Xorshift(rng.state)));
      var left := if p.outcome == Hit then lives else lives - 1;
      var e := PopResult(p.mole, p.outcome, p.reactionMs, left, lvlIdx + 1);
      if left == 0 then r == Run(0, rng2, [e])
      else
        var rest := LevelFrom(lvlIdx, pop + 1, pops, left, rng2, buttons);
        r == Run(rest.lives, rest.rng, [e] + rest.events)
  {
  }

  /**
   * One pop of `LevelFrom`, with the pop's result and the generator state
   * after it given back as plain values.
   */
  lemma LevelShape(lvlIdx: nat, pop: nat, pops: nat, lives: nat, rng: Gen, buttons: Buttons) returns (p: Pop, rng2: Gen)
    requires lvlIdx < Lvls && lives > 0 && pop < pops
    ensures var r := LevelFrom(lvlIdx, pop, pops, lives, rng, buttons);
      var left := if p.outcome == Hit then lives else lives - 1;
      var e := PopResult(p.mole, p.outcome, p.reactionMs, left, lvlIdx + 1);
      if left == 0 then r == Run(0, rng2, [e])
      else
        var rest := LevelFrom(lvlIdx, pop + 1, pops, left, rng2, buttons);
        r == Run(rest.lives, rest.rng, [e] + rest.events)
  {
    p := PopSpec(lvlIdx, EmbUtils.Xorshift(rng.state), buttons(lvlIdx, pop));
    rng2 := Gen(EmbUtils.Xorshift(EmbUtils.Xorshift(rng.state)));
    LevelStep(lvlIdx, pop, pops, lives, rng, buttons, p);
  }

  /** A whole game from a generator seed: full lives, and a start event first. */
  function Session(seed: Gen, buttons: Buttons): Run {
    var g := GameFrom(0, Lives, seed, buttons);
    Run(g.lives, g.rng, [SessionStart] + g.events)
  }

  /** The game `game_run` plays: the one from the fixed seed. */
  function GameSpec(buttons: Buttons): Run {
    Session(Gen(RngInitState), buttons)
  }

  /** The game's statics, and every event it has sent to the event queue, in order. */
  class Game {
    /** `lives`. */
    var lives: nat
    /** `rng_state`. */
    const rngState: EmbUtils.Word32
    /** What went into `event_queue`, oldest first. */
    var events: seq<Event>

    /** The statics as a C program starts them: zero. */
    constructor ()
      ensures lives == 0 && rngState.value == 0 && events == [] && fresh(rngState)
    {
      lives := 0;
      rngState := new EmbUtils.Word32(0);
      events := [];
    }

    /** `game_run_level`: the pops of one level, as `LevelFrom` describes them. */
    method GameRunLevel(lvlIdx: nat, pops: nat, buttons: Buttons)
      requires lvlIdx < Lvls && lives > 0
      modifies this, rngState
      ensures var w := LevelFrom(lvlIdx, 0, pops, old(lives), old(Gen(rngState.value)), buttons);
        lives == w.lives && rngState.value == w.rng.state && events == old(events) + w.events
    {
      ghost var w := LevelFrom(lvlIdx, 0, pops, lives, Gen(rngState.value), buttons);
      ghost var start := events;
      ghost var played: seq<Event> := [];
      var pop := 0;
      while pop < pops
        invariant lives > 0
        invariant events == start + played
        invariant var r := LevelFrom(lvlIdx, pop, pops, lives, Gen(rngState.value), buttons);
          w.lives == r.lives && w.rng == r.rng && w.events == played + r.events
        decreases pops - pop
      {
        ghost var rng0 := rngState.value;
        var delay := PopWaitDelay(rngState);
        var outcome, mole, reactionMs := PopDo(lvlIdx, rngState, buttons(lvlIdx, pop));
        LevelStep(lvlIdx, pop, pops, lives, Gen(rng0), buttons, Pop(outcome, mole, reactionMs));
        if outcome == Hit {
          ghost var e := PopResult(mole, outcome, reactionMs, lives, lvlIdx + 1);
          AppendAssoc(start, played, [e]);
          AppendAssoc(played, [e], LevelFrom(lvlIdx, pop + 1, pops, lives, Gen(rngState.value), buttons).events);
          events := events + [PopResult(mole, outcome, reactionMs, lives, lvlIdx + 1)];
          played := played + [e];
          pop := pop + 1;
          continue;
        }
        lives := lives - 1;
        ghost var e := PopResult(mole, outcome, reactionMs, lives, lvlIdx + 1);
        AppendAssoc(start, played, [e]);
        events := events + [PopResult(mole, outcome, reactionMs, lives, lvlIdx + 1)];
        if lives == 0 {
          return;
        }
        AppendAssoc(played, [e], LevelFrom(lvlIdx, pop + 1, pops, lives, Gen(rngState.value), buttons).events);
        played := played + [e];
        pop := pop + 1;
      }
      AppendAssoc(start, played, [LevelComplete(lvlIdx + 1)]);
      events := events + [LevelComplete(lvlIdx + 1)];
    }

    /** `game_run`: full lives, the fixed seed, a start event, then level after level. */
    method GameRun(buttons: Buttons)
      modifies this, rngState
      ensures var g := GameSpec(buttons);
        lives == g.lives && rngState.value == g.rng.state && events == old(events) + g.events
    {
      lives := Lives;
      rngState.value := RngInitState;
      events := events + [SessionStart];
      var lvl := 0;
      ghost var g := GameFrom(lvl, lives, Gen(rngState.value), buttons);
      AppendAssoc(old(events), [SessionStart], g.events);
      ghost var start := events;
      ghost var played: seq<Event> := [];
      while lvl < Lvls
        invariant lvl <= Lvls && lives > 0
        invariant events == start + played
        invariant var r := GameFrom(lvl, lives, Gen(rngState.value), buttons);
          g.lives == r.lives && g.rng == r.rng && g.events == played + r.events
        decreases Lvls - lvl
      {
        ghost var l := GameAdvance(lvl, lives, Gen(rngState.value), buttons, g, start, played);
        GameRunLevel(lvl, PopsPerLvl[lvl], buttons);
        if lives == 0 {
          events := events + [SessionEnd(false)];
          return;
        }
        played := played + l.events;
        lvl := lvl + 1;
      }
      AppendAssoc(start, played, [SessionEnd(true)]);
      events := events + [SessionEnd(true)];
    }
  }

  /**
   * One pass of `game_run`'s loop, on values: the level's run, and the
   * queue and the game still to play after it.
   */
  lemma GameAdvance(lvl: nat, lives: nat, rng: Gen, buttons: Buttons, g: Run, start: seq<Event>, played: seq<Event>) returns (l: Run)
    requires lvl < Lvls && lives > 0
    requires var r := GameFrom(lvl, lives, rng, buttons);
      g.lives == r.lives && g.rng == r.rng && g.events == played + r.events
    ensures l == LevelFrom(lvl, 0, PopsPerLvl[lvl], lives, rng, buttons)
    ensures l.lives == 0 ==> g.lives == 0 && g.rng == l.rng && start + g.events == (start + played) + l.events + [SessionEnd(false)]
    ensures l.lives > 0 ==>
      && (start + played) + l.events == start + (played + l.events)
      && var r := GameFrom(lvl + 1, l.lives, l.rng, buttons);
        g.lives == r.lives && g.rng == r.rng && g.events == (played + l.events) + r.events
  {
    l := GameStep(lvl, lives, rng, buttons);
    AppendAssoc(start, played, l.events);
    if l.lives == 0 {
      AppendAssoc(played, l.events, [SessionEnd(false)]);
      AppendAssoc(start, played + l.events, [SessionEnd(false)]);
    } else {
      AppendAssoc(played, l.events, GameFrom(lvl + 1, l.lives, l.rng, buttons).events);
    }
  }

  /** One level of `GameFrom`, given the level's run. */
  lemma GameStep(lvl: nat, lives: nat, rng: Gen, buttons: Buttons) returns (l: Run)
    requires lvl < Lvls && lives > 0
    ensures l == LevelFrom(lvl, 0, PopsPerLvl[lvl], lives, rng, buttons)
    ensures var r := GameFrom(lvl, lives, rng, buttons);
      if l.lives == 0 then r == Run(0, l.rng, l.events + [SessionEnd(false)])
      else
        var rest := GameFrom(lvl + 1, l.lives, l.rng, buttons);
        r == Run(rest.lives, rest.rng, l.events + rest.events)
  {
    l := LevelFrom(lvl, 0, PopsPerLvl[lvl], lives, rng, buttons);
  }

  /** The kinds of event the rules below count. */
  datatype Kind = Started | Fault | Popped | Completed | Ended

  predicate Is(e: Event, k: Kind) {
    match k
    case Started => e.SessionStart?
    case Fault => e.PopResult? && e.outcome != Hit
    case Popped => e.PopResult?
    case Completed => e.LevelComplete?
    case Ended => e.SessionEnd?
  }

  /** How many events of a kind a queue holds. */
  function Count(es: seq<Event>, k: Kind): (n: nat)
    ensures n <= |es|
  {
    if es == [] then 0 else (if Is(es[0], k) then 1 else 0) + Count(es[1..], k)
  }

  /** Counting splits over concatenation. */
  lemma {:induction false} CountAppend(a: seq<Event>, b: seq<Event>, k: Kind)
    ensures Count(a + b, k) == Count(a, k) + Count(b, k)
  {
    if a == [] {
      assert a + b == b;
    } else {
      assert (a + b)[1..] == a[1..] + b;
      CountAppend(a[1..], b, k);
    }
  }

  /** Lives in a level: every pop that is not a hit costs exactly one, and none is lost otherwise. */
  predicate LivesKept(lives: nat, r: Run) {
    r.lives <= lives && Count(r.events, Fault) == lives - r.lives
  }

  /**
   * How a level ends: with its completion exactly when lives remain, and
   * otherwise with the pop result that left none; the completion is queued
   * once at most, and no session event is.
   */
  predicate LevelEnding(lvlIdx: nat, r: Run) {
    && r.events != []
    && (r.lives > 0 <==> r.events[|r.events| - 1] == LevelComplete(lvlIdx + 1))
    && (r.lives == 0 ==> r.events[|r.events| - 1].PopResult? && r.events[|r.events| - 1].lives == 0)
    && Count(r.events, Completed) == (if r.lives > 0 then 1 else 0)
    && Count(r.events, Started) == 0 && Count(r.events, Ended) == 0
  }

  /**
   * The pops of a level: every event but the last is a pop result of that
   * level that leaves lives, and a level completed from pop `pop` on
   * played every pop left.
   */
  predicate PopsPlayed(lvlIdx: nat, pop: nat, pops: nat, r: Run) {
    && (forall i :: 0 <= i < |r.events| - 1 ==> r.events[i].PopResult? && r.events[i].level == lvlIdx + 1 && r.events[i].lives > 0)
    && (r.lives > 0 && pop <= pops ==> Count(r.events, Popped) == pops - pop)
  }

  /** The rest of every level keeps the lives rule. */
  lemma {:induction false} LevelLives(lvlIdx: nat, pop: nat, pops: nat, lives: nat, rng: Gen, buttons: Buttons, r: Run)
    requires lvlIdx < Lvls && lives > 0 && r == LevelFrom(lvlIdx, pop, pops, lives, rng, buttons)
    decreases pops - pop
    ensures LivesKept(lives, r)
  {
    if pop < pops {
      var p, rng2 := LevelShape(lvlIdx, pop, pops, lives, rng, buttons);
      var left := if p.outcome == Hit then lives else lives - 1;
      if left > 0 {
        var e := PopResult(p.mole, p.outcome, p.reactionMs, left, lvlIdx + 1);
        var rest := LevelFrom(lvlIdx, pop + 1, pops, left, rng2, buttons);
        LevelLives(lvlIdx, pop + 1, pops, left, rng2, buttons, rest);
        CountAppend([e], rest.events, Fault);
      }
    }
  }

  /** The rest of every level ends as `LevelEnding` says. */
  lemma {:induction false} LevelEnd(lvlIdx: nat, pop: nat, pops: nat, lives: nat, rng: Gen, buttons: Buttons, r: Run)
    requires lvlIdx < Lvls && lives > 0 && r == LevelFrom(lvlIdx, pop, pops, lives, rng, buttons)
    decreases pops - pop
    ensures LevelEnding(lvlIdx, r)
  {
    if pop < pops {
      var p, rng2 := LevelShape(lvlIdx, pop, pops, lives, rng, buttons);
      var left := if p.outcome == Hit then lives else lives - 1;
      if left > 0 {
        var e := PopResult(p.mole, p.outcome, p.reactionMs, left, lvlIdx + 1);
        var rest := LevelFrom(lvlIdx, pop + 1, pops, left, rng2, buttons);
        LevelEnd(lvlIdx, pop + 1, pops, left, rng2, buttons, rest);
        CountAppend([e], rest.events, Completed);
        CountAppend([e], rest.events, Started);
        CountAppend([e], rest.events, Ended);
      }
    }
  }

  /** The rest of every level plays its pops as `PopsPlayed` says. */
  lemma {:induction false} LevelPops(lvlIdx: nat, pop: nat, pops: nat, lives: nat, rng: Gen, buttons: Buttons, r: Run)
    requires lvlIdx < Lvls && lives > 0 && r == LevelFrom(lvlIdx, pop, pops, lives, rng, buttons)
    decreases pops - pop
    ensures PopsPlayed(lvlIdx, pop, pops, r)
  {
    if pop < pops {
      var p, rng2 := LevelShape(lvlIdx, pop, pops, lives, rng, buttons);
      var left := if p.outcome == Hit then lives else lives - 1;
      if left > 0 {
        var e := PopResult(p.mole, p.outcome, p.reactionMs, left, lvlIdx + 1);
        var rest := LevelFrom(lvlIdx, pop + 1, pops, left, rng2, buttons);
        LevelPops(lvlIdx, pop + 1, pops, left, rng2, buttons, rest);
        CountAppend([e], rest.events, Popped);
      }
    }
  }

  /** Every level has ten pops. */
  lemma TenPops(lvl: nat)
    requires lvl < Lvls
    ensures PopsPerLvl[lvl] == 10
  {
  }

  /**
   * How the rest of a game ends: with exactly one session end, last, which
   * says whether lives remain, and with no session start.
   */
  predicate GameEnding(g: Run) {
    && g.events != [] && g.events[|g.events| - 1] == SessionEnd(g.lives > 0)
    && Count(g.events, Ended) == 1 && Count(g.events, Started) == 0
  }

  /**
   * When the rest of a game from level `lvl` is won: exactly when every
   * level left is completed, having played every pop of those levels.
   */
  predicate GameWonRule(lvl: nat, g: Run) {
    && (g.lives > 0 <==> Count(g.events, Completed) == Lvls - lvl)
    && (g.lives > 0 ==> Count(g.events, Popped) == 10 * (Lvls - lvl))
  }

  /** One level of a game: the level's run and the rules it keeps, and what the game does after it. */
  lemma GameShape(lvl: nat, lives: nat, rng: Gen, buttons: Buttons, g: Run) returns (l: Run)
    requires lvl < Lvls && lives > 0 && g == GameFrom(lvl, lives, rng, buttons)
    ensures LivesKept(lives, l) && LevelEnding(lvl, l) && PopsPlayed(lvl, 0, 10, l)
    ensures l.lives == 0 ==> g == Run(0, l.rng, l.events + [SessionEnd(false)])
    ensures l.lives > 0 ==>
      var rest := GameFrom(lvl + 1, l.lives, l.rng, buttons);
      g == Run(rest.lives, rest.rng, l.events + rest.events)
  {
    TenPops(lvl);
    l := GameStep(lvl, lives, rng, buttons);
    LevelLives(lvl, 0, 10, lives, rng, buttons, l);
    LevelEnd(lvl, 0, 10, lives, rng, buttons, l);
    LevelPops(lvl, 0, 10, lives, rng, buttons, l);
  }

  /** A level that uses up the lives, followed by the lost session end, keeps the lives rule. */
  lemma LostLives(lives: nat, l: Run, g: Run)
    requires LivesKept(lives, l) && l.lives == 0 && g == Run(0, l.rng, l.events + [SessionEnd(false)])
    ensures LivesKept(lives, g)
  {
    CountAppend(l.events, [SessionEnd(false)], Fault);
  }

  /** A level completed, followed by the rest of the game, keeps the lives rule. */
  lemma NextLives(lives: nat, l: Run, rest: Run, g: Run)
    requires LivesKept(lives, l) && LivesKept(l.lives, rest) && g == Run(rest.lives, rest.rng, l.events + rest.events)
    ensures LivesKept(lives, g)
  {
    CountAppend(l.events, rest.events, Fault);
  }

  /** A level that uses up the lives, followed by the lost session end, ends the game as `GameEnding` says. */
  lemma LostEnds(lvl: nat, l: Run, g: Run)
    requires LevelEnding(lvl, l) && l.lives == 0 && g == Run(0, l.rng, l.events + [SessionEnd(false)])
    ensures GameEnding(g)
  {
    CountAppend(l.events, [SessionEnd(false)], Ended);
    CountAppend(l.events, [SessionEnd(false)], Started);
  }

  /** A level completed, followed by the rest of the game, ends the game as `GameEnding` says. */
  lemma NextEnds(lvl: nat, l: Run, rest: Run, g: Run)
    requires LevelEnding(lvl, l) && GameEnding(rest) && g == Run(rest.lives, rest.rng, l.events + rest.events)
    ensures GameEnding(g)
  {
    CountAppend(l.events, rest.events, Ended);
    CountAppend(l.events, rest.events, Started);
  }

  /** A game lost on level `lvl` did not complete every level left. */
  lemma LostWon(lvl: nat, l: Run, g: Run)
    requires lvl < Lvls && LevelEnding(lvl, l) && l.lives == 0 && g == Run(0, l.rng, l.events + [SessionEnd(false)])
    ensures GameWonRule(lvl, g)
  {
    CountAppend(l.events, [SessionEnd(false)], Completed);
  }

  /** A level completed with all its pops, followed by the rest of the game, keeps the winning rule. */
  lemma NextWon(lvl: nat, l: Run, rest: Run, g: Run)
    requires lvl < Lvls && LevelEnding(lvl, l) && PopsPlayed(lvl, 0, 10, l) && l.lives > 0
    requires GameWonRule(lvl + 1, rest) && rest.lives <= l.lives
    requires g == Run(rest.lives, rest.rng, l.events + rest.events)
    ensures GameWonRule(lvl, g)
  {
    CountAppend(l.events, rest.events, Completed);
    CountAppend(l.events, rest.events, Popped);
  }

  /** The rest of a game loses lives only, one per pop that is not a hit. */
  lemma {:induction false} GameLives(lvl: nat, lives: nat, rng: Gen, buttons: Buttons, g: Run)
    requires lvl <= Lvls && lives > 0 && g == GameFrom(lvl, lives, rng, buttons)
    decreases Lvls - lvl
    ensures LivesKept(lives, g)
  {
    if lvl < Lvls {
      var l := GameShape(lvl, lives, rng, buttons, g);
      if l.lives == 0 {
        LostLives(lives, l, g);
      } else {
        var rest := GameFrom(lvl + 1, l.lives, l.rng, buttons);
        GameLives(lvl + 1, l.lives, l.rng, buttons, rest);
        NextLives(lives, l, rest, g);
      }
    }
  }

  /** The rest of a game ends as `GameEnding` says. */
  lemma {:induction false} GameEnds(lvl: nat, lives: nat, rng: Gen, buttons: Buttons, g: Run)
    requires lvl <= Lvls && lives > 0 && g == GameFrom(lvl, lives, rng, buttons)
    decreases Lvls - lvl
    ensures GameEnding(g)
  {
    if lvl < Lvls {
      var l := GameShape(lvl, lives, rng, buttons, g);
      if l.lives == 0 {
        LostEnds(lvl, l, g);
      } else {
        var rest := GameFrom(lvl + 1, l.lives, l.rng, buttons);
        GameEnds(lvl + 1, l.lives, l.rng, buttons, rest);
        NextEnds(lvl, l, rest, g);
      }
    }
  }

  /** The rest of a game is won as `GameWonRule` says. */
  lemma {:induction false} GameWon(lvl: nat, lives: nat, rng: Gen, buttons: Buttons, g: Run)
    requires lvl <= Lvls && lives > 0 && g == GameFrom(lvl, lives, rng, buttons)
    decreases Lvls - lvl
    ensures GameWonRule(lvl, g)
  {
    if lvl < Lvls {
      var l := GameShape(lvl, lives, rng, buttons, g);
      if l.lives == 0 {
        LostWon(lvl, l, g);
      } else {
        var rest := GameFrom(lvl + 1, l.lives, l.rng, buttons);
        GameWon(lvl + 1, l.lives, l.rng, buttons, rest);
        GameLives(lvl + 1, l.lives, l.rng, buttons, rest);
        NextWon(lvl, l, rest, g);
      }
    }
  }

  /**
   * A game starts with its session start and ends with its one session
   * end, which says whether it was won.
   */
  lemma StartAndEnd(seed: Gen, buttons: Buttons, s: Run)
    requires s == Session(seed, buttons)
    ensures s.events != [] && s.events[0] == SessionStart && s.events[|s.events| - 1] == SessionEnd(s.lives > 0)
    ensures Count(s.events, Started) == 1 && Count(s.events, Ended) == 1
  {
    var g := GameFrom(0, Lives, seed, buttons);
    GameEnds(0, Lives, seed, buttons, g);
    assert s.events[|s.events| - 1] == g.events[|g.events| - 1];
    CountAppend([SessionStart], g.events, Ended);
    CountAppend([SessionStart], g.events, Started);
  }

  /** Of the five lives a game starts with, each one lost is a pop missed or late. */
  lemma LivesLost(seed: Gen, buttons: Buttons, s: Run)
    requires s == Session(seed, buttons)
    ensures s.lives <= Lives && Count(s.events, Fault) == Lives - s.lives
  {
    var g := GameFrom(0, Lives, seed, buttons);
    GameLives(0, Lives, seed, buttons, g);
    CountAppend([SessionStart], g.events, Fault);
  }

  /**
   * A game is won exactly when lives remain at its end, which is exactly
   * when all eight levels were completed, and a won game played all eighty
   * pops.
   */
  lemma WonGame(seed: Gen, buttons: Buttons, s: Run)
    requires s == Session(seed, buttons)
    ensures s.lives > 0 <==> Count(s.events, Completed) == Lvls
    ensures s.lives > 0 ==> Count(s.events, Popped) == 80
  {
    var g := GameFrom(0, Lives, seed, buttons);
    GameWon(0, Lives, seed, buttons, g);
    CountAppend([SessionStart], g.events, Completed);
    CountAppend([SessionStart], g.events, Popped);
  }
}
