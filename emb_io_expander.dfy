/**
 * The I/O expander driver's pure helpers (emb/src/io_expander.c): reading
 * one button out of the button byte, and switching LEDs in the LED byte the
 * caller keeps. Pins are scrambled on the board, so both go through a table
 * from logical index to pin. The I2C transfers are not part of this model.
 */
module EmbIoExpander {
  import opened EmbBits

  const ButtonCount: bv8 := 8
  const LedCount: bv8 := 8

  /** The idle button byte: active low, so every button released. */
  const BtnHwState: bv8 := 0xFF
  /** The idle LED byte: every LED off. */
  const LedHwState: bv8 := 0x00

  /** `BTN_MAP`: button i is wired to pin BtnMap[i]. */
  const BtnMap: seq<bv8> := [6, 4, 2, 1, 7, 5, 3, 0]
  /** `LED_MAP`: LED i is wired to pin LedMap[i]. */
  const LedMap: seq<bv8> := [0, 2, 5, 7, 1, 3, 4, 6]

  /** Both tables send the eight indices to eight distinct pins. */
  lemma TablesArePermutations()
    ensures PinTable(BtnMap) && PinTable(LedMap)
  {
  }

  /**
   * `is_btn_pressed`: false for an index past the table; otherwise pressed
   * exactly when the button's pin reads 0.
   */
  function IsBtnPressed(btn: bv8, hardwareState: bv8): (r: bool)
    ensures btn >= 8 ==> !r
    ensures btn < 8 ==> (r <==> !BitOf(hardwareState, BtnMap[btn]))
  {
    if btn >= ButtonCount then false
    else
      var pin := BtnMap[btn];
      hardwareState & (1 << pin) == 0
  }

  /** The idle button byte reads no button as pressed. */
  lemma NothingPressedAtRest(btn: bv8)
    ensures !IsBtnPressed(btn, BtnHwState)
  {
  }

  /**
   * A byte with only one button's pin low reads that button, and only that
   * one, as pressed.
   */
  lemma OnlyThatButton(pressed: bv8, btn: bv8)
    requires pressed < 8 && btn < 8
    ensures IsBtnPressed(btn, ClearPin(BtnHwState, BtnMap[pressed])) <==> btn == pressed
  {
    TablesArePermutations();
    ClearOnlyIndex(BtnMap, BtnHwState, pressed as nat, btn as nat);
  }

  /** The LED byte after `led_on`. */
  function LedOnPattern(led: bv8, pattern: bv8): bv8 {
    if led < LedCount then SetPin(pattern, LedMap[led]) else pattern
  }

  /** The LED byte after `led_off`. */
  function LedOffPattern(led: bv8, pattern: bv8): bv8 {
    if led < LedCount then ClearPin(pattern, LedMap[led]) else pattern
  }

  /** `led_on`: set the LED's pin in the caller's byte; an index past the table changes nothing. */
  method LedOn(led: bv8, ledPattern: Byte)
    modifies ledPattern
    ensures ledPattern.value == LedOnPattern(led, old(ledPattern.value))
  {
    if led < LedCount {
      var pin := LedMap[led];
      ledPattern.value := SetPin(ledPattern.value, pin);
    }
  }

  /** `led_off`: clear the LED's pin in the caller's byte; an index past the table changes nothing. */
  method LedOff(led: bv8, ledPattern: Byte)
    modifies ledPattern
    ensures ledPattern.value == LedOffPattern(led, old(ledPattern.value))
  {
    if led < LedCount {
      var pin := LedMap[led];
      ledPattern.value := ClearPin(ledPattern.value, pin);
    }
  }

  /** `all_led_off`. */
  method AllLedOff(ledPattern: Byte)
    modifies ledPattern
    ensures ledPattern.value == LedHwState
    ensures forall led: bv8 :: led < 8 ==> !Lit(ledPattern.value, led)
  {
    ledPattern.value := LedHwState;
  }

  /** Whether LED `led` is on in a pattern. */
  predicate Lit(pattern: bv8, led: bv8)
    requires led < 8
  {
    BitOf(pattern, LedMap[led])
  }

  /** `led_on` lights the LED and leaves every other LED as it was; past the table it changes nothing. */
  lemma LedOnOnlyItself(led: bv8, pattern: bv8, other: bv8)
    requires other < 8
    ensures Lit(LedOnPattern(led, pattern), other) <==> other == led || Lit(pattern, other)
  {
    if led < 8 {
      TablesArePermutations();
      SetOnlyIndex(LedMap, pattern, led as nat, other as nat);
    }
  }

  /** `led_off` darkens the LED and leaves every other LED as it was; past the table it changes nothing. */
  lemma LedOffOnlyItself(led: bv8, pattern: bv8, other: bv8)
    requires other < 8
    ensures Lit(LedOffPattern(led, pattern), other) <==> other != led && Lit(pattern, other)
  {
    if led < 8 {
      TablesArePermutations();
      ClearOnlyIndex(LedMap, pattern, led as nat, other as nat);
    }
  }

  /**
   * Switching an LED on or off twice is doing it once; off after on is
   * off alone, so it restores a pattern where the LED was off.
   */
  lemma LedSwitchLaws(led: bv8, pattern: bv8)
    ensures LedOnPattern(led, LedOnPattern(led, pattern)) == LedOnPattern(led, pattern)
    ensures LedOffPattern(led, LedOffPattern(led, pattern)) == LedOffPattern(led, pattern)
    ensures LedOffPattern(led, LedOnPattern(led, pattern)) == LedOffPattern(led, pattern)
    ensures led < 8 && !Lit(pattern, led) ==> LedOffPattern(led, LedOnPattern(led, pattern)) == pattern
  {
    if led < 8 {
      SetClearLaws(pattern, LedMap[led]);
    }
  }
}
