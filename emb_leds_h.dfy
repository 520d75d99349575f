/**
 * The inline LED helpers of emb/include/leds.h: the same bit updates as
 * emb/src/led.c through its table, without the range check, so the caller
 * must pass an LED number below `LED_COUNT`.
 */
module EmbLedsHeader {
  import opened EmbBits
  import EmbLed
  import EmbIoExpander

  const LedCount: bv8 := 8

  /** `led_on`: set the LED's pin. */
  method LedOn(led: bv8, ledPattern: Byte)
    requires led < LedCount
    modifies ledPattern
    ensures ledPattern.value == SetPin(old(ledPattern.value), EmbLed.LedMap[led])
  {
    var pin := EmbLed.LedMap[led];
    ledPattern.value := SetPin(ledPattern.value, pin);
  }

  /** `led_off`: clear the LED's pin. */
  method LedOff(led: bv8, ledPattern: Byte)
    requires led < LedCount
    modifies ledPattern
    ensures ledPattern.value == ClearPin(old(ledPattern.value), EmbLed.LedMap[led])
  {
    var pin := EmbLed.LedMap[led];
    ledPattern.value := ClearPin(ledPattern.value, pin);
  }

  /**
   * On a valid LED the unchecked helpers do what the checked ones do, so
   * `led_off` after `led_on` leaves the LED off and every other LED as it was.
   */
  lemma AgreesWithChecked(led: bv8, pattern: bv8, other: bv8)
    requires led < LedCount && other < 8
    ensures SetPin(pattern, EmbLed.LedMap[led]) == EmbIoExpander.LedOnPattern(led, pattern)
    ensures ClearPin(pattern, EmbLed.LedMap[led]) == EmbIoExpander.LedOffPattern(led, pattern)
    ensures var r := ClearPin(SetPin(pattern, EmbLed.LedMap[led]), EmbLed.LedMap[led]);
      EmbIoExpander.Lit(r, other) <==> other != led && EmbIoExpander.Lit(pattern, other)
  {
    EmbLed.TableIsPermutation();
    EmbIoExpander.LedSwitchLaws(led, pattern);
    EmbIoExpander.LedOffOnlyItself(led, pattern, other);
  }
}
