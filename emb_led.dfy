/**
 * The LED helpers of emb/src/led.c: the same switching as the I/O expander
 * driver's, with this file's own copy of the LED table, which
 * emb/include/leds.h also refers to.
 */
module EmbLed {
  import opened EmbBits
  import EmbIoExpander

  const LedCount: bv8 := 8

  /** `LED_HW_STATE`: every LED off. */
  const LedHwState: bv8 := 0x00

  /** This file's `LED_MAP`. */
  const LedMap: seq<bv8> := [0, 2, 5, 7, 1, 3, 4, 6]

  /** The table is a permutation of the pins, and the very table the I/O expander driver uses. */
  lemma TableIsPermutation()
    ensures PinTable(LedMap) && LedMap == EmbIoExpander.LedMap
  {
  }

  /** `led_on`: the LED's pin set, the others kept; an index past the table changes nothing. */
  method LedOn(led: bv8, ledPattern: Byte)
    modifies ledPattern
    ensures ledPattern.value == EmbIoExpander.LedOnPattern(led, old(ledPattern.value))
  {
    if led < LedCount {
      var pin := LedMap[led];
      ledPattern.value := SetPin(ledPattern.value, pin);
    }
  }

  /** `led_off`: the LED's pin cleared, the others kept; an index past the table changes nothing. */
  method LedOff(led: bv8, ledPattern: Byte)
    modifies ledPattern
    ensures ledPattern.value == EmbIoExpander.LedOffPattern(led, old(ledPattern.value))
  {
    if led < LedCount {
      var pin := LedMap[led];
      ledPattern.value := ClearPin(ledPattern.value, pin);
    }
  }

  /** `all_led_off`. */
  method AllLedOff(ledPattern: Byte)
    modifies ledPattern
    ensures ledPattern.value == LedHwState
  {
    ledPattern.value := LedHwState;
  }
}
