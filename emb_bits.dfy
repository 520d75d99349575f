/**
 * Bit helpers shared by the firmware's pin tables (emb/src/io_expander.c,
 * emb/src/led.c, emb/src/btn.c, emb/include/leds.h, emb/include/btns.h).
 * The I/O expander reads the eight buttons and drives the eight LEDs as
 * one byte each; the board wires logical button and LED numbers to
 * scrambled pins, so each file carries a table from logical index to pin.
 */
module EmbBits {
  /** Bit k of a byte, counting from the least significant. */
  predicate BitOf(x: bv8, k: bv8)
    requires k < 8
  {
    x & (1 << k) != 0
  }

  /** A pin table: eight pins in 0..7, no two alike, so every index has a bit of its own. */
  predicate PinTable(m: seq<bv8>) {
    |m| == 8 && (forall i :: 0 <= i < 8 ==> m[i] < 8) && (forall i, j :: 0 <= i < j < 8 ==> m[i] != m[j])
  }

  /** `x | (1 << pin)`: the pin's bit set, every other bit kept. */
  function SetPin(x: bv8, pin: bv8): bv8
    requires pin < 8
  {
    x | (1 << pin)
  }

  /** `x & ~(1 << pin)`: the pin's bit cleared, every other bit kept. */
  function ClearPin(x: bv8, pin: bv8): bv8
    requires pin < 8
  {
    x & !(1 << pin)
  }

  /** Setting a pin sets its bit and keeps every other bit. */
  lemma SetPinBits(x: bv8, pin: bv8, k: bv8)
    requires pin < 8 && k < 8
    ensures BitOf(SetPin(x, pin), k) <==> (k == pin || BitOf(x, k))
  {
  }

  /** Clearing a pin clears its bit and keeps every other bit. */
  lemma ClearPinBits(x: bv8, pin: bv8, k: bv8)
    requires pin < 8 && k < 8
    ensures BitOf(ClearPin(x, pin), k) <==> (k != pin && BitOf(x, k))
  {
  }

  /**
   * Through a pin table, setting one index's pin lights that index and no
   * other: distinct indices have distinct pins.
   */
  lemma SetOnlyIndex(m: seq<bv8>, x: bv8, i: nat, j: nat)
    requires PinTable(m) && i < 8 && j < 8
    ensures BitOf(SetPin(x, m[i]), m[j]) <==> (j == i || BitOf(x, m[j]))
  {
    SetPinBits(x, m[i], m[j]);
    if j != i {
      assert m[j] != m[i] by {
        if j < i { assert m[j] != m[i]; } else { assert m[i] != m[j]; }
      }
    }
  }

  /** Through a pin table, clearing one index's pin darkens that index and no other. */
  lemma ClearOnlyIndex(m: seq<bv8>, x: bv8, i: nat, j: nat)
    requires PinTable(m) && i < 8 && j < 8
    ensures BitOf(ClearPin(x, m[i]), m[j]) <==> (j != i && BitOf(x, m[j]))
  {
    ClearPinBits(x, m[i], m[j]);
    if j != i {
      assert m[j] != m[i] by {
        if j < i { assert m[j] != m[i]; } else { assert m[i] != m[j]; }
      }
    }
  }

  /**
   * Setting a bit twice is setting it once; clearing likewise; and clearing
   * a bit just set gives back a byte in which it was clear.
   */
  lemma SetClearLaws(x: bv8, pin: bv8)
    requires pin < 8
    ensures SetPin(SetPin(x, pin), pin) == SetPin(x, pin)
    ensures ClearPin(ClearPin(x, pin), pin) == ClearPin(x, pin)
    ensures ClearPin(SetPin(x, pin), pin) == ClearPin(x, pin)
    ensures !BitOf(x, pin) ==> ClearPin(SetPin(x, pin), pin) == x
  {
  }

  /** The byte a C function updates through its `uint8_t *` argument. */
  class Byte {
    var value: bv8

    constructor (v: bv8)
      ensures value == v
    {
      value := v;
    }
  }
}
