/**
 * The button helper of emb/src/btn.c: the same test as the I/O expander
 * driver's, with this file's own copy of the button table, which
 * emb/include/btns.h also refers to.
 */
module EmbBtn {
  import opened EmbBits
  import EmbIoExpander

  const ButtonCount: bv8 := 8

  /** This file's `BTN_MAP`. */
  const BtnMap: seq<bv8> := [6, 4, 2, 1, 7, 5, 3, 0]

  /** The table is a permutation of the pins, and the very table the I/O expander driver uses. */
  lemma TableIsPermutation()
    ensures PinTable(BtnMap) && BtnMap == EmbIoExpander.BtnMap
  {
  }

  /**
   * `is_btn_pressed`: false past the table; otherwise pressed exactly when
   * the button's pin reads 0, as the I/O expander driver decides.
   */
  function IsBtnPressed(btn: bv8, hardwareState: bv8): (r: bool)
    ensures r == EmbIoExpander.IsBtnPressed(btn, hardwareState)
  {
    if btn >= ButtonCount then false
    else
      var pin := BtnMap[btn];
      hardwareState & (1 << pin) == 0
  }

  /** The answer depends on the button's own pin only. */
  lemma OneBitDecides(btn: bv8, s1: bv8, s2: bv8)
    requires btn < 8 && (BitOf(s1, BtnMap[btn]) <==> BitOf(s2, BtnMap[btn]))
    ensures IsBtnPressed(btn, s1) == IsBtnPressed(btn, s2)
  {
  }
}
