/**
 * The inline button helper of emb/include/btns.h: the same test as
 * emb/src/btn.c through its table, without the range check, so the caller
 * must pass a button number below `BTN_COUNT`.
 */
module EmbBtnsHeader {
  import opened EmbBits
  import EmbBtn
  import EmbIoExpander

  const BtnCount: bv8 := 8

  /** `is_btn_pressed`: the button's pin reads 0 (active low). */
  function IsBtnPressed(btn: bv8, btnState: bv8): (r: bool)
    requires btn < BtnCount
    ensures r == EmbBtn.IsBtnPressed(btn, btnState)
  {
    !(btnState & (1 << EmbBtn.BtnMap[btn]) != 0)
  }

  /** Only the button's own pin matters: changing any other bit of the state leaves the answer alone. */
  lemma OtherBitsIgnored(btn: bv8, btnState: bv8, k: bv8)
    requires btn < BtnCount && k < 8 && k != EmbBtn.BtnMap[btn]
    ensures IsBtnPressed(btn, SetPin(btnState, k)) == IsBtnPressed(btn, btnState)
    ensures IsBtnPressed(btn, ClearPin(btnState, k)) == IsBtnPressed(btn, btnState)
  {
    var pin := EmbBtn.BtnMap[btn];
    assert IsBtnPressed(btn, btnState) == !BitOf(btnState, pin);
    assert IsBtnPressed(btn, SetPin(btnState, k)) == IsBtnPressed(btn, btnState) by {
      SetPinBits(btnState, k, pin);
      assert IsBtnPressed(btn, SetPin(btnState, k)) == !BitOf(SetPin(btnState, k), pin);
    }
    assert IsBtnPressed(btn, ClearPin(btnState, k)) == IsBtnPressed(btn, btnState) by {
      ClearPinBits(btnState, k, pin);
      assert IsBtnPressed(btn, ClearPin(btnState, k)) == !BitOf(ClearPin(btnState, k), pin);
    }
  }

  /** The idle state 0xFF reads every button as released. */
  lemma IdleReleased(btn: bv8)
    requires btn < BtnCount
    ensures !IsBtnPressed(btn, EmbIoExpander.BtnHwState)
  {
  }
}
