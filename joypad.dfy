/** The joypad register P1 (FF00, src/io/joypad.rs). Buttons are active-low:
    a 0 bit in `pressed` is a pressed button, low nibble the action buttons
    (Start, Select, B, A), high nibble the d-pad (Down, Up, Left, Right). The
    program selects a group by writing 0 to bit 5 (action) or bit 4 (d-pad);
    the low nibble of P1 then shows the selected buttons. */
module Joypad {
  import opened Bits

  /** Button i < 4 shows as released (bit 1) unless a selected group holds it. */
  predicate Released(pressed: u8, inverseSelectAction: bool, inverseSelectDpad: bool, i: nat)
  {
    (inverseSelectAction || Bit(pressed, i)) && (inverseSelectDpad || Bit(pressed, i + 4))
  }

  /** The low nibble `lo` of `read`: 0xF, ANDed with `pressed & 0x0F` when the
      action group is selected and with `(pressed >> 4) & 0x0F` when the d-pad
      is. */
  function LowNibble(pressed: u8, inverseSelectAction: bool, inverseSelectDpad: bool): (lo: nat)
    ensures lo < 0x10
    ensures forall i :: 0 <= i < 4 ==> (Bit(lo, i) <==> Released(pressed, inverseSelectAction, inverseSelectDpad, i))
  {
    var lo1 := if !inverseSelectAction then And8(0x0F, pressed % 0x10) else 0x0F;
    var lo := if !inverseSelectDpad then And8(lo1, pressed / 0x10 % 0x10) else lo1;
    forall i | 0 <= i < 4
      ensures Bit(lo, i) <==> Released(pressed, inverseSelectAction, inverseSelectDpad, i)
    {
      NibbleOfPressed(pressed, i);
      assert Bit(0x0F, i) by {
        assert Bit(0x0F, 3) == Bit(0x07, 2) == Bit(0x03, 1) == Bit(0x01, 0);
      }
      assert Bit(lo1, i) == (inverseSelectAction || Bit(pressed, i));
      assert Bit(lo, i) == (Bit(lo1, i) && (inverseSelectDpad || Bit(pressed, i + 4)));
    }
    lo
  }

  /** Bit i < 4 of the action nibble is bit i of `pressed`, of the d-pad
      nibble bit i + 4. */
  lemma NibbleOfPressed(pressed: u8, i: nat)
    requires i < 4
    ensures Bit(pressed % 0x10, i) == Bit(pressed, i)
    ensures Bit(pressed / 0x10 % 0x10, i) == Bit(pressed, i + 4)
  {
    assert Pow2(4) == 0x10;
    BitOfLow(pressed, 4, i);
    BitOfLow(pressed / 0x10, 4, i);
    BitOfHigh(pressed, 4, i);
  }

  /** The low four bits of `h * 16 + lo` are those of lo. */
  lemma NibbleBits(h: nat, lo: nat)
    requires lo < 0x10
    ensures (h * 0x10 + lo) % 0x10 == lo && (h * 0x10 + lo) / 0x10 == h
    ensures forall i :: 0 <= i < 4 ==> Bit(h * 0x10 + lo, i) == Bit(lo, i)
  {
    DivUnique(h * 0x10 + lo, 0x10, h, lo);
    assert Pow2(4) == 0x10;
    forall i | 0 <= i < 4 ensures Bit(h * 0x10 + lo, i) == Bit(lo, i) {
      BitOfLow(h * 0x10 + lo, 4, i);
    }
  }

  /** `read`: `hi | lo`, where hi is 0b11xx_0000 (bits 7-6 set, bits 5-4 the
      two select lines) and lo the low nibble. */
  function P1(pressed: u8, inverseSelectAction: bool, inverseSelectDpad: bool): (r: u8)
    ensures r / 0x40 == 3
    ensures (r / 0x20 % 2 == 1) == inverseSelectAction && (r / 0x10 % 2 == 1) == inverseSelectDpad
    ensures forall i :: 0 <= i < 4 ==> (Bit(r, i) <==> Released(pressed, inverseSelectAction, inverseSelectDpad, i))
  {
    var h := 0xC + BoolBit(inverseSelectAction) * 2 + BoolBit(inverseSelectDpad);
    var lo := LowNibble(pressed, inverseSelectAction, inverseSelectDpad);
    NibbleBits(h, lo);
    var r: nat := h * 0x10 + lo;
    var a, d := BoolBit(inverseSelectAction), BoolBit(inverseSelectDpad);
    assert r == 3 * 0x40 + (a * 0x20 + d * 0x10 + lo);
    DivUnique(r, 0x40, 3, a * 0x20 + d * 0x10 + lo);
    assert r == (6 + a) * 0x20 + (d * 0x10 + lo);
    DivUnique(r, 0x20, 6 + a, d * 0x10 + lo);
    r
  }

  /** Nothing selected: the low nibble reads 0xF, so P1 reads 0xFF. */
  lemma NothingSelected(pressed: u8)
    ensures P1(pressed, true, true) == 0xFF
  {
    var r := P1(pressed, true, true);
    assert Pow2(8) == 0x100;
    ByteBits(0xFF);
    ByteBits(r);
    BitsDetermine(r, 0xFF, 8);
  }

  /** With no button held the low nibble reads 0xF whatever is selected. */
  lemma NothingPressed(a: bool, d: bool)
    ensures P1(0xFF, a, d) % 0x10 == 0x0F
  {
    var r := P1(0xFF, a, d);
    ByteBits(0xFF);
    assert Pow2(4) == 0x10;
    forall i | 0 <= i < 4 ensures Bit(r % 0x10, i) == Bit(0x0F, i) {
      BitOfLow(r, 4, i);
      ByteBits(0x0F);
    }
    BitsDetermine(r % 0x10, 0x0F, 4);
  }

  /** Selecting both groups shows a button as pressed if either group's
      button in that position is pressed: the AND of the two nibbles. */
  lemma BothSelected(pressed: u8)
    ensures P1(pressed, false, false) % 0x10 == And8(pressed % 0x10, pressed / 0x10)
  {
    var r := P1(pressed, false, false);
    var both := And8(pressed % 0x10, pressed / 0x10);
    assert Pow2(4) == 0x10;
    forall i | 0 <= i < 4 ensures Bit(r % 0x10, i) == Bit(both, i) {
      BitOfLow(r, 4, i);
      BitOfLow(pressed, 4, i);
      BitOfHigh(pressed, 4, i);
    }
    BitsDetermine(r % 0x10, both, 4);
  }

  class Joypad {
    var pressed: u8
    var inverseSelectAction: bool   // true: action group not selected
    var inverseSelectDpad: bool     // true: d-pad group not selected

    /** `Joypad::new()`: no button held and neither group selected. */
    constructor ()
      ensures pressed == 0xFF && inverseSelectAction && inverseSelectDpad
      ensures Read() == 0xFF
    {
      pressed := 0xFF;
      inverseSelectAction := true;
      inverseSelectDpad := true;
      NothingSelected(0xFF);
    }

    method SetButtons(newPressed: u8)
      modifies this`pressed
      ensures pressed == newPressed
    {
      pressed := newPressed;
    }

    function Read(): (v: u8)
      reads this
      ensures v == P1(pressed, inverseSelectAction, inverseSelectDpad)
    {
      P1(pressed, inverseSelectAction, inverseSelectDpad)
    }

    /** Only bits 5 and 4 of the written byte are kept; a later read echoes them. */
    method Write(value: u8)
      modifies this`inverseSelectAction, this`inverseSelectDpad
      ensures inverseSelectAction == (value / 0x20 % 2 == 1)
      ensures inverseSelectDpad == (value / 0x10 % 2 == 1)
      ensures (Read() / 0x20 % 2 == 1) == (value / 0x20 % 2 == 1)
      ensures (Read() / 0x10 % 2 == 1) == (value / 0x10 % 2 == 1)
    {
      inverseSelectAction := value / 0x20 % 2 == 1;
      inverseSelectDpad := value / 0x10 % 2 == 1;
    }
  }
}
