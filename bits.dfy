/** Machine words of the Sharp SM83 / Game Boy bus: bytes and 16-bit words as
    bounded integers. Masks with a constant (`x & 0x0F`, `x >> 4`, `hi << 8 | lo`)
    are written as the division, remainder and sum they compute; AND, OR and
    XOR of two variables are defined bit by bit below, with the bit-level
    facts about them proved by induction. */
module Bits {
  type u8 = x: int | 0 <= x < 0x100
  type u16 = x: int | 0 <= x < 0x1_0000
  type u32 = x: int | 0 <= x < 0x1_0000_0000

  /** Rust's `Option`. */
  datatype Option<T> = None | Some(value: T)

  /** High byte of a word (`(w & 0xFF00) >> 8`, or `to_le_bytes()[1]`). */
  function Hi(w: u16): u8 { w / 0x100 }

  /** Low byte of a word (`w & 0x00FF`, or `to_le_bytes()[0]`). */
  function Lo(w: u16): u8 { w % 0x100 }

  /** `(hi as u16) << 8 | lo as u16`, or `u16::from_le_bytes([lo, hi])`. */
  function Word(hi: u8, lo: u8): (w: u16)
    ensures Hi(w) == hi && Lo(w) == lo
  {
    hi * 0x100 + lo
  }

  lemma WordOfHalves(w: u16)
    ensures Word(Hi(w), Lo(w)) == w
  {
  }

  /** A word is its two bytes, and its low nibble is the low byte's. */
  lemma WordParts(w: u16)
    ensures w == Hi(w) * 0x100 + Lo(w)
    ensures Lo(w) % 0x10 == w % 0x10
  {
    DivUnique(w, 0x10, Hi(w) * 0x10 + Lo(w) / 0x10, Lo(w) % 0x10);
  }

  /** Bits 11-0 of a word: the low nibble of its high byte, then its low byte. */
  lemma Word12(w: u16)
    ensures w % 0x1000 == Hi(w) % 0x10 * 0x100 + Lo(w)
  {
    DivUnique(w, 0x1000, Hi(w) / 0x10, Hi(w) % 0x10 * 0x100 + Lo(w));
  }

  /** The low byte of a wrapped 16-bit sum is the wrapped sum of the low bytes. */
  lemma LowByteOfSum(x: u16, y: u16)
    ensures Lo((x + y) % 0x1_0000) == (Lo(x) + Lo(y)) % 0x100
  {
    var s := x + y;
    DivUnique(s, 0x1_0000, s / 0x1_0000, s % 0x1_0000);
    var t := (s % 0x1_0000) % 0x100;
    DivUnique(s, 0x100, s / 0x1_0000 * 0x100 + (s % 0x1_0000) / 0x100, t);
    WordParts(x);
    WordParts(y);
    DivUnique(s, 0x100, Hi(x) + Hi(y) + (Lo(x) + Lo(y)) / 0x100, (Lo(x) + Lo(y)) % 0x100);
  }

  /** `wrapping_add` on a word. */
  function WrapAdd16(w: u16, d: int): u16 { (w + d) % 0x1_0000 }

  /** Stepping a word up by one and down by one, wrapping, in either order,
      gives it back. */
  lemma WrapStepsCancel(w: u16)
    ensures WrapAdd16(WrapAdd16(w, 1), 0xFFFF) == w
    ensures WrapAdd16(WrapAdd16(w, 0xFFFF), 1) == w
  {
    if w == 0 {
      assert WrapAdd16(w, 0xFFFF) == 0xFFFF;
      assert WrapAdd16(0xFFFF, 1) == 0;
    } else {
      assert WrapAdd16(w, 0xFFFF) == w - 1;
      assert WrapAdd16(w - 1, 1) == w;
    }
    if w == 0xFFFF {
      assert WrapAdd16(w, 1) == 0;
      assert WrapAdd16(0, 0xFFFF) == 0xFFFF;
    } else {
      assert WrapAdd16(w, 1) == w + 1;
      assert WrapAdd16(w + 1, 0xFFFF) == w;
    }
  }

  /** `wrapping_add` on a byte. */
  function WrapAdd8(b: u8, d: int): u8 { (b + d) % 0x100 }

  /** `1 << i`. */
  function Pow2(i: nat): (p: nat)
    ensures p >= 1
  {
    if i == 0 then 1 else 2 * Pow2(i - 1)
  }

  /** Bit `i` of `x` is set (`(x >> i) & 1 == 1`). */
  predicate Bit(x: nat, i: nat)
  {
    if i == 0 then x % 2 == 1 else Bit(x / 2, i - 1)
  }

  /** Division with remainder has one answer. */
  lemma DivUnique(x: nat, d: nat, q: nat, r: nat)
    requires d > 0 && x == q * d + r && r < d
    ensures x / d == q && x % d == r
  {
    var q' := x / d;
    if q' > q {
      MulMono(q' - q, d);
      assert false;
    } else if q' < q {
      MulMono(q - q', d);
      assert false;
    }
  }

  /** Reducing modulo m * d first does not change the remainder modulo d. */
  lemma ModOfMod(x: nat, d: nat, m: nat)
    requires d > 0 && m > 0
    ensures x % (m * d) % d == x % d
  {
    var n := m * d;
    DivIsNat(x, n);
    var big: nat, r: nat := x / n, x % n;
    DivIsNat(r, d);
    var q2: nat, r2: nat := r / d, r % d;
    Regroup(x, big, m, d, r, q2, r2);
    DivUnique(x, d, big * m + q2, r2);
  }

  /** x = big*(m*d) + (q2*d + r2) regrouped as a multiple of d plus r2. */
  lemma Regroup(x: nat, big: nat, m: nat, d: nat, r: nat, q2: nat, r2: nat)
    requires x == big * (m * d) + r && r == q2 * d + r2
    ensures x == (big * m + q2) * d + r2
  {
    assert big * (m * d) == (big * m) * d;
    assert (big * m + q2) * d == (big * m) * d + q2 * d;
  }

  lemma MulMono(k: nat, d: nat)
    requires k >= 1
    ensures k * d >= d
  {
  }

  /** The quotient of naturals is a natural. */
  lemma DivIsNat(x: nat, d: nat)
    requires d > 0
    ensures x / d >= 0 && x == x / d * d + x % d && 0 <= x % d < d
  {
  }

  lemma DivDiv(x: nat, p: nat)
    requires p >= 1
    ensures x / (2 * p) == (x / 2) / p
  {
    DivIsNat(x / 2, p);
    var q: nat, r2: nat := (x / 2) / p, (x / 2) % p;
    assert x == q * (2 * p) + (2 * r2 + x % 2);
    DivUnique(x, 2 * p, q, 2 * r2 + x % 2);
  }

  /** `x >> n`. */
  function Shr(x: nat, n: nat): nat
  {
    DivIsNat(x, Pow2(n));
    x / Pow2(n)
  }

  /** Bit `i` of `x >> n` is bit `i + n` of x. */
  lemma {:induction false} BitOfHigh(x: nat, n: nat, i: nat)
    ensures Bit(Shr(x, n), i) == Bit(x, i + n)
  {
    if n > 0 {
      DivDiv(x, Pow2(n - 1));
      BitOfHigh(x / 2, n - 1, i);
    }
  }

  /** Halving commutes with keeping the low n bits. */
  lemma HalfOfLow(x: nat, n: nat)
    requires n >= 1
    ensures x % Pow2(n) / 2 == x / 2 % Pow2(n - 1)
  {
    var p := Pow2(n - 1);
    DivIsNat(x, 2 * p);
    var q: nat, r: nat := x / (2 * p), x % (2 * p);
    assert x == q * (2 * p) + r;
    assert q * (2 * p) == 2 * (q * p);
    DivUnique(x, 2, q * p + r / 2, r % 2);
    DivUnique(x / 2, p, q, r / 2);
  }

  /** Bits below n survive `x % 2^n` (`x & ((1 << n) - 1)`). */
  lemma {:induction false} BitOfLow(x: nat, n: nat, i: nat)
    requires i < n
    ensures Bit(x % Pow2(n), i) == Bit(x, i)
  {
    if i == 0 {
      ModOfMod(x, 2, Pow2(n - 1));
    } else {
      HalfOfLow(x, n);
      BitOfLow(x / 2, n - 1, i - 1);
    }
  }

  /** Bit `i` is the remainder of `x >> i` by 2. */
  lemma {:induction false} BitIsDivMod(x: nat, i: nat)
    ensures Bit(x, i) == ((x / Pow2(i)) % 2 == 1)
  {
    if i > 0 {
      BitIsDivMod(x / 2, i - 1);
      DivDiv(x, Pow2(i - 1));
    }
  }

  /** The eight bits of a byte as remainders. */
  lemma ByteBits(x: nat)
    ensures Bit(x, 0) == (x % 2 == 1) && Bit(x, 1) == (x / 2 % 2 == 1)
    ensures Bit(x, 2) == (x / 4 % 2 == 1) && Bit(x, 3) == (x / 8 % 2 == 1)
    ensures Bit(x, 4) == (x / 0x10 % 2 == 1) && Bit(x, 5) == (x / 0x20 % 2 == 1)
    ensures Bit(x, 6) == (x / 0x40 % 2 == 1) && Bit(x, 7) == (x / 0x80 % 2 == 1)
  {
    BitIsDivMod(x, 0); BitIsDivMod(x, 1); BitIsDivMod(x, 2); BitIsDivMod(x, 3);
    BitIsDivMod(x, 4); BitIsDivMod(x, 5); BitIsDivMod(x, 6); BitIsDivMod(x, 7);
  }

  /** `if b { 1 } else { 0 }`. */
  function BoolBit(b: bool): u8 { if b then 1 else 0 }

  /** What a carry out of bit `k - 1` is worth: `k` when set, else 0. */
  function Weight(b: bool, k: nat): nat { if b then k else 0 }

  /** Bitwise AND. */
  function And(a: nat, b: nat): (r: nat)
    ensures r <= a && r <= b
  {
    if a == 0 || b == 0 then 0
    else 2 * And(a / 2, b / 2) + (if a % 2 == 1 && b % 2 == 1 then 1 else 0)
  }

  /** Bitwise OR. */
  function Or(a: nat, b: nat): (r: nat)
    decreases a + b
  {
    if a == 0 then b
    else if b == 0 then a
    else 2 * Or(a / 2, b / 2) + (if a % 2 == 1 || b % 2 == 1 then 1 else 0)
  }

  /** OR of a multiple of `2^n` with a value below `2^n` is their sum:
      the two have no bit in common. */
  lemma {:induction false} OrDisjoint(h: nat, l: nat, n: nat)
    requires l < Pow2(n)
    ensures Or(h * Pow2(n), l) == h * Pow2(n) + l
  {
    if n > 0 && h * Pow2(n) != 0 && l != 0 {
      assert h * Pow2(n) == 2 * (h * Pow2(n - 1));
      OrDisjoint(h, l / 2, n - 1);
    }
  }

  /** Bitwise XOR. */
  function Xor(a: nat, b: nat): (r: nat)
    decreases a + b
  {
    if a == 0 then b
    else if b == 0 then a
    else 2 * Xor(a / 2, b / 2) + (if (a % 2 == 1) != (b % 2 == 1) then 1 else 0)
  }

  lemma {:induction false} ZeroHasNoBits(i: nat)
    ensures !Bit(0, i)
  {
    if i > 0 {
      ZeroHasNoBits(i - 1);
    }
  }

  /** Each bit of `a & b` is the AND of the same bits of `a` and `b`. */
  lemma {:induction false} AndBit(a: nat, b: nat, i: nat)
    ensures Bit(And(a, b), i) == (Bit(a, i) && Bit(b, i))
  {
    if a == 0 || b == 0 {
      ZeroHasNoBits(i);
    } else if i > 0 {
      AndBit(a / 2, b / 2, i - 1);
    }
  }

  /** Each bit of `a | b` is the OR of the same bits of `a` and `b`. */
  lemma {:induction false} OrBit(a: nat, b: nat, i: nat)
    ensures Bit(Or(a, b), i) == (Bit(a, i) || Bit(b, i))
    decreases a + b
  {
    if a == 0 {
      ZeroHasNoBits(i);
    } else if b == 0 {
      ZeroHasNoBits(i);
    } else if i > 0 {
      OrBit(a / 2, b / 2, i - 1);
    }
  }

  /** Each bit of `a ^ b` says whether the same bits of `a` and `b` differ. */
  lemma {:induction false} XorBit(a: nat, b: nat, i: nat)
    ensures Bit(Xor(a, b), i) == (Bit(a, i) != Bit(b, i))
    decreases a + b
  {
    if a == 0 {
      ZeroHasNoBits(i);
    } else if b == 0 {
      ZeroHasNoBits(i);
    } else if i > 0 {
      XorBit(a / 2, b / 2, i - 1);
    }
  }

  /** OR and XOR of two `n`-bit values are `n`-bit values. */
  lemma {:induction false} OrXorBounded(a: nat, b: nat, n: nat)
    requires a < Pow2(n) && b < Pow2(n)
    ensures Or(a, b) < Pow2(n) && Xor(a, b) < Pow2(n)
    decreases n
  {
    if a != 0 && b != 0 {
      OrXorBounded(a / 2, b / 2, n - 1);
    }
  }

  /** AND of two bytes. */
  function And8(a: u8, b: u8): (r: u8)
    ensures forall i :: Bit(r, i) == (Bit(a, i) && Bit(b, i))
    ensures r <= a && r <= b
  {
    forall i ensures Bit(And(a, b), i) == (Bit(a, i) && Bit(b, i)) {
      AndBit(a, b, i);
    }
    And(a, b)
  }

  /** OR of two bytes. */
  function Or8(a: u8, b: u8): (r: u8)
    ensures forall i :: Bit(r, i) == (Bit(a, i) || Bit(b, i))
  {
    OrXorBounded(a, b, 8);
    forall i ensures Bit(Or(a, b), i) == (Bit(a, i) || Bit(b, i)) {
      OrBit(a, b, i);
    }
    Or(a, b)
  }

  /** XOR of two bytes. */
  function Xor8(a: u8, b: u8): (r: u8)
    ensures forall i :: Bit(r, i) == (Bit(a, i) != Bit(b, i))
  {
    OrXorBounded(a, b, 8);
    forall i ensures Bit(Xor(a, b), i) == (Bit(a, i) != Bit(b, i)) {
      XorBit(a, b, i);
    }
    Xor(a, b)
  }

  /** `1 << n` has bit `n` set and no other. */
  lemma {:induction false} PowBit(n: nat, i: nat)
    ensures Bit(Pow2(n), i) == (i == n)
  {
    if i > 0 {
      if n == 0 {
        ZeroHasNoBits(i - 1);
      } else {
        PowBit(n - 1, i - 1);
      }
    }
  }

  /** `1 << n` fits in a byte when `n < 8`. */
  lemma {:induction false} PowByte(n: nat)
    requires n < 8
    ensures Pow2(n) <= 0x80
    decreases 8 - n
  {
    if n < 7 {
      PowByte(n + 1);
    } else {
      assert Pow2(1) == 2 && Pow2(2) == 4 && Pow2(3) == 8 && Pow2(4) == 0x10;
      assert Pow2(5) == 0x20 && Pow2(6) == 0x40 && Pow2(7) == 0x80;
    }
  }

  /** Subtracting an `n`-bit value from the all-ones `n`-bit value flips each
      of its bits. */
  lemma {:induction false} ComplementBit(x: nat, n: nat, i: nat)
    requires x < Pow2(n) && i < n
    ensures Bit(Pow2(n) - 1 - x, i) != Bit(x, i)
  {
    var p := Pow2(n - 1);
    assert Pow2(n) == 2 * p;
    DivIsNat(x, 2);
    var q: nat, b := x / 2, x % 2;
    assert q < p;
    var y: nat := Pow2(n) - 1 - x;
    assert y == (p - 1 - q) * 2 + (1 - b);
    DivUnique(y, 2, p - 1 - q, 1 - b);
    if i > 0 {
      ComplementBit(q, n - 1, i - 1);
    }
  }

  /** `!x` on a byte: every one of its eight bits flipped. */
  function Not8(x: u8): (r: u8)
    ensures forall i :: 0 <= i < 8 ==> Bit(r, i) != Bit(x, i)
  {
    forall i | 0 <= i < 8 ensures Bit(0xFF - x, i) != Bit(x, i) {
      ComplementBit(x, 8, i);
    }
    0xFF - x
  }

  /** Two `n`-bit values with the same bits are equal. */
  lemma {:induction false} BitsDetermine(a: nat, b: nat, n: nat)
    requires a < Pow2(n) && b < Pow2(n)
    requires forall i :: 0 <= i < n ==> Bit(a, i) == Bit(b, i)
    ensures a == b
    decreases n
  {
    if n > 0 {
      forall i | 0 <= i < n - 1
        ensures Bit(a / 2, i) == Bit(b / 2, i)
      {
        assert Bit(a, i + 1) == Bit(b, i + 1);
      }
      BitsDetermine(a / 2, b / 2, n - 1);
      assert Bit(a, 0) == Bit(b, 0);
    }
  }

  /** `x & !(1 << n)` (RES n): bit n cleared, every other bit kept. */
  function ResBit(x: u8, n: nat): (y: u8)
    requires n < 8
    ensures !Bit(y, n)
    ensures forall i :: 0 <= i < 8 && i != n ==> Bit(y, i) == Bit(x, i)
  {
    PowByte(n);
    var target: u8 := Pow2(n);
    forall i ensures Bit(target, i) == (i == n) {
      PowBit(n, i);
    }
    And8(x, Not8(target))
  }

  /** `x | (1 << n)` (SET n): bit n set, every other bit kept. */
  function SetBit(x: u8, n: nat): (y: u8)
    requires n < 8
    ensures Bit(y, n)
    ensures forall i :: 0 <= i < 8 && i != n ==> Bit(y, i) == Bit(x, i)
  {
    PowByte(n);
    var target: u8 := Pow2(n);
    forall i ensures Bit(target, i) == (i == n) {
      PowBit(n, i);
    }
    Or8(x, target)
  }

  /** The `i8 as i16` sign extension used by `wrapping_add_signed`. */
  function SignExtend(v: u8): (w: u16)
    ensures Lo(w) == v
    ensures Hi(w) == if v < 0x80 then 0x00 else 0xFF
  {
    if v < 0x80 then v else 0xFF00 + v
  }

  /** `v as i8`: the signed value of a byte. */
  function Signed(v: u8): int { if v < 0x80 then v else v - 0x100 }

  /** Adding the sign extension with wrap-around adds the signed value. */
  lemma SignExtendAdds(w: u16, v: u8)
    ensures WrapAdd16(w, SignExtend(v)) == (w + Signed(v)) % 0x1_0000
  {
  }
}
