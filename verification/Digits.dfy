/** One byte of packed decimal arithmetic, digit by digit: the reference the three ALUs are compared with. */
module Digits {
  import opened Bytes

  datatype Sum = Sum(value: u8, carry: bool)

  /** A digit sum above nine is corrected by six and carries. */
  function AddDigit(x: nat, y: nat, c: bool): (nat, bool)
    requires x < 16 && y < 16
    ensures AddDigit(x, y, c).0 < 16
  {
    var s := x + y + OneIf(c);
    if s > 9 then (Lo4(s + 6), true) else (s, false)
  }

  function SubDigit(x: nat, y: nat, c: bool): (nat, bool)
    requires x < 16 && y < 16
    ensures SubDigit(x, y, c).0 < 16
  {
    var s := x - y - OneIf(!c);
    if s < 0 then (Lo4(s - 6), false) else (s, true)
  }

  function DecAdd(a: u8, v: u8, c: bool): Sum {
    var (lo, k) := AddDigit(Lo4(a), Lo4(v), c);
    var (hi, k') := AddDigit(Hi4(a), Hi4(v), k);
    Sum(16 * hi + lo, k')
  }

  /** The carry after subtraction is set when nothing was borrowed. */
  function DecSub(a: u8, v: u8, c: bool): Sum {
    var (lo, k) := SubDigit(Lo4(a), Lo4(v), c);
    var (hi, k') := SubDigit(Hi4(a), Hi4(v), k);
    Sum(16 * hi + lo, k')
  }

  function BinAdd(a: u8, v: u8, c: bool): Sum {
    var s := a + v + OneIf(c);
    Sum(Low(s), s > 0xff)
  }

  function BinSub(a: u8, v: u8, c: bool): Sum {
    var s := a - v - OneIf(!c);
    Sum(Low(s), s >= 0)
  }

  /** Bit 7 of a decimal sum before the high digit is corrected; the NMOS 6510 derives N and V from it. */
  predicate UncorrectedSign(a: u8, v: u8, c: bool) {
    Lo4(Hi4(a) + Hi4(v) + OneIf(AddDigit(Lo4(a), Lo4(v), c).1)) >= 8
  }

  /** Two's complement overflow: equal signs in, another sign out. */
  predicate AddOverflows(a: u8, v: u8, negative: bool) {
    Bit7(a) == Bit7(v) && Bit7(a) != negative
  }

  predicate SubOverflows(a: u8, v: u8, negative: bool) {
    Bit7(a) != Bit7(v) && Bit7(a) != negative
  }

  // ---------- what overflow means ----------

  /** A byte read as two's complement. */
  function Signed(x: u8): (r: int)
    ensures -128 <= r < 128 && Low(r) == x
  {
    if x < 0x80 then x else x - 0x100
  }

  /** Two's complement has no room for the sum or difference of two bytes. */
  predicate OutOfRange(x: int) { x < -128 || x > 127 }

  lemma AddRange(a: u8, v: u8, c: bool)
    ensures AddOverflows(a, v, Bit7(BinAdd(a, v, c).value)) <==> OutOfRange(Signed(a) + Signed(v) + OneIf(c))
  {
  }

  lemma SubRange(a: u8, v: u8, c: bool)
    ensures SubOverflows(a, v, Bit7(BinSub(a, v, c).value)) <==> OutOfRange(Signed(a) - Signed(v) - (1 - OneIf(c)))
  {
  }

  /** A high digit read as two's complement. */
  function SignedDigit(x: u8): int { if x < 0x80 then x / 16 else x / 16 - 16 }

  /** In decimal mode the overflow is that of the high digits, with the carry from the low ones. */
  lemma DecimalAddRange(a: u8, v: u8, c: bool)
    ensures var k := OneIf(a % 16 + v % 16 + OneIf(c) > 9);
            AddOverflows(a, v, UncorrectedSign(a, v, c)) == !(-8 <= SignedDigit(a) + SignedDigit(v) + k <= 7)
  {
    var k := OneIf(a % 16 + v % 16 + OneIf(c) > 9);
    assert OneIf(AddDigit(Lo4(a), Lo4(v), c).1) == k;
    DigitRange(Hi4(a), Hi4(v), k);
  }

  lemma DigitRange(x: nat, y: nat, k: nat)
    requires x < 16 && y < 16 && k <= 1
    ensures var overflows := (x < 8) == (y < 8) && (x < 8) == (Lo4(x + y + k) >= 8);
            overflows == !(-8 <= (if x < 8 then x else x - 16) + (if y < 8 then y else y - 16) + k <= 7)
  {
  }
}
