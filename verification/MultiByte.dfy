/** Arithmetic on numbers of any length, the way programs chain ADC and SBC from the low byte, on all three ALUs. */
module MultiByte {
  import opened Bytes
  import opened Status6510
  import opened Digits
  import Isa6510
  import NmosAlu
  import CmosAlu
  import WdcAlu

  // ---------- numbers ----------

  function Base(decimal: bool): nat { if decimal then 100 else 0x100 }

  function ByteValue(decimal: bool, x: u8): nat { if decimal then 10 * Hi4(x) + Lo4(x) else x }

  /** In decimal mode both digits have to be digits. */
  predicate IsNumeral(decimal: bool, x: u8) { decimal ==> Lo4(x) <= 9 && Hi4(x) <= 9 }

  predicate IsNumber(decimal: bool, s: seq<u8>) { forall i :: 0 <= i < |s| ==> IsNumeral(decimal, s[i]) }

  /** The low byte comes first. */
  function Value(decimal: bool, s: seq<u8>): nat {
    if s == [] then 0 else ByteValue(decimal, s[0]) + Base(decimal) * Value(decimal, s[1..])
  }

  function Limit(decimal: bool, n: nat): nat { if n == 0 then 1 else Base(decimal) * Limit(decimal, n - 1) }

  // ---------- one byte ----------

  function Plus(decimal: bool, a: u8, b: u8, c: bool): Sum { if decimal then DecAdd(a, b, c) else BinAdd(a, b, c) }

  function Minus(decimal: bool, a: u8, b: u8, c: bool): Sum { if decimal then DecSub(a, b, c) else BinSub(a, b, c) }

  lemma PlusByte(decimal: bool, a: u8, b: u8, c: bool)
    requires IsNumeral(decimal, a) && IsNumeral(decimal, b)
    ensures var s := Plus(decimal, a, b, c);
            && IsNumeral(decimal, s.value)
            && ByteValue(decimal, s.value) + Base(decimal) * OneIf(s.carry)
               == ByteValue(decimal, a) + ByteValue(decimal, b) + OneIf(c)
  {
    hide Lo4, Hi4;
    if decimal {
      var (lo, k) := AddDigit(Lo4(a), Lo4(b), c);
      DigitSum(Lo4(a), Lo4(b), c);
      DigitSum(Hi4(a), Hi4(b), k);
      var hi := AddDigit(Hi4(a), Hi4(b), k).0;
      Nibbles(16 * hi + lo, hi, lo);
    }
  }

  lemma DigitSum(x: nat, y: nat, c: bool)
    requires x <= 9 && y <= 9
    ensures var (d, k) := AddDigit(x, y, c); d <= 9 && d + 10 * OneIf(k) == x + y + OneIf(c)
    ensures var (d, k) := SubDigit(x, y, c); d <= 9 && d - 10 * OneIf(!k) == x - y - OneIf(!c)
  {
  }

  lemma MinusByte(decimal: bool, a: u8, b: u8, c: bool)
    requires IsNumeral(decimal, a) && IsNumeral(decimal, b)
    ensures var s := Minus(decimal, a, b, c);
            && IsNumeral(decimal, s.value)
            && ByteValue(decimal, s.value) - Base(decimal) * OneIf(!s.carry)
               == ByteValue(decimal, a) - ByteValue(decimal, b) - OneIf(!c)
  {
    hide Lo4, Hi4;
    if decimal {
      var (lo, k) := SubDigit(Lo4(a), Lo4(b), c);
      DigitSum(Lo4(a), Lo4(b), c);
      DigitSum(Hi4(a), Hi4(b), k);
      var hi := SubDigit(Hi4(a), Hi4(b), k).0;
      Nibbles(16 * hi + lo, hi, lo);
    }
  }

  lemma ByteBound(decimal: bool, a: u8)
    requires IsNumeral(decimal, a)
    ensures ByteValue(decimal, a) < Base(decimal)
  {
  }

  lemma SameByte(decimal: bool, a: u8, b: u8)
    requires IsNumeral(decimal, a) && IsNumeral(decimal, b) && ByteValue(decimal, a) == ByteValue(decimal, b)
    ensures a == b
  {
    NibblesOf(a);
    NibblesOf(b);
  }

  lemma MinusUndoesPlus(decimal: bool, a: u8, b: u8, c: bool)
    requires IsNumeral(decimal, a) && IsNumeral(decimal, b)
    ensures var s := Plus(decimal, a, b, c); Minus(decimal, s.value, b, !c) == Sum(a, !s.carry)
  {
    hide Plus, Minus, ByteValue, IsNumeral;
    var s := Plus(decimal, a, b, c);
    var t := Minus(decimal, s.value, b, !c);
    PlusByte(decimal, a, b, c);
    MinusByte(decimal, s.value, b, !c);
    ByteBound(decimal, a);
    ByteBound(decimal, t.value);
    assert ByteValue(decimal, t.value) - Base(decimal) * OneIf(!t.carry)
           == ByteValue(decimal, a) - Base(decimal) * OneIf(s.carry);
    SameByte(decimal, t.value, a);
  }

  // ---------- chains ----------

  datatype Chain = Chain(bytes: seq<u8>, carry: bool)

  function AddChain(decimal: bool, a: seq<u8>, b: seq<u8>, c: bool): (r: Chain)
    requires |a| == |b|
    ensures |r.bytes| == |a|
  {
    if a == [] then Chain([], c)
    else
      var s := Plus(decimal, a[0], b[0], c);
      var rest := AddChain(decimal, a[1..], b[1..], s.carry);
      Chain([s.value] + rest.bytes, rest.carry)
  }

  function SubChain(decimal: bool, a: seq<u8>, b: seq<u8>, c: bool): (r: Chain)
    requires |a| == |b|
    ensures |r.bytes| == |a|
  {
    if a == [] then Chain([], c)
    else
      var s := Minus(decimal, a[0], b[0], c);
      var rest := SubChain(decimal, a[1..], b[1..], s.carry);
      Chain([s.value] + rest.bytes, rest.carry)
  }

  /** The chain computes the sum, and its carry is the overflow out of n bytes. */
  lemma {:induction false} ChainAdds(decimal: bool, a: seq<u8>, b: seq<u8>, c: bool)
    requires |a| == |b| && IsNumber(decimal, a) && IsNumber(decimal, b)
    ensures var r := AddChain(decimal, a, b, c);
            && IsNumber(decimal, r.bytes)
            && Value(decimal, r.bytes) + Limit(decimal, |a|) * OneIf(r.carry)
               == Value(decimal, a) + Value(decimal, b) + OneIf(c)
  {
    hide Plus, IsNumeral, ByteValue, Base;
    if a != [] {
      var s := Plus(decimal, a[0], b[0], c);
      PlusByte(decimal, a[0], b[0], c);
      ChainAdds(decimal, a[1..], b[1..], s.carry);
      var rest := AddChain(decimal, a[1..], b[1..], s.carry);
      var r := AddChain(decimal, a, b, c).bytes;
      assert r[0] == s.value && r[1..] == rest.bytes;
      var B, M := Base(decimal), Limit(decimal, |a| - 1);
      Distribute(B, Value(decimal, rest.bytes), M * OneIf(rest.carry), Value(decimal, a[1..]), Value(decimal, b[1..]),
                 OneIf(s.carry));
      Associate(B, M, rest.carry);
    }
  }

  lemma Distribute(B: nat, r: int, m: int, x: int, y: int, k: int)
    requires r + m == x + y + k
    ensures B * r + B * m == B * x + B * y + B * k
  {
  }

  lemma Associate(B: nat, M: nat, k: bool)
    ensures B * (M * OneIf(k)) == (B * M) * OneIf(k)
  {
  }

  lemma {:induction false} ChainSubtracts(decimal: bool, a: seq<u8>, b: seq<u8>, c: bool)
    requires |a| == |b| && IsNumber(decimal, a) && IsNumber(decimal, b)
    ensures var r := SubChain(decimal, a, b, c);
            && IsNumber(decimal, r.bytes)
            && Value(decimal, r.bytes) - Limit(decimal, |a|) * OneIf(!r.carry)
               == Value(decimal, a) - Value(decimal, b) - OneIf(!c)
  {
    hide Minus, IsNumeral, ByteValue, Base;
    if a != [] {
      var s := Minus(decimal, a[0], b[0], c);
      MinusByte(decimal, a[0], b[0], c);
      ChainSubtracts(decimal, a[1..], b[1..], s.carry);
      var rest := SubChain(decimal, a[1..], b[1..], s.carry);
      var r := SubChain(decimal, a, b, c).bytes;
      assert r[0] == s.value && r[1..] == rest.bytes;
      var B, M := Base(decimal), Limit(decimal, |a| - 1);
      Distribute(B, Value(decimal, a[1..]), M * OneIf(!rest.carry), Value(decimal, rest.bytes), Value(decimal, b[1..]),
                 OneIf(!s.carry));
      Associate(B, M, !rest.carry);
    }
  }

  lemma {:induction false} ValueBound(decimal: bool, s: seq<u8>)
    requires IsNumber(decimal, s)
    ensures Value(decimal, s) < Limit(decimal, |s|)
  {
    hide ByteValue, IsNumeral;
    if s != [] {
      ByteBound(decimal, s[0]);
      ValueBound(decimal, s[1..]);
      BelowProduct(Base(decimal), Value(decimal, s[1..]), Limit(decimal, |s| - 1), ByteValue(decimal, s[0]));
    }
  }

  lemma BelowProduct(B: nat, v: nat, limit: nat, x: nat)
    requires x < B && v < limit
    ensures x + B * v < B * limit
  {
    assert B * v + B == B * (v + 1) <= B * limit;
  }

  /** The final carry of a subtraction compares the numbers. */
  lemma CarryCompares(decimal: bool, a: seq<u8>, b: seq<u8>, c: bool)
    requires |a| == |b| && IsNumber(decimal, a) && IsNumber(decimal, b)
    ensures SubChain(decimal, a, b, c).carry <==> Value(decimal, a) >= Value(decimal, b) + OneIf(!c)
  {
    hide Minus, IsNumeral, ByteValue, Base, Value, Limit;
    ChainSubtracts(decimal, a, b, c);
    ValueBound(decimal, SubChain(decimal, a, b, c).bytes);
  }

  /** Subtracting what was added gives back the original bytes, carry and all. */
  lemma {:induction false} SubtractionUndoesAddition(decimal: bool, a: seq<u8>, b: seq<u8>, c: bool)
    requires |a| == |b| && IsNumber(decimal, a) && IsNumber(decimal, b)
    ensures var r := AddChain(decimal, a, b, c); SubChain(decimal, r.bytes, b, !c) == Chain(a, !r.carry)
  {
    hide Plus, Minus, IsNumeral;
    if a != [] {
      var s := Plus(decimal, a[0], b[0], c);
      MinusUndoesPlus(decimal, a[0], b[0], c);
      SubtractionUndoesAddition(decimal, a[1..], b[1..], s.carry);
      var r := AddChain(decimal, a, b, c).bytes;
      assert r[0] == s.value && r[1..] == AddChain(decimal, a[1..], b[1..], s.carry).bytes;
      assert [a[0]] + a[1..] == a;
    }
  }

  // ---------- the three ALUs ----------

  datatype Chip = Nmos6510 | Wdc65c02 | Wdc65816

  /** ADC of one byte. */
  method Adc(chip: Chip, decimal: bool, a: u8, b: u8, c: bool) returns (s: Sum)
    ensures s == Plus(decimal, a, b, c)
  {
    hide DecAdd, UncorrectedSign, Low;
    match chip {
      case Nmos6510 =>
        var r := NmosAlu.AdcBytes(Accumulator(decimal, a, c), b);
        s := Sum(r.a, r.p.c);
      case Wdc65c02 =>
        var r := CmosAlu.Adc65c02(a, b, c, decimal);
        s := r.sum;
      case Wdc65816 =>
        var r := WdcAlu.Adc8(a, b, c, decimal);
        s := r.sum;
    }
  }

  function Accumulator(decimal: bool, a: u8, c: bool): Isa6510.Regs {
    Isa6510.Regs(a, 0, 0, 0xff, Status(false, false, false, false, decimal, false, false, c), 0, 0)
  }

  /** SBC of one byte; the 65C02 is right only when the low digits are. */
  method Sbc(chip: Chip, decimal: bool, a: u8, b: u8, c: bool) returns (s: Sum)
    requires chip.Wdc65c02? && decimal ==> CmosAlu.LowDifference(a, b, c) >= -10
    ensures s == Minus(decimal, a, b, c)
  {
    hide DecSub, Low;
    match chip {
      case Nmos6510 =>
        var r := NmosAlu.SbcBytes(Accumulator(decimal, a, c), b);
        CmosAlu.DecimalBorrow(a, b, c);
        s := Sum(r.a, r.p.c);
      case Wdc65c02 =>
        var r := CmosAlu.Sbc65c02(a, b, c, decimal);
        s := r.sum;
      case Wdc65816 =>
        var r := WdcAlu.Sbc8(a, b, c, decimal);
        s := r.sum;
    }
  }

  /** A program that adds two numbers byte by byte, on any of the chips. */
  method AddNumbers(chip: Chip, decimal: bool, a: seq<u8>, b: seq<u8>, c: bool) returns (r: seq<u8>, carry: bool)
    requires |a| == |b| && IsNumber(decimal, a) && IsNumber(decimal, b)
    ensures |r| == |a| && IsNumber(decimal, r)
    ensures Value(decimal, r) + Limit(decimal, |a|) * OneIf(carry)
         == Value(decimal, a) + Value(decimal, b) + OneIf(c)
    ensures Chain(r, carry) == AddChain(decimal, a, b, c)
  {
    hide Plus, IsNumeral, Value, Limit;
    ChainAdds(decimal, a, b, c);
    r, carry := [], c;
    for i := 0 to |a|
      invariant AddChain(decimal, a, b, c)
             == var rest := AddChain(decimal, a[i..], b[i..], carry); Chain(r + rest.bytes, rest.carry)
    {
      var s := Adc(chip, decimal, a[i], b[i], carry);
      assert a[i..][1..] == a[i + 1..] && b[i..][1..] == b[i + 1..];
      var rest := AddChain(decimal, a[i + 1..], b[i + 1..], s.carry);
      assert r + ([s.value] + rest.bytes) == r + [s.value] + rest.bytes;
      r, carry := r + [s.value], s.carry;
    }
    assert r + [] == r;
  }

  /** A program that subtracts two numbers byte by byte; its carry says which is larger. */
  method SubtractNumbers(chip: Chip, decimal: bool, a: seq<u8>, b: seq<u8>, c: bool)
    returns (r: seq<u8>, carry: bool)
    requires |a| == |b| && IsNumber(decimal, a) && IsNumber(decimal, b)
    ensures |r| == |a| && IsNumber(decimal, r)
    ensures carry <==> Value(decimal, a) >= Value(decimal, b) + OneIf(!c)
    ensures Value(decimal, r) - Limit(decimal, |a|) * OneIf(!carry)
         == Value(decimal, a) - Value(decimal, b) - OneIf(!c)
    ensures Chain(r, carry) == SubChain(decimal, a, b, c)
  {
    hide Minus, Value, Limit, Lo4, Hi4;
    ChainSubtracts(decimal, a, b, c);
    CarryCompares(decimal, a, b, c);
    r, carry := [], c;
    for i := 0 to |a|
      invariant SubChain(decimal, a, b, c)
             == var rest := SubChain(decimal, a[i..], b[i..], carry); Chain(r + rest.bytes, rest.carry)
    {
      assert IsNumeral(decimal, a[i]) && IsNumeral(decimal, b[i]);
      var s := Sbc(chip, decimal, a[i], b[i], carry);
      assert a[i..][1..] == a[i + 1..] && b[i..][1..] == b[i + 1..];
      var rest := SubChain(decimal, a[i + 1..], b[i + 1..], s.carry);
      assert r + ([s.value] + rest.bytes) == r + [s.value] + rest.bytes;
      r, carry := r + [s.value], s.carry;
    }
    assert r + [] == r;
  }
}
