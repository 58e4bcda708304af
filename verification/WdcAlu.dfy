/** ADC and SBC of the 65816, vice/src/65816core.c. */
module WdcAlu {
  import opened Bytes
  import opened Digits
  import opened CmosAlu

  /** M = 1. One sum collects both digits. */
  method Adc8(a: u8, value: u8, c: bool, decimal: bool) returns (r: Result)
    ensures decimal ==> r == DecimalResult(DecAdd(a, value, c), AddOverflows(a, value, UncorrectedSign(a, value, c)))
    ensures !decimal ==> var s := BinAdd(a, value, c); r == DecimalResult(s, AddOverflows(a, value, Bit7(s.value)))
    ensures !decimal ==> (r.overflow <==> OutOfRange(Signed(a) + Signed(value) + OneIf(c)))
  {
    hide Bit7, Low, Lo4, Hi4, OutOfRange, Signed;
    var tmp: nat := OneIf(c);
    var overflow: bool;
    if decimal {
      var tmp2: nat := Lo4(a) + Lo4(value) + tmp;
      tmp := 0x10 * Hi4(a) + 0x10 * Hi4(value);
      ghost var hi := Hi4(a) + Hi4(value);
      if tmp2 > 0x9 {
        tmp2 := tmp2 + 0x6;
        tmp := tmp + 0x10;
        hi := hi + 1;
      } else {
        Nibbles(tmp2, 0, tmp2);
      }
      ghost var lo := Lo4(tmp2);
      tmp := tmp + Lo4(tmp2);
      Nibbles(tmp, hi, lo);
      overflow := Bit7(a) == Bit7(value) && Bit7(a) != Bit7(tmp);
      if tmp > 0x9f {
        tmp := tmp + 0x60;
        Nibbles(tmp, hi + 6, lo);
      } else {
        Nibbles(hi, 0, hi);
      }
    } else {
      AddRange(a, value, c);
      tmp := tmp + value + a;
      overflow := Bit7(a) == Bit7(value) && Bit7(a) != Bit7(tmp);
      LowBit7(tmp);
    }
    r := Result(Sum(Low(tmp), tmp > 0xff), overflow, Low(tmp));
  }

  /** M = 0 and D = 1: the four digits of the accumulator, low byte first. Its result and carry are those of two chained
      additions of bytes, but V looks at reg_a, which has no bit 15, instead of reg_c. */
  method Adc16Decimal(cl: u8, ch: u8, vl: u8, vh: u8, c: bool) returns (value: u16, carry: bool, overflow: bool)
    ensures var s1 := DecAdd(cl, vl, c);
            var s2 := DecAdd(ch, vh, s1.carry);
            var sign := UncorrectedSign(ch, vh, s1.carry);
            && value == Word(s1.value, s2.value) && carry == s2.carry
            && overflow == (!Bit7(vh) && sign)
            && (overflow == AddOverflows(ch, vh, sign) <==> !Bit7(ch) || Bit7(vh) == sign)
  {
    hide Bit7, Low, Lo4, Hi4, Word, DecAdd;
    // bits 0 to 7
    var low := DecimalByte(cl, vl, c);
    ghost var s1 := DecAdd(cl, vl, c);
    // bits 8 to 11
    var tmp2: nat := 0x100 * Lo4(ch) + 0x100 * Lo4(vh);
    if low > 0x9f {
      low := low + 0x60;
      tmp2 := tmp2 + 0x100;
    }
    assert Low(low) == s1.value;
    tmp2 := tmp2 + Low(low);
    // bits 12 to 15
    value, carry, overflow := DecimalHigh(ch, vh, s1.carry, tmp2, s1.value);
  }

  /** 0x8000 plus 0x0000 sets V, 0x8000 plus 0x8000 does not. */
  lemma OverflowMissed()
    ensures Bit7(0x80) && UncorrectedSign(0x80, 0x00, false) && !AddOverflows(0x80, 0x00, true) && !Bit7(0x00)
    ensures !UncorrectedSign(0x80, 0x80, false) && AddOverflows(0x80, 0x80, false)
  {
    EightyNibbles();
    hide Lo4, Hi4;
  }

  lemma EightyNibbles()
    ensures Lo4(0x80) == Lo4(0) == Hi4(0) == Lo4(16) == 0 && Hi4(0x80) == Lo4(8) == 8
  {
  }

  /** The sum of two bytes before the high digit is corrected. */
  method DecimalByte(cl: u8, vl: u8, c: bool) returns (tmp: nat)
    ensures tmp <= 0x9f ==> DecAdd(cl, vl, c) == Sum(Low(tmp), false)
    ensures tmp > 0x9f ==> DecAdd(cl, vl, c) == Sum(Low(tmp + 0x60), true)
  {
    hide Bit7, Low, Lo4, Hi4;
    var tmp2: nat := Lo4(cl) + Lo4(vl) + OneIf(c);
    tmp := 0x10 * Hi4(cl) + 0x10 * Hi4(vl);
    ghost var hi := Hi4(cl) + Hi4(vl);
    if tmp2 > 0x9 {
      tmp2 := tmp2 + 0x6;
      tmp := tmp + 0x10;
      hi := hi + 1;
    } else {
      Nibbles(tmp2, 0, tmp2);
    }
    tmp := tmp + Lo4(tmp2);
    if tmp > 0x9f {
      Nibbles(tmp + 0x60, hi + 6, Lo4(tmp2));
    } else {
      Nibbles(tmp, hi, Lo4(tmp2));
      Nibbles(hi, 0, hi);
    }
  }

  /** tmp2 holds the sum of bits 8 to 11, uncorrected, above the finished low byte. */
  method DecimalHigh(ch: u8, vh: u8, ghost k: bool, tmp2: nat, ghost low: u8)
    returns (value: u16, carry: bool, overflow: bool)
    requires tmp2 == 0x100 * (Lo4(ch) + Lo4(vh) + OneIf(k)) + low
    ensures value == Word(low, DecAdd(ch, vh, k).value) && carry == DecAdd(ch, vh, k).carry
    ensures overflow == (!Bit7(vh) && UncorrectedSign(ch, vh, k))
  {
    hide Lo4, Hi4, Bit7;
    ghost var digit := Lo4(ch) + Lo4(vh) + OneIf(k);
    var sum := tmp2;
    var tmp: nat := 0x1000 * Hi4(ch) + 0x1000 * Hi4(vh);
    ghost var hi := Hi4(ch) + Hi4(vh);
    if sum > 0x9ff {
      sum := sum + 0x600;
      tmp := tmp + 0x1000;
      DigitAbove(digit + 6, low);
      hi := hi + 1;
    } else {
      DigitAbove(digit, low);
      Nibbles(digit, 0, digit);
    }
    ghost var lo := AddDigit(Lo4(ch), Lo4(vh), k).0;
    tmp := tmp + sum % 0x1000;
    overflow := !Bit7(vh) && tmp % 0x1_0000 >= 0x8000;
    SignBit(hi, lo, low);
    value, carry := CorrectTop(tmp, hi, lo, low);
  }

  method CorrectTop(uncorrected: nat, ghost hi: nat, ghost lo: nat, ghost low: u8) returns (value: u16, carry: bool)
    requires uncorrected == 0x1000 * hi + 0x100 * lo + low && lo < 16 && hi < 32
    ensures carry == (hi > 9) && value == 0x1000 * (if hi > 9 then Lo4(hi + 6) else hi) + 0x100 * lo + low
  {
    hide Lo4;
    var tmp := uncorrected;
    if tmp > 0x9fff {
      tmp := tmp + 0x6000;
      TopDigit(hi + 6, lo, low);
    }
    value := tmp % 0x1_0000;
    carry := tmp > 0xffff;
  }

  lemma DigitAbove(digit: nat, low: u8)
    ensures (0x100 * digit + low) % 0x1000 == 0x100 * Lo4(digit) + low
  {
    assert 0x100 * digit + low == 0x1000 * (digit / 16) + (0x100 * (digit % 16) + low);
  }

  lemma TopDigit(hi: nat, lo: nat, low: u8)
    requires lo < 16
    ensures (0x1000 * hi + 0x100 * lo + low) % 0x10000 == 0x1000 * Lo4(hi) + 0x100 * lo + low
  {
    assert 0x1000 * hi + 0x100 * lo + low == 0x10000 * (hi / 16) + (0x1000 * (hi % 16) + 0x100 * lo + low);
  }

  lemma SignBit(hi: nat, lo: nat, low: u8)
    requires lo < 16
    ensures (0x1000 * hi + 0x100 * lo + low) % 0x10000 >= 0x8000 <==> Lo4(hi) >= 8
  {
    TopDigit(hi, lo, low);
  }

  /** M = 0 and D = 0. */
  method Adc16Binary(cl: u8, ch: u8, vl: u8, vh: u8, c: bool) returns (value: u16, carry: bool, overflow: bool)
    ensures var s1 := BinAdd(cl, vl, c);
            var s2 := BinAdd(ch, vh, s1.carry);
            && value == Word(s1.value, s2.value) && carry == s2.carry
            && overflow == AddOverflows(ch, vh, Bit7(s2.value))
    ensures overflow <==> !(-0x8000 <= SignedWord(cl, ch) + SignedWord(vl, vh) + OneIf(c) < 0x8000)
  {
    WordAddRange(cl, ch, vl, vh, c);
    var tmp: nat := OneIf(c);
    tmp := tmp + Word(vl, vh) + Word(cl, ch);
    ghost var s1 := BinAdd(cl, vl, c);
    ghost var s2 := BinAdd(ch, vh, s1.carry);
    SumBytes(cl + vl + OneIf(c), ch + vh + OneIf(s1.carry));
    hide Bit7, Word, Low;
    overflow := Bit7(ch) == Bit7(vh) && Bit7(ch) != (tmp % 0x1_0000 >= 0x8000);
    value := tmp % 0x1_0000;
    carry := tmp > 0xffff;
  }

  /** Two bytes read as two's complement, low byte first. */
  function SignedWord(lo: u8, hi: u8): int { 0x100 * Signed(hi) + lo }

  lemma WordAddRange(cl: u8, ch: u8, vl: u8, vh: u8, c: bool)
    ensures var k := BinAdd(cl, vl, c).carry;
            AddOverflows(ch, vh, Bit7(BinAdd(ch, vh, k).value)) ==
              !(-0x8000 <= SignedWord(cl, ch) + SignedWord(vl, vh) + OneIf(c) < 0x8000)
  {
    AddRange(ch, vh, BinAdd(cl, vl, c).carry);
    hide Bit7, Low;
  }

  lemma WordSubRange(cl: u8, ch: u8, vl: u8, vh: u8, c: bool)
    ensures var k := BinSub(cl, vl, c).carry;
            SubOverflows(ch, vh, Bit7(BinSub(ch, vh, k).value)) ==
              !(-0x8000 <= SignedWord(cl, ch) - SignedWord(vl, vh) - (1 - OneIf(c)) < 0x8000)
  {
    SubRange(ch, vh, BinSub(cl, vl, c).carry);
    hide Bit7, Low;
  }

  lemma SumBytes(lo: nat, hi: nat)
    requires lo < 0x200 && hi < 0x200
    ensures var tmp := 0x100 * (hi - OneIf(lo > 0xff)) + lo;
            && tmp % 0x1_0000 == Word(Low(lo), Low(hi)) && (tmp > 0xffff <==> hi > 0xff)
            && (tmp % 0x1_0000 >= 0x8000 <==> Bit7(Low(hi)))
  {
    assert 0x100 * (hi - OneIf(lo > 0xff)) + lo == 0x100 * hi + Low(lo);
    assert 0x100 * hi == 0x1_0000 * OneIf(hi > 0xff) + 0x100 * Low(hi);
  }

  /** M = 1. The operand is complemented; digits are corrected when their complement sum did not carry. */
  method Sbc8(a: u8, value: u8, c: bool, decimal: bool) returns (r: Result)
    ensures r.nz == r.sum.value
    ensures r.overflow == SubOverflows(a, value, Bit7(BinSub(a, value, c).value))
    ensures r.overflow <==> OutOfRange(Signed(a) - Signed(value) - (1 - OneIf(c)))
    ensures r.sum == if decimal then DecSub(a, value, c) else BinSub(a, value, c)
  {
    SubRange(a, value, c);
    hide Bit7, Low, Lo4, Hi4, DecSub, OutOfRange, Signed;
    var tmp: nat := OneIf(c);
    tmp := tmp + (0xff - value) + a;
    Complement(a, value, c);
    var overflow := Bit7(a) != Bit7(value) && Bit7(a) != Bit7(tmp);
    var carry := tmp > 0xff;
    if decimal {
      var tmp2: nat := Lo4(a) + (15 - Lo4(value)) + OneIf(c);
      tmp := Lo4(if tmp2 < 0x10 then tmp2 - 0x6 else tmp2);
      tmp2 := a + (0xff - value) + OneIf(c);
      tmp := tmp + 0x10 * Lo4(Hi4(if tmp2 < 0x100 then tmp2 - 0x60 else tmp2));
      ComplementDigits(a, value, c);
      carry := tmp2 > 0xff;
      r := Result(Sum(tmp, carry), overflow, tmp);
    } else {
      r := Result(Sum(Low(tmp), carry), overflow, Low(tmp));
    }
  }

  /** M = 0 and D = 0. */
  method Sbc16Binary(cl: u8, ch: u8, vl: u8, vh: u8, c: bool) returns (value: u16, carry: bool, overflow: bool)
    ensures var s1 := BinSub(cl, vl, c);
            var s2 := BinSub(ch, vh, s1.carry);
            && value == Word(s1.value, s2.value) && carry == s2.carry
            && overflow == SubOverflows(ch, vh, Bit7(s2.value))
    ensures overflow <==> !(-0x8000 <= SignedWord(cl, ch) - SignedWord(vl, vh) - (1 - OneIf(c)) < 0x8000)
  {
    WordSubRange(cl, ch, vl, vh, c);
    var tmp: nat := OneIf(c);
    tmp := tmp + (0xffff - Word(vl, vh)) + Word(cl, ch);
    BinaryBytes(cl, ch, vl, vh, c);
    overflow := Bit7(ch) != Bit7(vh) && Bit7(ch) != (tmp % 0x10000 >= 0x8000);
    value := tmp % 0x10000;
    carry := tmp > 0xffff;
  }

  lemma BinaryBytes(cl: u8, ch: u8, vl: u8, vh: u8, c: bool)
    ensures var tmp := (0xffff - Word(vl, vh)) + Word(cl, ch) + OneIf(c);
            var s1 := BinSub(cl, vl, c);
            var s2 := BinSub(ch, vh, s1.carry);
            && tmp % 0x10000 == Word(s1.value, s2.value) && (tmp > 0xffff <==> s2.carry)
            && (tmp % 0x10000 >= 0x8000 <==> Bit7(s2.value))
  {
    var s1 := BinSub(cl, vl, c);
    var d := ch - vh - OneIf(!s1.carry);
    assert (0xffff - Word(vl, vh)) + Word(cl, ch) + OneIf(c) == 0x10000 + 0x100 * d + s1.value;
  }

  /** M = 0 and D = 1. All four digits are computed from reg_a, the low byte of the accumulator: the result is that of
      two chained subtractions from an accumulator whose high byte is zero... */
  method Sbc16Decimal(cl: u8, ch: u8, vl: u8, vh: u8, c: bool) returns (value: u16, carry: bool)
    ensures var s1 := DecSub(cl, vl, c);
            var s2 := DecSub(0, vh, s1.carry);
            value == Word(s1.value, s2.value) && carry == s2.carry
    ensures var s1 := DecSub(cl, vl, c);
            var s2 := DecSub(ch, vh, s1.carry);
            value == Word(s1.value, s2.value) && carry == s2.carry <==> ch == 0
  {
    hide Lo4, Hi4, DecSub, Low;
    ComplementDigits(cl, vl, c);
    var tmp2: nat := Lo4(cl) + (15 - Lo4(vl)) + OneIf(c);
    var tmp: nat := Lo4(if tmp2 < 0x10 then tmp2 - 0x6 else tmp2);
    tmp2 := cl + (0xff - vl) + OneIf(c);
    tmp := tmp + 0x10 * Lo4(Hi4(if tmp2 < 0x100 then tmp2 - 0x60 else tmp2));
    ghost var t := tmp2;
    ghost var s1 := DecSub(cl, vl, c);
    ComplementDigits(0, vh, s1.carry);
    HighDigits(t, vl, vh);
    tmp2 := cl + (0xfff - Word(vl, vh) % 0x1000) + OneIf(c);
    tmp := tmp + 0x100 * Lo4((if tmp2 < 0x1000 then tmp2 - 0x600 else tmp2) / 0x100);
    tmp2 := cl + (0xffff - Word(vl, vh)) + OneIf(c);
    tmp := tmp + 0x1000 * Lo4((if tmp2 < 0x1_0000 then tmp2 - 0x6000 else tmp2) / 0x1000);
    value, carry := tmp, tmp2 > 0xffff;
    OnlyFromZero(ch, vh, s1.carry);
  }

  /** Bits 8 to 15 of the differences of words are those of the high bytes, with the carry of the low bytes. */
  lemma HighDigits(t: nat, vl: u8, vh: u8)
    requires t < 0x200
    ensures var k := t > 0xff;
            var u := Lo4(0) + (15 - Lo4(vh)) + OneIf(k);
            var d := t - 0xff + vl + (0xfff - Word(vl, vh) % 0x1000);
            && (d < 0x1000 <==> u < 0x10)
            && Lo4((if d < 0x1000 then d - 0x600 else d) / 0x100) == Lo4(if u < 0x10 then u - 6 else u)
    ensures var k := t > 0xff;
            var w := 0 + (0xff - vh) + OneIf(k);
            var d := t - 0xff + vl + (0xffff - Word(vl, vh));
            && (d < 0x1_0000 <==> w < 0x100)
            && Lo4((if d < 0x1_0000 then d - 0x6000 else d) / 0x1000) == Lo4(Hi4(if w < 0x100 then w - 0x60 else w))
  {
    var k := OneIf(t > 0xff);
    NibblesOf(vh);
    assert Word(vl, vh) == 0x1000 * Hi4(vh) + (0x100 * Lo4(vh) + vl);
    var d := t - 0xff + vl + (0xfff - Word(vl, vh) % 0x1000);
    assert d == 0x100 * (15 - Lo4(vh) + k) + (t - 0x100 * k);
    var d' := t - 0xff + vl + (0xffff - Word(vl, vh));
    assert d' == 0x100 * (0xff - vh + k) + (t - 0x100 * k);
    Thousands(0xff - vh + k, t - 0x100 * k);
    Thousands(0xff - vh + k - 0x60, t - 0x100 * k);
  }

  lemma Thousands(w: int, low: nat)
    requires low < 0x100
    ensures (0x100 * w + low) / 0x1000 == Hi4(w)
  {
    assert 0x100 * w + low == 0x1000 * (w / 16) + (0x100 * (w % 16) + low);
  }

  /** ... which is right if and only if it is. */
  lemma OnlyFromZero(a: u8, v: u8, c: bool)
    ensures DecSub(a, v, c) == DecSub(0, v, c) <==> a == 0
  {
    hide Lo4, Hi4;
    NibblesOf(a);
    ZeroNibbles();
    var d := Lo4(a) - Lo4(v) - OneIf(!c);
    var z := 0 - Lo4(v) - OneIf(!c);
    DigitDiffers(d, z);
    DigitDiffers(Hi4(a) - Hi4(v) - OneIf(d < 0), 0 - Hi4(v) - OneIf(z < 0));
    if DecSub(a, v, c) == DecSub(0, v, c) {
      assert SubDigit(Lo4(a), Lo4(v), c).0 == SubDigit(0, Lo4(v), c).0;
    }
  }

  lemma ZeroNibbles()
    ensures Lo4(0) == 0 && Hi4(0) == 0
  {
  }

  /** A corrected digit and its borrow tell what was corrected. */
  lemma DigitDiffers(d: int, z: int)
    requires -16 <= d < 16 && -16 <= z < 16
    ensures (if d < 0 then Lo4(d - 6) else d) == (if z < 0 then Lo4(z - 6) else z) && (d < 0 <==> z < 0) ==> d == z
  {
  }

  lemma Complement(a: u8, value: u8, c: bool)
    ensures var t := a + (0xff - value) + OneIf(c);
            && Low(t) == BinSub(a, value, c).value && (t > 0xff <==> BinSub(a, value, c).carry)
            && Bit7(t) == Bit7(Low(t))
  {
  }

  lemma ComplementDigits(a: u8, value: u8, c: bool)
    ensures var t := a + (0xff - value) + OneIf(c);
            var u := Lo4(a) + (15 - Lo4(value)) + OneIf(c);
            var lo := Lo4(if u < 0x10 then u - 0x6 else u);
            var hi := Lo4(Hi4(if t < 0x100 then t - 0x60 else t));
            DecSub(a, value, c) == Sum(lo + 0x10 * hi, t > 0xff)
  {
    hide Low, Lo4, Hi4;
    NibblesOf(a);
    NibblesOf(value);
    var u := Lo4(a) + (15 - Lo4(value)) + OneIf(c);
    var t := a + (0xff - value) + OneIf(c);
    var hi := Hi4(a) - Hi4(value) - OneIf(u < 0x10);
    var low := if u < 0x10 then u else u - 16;
    if u < 0x10 {
      LoShift(u - 6, 1);
    } else {
      Nibbles(u, 1, u - 16);
    }
    LoShift(hi, -1);
    LoShift(hi - 6, -1);
    if hi < 0 {
      Nibbles(t - 0x60, hi + 10, low);
    } else {
      Nibbles(t, hi + 16, low);
      Nibbles(hi, 0, hi);
    }
  }

  lemma LoShift(x: int, q: int)
    ensures Lo4(x - 16 * q) == Lo4(x)
  {
    assert x - 16 * q == x % 16 + 16 * (x / 16 - q);
  }
}
