/** ADC and SBC of the 65C02, vice/src/65c02core.c, and of the 65816, vice/src/65816core.c. In decimal mode both set
    N and Z from the corrected result, unlike the NMOS 6510. */
module CmosAlu {
  import opened Bytes
  import opened Digits

  /** The accumulator, C, V, and the byte that N and Z are taken from. */
  datatype Result = Result(sum: Sum, overflow: bool, nz: u8)

  function DecimalResult(s: Sum, overflow: bool): Result { Result(s, overflow, s.value) }

  /** The 65C02 keeps the two digits in separate sums. */
  method Adc65c02(a: u8, value: u8, c: bool, decimal: bool) returns (r: Result)
    ensures decimal ==> r == DecimalResult(DecAdd(a, value, c), AddOverflows(a, value, UncorrectedSign(a, value, c)))
    ensures !decimal ==> var s := BinAdd(a, value, c); r == DecimalResult(s, AddOverflows(a, value, Bit7(s.value)))
    ensures !decimal ==> (r.overflow <==> OutOfRange(Signed(a) + Signed(value) + OneIf(c)))
  {
    hide Bit7, Low, Lo4, Hi4, OutOfRange, Signed;
    if decimal {
      var tmp: nat := Lo4(a) + Lo4(value) + OneIf(c);
      var tmp2 := 0x10 * Hi4(a) + 0x10 * Hi4(value);
      ghost var hi := Hi4(a) + Hi4(value);
      if tmp > 9 {
        tmp2 := tmp2 + 0x10;
        tmp := tmp + 6;
        hi := hi + 1;
      } else {
        Nibbles(tmp, 0, tmp);
      }
      Nibbles(tmp2, hi, 0);
      var overflow := Bit7(a) == Bit7(value) && Bit7(a) != Bit7(tmp2);
      if tmp2 > 0x90 {
        tmp2 := tmp2 + 0x60;
        Nibbles(tmp2, hi + 6, 0);
      } else {
        Nibbles(hi, 0, hi);
      }
      var carry := Hi4(tmp2) > 0xf;
      tmp := Lo4(tmp) + 0x10 * Lo4(Hi4(tmp2));
      r := Result(Sum(tmp, carry), overflow, tmp);
    } else {
      AddRange(a, value, c);
      var tmp := value + a + OneIf(c);
      LowBit7(tmp);
      r := Result(Sum(Low(tmp), tmp > 0xff), Bit7(a) == Bit7(value) && Bit7(a) != Bit7(tmp), Low(tmp));
    }
  }

  lemma LowBit7(x: int)
    ensures Bit7(Low(x)) == Bit7(x)
  {
    LowIdempotent(x);
  }

  /** The difference of the low digits, with the borrow. */
  function LowDifference(a: u8, src: u8, c: bool): int { Lo4(a) - Lo4(src) - OneIf(!c) }

  /** What the 65C02 makes of it: where the low digits differ by more than ten the high digit is one too small. */
  function CmosDifference(a: u8, src: u8, c: bool): Sum {
    var s := DecSub(a, src, c);
    if LowDifference(a, src, c) >= -10 then s else Sum(Low(s.value - 0x10), s.carry)
  }

  /** 16-bit unsigned tmp and tmp2: a difference above 0xff has borrowed. The carry is a signed comparison. */
  method Sbc65c02(a: u8, src: u8, c: bool, decimal: bool) returns (r: Result)
    ensures r.nz == r.sum.value
    ensures r.overflow == SubOverflows(a, src, Bit7(BinSub(a, src, c).value))
    ensures r.overflow <==> OutOfRange(Signed(a) - Signed(src) - (1 - OneIf(c)))
    ensures !decimal ==> r.sum == BinSub(a, src, c)
    ensures decimal ==> r.sum == CmosDifference(a, src, c)
    ensures decimal ==> (r.sum == DecSub(a, src, c) <==> LowDifference(a, src, c) >= -10)
  {
    SubRange(a, src, c);
    hide Bit7, Low, Lo4, Hi4, Word16, DecSub, OutOfRange, Signed;
    ghost var d := a - src - OneIf(!c);
    WordDifference(d);
    var tmp: u16 := Word16(a - src + OneIf(c) - 1);
    var overflow := Bit7(a) != Bit7(tmp) && Bit7(a) != Bit7(src);
    if decimal {
      if tmp > 0xff {
        LowSubtracts(tmp, d, 0x60);
        tmp := Word16(tmp - 0x60);
      }
      WordDifference(LowDifference(a, src, c));
      var tmp2: u16 := Word16(Lo4(a) - Lo4(src) + OneIf(c) - 1);
      if tmp2 > 0xff {
        LowSubtracts(tmp, d - (if d < 0 then 0x60 else 0), 6);
        tmp := Word16(tmp - 6);
      }
      DecimalBorrow(a, src, c);
    }
    r := Result(Sum(Low(tmp), a + OneIf(c) - 1 >= src), overflow, Low(tmp));
  }

  function Word16(x: int): u16 { x % 0x10000 }

  lemma WordDifference(d: int)
    requires -0x100 <= d <= 0xff
    ensures Low(Word16(d)) == Low(d) && Bit7(Word16(d)) == Bit7(Low(d)) && (Word16(d) > 0xff <==> d < 0)
  {
  }

  /** Wrapping to 16 bits in between does not change the low byte. */
  lemma LowSubtracts(t: int, x: int, k: int)
    requires Low(t) == Low(x)
    ensures Low(Word16(t - k)) == Low(x - k)
  {
    LowTurns(t - k, 0x100 * ((t - k) / 0x10000));
    LowTurns(t - k, t / 0x100 - x / 0x100);
  }

  /** The corrections by 6 and by 0x60 on the binary difference, against the subtraction of digits. */
  lemma DecimalBorrow(a: u8, src: u8, c: bool)
    ensures var d := a - src - OneIf(!c);
            var low := LowDifference(a, src, c);
            var raw := d - (if d < 0 then 0x60 else 0) - (if low < 0 then 6 else 0);
            && DecSub(a, src, c).carry == (d >= 0)
            && Low(raw) == CmosDifference(a, src, c).value
            && (Low(raw) == DecSub(a, src, c).value <==> low >= -10)
  {
    hide Bit7, Low, Lo4, Hi4;
    NibblesOf(a);
    NibblesOf(src);
    var low := LowDifference(a, src, c);
    var hi := Hi4(a) - Hi4(src) - OneIf(low < 0);
    var d := a - src - OneIf(!c);
    var raw := d - (if d < 0 then 0x60 else 0) - (if low < 0 then 6 else 0);
    var corrected := hi - (if hi < 0 then 6 else 0);
    if low >= 0 {
      Nibbles(raw, corrected, low);
    } else if low >= -10 {
      Nibbles(raw, corrected, low + 10);
      Nibbles(low - 6, -1, low + 10);
    } else {
      SecondBorrow(raw, corrected, low);
    }
    if hi >= 0 {
      Nibbles(hi, 0, hi);
    }
  }

  lemma SecondBorrow(raw: int, hi: int, low: int)
    requires raw == 16 * (hi - 1) + low + 26 && -16 <= low < -10
    ensures var v := 16 * Lo4(hi) + Lo4(low - 6); Low(raw) == Low(v - 0x10) && Low(raw) != v
  {
    hide Bit7, Low, Lo4, Hi4;
    Nibbles(raw, hi - 1, low + 26);
    Nibbles(low - 6, -2, low + 26);
    Nibbles(16 * Lo4(hi) + low + 26 - 0x10, Lo4(hi) - 1, low + 26);
    Lo4Before(hi);
    Lo4Differs(hi);
  }

  lemma Lo4Before(x: int)
    ensures Lo4(Lo4(x) - 1) == Lo4(x - 1)
  {
  }

  lemma Lo4Differs(x: int)
    ensures Lo4(x - 1) != Lo4(x)
  {
  }

  /** 0x00 - 0x0b on the 65C02: the second borrow out of the low digit reaches the high digit. */
  lemma InvalidDigitDiffers()
    ensures CmosDifference(0x00, 0x0b, true) == Sum(0x8f, false)
    ensures DecSub(0x00, 0x0b, true) == Sum(0x9f, false)
  {
  }
}
