/** ADC, SBC and ARR of the NMOS 6510. Both cores spell out the same statements
    (vice/src/6510core.c and vice/src/6510dtvcore.c), which test bits of wider intermediate sums. */
module NmosAlu {
  import opened Bytes
  import opened Status6510
  import opened Digits
  import opened Isa6510

  method DecimalAdc(a: u8, value: u8, c: bool) returns (sum: Sum, sign: bool)
    ensures sum == DecAdd(a, value, c) && sign == UncorrectedSign(a, value, c)
  {
    hide Bit7, Low, Lo4, Hi4;
    var tmp: nat := Lo4(a) + Lo4(value) + OneIf(c);
    if tmp > 0x9 {
      tmp := tmp + 0x6;
    }
    ghost var (lo, k) := AddDigit(Lo4(a), Lo4(value), c);
    if !k {
      Nibbles(tmp, 0, tmp);
    }
    assert Lo4(tmp) == lo && (k <==> tmp > 0xf);
    if tmp <= 0x0f {
      tmp := Lo4(tmp) + 0x10 * Hi4(a) + 0x10 * Hi4(value);
    } else {
      tmp := Lo4(tmp) + 0x10 * Hi4(a) + 0x10 * Hi4(value) + 0x10;
    }
    ghost var hi := Hi4(a) + Hi4(value) + OneIf(k);
    Nibbles(tmp, hi, lo);
    sign := Bit7(tmp);
    if Hi4(tmp) % 0x20 * 0x10 > 0x90 {
      tmp := tmp + 0x60;
      Nibbles(tmp, hi + 6, lo);
    }
    sum := Sum(Low(tmp), Hi4(tmp) % 0x100 * 0x10 > 0xf0);
  }

  method BinaryAdc(a: u8, value: u8, c: bool) returns (sum: Sum, sign: bool)
    ensures sum == BinAdd(a, value, c) && sign == Bit7(sum.value)
  {
    hide Low, Bit7;
    var tmp := value + a + OneIf(c);
    LowIdempotent(tmp);
    sign := Bit7(tmp);
    sum := Sum(Low(tmp), tmp > 0xff);
  }

  method AdcBytes(r: Regs, value: u8) returns (r': Regs)
    ensures r' == Adc(r, value)
    ensures !r.p.d ==> (r'.p.v <==> OutOfRange(Signed(r.a) + Signed(value) + OneIf(r.p.c)))
    ensures r.p.d ==> (r'.p.v <==> !(-8 <= SignedDigit(r.a) + SignedDigit(value)
                                            + OneIf(r.a % 16 + value % 16 + OneIf(r.p.c) > 9) <= 7))
  {
    AddRange(r.a, value, r.p.c);
    DecimalAddRange(r.a, value, r.p.c);
    hide DecAdd, UncorrectedSign, Bit7, Low, OutOfRange, Signed, SignedDigit;
    var sum, sign, fz, fn;
    if r.p.d {
      sum, sign := DecimalAdc(r.a, value, r.p.c);
      fz := OneIf(Low(r.a + value + OneIf(r.p.c)) != 0);
      fn := if sign then 0x80 else 0;
    } else {
      sum, sign := BinaryAdc(r.a, value, r.p.c);
      fn := sum.value;
      fz := sum.value;
    }
    var overflow := Bit7(r.a) == Bit7(value) && Bit7(r.a) != sign;
    r' := r.(a := sum.value, n := fn, z := fz, p := r.p.(v := overflow, c := sum.carry));
  }

  /** tmp_a as two's complement: bit 4 of the low difference and bit 8 of the whole are borrows. */
  method DecimalSbc(a: u8, src: u8, c: bool) returns (value: u8)
    ensures value == DecSub(a, src, c).value
  {
    hide Bit7, Low, Lo4, Hi4;
    var tmpA: int := Lo4(a) - Lo4(src) - OneIf(!c);
    ghost var (lo, k) := SubDigit(Lo4(a), Lo4(src), c);
    ghost var hi := Hi4(a) - Hi4(src) - OneIf(!k);
    Nibbles(tmpA, if k then 0 else -1, if k then tmpA else tmpA + 16);
    if Hi4(tmpA) % 2 == 1 {
      tmpA := Lo4(tmpA - 6) + (0x10 * Hi4(a) - 0x10 * Hi4(src) - 0x10);
    } else {
      tmpA := Lo4(tmpA) + (0x10 * Hi4(a) - 0x10 * Hi4(src));
    }
    Nibbles(tmpA, hi, lo);
    if Hi4(tmpA) / 0x10 % 2 == 1 {
      tmpA := tmpA - 0x60;
      Nibbles(tmpA, hi - 6, lo);
    } else {
      Nibbles(hi, 0, hi);
    }
    value := Low(tmpA);
  }

  /** An unsigned difference of bytes tells the borrow by its size. */
  lemma WrappedDifference(d: int)
    requires -0x100 <= d <= 0xff
    ensures Low(d % 0x10000) == Low(d) && Bit7(d % 0x10000) == Bit7(Low(d))
    ensures Low(d % 0x1_0000_0000) == Low(d)
    ensures d % 0x10000 < 0x100 <==> d >= 0
    ensures d % 0x1_0000_0000 < 0x100 <==> d >= 0
  {
    if d < 0 {
      assert d % 0x10000 == d + 0x10000;
      assert d % 0x1_0000_0000 == d + 0x1_0000_0000;
    }
  }

  method BinarySbc(a: u8, src: u8, c: bool) returns (diff: Sum, overflow: bool)
    ensures diff == BinSub(a, src, c) && overflow == SubOverflows(a, src, Bit7(diff.value))
  {
    hide Bit7, Low;
    WrappedDifference(a - src - OneIf(!c));
    var tmp: u16 := (a - src - OneIf(!c)) % 0x10000;
    diff := Sum(Low(tmp), tmp < 0x100);
    overflow := Bit7(a) != Bit7(tmp) && Bit7(a) != Bit7(src);
  }

  method SbcBytes(r: Regs, src: u8) returns (r': Regs)
    ensures r' == Sbc(r, src)
    ensures r'.p.v <==> OutOfRange(Signed(r.a) - Signed(src) - (1 - OneIf(r.p.c)))
  {
    SubRange(r.a, src, r.p.c);
    hide DecSub, BinSub, SubOverflows, OutOfRange, Signed, Bit7;
    var diff, overflow := BinarySbc(r.a, src, r.p.c);
    var value := diff.value;
    if r.p.d {
      value := DecimalSbc(r.a, src, r.p.c);
    }
    r' := r.(a := value, n := diff.value, z := diff.value, p := r.p.(c := diff.carry, v := overflow));
  }

  method ArrDecimal(tmp: u8, c: bool) returns (a: u8, rotated: u8, fixHi: bool)
    ensures rotated == tmp / 2 + 0x80 * OneIf(c) && fixHi == (Hi4(tmp) + Hi4(tmp) % 2 > 5)
    ensures var lo := if Lo4(tmp) + tmp % 2 > 5 then Lo4(rotated + 6) else Lo4(rotated);
            var hi := if fixHi then Lo4(Hi4(rotated) + 6) else Hi4(rotated);
            a == 16 * hi + lo
  {
    hide Low, Lo4, Hi4;
    var tmp2: nat := (tmp + 0x100 * OneIf(c)) / 2;
    rotated := tmp2;
    ghost var hi, lo := Hi4(tmp2), Lo4(tmp2);
    NibblesOf(tmp2);
    if Lo4(tmp) + tmp % 2 > 0x5 {
      tmp2 := 0x10 * Hi4(tmp2) + Lo4(tmp2 + 0x6);
      lo := Lo4(16 * hi + lo + 6);
    }
    Nibbles(tmp2, hi, lo);
    fixHi := 0x10 * Hi4(tmp) + 0x10 * (Hi4(tmp) % 2) > 0x50;
    if fixHi {
      Nibbles(tmp2 + 0x60, hi + 6, lo);
      tmp2 := Lo4(tmp2) + 0x10 * Lo4(Hi4(tmp2 + 0x60));
    }
    a := tmp2;
  }

  method ArrBytes(r: Regs, value: u8) returns (r': Regs)
    ensures r' == Arr(r, value)
  {
    hide And, Bit6, Low, Lo4, Hi4;
    r' := r;
    var tmp: nat := And(r.a, value);
    if r.p.d {
      var a, tmp2, fixHi := ArrDecimal(tmp, r.p.c);
      r' := r'.(n := if r.p.c then 0x80 else 0, z := OneIf(tmp2 != 0));
      r' := r'.(p := r'.p.(v := Bit6(tmp2) != Bit6(tmp)));
      r' := r'.(p := r'.p.(c := fixHi));
      r' := r'.(a := a);
    } else {
      tmp := (tmp + 0x100 * OneIf(r.p.c)) / 2;
      r' := r'.(n := tmp, z := tmp);
      r' := r'.(p := r'.p.(c := Bit6(tmp)));
      r' := r'.(p := r'.p.(v := Bit6(tmp) != (tmp / 0x20 % 2 == 1)));
      r' := r'.(a := tmp);
    }
  }

  /** x & 0x100 */
  predicate Bit8(x: int) { High(x) % 2 == 1 }

  /** Rotations work on nine bits. */
  lemma RotatedOut(v: u8, c: bool)
    ensures Bit8(v * 2 + OneIf(c)) == Bit7(v)
    ensures High(v + 0x100 * OneIf(c)) == OneIf(c) && (v + 0x100 * OneIf(c)) / 2 == v / 2 + 0x80 * OneIf(c)
  {
  }
}
