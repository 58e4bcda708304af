/** The processor status register, bit by bit (vice/src/mos6510.h). */
module Status6510 {
  import opened Bytes

  datatype Status = Status(n: bool, v: bool, u: bool, b: bool, d: bool, i: bool, z: bool, c: bool) {
    /** C is bit 0 and N is bit 7. */
    function ToByte(): u8 {
      Shl(Shl(Shl(Shl(Shl(Shl(Shl(OneIf(n), v), u), b), d), i), z), c)
    }
  }

  /** (x << 1) | bit */
  function Shl(x: nat, bit: bool): nat { 2 * x + OneIf(bit) }

  lemma ShlSplits(x: nat, bit: bool)
    ensures Shl(x, bit) / 2 == x && (Shl(x, bit) % 2 == 1 <==> bit)
    ensures Shl(x / 2, x % 2 == 1) == x
  {
  }

  function FromByte(x: u8): Status {
    var x1 := x / 2;
    var x2 := x1 / 2;
    var x3 := x2 / 2;
    var x4 := x3 / 2;
    var x5 := x4 / 2;
    var x6 := x5 / 2;
    Status(x6 / 2 == 1, x6 % 2 == 1, x5 % 2 == 1, x4 % 2 == 1, x3 % 2 == 1, x2 % 2 == 1, x1 % 2 == 1, x % 2 == 1)
  }

  /** No status is lost in its byte form... */
  lemma StatusRoundTrip(s: Status)
    ensures FromByte(s.ToByte()) == s
    ensures s.ToByte() >= 0x80 <==> s.n
  {
    var x6 := Shl(OneIf(s.n), s.v);
    var x5 := Shl(x6, s.u);
    var x4 := Shl(x5, s.b);
    var x3 := Shl(x4, s.d);
    var x2 := Shl(x3, s.i);
    var x1 := Shl(x2, s.z);
    assert s.ToByte() >= 0x80 <==> s.n;
    hide Shl;
    ShlSplits(OneIf(s.n), s.v);
    ShlSplits(x6, s.u);
    ShlSplits(x5, s.b);
    ShlSplits(x4, s.d);
    ShlSplits(x3, s.i);
    ShlSplits(x2, s.z);
    ShlSplits(x1, s.c);
  }

  /** ... and no byte in its status form. */
  lemma ByteRoundTrip(x: u8)
    ensures FromByte(x).ToByte() == x
  {
    hide Shl;
    var x1 := x / 2;
    var x2 := x1 / 2;
    var x3 := x2 / 2;
    var x4 := x3 / 2;
    var x5 := x4 / 2;
    var x6 := x5 / 2;
    ShlSplits(x6, false);
    ShlSplits(x5, false);
    ShlSplits(x4, false);
    ShlSplits(x3, false);
    ShlSplits(x2, false);
    ShlSplits(x1, false);
    ShlSplits(x, false);
    assert OneIf(x6 / 2 == 1) == x6 / 2;
  }

  /** The bits of the byte are those of mos6510.h: N 0x80, V 0x40, the unused one 0x20, B 0x10, D 8, I 4, Z 2, C 1. */
  lemma BitWeights(s: Status)
    ensures s.ToByte() == 128 * OneIf(s.n) + 64 * OneIf(s.v) + 32 * OneIf(s.u) + 16 * OneIf(s.b)
                          + 8 * OneIf(s.d) + 4 * OneIf(s.i) + 2 * OneIf(s.z) + OneIf(s.c)
  {
  }

  lemma BitsOfByte(x: u8)
    ensures FromByte(x) == Status(x / 128 % 2 == 1, x / 64 % 2 == 1, x / 32 % 2 == 1, x / 16 % 2 == 1,
                                  x / 8 % 2 == 1, x / 4 % 2 == 1, x / 2 % 2 == 1, x % 2 == 1)
  {
    assert x / 2 / 2 == x / 4 && x / 4 / 2 == x / 8 && x / 8 / 2 == x / 16 && x / 16 / 2 == x / 32;
    assert x / 32 / 2 == x / 64 && x / 64 / 2 == x / 128;
  }

  /** The k-th flag from below. */
  predicate Nth(s: Status, k: nat) {
    match k
    case 0 => s.c
    case 1 => s.z
    case 2 => s.i
    case 3 => s.d
    case 4 => s.b
    case 5 => s.u
    case 6 => s.v
    case _ => s.n
  }

  lemma FlagIsBit(s: Status, k: nat)
    requires k < 8
    ensures BitAt(s.ToByte(), k) <==> Nth(s, k)
  {
    hide Status.ToByte, FromByte, BitAt;
    StatusRoundTrip(s);
    BitsOfByte(s.ToByte());
    BitsByWeight(s.ToByte());
  }

  lemma BitsByWeight(x: u8)
    ensures (BitAt(x, 0) <==> x % 2 == 1) && (BitAt(x, 1) <==> x / 2 % 2 == 1)
    ensures (BitAt(x, 2) <==> x / 4 % 2 == 1) && (BitAt(x, 3) <==> x / 8 % 2 == 1)
    ensures (BitAt(x, 4) <==> x / 16 % 2 == 1) && (BitAt(x, 5) <==> x / 32 % 2 == 1)
    ensures (BitAt(x, 6) <==> x / 64 % 2 == 1) && (BitAt(x, 7) <==> x / 128 % 2 == 1)
  {
    assert Power2(0) == 1 && Power2(1) == 2 && Power2(2) == 4 && Power2(3) == 8;
    assert Power2(4) == 16 && Power2(5) == 32 && Power2(6) == 64 && Power2(7) == 128;
  }

  /** reg_p without Z and N, and the two lazily evaluated flag bytes flag_n and flag_z. */
  datatype LazyStatus = LazyStatus(p: Status, fn: u8, fz: u8)

  /** LOCAL_SET_STATUS: split a pulled byte. */
  function Split(x: u8): LazyStatus {
    var s := FromByte(x);
    LazyStatus(s.(n := false, z := false), x, OneIf(!s.z))
  }

  /** LOCAL_STATUS: the status byte with the unused bit set. */
  function Joined(p: Status, fn: u8, fz: u8): u8 {
    p.(n := p.n || fn >= 0x80, u := true, z := p.z || fz == 0).ToByte()
  }

  /** Pulling P and pushing it back: the byte survives except that the unused bit reads as one. */
  lemma PulledStatusPushesBack(x: u8)
    ensures Joined(Split(x).p, Split(x).fn, Split(x).fz) == FromByte(x).(u := true).ToByte()
    ensures !Split(x).p.n && !Split(x).p.z
  {
    ByteRoundTrip(x);
    StatusRoundTrip(FromByte(x));
  }

  /** The other direction: every flag that a program can observe survives a push and a pull,
      exactly because reg_p itself never holds N or Z. */
  lemma PushedStatusPullsBack(p: Status, fn: u8, fz: u8)
    ensures var s := Split(Joined(p, fn, fz));
            && s.p == p.(n := false, u := true, z := false)
            && (s.fn >= 0x80 <==> p.n || fn >= 0x80)
            && (s.fz == 0 <==> p.z || fz == 0)
  {
    hide FromByte, Status.ToByte;
    StatusRoundTrip(p.(n := p.n || fn >= 0x80, u := true, z := p.z || fz == 0));
  }
}
