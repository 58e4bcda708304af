/** Machine integers of the emulated chips: bytes, 16-bit words, and the 64 KB address space. */
module Bytes {
  type u8 = x: int | 0 <= x < 0x100
  type u16 = x: int | 0 <= x < 0x10000

  /** The 64 KB the 6510 sees; LOAD and STORE are plain RAM accesses modulo 2^16. */
  type Ram = s: seq<u8> | |s| == 0x10000 witness seq(0x10000, i => 0)

  datatype Gate = AndGate | OrGate | XorGate {
    predicate On(a: bool, b: bool) {
      match this
      case AndGate => a && b
      case OrGate => a || b
      case XorGate => a != b
    }
  }

  function Power2(n: nat): (r: nat)
    ensures r > 0
  {
    if n == 0 then 1 else 2 * Power2(n - 1)
  }

  /** A logical operation on the low n bits. */
  function Bitwise(g: Gate, a: nat, b: nat, n: nat): (r: nat)
    ensures r < Power2(n)
    decreases n
  {
    if n == 0 then 0 else 2 * Bitwise(g, a / 2, b / 2, n - 1) + OneIf(g.On(a % 2 == 1, b % 2 == 1))
  }

  /** Eight bits of it. */
  function Logic(g: Gate, a: u8, b: u8): u8 {
    assert Power2(8) == 0x100;
    Bitwise(g, a, b, 8)
  }

  function And(a: u8, b: u8): u8 { Logic(AndGate, a, b) }

  function Or(a: u8, b: u8): u8 { Logic(OrGate, a, b) }

  function Xor(a: u8, b: u8): u8 { Logic(XorGate, a, b) }

  /** x & (1 << k) */
  predicate BitAt(x: nat, k: nat) { x / Power2(k) % 2 == 1 }

  lemma HalfBit(x: nat, k: nat)
    requires k > 0
    ensures BitAt(x, k) <==> BitAt(x / 2, k - 1)
  {
    HalfQuotient(x, Power2(k - 1));
  }

  lemma HalfQuotient(x: nat, p: nat)
    requires p > 0
    ensures x / (2 * p) == x / 2 / p
  {
    var q, r := x / 2 / p, x / 2 % p;
    assert x == 2 * p * q + (2 * r + x % 2) by { assert x / 2 == p * q + r; }
    Quotient(x, 2 * p, q, 2 * r + x % 2);
  }

  lemma Quotient(x: nat, d: nat, q: nat, r: nat)
    requires x == d * q + r && r < d
    ensures x / d == q
  {
    var e := x / d;
    assert d * (e - q) == r - x % d;
    if e != q {
      Multiple(d, e - q);
      assert false;
    }
  }

  lemma {:induction false} Multiple(d: int, t: int)
    requires d > 0 && t != 0
    ensures if t > 0 then d * t >= d else d * t <= -d
    decreases if t > 0 then t else -t
  {
    if t > 1 {
      Multiple(d, t - 1);
      assert d * t == d * (t - 1) + d;
    } else if t < -1 {
      Multiple(d, t + 1);
      assert d * t == d * (t + 1) - d;
    }
  }

  lemma LowestBit(x: nat)
    ensures BitAt(x, 0) <==> x % 2 == 1
    ensures BitAt(2 * (x / 2) + x % 2, 0) <==> x % 2 == 1
  {
  }

  lemma {:induction false} BitwiseBits(g: Gate, a: nat, b: nat, n: nat, k: nat)
    requires k < n
    ensures BitAt(Bitwise(g, a, b, n), k) <==> g.On(BitAt(a, k), BitAt(b, k))
    decreases n
  {
    hide BitAt, Gate.On;
    var r := Bitwise(g, a, b, n);
    var bit := OneIf(g.On(a % 2 == 1, b % 2 == 1));
    assert r / 2 == Bitwise(g, a / 2, b / 2, n - 1) && r % 2 == bit;
    if k == 0 {
      LowestBit(a);
      LowestBit(b);
      LowestBit(r);
    } else {
      HalfBit(a, k);
      HalfBit(b, k);
      HalfBit(r, k);
      BitwiseBits(g, a / 2, b / 2, n - 1, k - 1);
    }
  }

  /** What the logical operations compute, bit by bit. */
  lemma LogicBits(a: u8, b: u8, k: nat)
    requires k < 8
    ensures And(a, b) / Power2(k) % 2 == 1 <==> a / Power2(k) % 2 == 1 && b / Power2(k) % 2 == 1
    ensures Or(a, b) / Power2(k) % 2 == 1 <==> a / Power2(k) % 2 == 1 || b / Power2(k) % 2 == 1
    ensures Xor(a, b) / Power2(k) % 2 == 1 <==> (a / Power2(k) % 2 == 1) != (b / Power2(k) % 2 == 1)
  {
    hide Bitwise;
    BitwiseBits(AndGate, a, b, 8, k);
    BitwiseBits(OrGate, a, b, 8, k);
    BitwiseBits(XorGate, a, b, 8, k);
  }

  /** Bytes with the same eight bits are equal. */
  lemma {:induction false} SameBits(a: nat, b: nat, n: nat)
    requires a < Power2(n) && b < Power2(n)
    requires forall k :: 0 <= k < n ==> (BitAt(a, k) <==> BitAt(b, k))
    ensures a == b
    decreases n
  {
    hide BitAt;
    if n > 0 {
      LowestBit(a);
      LowestBit(b);
      forall k | 0 <= k < n - 1
        ensures BitAt(a / 2, k) <==> BitAt(b / 2, k)
      {
        HalfBit(a, k + 1);
        HalfBit(b, k + 1);
        assert BitAt(a, k + 1) <==> BitAt(b, k + 1);
      }
      SameBits(a / 2, b / 2, n - 1);
    }
  }

  /** x & 0xffff */
  function Wrap16(x: int): (r: u16)
    ensures 0 <= x < 0x10000 ==> r == x
  {
    x % 0x10000
  }

  /** x & 0xff */
  function Low(x: int): (r: u8)
    ensures 0 <= x < 0x100 ==> r == x
  {
    x % 0x100
  }

  /** (x >> 8) & 0xff */
  function High(x: int): u8 { x / 0x100 % 0x100 }

  /** x & 0x80 */
  predicate Bit7(x: int) { x % 0x100 >= 0x80 }

  /** x & 0x40 */
  predicate Bit6(x: int) { x % 0x80 >= 0x40 }

  /** x & 0xf */
  function Lo4(x: int): (r: nat)
    ensures r < 16
  {
    x % 16
  }

  /** x >> 4 */
  function Hi4(x: int): (r: int)
    ensures 0 <= x < 0x100 ==> 0 <= r < 16
  {
    x / 16
  }

  /** Reading back the nibbles of a (possibly negative) number. */
  lemma Nibbles(t: int, hi: int, lo: nat)
    requires t == 16 * hi + lo && lo < 16
    ensures Hi4(t) == hi && Lo4(t) == lo
    ensures Low(t) == 16 * Lo4(hi) + lo
    ensures Bit7(t) <==> Lo4(hi) >= 8
  {
    assert t == 0x100 * (hi / 16) + (16 * (hi % 16) + lo);
    assert t % 0x100 == 16 * (hi % 16) + lo;
  }

  lemma NibblesOf(x: int)
    ensures x == 16 * Hi4(x) + Lo4(x)
  {
  }

  function Word(lo: u8, hi: u8): u16 { lo + 0x100 * hi }

  function OneIf(b: bool): (r: nat)
    ensures r <= 1
  {
    if b then 1 else 0
  }

  lemma WrapAdd(x: int, k: int)
    ensures Wrap16(Wrap16(x) + k) == Wrap16(x + k)
  {
  }

  lemma Bytewise(x: int)
    ensures High(Wrap16(x)) == High(x) && Low(Wrap16(x)) == Low(x)
    ensures Word(Low(x), High(x)) == Wrap16(x)
  {
    var q := x / 0x10000;
    var r := x % 0x10000;
    var h := r / 0x100;
    assert x == 0x100 * (0x100 * q + h) + r % 0x100;
    assert x / 0x100 == 0x100 * q + h && x % 0x100 == r % 0x100;
  }

  lemma LowIdempotent(x: int)
    ensures Low(Low(x)) == Low(x) && Bit7(Low(x)) == Bit7(x)
  {
  }

  /** Low is taken modulo 256... */
  lemma LowTurns(x: int, q: int)
    ensures Low(x - 0x100 * q) == Low(x)
  {
    assert x - 0x100 * q == x % 0x100 + 0x100 * (x / 0x100 - q);
  }

  /** ... so that it does not matter how often it is taken, or whether 16 bits were taken before. */
  lemma LowAfter(x: int, k: int)
    ensures Low(Low(x) + k) == Low(x + k)
    ensures Low(0x100 + Low(x) + k) == Low(x + k)
    ensures Low(Wrap16(x) + k) == Low(x + k)
  {
    var q, w := x / 0x100, x / 0x10000;
    assert Low(x) == x - 0x100 * q && Wrap16(x) == x - 0x100 * (0x100 * w);
    hide Low, Wrap16;
    LowTurns(x + k, q);
    LowTurns(x + k, q - 1);
    LowTurns(x + k, 0x100 * w);
  }
}
