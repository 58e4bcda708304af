/** The registers and the memory both 6510 cores work on, with the accesses their macros share. */
module Machine6510 {
  import opened Bytes
  import opened Status6510
  import opened Isa6510

  /** reg_pc is a plain unsigned int that INC_PC does not wrap; memory accesses take it modulo 2^16. */
  class Machine {
    var a: u8
    var x: u8
    var y: u8
    var sp: u8
    var p: Status
    var n: u8
    var z: u8
    var pc: nat
    var clk: nat
    const mem: array<u8>

    ghost predicate Valid() { mem.Length == 0x10000 }

    /** The architectural state. */
    ghost function View(): Cpu
      requires Valid()
      reads this, mem
    {
      Cpu(Regs(a, x, y, sp, p, n, z), Wrap16(pc), clk, mem[..])
    }

    constructor (image: Ram, startPc: u16)
      ensures Valid() && fresh(mem)
      ensures View().ram == image && pc == startPc && clk == 0
      ensures a == x == y == sp == 0
    {
      mem := new u8[0x10000](i requires 0 <= i < 0x10000 => image[i]);
      a, x, y, sp, n, z, pc, clk := 0, 0, 0, 0, 0, 0, startPc, 0;
      p := Status(false, false, false, false, false, false, false, false);
    }

    function Registers(): (r: Regs)
      requires Valid()
      reads this, mem
      ensures r == View().r
    {
      Regs(a, x, y, sp, p, n, z)
    }

    method SetRegisters(r: Regs)
      requires Valid()
      modifies this
      ensures View() == old(View().(r := r)) && pc == old(pc)
    {
      a, x, y, sp, p, n, z := r.a, r.x, r.y, r.sp, r.p, r.n, r.z;
    }

    method Load(addr: nat) returns (v: u8)
      requires Valid()
      ensures v == Byte(View(), addr)
    {
      v := mem[Wrap16(addr)];
    }

    /** The value is truncated to a byte. */
    method Store(addr: nat, v: nat)
      requires Valid()
      modifies mem
      ensures View() == old(View().(ram := mem[..][Wrap16(addr) := Low(v)]))
    {
      mem[Wrap16(addr)] := Low(v);
    }

    method LoadZero(addr: nat) returns (v: u8)
      requires Valid()
      ensures v == ZpByte(View().ram, addr)
    {
      v := mem[Low(addr)];
    }

    method StoreZero(addr: nat, v: nat)
      requires Valid()
      modifies mem
      ensures View() == old(View().(ram := mem[..][Low(addr) := Low(v)]))
    {
      mem[Low(addr)] := Low(v);
    }

    /** LOAD_ZERO_ADDR */
    method LoadZeroAddr(addr: nat) returns (v: u16)
      requires Valid()
      ensures v == Pointer(View().ram, addr)
    {
      var hi := LoadZero(addr + 1);
      var lo := LoadZero(addr);
      v := Word(lo, hi);
    }

    method PushByte(v: nat)
      requires Valid()
      modifies this, mem
      ensures View() == old(Push(View(), Low(v))) && pc == old(pc)
    {
      mem[0x100 + sp] := Low(v);
      sp := Low(sp - 1);
    }

    /** PUSH of the two bytes of reg_pc. */
    method PushPc()
      requires Valid()
      modifies this, mem
      ensures View() == old(PushWord(View(), View().pc)) && pc == old(pc)
    {
      hide Wrap16, High, Low;
      Bytewise(pc);
      PushByte(High(pc));
      PushByte(Low(pc));
    }

    /** LOAD_ADDR */
    method LoadAddr(addr: nat) returns (v: u16)
      requires Valid() && addr < 0xffff
      ensures v == Word(View().ram[addr], View().ram[addr + 1])
    {
      var hi := Load(addr + 1);
      var lo := Load(addr);
      v := Word(lo, hi);
    }

    method PullByte() returns (v: u8)
      requires Valid()
      modifies this`sp
      ensures View() == old(Pull(View())) && v == old(Top(View()))
    {
      sp := Low(sp + 1);
      v := mem[0x100 + sp];
    }

    method SetNz(v: u8)
      requires Valid()
      modifies this`n, this`z
      ensures View() == old(View().(r := NZ(View().r, v)))
    {
      n, z := v, v;
    }

    /** LOCAL_SET_STATUS */
    method SetStatusByte(v: u8)
      requires Valid()
      modifies this`n, this`z, this`p
      ensures View() == old(View().(r := SetStatus(View().r, v)))
    {
      hide FromByte;
      p := FromByte(v).(n := false, z := false);
      z := OneIf(!FromByte(v).z);
      n := v;
    }

    /** LOCAL_STATUS */
    function LocalStatus(): (r: u8)
      requires Valid()
      reads this, mem
      ensures r == Joined(p, n, z)
    {
      hide Status.ToByte;
      p.(n := p.n || n >= 0x80, u := true, z := p.z || z == 0).ToByte()
    }
  }

  /** The state after the fetch of the instruction at s.pc. */
  ghost predicate Fetched(m: Machine, s: Cpu, p0: u8, p1: u8, p2: u16)
    requires m.Valid()
    reads m, m.mem
  {
    && m.View() == s.(clk := s.clk + 2 + OneIf(LongFetch(p0)))
    && p0 == Opcode(s)
    && p1 == P1(s)
    && (LongFetch(p0) ==> p2 == P2(s))
  }

  /** FETCH_OPCODE */
  method FetchOpcode(m: Machine, ghost s: Cpu) returns (p0: u8, p1: u8, p2: u16)
    requires m.Valid() && m.View() == s
    modifies m`clk
    ensures Fetched(m, s, p0, p1, p2)
  {
    WrapAdd(m.pc, 1);
    WrapAdd(m.pc, 2);
    p0 := m.Load(m.pc);
    m.clk := m.clk + 1;
    p1 := m.Load(m.pc + 1);
    m.clk := m.clk + 1;
    p2 := p1;
    if LongFetch(p0) {
      var hi := m.Load(m.pc + 2);
      p2 := Word(p1, hi);
      m.clk := m.clk + 1;
    }
  }

  /** INC_PC does not wrap. */
  method IncPc(m: Machine, value: nat)
    requires m.Valid()
    modifies m`pc
    ensures m.View() == old(Advance(m.View(), value, 0)) && m.pc == old(m.pc) + value
  {
    hide Wrap16;
    WrapAdd(m.pc, value);
    m.pc := m.pc + value;
  }

  /** The value of a store instruction. */
  function SourceOf(m: Machine, src: Register): (v: u8)
    requires m.Valid()
    reads m, m.mem
    ensures v == Stored(src, m.View().r)
  {
    match src
    case A => m.a
    case X => m.x
    case Y => m.y
    case AX => And(m.a, m.x)
  }
}
