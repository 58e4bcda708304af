/** The opcode table of the monitor, vice/src/monitor/asm6502.c: what the disassembler prints for each opcode. */
module Monitor6510 {
  import opened Bytes

  datatype Mnemonic =
    | ADC | ANC | AND | ANE | ARR | ASL | ASR | BCC | BCS | BEQ | BIT | BMI | BNE | BPL | BRK | BVC | BVS
    | CLC | CLD | CLI | CLV | CMP | CPX | CPY | DCP | DEC | DEX | DEY | EOR | INC | INX | INY | ISB | JAM
    | JMP | JSR | LAS | LAX | LDA | LDX | LDY | LSR | LXA | NOOP | NOP | ORA | PHA | PHP | PLA | PLP | RLA
    | ROL | ROR | RRA | RTI | RTS | SAX | SBC | SBX | SEC | SED | SEI | SHA | SHS | SHX | SHY | SLO | SRE
    | STA | STX | STY | TAX | TAY | TSX | TXA | TXS | TYA | USBC

  datatype AddrMode =
    | Implied | Accumulator | Immediate | ZeroPage | ZeroPageX | ZeroPageY | Absolute | AbsoluteX | AbsoluteY
    | AbsIndirect | IndirectX | IndirectY | Relative

  /** addr_mode_size */
  function Size(m: AddrMode): nat {
    match m
    case Implied | Accumulator => 1
    case Absolute | AbsoluteX | AbsoluteY | AbsIndirect => 3
    case _ => 2
  }

  datatype Line = Line(name: Mnemonic, mode: AddrMode)

  /** opcode_list */
  function Listing(op: u8): Line {
    match op / 0x10
    case 0x0 => Listing00(op)
    case 0x1 => Listing10(op)
    case 0x2 => Listing20(op)
    case 0x3 => Listing30(op)
    case 0x4 => Listing40(op)
    case 0x5 => Listing50(op)
    case 0x6 => Listing60(op)
    case 0x7 => Listing70(op)
    case 0x8 => Listing80(op)
    case 0x9 => Listing90(op)
    case 0xa => ListingA0(op)
    case 0xb => ListingB0(op)
    case 0xc => ListingC0(op)
    case 0xd => ListingD0(op)
    case 0xe => ListingE0(op)
    case _ => ListingF0(op)
  }

  function Listing00(op: u8): Line {
    match op
    case 0x00 => Line(BRK, Implied)
    case 0x01 => Line(ORA, IndirectX)
    case 0x02 => Line(JAM, Implied)
    case 0x03 => Line(SLO, IndirectX)
    case 0x04 => Line(NOOP, ZeroPage)
    case 0x05 => Line(ORA, ZeroPage)
    case 0x06 => Line(ASL, ZeroPage)
    case 0x07 => Line(SLO, ZeroPage)
    case 0x08 => Line(PHP, Implied)
    case 0x09 => Line(ORA, Immediate)
    case 0x0a => Line(ASL, Accumulator)
    case 0x0b => Line(ANC, Immediate)
    case 0x0c => Line(NOOP, Absolute)
    case 0x0d => Line(ORA, Absolute)
    case 0x0e => Line(ASL, Absolute)
    case _ => Line(SLO, Absolute)
  }

  function Listing10(op: u8): Line {
    match op
    case 0x10 => Line(BPL, Relative)
    case 0x11 => Line(ORA, IndirectY)
    case 0x12 => Line(JAM, Implied)
    case 0x13 => Line(SLO, IndirectY)
    case 0x14 => Line(NOOP, ZeroPageX)
    case 0x15 => Line(ORA, ZeroPageX)
    case 0x16 => Line(ASL, ZeroPageX)
    case 0x17 => Line(SLO, ZeroPageX)
    case 0x18 => Line(CLC, Implied)
    case 0x19 => Line(ORA, AbsoluteY)
    case 0x1a => Line(NOOP, Implied)
    case 0x1b => Line(SLO, AbsoluteY)
    case 0x1c => Line(NOOP, AbsoluteX)
    case 0x1d => Line(ORA, AbsoluteX)
    case 0x1e => Line(ASL, AbsoluteX)
    case _ => Line(SLO, AbsoluteX)
  }

  function Listing20(op: u8): Line {
    match op
    case 0x20 => Line(JSR, Absolute)
    case 0x21 => Line(AND, IndirectX)
    case 0x22 => Line(JAM, Implied)
    case 0x23 => Line(RLA, IndirectX)
    case 0x24 => Line(BIT, ZeroPage)
    case 0x25 => Line(AND, ZeroPage)
    case 0x26 => Line(ROL, ZeroPage)
    case 0x27 => Line(RLA, ZeroPage)
    case 0x28 => Line(PLP, Implied)
    case 0x29 => Line(AND, Immediate)
    case 0x2a => Line(ROL, Accumulator)
    case 0x2b => Line(ANC, Immediate)
    case 0x2c => Line(BIT, Absolute)
    case 0x2d => Line(AND, Absolute)
    case 0x2e => Line(ROL, Absolute)
    case _ => Line(RLA, Absolute)
  }

  function Listing30(op: u8): Line {
    match op
    case 0x30 => Line(BMI, Relative)
    case 0x31 => Line(AND, IndirectY)
    case 0x32 => Line(JAM, Implied)
    case 0x33 => Line(RLA, IndirectY)
    case 0x34 => Line(NOOP, ZeroPageX)
    case 0x35 => Line(AND, ZeroPageX)
    case 0x36 => Line(ROL, ZeroPageX)
    case 0x37 => Line(RLA, ZeroPageX)
    case 0x38 => Line(SEC, Implied)
    case 0x39 => Line(AND, AbsoluteY)
    case 0x3a => Line(NOOP, Implied)
    case 0x3b => Line(RLA, AbsoluteY)
    case 0x3c => Line(NOOP, AbsoluteX)
    case 0x3d => Line(AND, AbsoluteX)
    case 0x3e => Line(ROL, AbsoluteX)
    case _ => Line(RLA, AbsoluteX)
  }

  function Listing40(op: u8): Line {
    match op
    case 0x40 => Line(RTI, Implied)
    case 0x41 => Line(EOR, IndirectX)
    case 0x42 => Line(JAM, Implied)
    case 0x43 => Line(SRE, IndirectX)
    case 0x44 => Line(NOOP, ZeroPage)
    case 0x45 => Line(EOR, ZeroPage)
    case 0x46 => Line(LSR, ZeroPage)
    case 0x47 => Line(SRE, ZeroPage)
    case 0x48 => Line(PHA, Implied)
    case 0x49 => Line(EOR, Immediate)
    case 0x4a => Line(LSR, Accumulator)
    case 0x4b => Line(ASR, Immediate)
    case 0x4c => Line(JMP, Absolute)
    case 0x4d => Line(EOR, Absolute)
    case 0x4e => Line(LSR, Absolute)
    case _ => Line(SRE, Absolute)
  }

  function Listing50(op: u8): Line {
    match op
    case 0x50 => Line(BVC, Relative)
    case 0x51 => Line(EOR, IndirectY)
    case 0x52 => Line(JAM, Implied)
    case 0x53 => Line(SRE, IndirectY)
    case 0x54 => Line(NOOP, ZeroPageX)
    case 0x55 => Line(EOR, ZeroPageX)
    case 0x56 => Line(LSR, ZeroPageX)
    case 0x57 => Line(SRE, ZeroPageX)
    case 0x58 => Line(CLI, Implied)
    case 0x59 => Line(EOR, AbsoluteY)
    case 0x5a => Line(NOOP, Implied)
    case 0x5b => Line(SRE, AbsoluteY)
    case 0x5c => Line(NOOP, AbsoluteX)
    case 0x5d => Line(EOR, AbsoluteX)
    case 0x5e => Line(LSR, AbsoluteX)
    case _ => Line(SRE, AbsoluteX)
  }

  function Listing60(op: u8): Line {
    match op
    case 0x60 => Line(RTS, Implied)
    case 0x61 => Line(ADC, IndirectX)
    case 0x62 => Line(JAM, Implied)
    case 0x63 => Line(RRA, IndirectX)
    case 0x64 => Line(NOOP, ZeroPage)
    case 0x65 => Line(ADC, ZeroPage)
    case 0x66 => Line(ROR, ZeroPage)
    case 0x67 => Line(RRA, ZeroPage)
    case 0x68 => Line(PLA, Implied)
    case 0x69 => Line(ADC, Immediate)
    case 0x6a => Line(ROR, Accumulator)
    case 0x6b => Line(ARR, Immediate)
    case 0x6c => Line(JMP, AbsIndirect)
    case 0x6d => Line(ADC, Absolute)
    case 0x6e => Line(ROR, Absolute)
    case _ => Line(RRA, Absolute)
  }

  function Listing70(op: u8): Line {
    match op
    case 0x70 => Line(BVS, Relative)
    case 0x71 => Line(ADC, IndirectY)
    case 0x72 => Line(JAM, Implied)
    case 0x73 => Line(RRA, IndirectY)
    case 0x74 => Line(NOOP, ZeroPageX)
    case 0x75 => Line(ADC, ZeroPageX)
    case 0x76 => Line(ROR, ZeroPageX)
    case 0x77 => Line(RRA, ZeroPageX)
    case 0x78 => Line(SEI, Implied)
    case 0x79 => Line(ADC, AbsoluteY)
    case 0x7a => Line(NOOP, Implied)
    case 0x7b => Line(RRA, AbsoluteY)
    case 0x7c => Line(NOOP, AbsoluteX)
    case 0x7d => Line(ADC, AbsoluteX)
    case 0x7e => Line(ROR, AbsoluteX)
    case _ => Line(RRA, AbsoluteX)
  }

  function Listing80(op: u8): Line {
    match op
    case 0x80 => Line(NOOP, Immediate)
    case 0x81 => Line(STA, IndirectX)
    case 0x82 => Line(NOOP, Immediate)
    case 0x83 => Line(SAX, IndirectX)
    case 0x84 => Line(STY, ZeroPage)
    case 0x85 => Line(STA, ZeroPage)
    case 0x86 => Line(STX, ZeroPage)
    case 0x87 => Line(SAX, ZeroPage)
    case 0x88 => Line(DEY, Implied)
    case 0x89 => Line(NOOP, Immediate)
    case 0x8a => Line(TXA, Implied)
    case 0x8b => Line(ANE, Immediate)
    case 0x8c => Line(STY, Absolute)
    case 0x8d => Line(STA, Absolute)
    case 0x8e => Line(STX, Absolute)
    case _ => Line(SAX, Absolute)
  }

  function Listing90(op: u8): Line {
    match op
    case 0x90 => Line(BCC, Relative)
    case 0x91 => Line(STA, IndirectY)
    case 0x92 => Line(JAM, Implied)
    case 0x93 => Line(SHA, IndirectY)
    case 0x94 => Line(STY, ZeroPageX)
    case 0x95 => Line(STA, ZeroPageX)
    case 0x96 => Line(STX, ZeroPageY)
    case 0x97 => Line(SAX, ZeroPageY)
    case 0x98 => Line(TYA, Implied)
    case 0x99 => Line(STA, AbsoluteY)
    case 0x9a => Line(TXS, Implied)
    case 0x9b => Line(SHS, AbsoluteY)
    case 0x9c => Line(SHY, AbsoluteX)
    case 0x9d => Line(STA, AbsoluteX)
    case 0x9e => Line(SHX, AbsoluteY)
    case _ => Line(SHA, AbsoluteY)
  }

  function ListingA0(op: u8): Line {
    match op
    case 0xa0 => Line(LDY, Immediate)
    case 0xa1 => Line(LDA, IndirectX)
    case 0xa2 => Line(LDX, Immediate)
    case 0xa3 => Line(LAX, IndirectX)
    case 0xa4 => Line(LDY, ZeroPage)
    case 0xa5 => Line(LDA, ZeroPage)
    case 0xa6 => Line(LDX, ZeroPage)
    case 0xa7 => Line(LAX, ZeroPage)
    case 0xa8 => Line(TAY, Implied)
    case 0xa9 => Line(LDA, Immediate)
    case 0xaa => Line(TAX, Implied)
    case 0xab => Line(LXA, Immediate)
    case 0xac => Line(LDY, Absolute)
    case 0xad => Line(LDA, Absolute)
    case 0xae => Line(LDX, Absolute)
    case _ => Line(LAX, Absolute)
  }

  function ListingB0(op: u8): Line {
    match op
    case 0xb0 => Line(BCS, Relative)
    case 0xb1 => Line(LDA, IndirectY)
    case 0xb2 => Line(JAM, Implied)
    case 0xb3 => Line(LAX, IndirectY)
    case 0xb4 => Line(LDY, ZeroPageX)
    case 0xb5 => Line(LDA, ZeroPageX)
    case 0xb6 => Line(LDX, ZeroPageY)
    case 0xb7 => Line(LAX, ZeroPageY)
    case 0xb8 => Line(CLV, Implied)
    case 0xb9 => Line(LDA, AbsoluteY)
    case 0xba => Line(TSX, Implied)
    case 0xbb => Line(LAS, AbsoluteY)
    case 0xbc => Line(LDY, AbsoluteX)
    case 0xbd => Line(LDA, AbsoluteX)
    case 0xbe => Line(LDX, AbsoluteY)
    case _ => Line(LAX, AbsoluteY)
  }

  function ListingC0(op: u8): Line {
    match op
    case 0xc0 => Line(CPY, Immediate)
    case 0xc1 => Line(CMP, IndirectX)
    case 0xc2 => Line(NOOP, Immediate)
    case 0xc3 => Line(DCP, IndirectX)
    case 0xc4 => Line(CPY, ZeroPage)
    case 0xc5 => Line(CMP, ZeroPage)
    case 0xc6 => Line(DEC, ZeroPage)
    case 0xc7 => Line(DCP, ZeroPage)
    case 0xc8 => Line(INY, Implied)
    case 0xc9 => Line(CMP, Immediate)
    case 0xca => Line(DEX, Implied)
    case 0xcb => Line(SBX, Immediate)
    case 0xcc => Line(CPY, Absolute)
    case 0xcd => Line(CMP, Absolute)
    case 0xce => Line(DEC, Absolute)
    case _ => Line(DCP, Absolute)
  }

  function ListingD0(op: u8): Line {
    match op
    case 0xd0 => Line(BNE, Relative)
    case 0xd1 => Line(CMP, IndirectY)
    case 0xd2 => Line(JAM, Implied)
    case 0xd3 => Line(DCP, IndirectY)
    case 0xd4 => Line(NOOP, ZeroPageX)
    case 0xd5 => Line(CMP, ZeroPageX)
    case 0xd6 => Line(DEC, ZeroPageX)
    case 0xd7 => Line(DCP, ZeroPageX)
    case 0xd8 => Line(CLD, Implied)
    case 0xd9 => Line(CMP, AbsoluteY)
    case 0xda => Line(NOOP, Implied)
    case 0xdb => Line(DCP, AbsoluteY)
    case 0xdc => Line(NOOP, AbsoluteX)
    case 0xdd => Line(CMP, AbsoluteX)
    case 0xde => Line(DEC, AbsoluteX)
    case _ => Line(DCP, AbsoluteX)
  }

  function ListingE0(op: u8): Line {
    match op
    case 0xe0 => Line(CPX, Immediate)
    case 0xe1 => Line(SBC, IndirectX)
    case 0xe2 => Line(NOOP, Immediate)
    case 0xe3 => Line(ISB, IndirectX)
    case 0xe4 => Line(CPX, ZeroPage)
    case 0xe5 => Line(SBC, ZeroPage)
    case 0xe6 => Line(INC, ZeroPage)
    case 0xe7 => Line(ISB, ZeroPage)
    case 0xe8 => Line(INX, Implied)
    case 0xe9 => Line(SBC, Immediate)
    case 0xea => Line(NOP, Implied)
    case 0xeb => Line(USBC, Immediate)
    case 0xec => Line(CPX, Absolute)
    case 0xed => Line(SBC, Absolute)
    case 0xee => Line(INC, Absolute)
    case _ => Line(ISB, Absolute)
  }

  function ListingF0(op: u8): Line {
    match op
    case 0xf0 => Line(BEQ, Relative)
    case 0xf1 => Line(SBC, IndirectY)
    case 0xf2 => Line(JAM, Implied)
    case 0xf3 => Line(ISB, IndirectY)
    case 0xf4 => Line(NOOP, ZeroPageX)
    case 0xf5 => Line(SBC, ZeroPageX)
    case 0xf6 => Line(INC, ZeroPageX)
    case 0xf7 => Line(ISB, ZeroPageX)
    case 0xf8 => Line(SED, Implied)
    case 0xf9 => Line(SBC, AbsoluteY)
    case 0xfa => Line(NOOP, Implied)
    case 0xfb => Line(ISB, AbsoluteY)
    case 0xfc => Line(NOOP, AbsoluteX)
    case 0xfd => Line(SBC, AbsoluteX)
    case 0xfe => Line(INC, AbsoluteX)
    case _ => Line(ISB, AbsoluteX)
  }
}
