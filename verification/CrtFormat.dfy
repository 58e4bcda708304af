/** The CRT cartridge file format as vice/src/cartconv.c writes and reads it. */
module CrtFormat {
  import opened Bytes

  const TAG: seq<u8> := [0x43, 0x36, 0x34, 0x20, 0x43, 0x41, 0x52, 0x54, 0x52, 0x49, 0x44, 0x47, 0x45, 0x20, 0x20, 0x20]
  const CHIP: seq<u8> := [0x43, 0x48, 0x49, 0x50]
  const CARTRIDGE_EASYFLASH := 32
  const CARTRIDGE_LAST := 60
  /** 1 MB and two bytes. */
  const BUFFER_SIZE := 0x100002
  const HALF_BANK := 0x2000
  const EASYFLASH_SIZE := 0x100000

  // ---------- writing ----------

  /** toupper in the C locale */
  function Upper(ch: u8): u8 { if 0x61 <= ch <= 0x7a then ch - 0x20 else ch }

  /** Up to 32 characters in upper case, padded with zeros. */
  function NameField(name: seq<u8>): (r: seq<u8>)
    ensures |r| == 32
  {
    seq(32, i requires 0 <= i < 32 => if i < |name| then Upper(name[i]) else 0)
  }

  function Header(cartType: int, game: u8, exrom: u8, name: seq<u8>): (r: seq<u8>)
    ensures |r| == 0x40 && r[..16] == TAG
  {
    TAG + [0, 0, 0, 0x40, 1, 0, 0, Low(cartType), exrom, game, 0, 0, 0, 0, 0, 0] + NameField(name)
  }

  function ChipHeader(length: nat, bank: u8, address: nat, kind: u8): (r: seq<u8>)
    ensures |r| == 16
  {
    CHIP + [0, 0, High(length + 0x10), Low(length + 0x10), 0, kind, 0, bank, High(address), Low(address),
            High(length), Low(length)]
  }

  function Chip(data: seq<u8>, bank: u8, address: nat, kind: u8): seq<u8> {
    ChipHeader(|data|, bank, address, kind) + data
  }

  /** n chips of the same length, one bank each. */
  function Chips(image: seq<u8>, length: nat, n: nat, bank: nat, address: nat, kind: u8): seq<u8>
    decreases n
  {
    if n == 0 || |image| < length then []
    else
      Chip(image[..length], Low(bank), address, kind) + Chips(image[length..], length, n - 1, bank + 1, address, kind)
  }

  predicate Empty(data: seq<u8>) { forall i :: 0 <= i < |data| ==> data[i] == 0xff }

  function HalfBank(image: seq<u8>, k: nat): (r: seq<u8>)
    requires |image| == EASYFLASH_SIZE && k < 128
    ensures |r| == HALF_BANK
  {
    image[k * HALF_BANK..(k + 1) * HALF_BANK]
  }

  function EasyChip(image: seq<u8>, k: nat): seq<u8>
    requires |image| == EASYFLASH_SIZE && k < 128
  {
    Chip(HalfBank(image, k), k / 2, if k % 2 == 0 then 0x8000 else 0xa000, 2)
  }

  /** The half-banks from k on; those that are all 0xff are left out if omit is set. */
  function EasyChips(image: seq<u8>, k: nat, omit: bool): seq<u8>
    requires |image| == EASYFLASH_SIZE && k <= 128
    decreases 128 - k
  {
    if k == 128 then []
    else if omit && Empty(HalfBank(image, k)) then EasyChips(image, k + 1, omit)
    else EasyChip(image, k) + EasyChips(image, k + 1, omit)
  }

  // ---------- reading ----------

  /** What the loader makes of the chips: the image, the load address, and the bytes of padding it skipped. Overrun
      stands for a file that makes the program write past its buffer. */
  datatype Banks = Banks(image: seq<u8>, address: nat, skipped: nat) | Rejected | Overrun

  /** Bytes with the most significant one first. */
  function BigEndian(s: seq<u8>): nat
    decreases |s|
  {
    if s == [] then 0 else Append(BigEndian(s[..|s| - 1]), s[|s| - 1])
  }

  /** (x << 8) + b */
  function Append(x: nat, b: u8): nat { 0x100 * x + b }

  lemma TwoBytes(hi: u8, lo: u8)
    ensures BigEndian([hi, lo]) == Append(hi, lo)
  {
    assert [hi, lo][..1] == [hi] && [hi][..0] == [];
    assert BigEndian([hi]) == Append(0, hi);
  }

  lemma FourBytes(b3: u8, b2: u8, b1: u8, b0: u8)
    ensures BigEndian([b3, b2, b1, b0]) == Append(Append(Append(b3, b2), b1), b0)
  {
    TwoBytes(b3, b2);
    assert [b3, b2, b1][..2] == [b3, b2] && [b3, b2, b1, b0][..3] == [b3, b2, b1];
    assert BigEndian([b3, b2, b1]) == Append(Append(b3, b2), b1);
  }

  function FirstAddress(address: nat, header: seq<u8>): nat
    requires |header| == 16
  {
    if address == 0 then BigEndian([header[0xc], header[0xd]]) else address
  }

  function Drop(s: seq<u8>, n: nat): (r: seq<u8>)
    ensures |r| <= |s| && (n > 0 && s != [] ==> |r| < |s|)
  {
    if n <= |s| then s[n..] else []
  }

  /** How much of n bytes is there behind a chip header. */
  function Available(file: seq<u8>, n: nat): nat
    requires |file| >= 16
  {
    if n <= |file| - 16 then n else |file| - 16
  }

  /** load_all_banks on the rest of a file. */
  function ParseChips(file: seq<u8>, image: seq<u8>, address: nat, skipped: nat): Banks
    decreases |file|
  {
    if |file| < 16 then (if image == [] then Rejected else Banks(image, address, skipped))
    else if file[..4] != CHIP then Rejected
    else
      var header := file[..16];
      var length := BigEndian(header[4..8]);
      var datasize := BigEndian([header[14], header[15]]);
      if datasize + 0x10 > length then Rejected
      else if |image| + Available(file, datasize) > BUFFER_SIZE then Overrun
      else if |file| < 16 + datasize then Rejected
      else
        var pad := length - (datasize + 0x10);
        ParseChips(Drop(file, 16 + datasize + pad), image + file[16..16 + datasize], FirstAddress(address, header),
                   skipped + pad)
  }

  function ChunkLength(file: seq<u8>): nat
    requires |file| >= 16
  {
    BigEndian(file[4..8])
  }

  function DataSize(file: seq<u8>): nat
    requires |file| >= 16
  {
    BigEndian([file[14], file[15]])
  }

  /** The loader stops at a chip without its tag, with more data than its chunk holds, or cut off. */
  lemma ParseStops(file: seq<u8>, image: seq<u8>, address: nat, skipped: nat)
    requires |file| >= 16
    requires file[..4] != CHIP || DataSize(file) + 0x10 > ChunkLength(file)
             || (|file| < 16 + DataSize(file) && |image| + Available(file, DataSize(file)) <= BUFFER_SIZE)
    ensures ParseChips(file, image, address, skipped).Rejected?
  {
    hide Append;
    assert file[..16][4..8] == file[4..8];
  }

  lemma ParseShort(file: seq<u8>, image: seq<u8>, address: nat, skipped: nat)
    requires |file| < 16
    ensures ParseChips(file, image, address, skipped)
         == if image == [] then Rejected else Banks(image, address, skipped)
  {
  }

  lemma ParseGoesOn(file: seq<u8>, image: seq<u8>, address: nat, skipped: nat)
    requires |file| >= 16 && file[..4] == CHIP && DataSize(file) + 0x10 <= ChunkLength(file)
    ensures ParseChips(file, image, address, skipped)
         == if |image| + Available(file, DataSize(file)) > BUFFER_SIZE then Overrun
            else if |file| < 16 + DataSize(file) then Rejected
            else ParseChips(Drop(file, ChunkLength(file)), image + file[16..16 + DataSize(file)],
                            FirstAddress(address, file[..16]), skipped + ChunkLength(file) - DataSize(file) - 0x10)
  {
    hide Append;
    assert file[..16][4..8] == file[4..8];
  }

  function Written(buffer: seq<u8>, at: nat, data: seq<u8>): (r: seq<u8>)
    requires at + |data| <= |buffer|
    ensures |r| == |buffer|
  {
    buffer[..at] + data + buffer[at + |data|..]
  }

  function BankOf(header: seq<u8>): nat
    requires |header| == 16
  {
    header[0xb]
  }

  lemma WrittenPrefix(buffer: seq<u8>, at: nat, data: seq<u8>)
    requires at + |data| <= |buffer|
    ensures Written(buffer, at, data)[..at + |data|] == buffer[..at] + data
  {
  }

  function EasyPosition(header: seq<u8>): nat
    requires |header| == 16
  {
    0x4000 * BankOf(header) + if header[0xc] == 0x80 then 0 else 0x2000
  }

  /** load_easyflash_crt on the rest of a file; any tells whether there was a chip before. */
  function ParseEasy(file: seq<u8>, image: seq<u8>, any: bool, address: nat): Banks
    requires |image| == EASYFLASH_SIZE
    decreases |file|
  {
    if |file| < 16 then (if any then Banks(image, address, 0) else Rejected)
    else if file[..4] != CHIP then Rejected
    else
      var header := file[..16];
      var at := EasyPosition(header);
      if Available(file, HALF_BANK) > 0 && at + Available(file, HALF_BANK) > BUFFER_SIZE then Overrun
      else if |file| < 16 + HALF_BANK then Rejected
      else
        ParseEasy(file[16 + HALF_BANK..], Written(image, at, file[16..16 + HALF_BANK]), true,
                  FirstAddress(address, header))
  }

  // ---------- inside the buffer ----------

  /** How far an EasyFlash chip may reach: two bytes lie behind the last bank. */
  function EasySpace(header: seq<u8>): nat
    requires |header| == 16
  {
    if BankOf(header) < 64 then HALF_BANK else if BankOf(header) == 64 && header[0xc] == 0x80 then 2 else 0
  }

  /** Each chip up to the first faulty one names one of the 64 banks, or is cut off right behind its header. */
  predicate EasyFits(file: seq<u8>)
    decreases |file|
  {
    |file| < 16 || file[..4] != CHIP
    || (Available(file, HALF_BANK) <= EasySpace(file[..16])
        && (|file| >= 16 + HALF_BANK ==> EasyFits(file[16 + HALF_BANK..])))
  }

  /** load_easyflash_crt stays inside the buffer exactly for these files. */
  lemma {:induction false} EasyOverruns(file: seq<u8>, image: seq<u8>, any: bool, address: nat)
    requires |image| == EASYFLASH_SIZE
    ensures ParseEasy(file, image, any, address).Overrun? <==> !EasyFits(file)
    decreases |file|
  {
    hide FirstAddress, Written;
    if |file| >= 16 + HALF_BANK && file[..4] == CHIP && BankOf(file[..16]) < 64 {
      var header := file[..16];
      var image' := Written(image, EasyPosition(header), file[16..16 + HALF_BANK]);
      EasyOverruns(file[16 + HALF_BANK..], image', true, FirstAddress(address, header));
    }
  }

  /** The chips up to the first faulty one hold no more bytes than the buffer, behind the first size bytes of it. */
  predicate ChipsFit(file: seq<u8>, size: nat)
    decreases |file|
  {
    |file| < 16 || file[..4] != CHIP || DataSize(file) + 0x10 > ChunkLength(file)
    || (size + Available(file, DataSize(file)) <= BUFFER_SIZE
        && (|file| >= 16 + DataSize(file) ==> ChipsFit(Drop(file, ChunkLength(file)), size + DataSize(file))))
  }

  /** load_all_banks stays inside the buffer exactly for these. */
  lemma {:induction false} ChipsOverrun(file: seq<u8>, image: seq<u8>, address: nat, skipped: nat)
    ensures ParseChips(file, image, address, skipped).Overrun? <==> !ChipsFit(file, |image|)
    decreases |file|
  {
    hide Append, FirstAddress;
    if |file| >= 16 {
      assert file[..16][4..8] == file[4..8];
      var n := DataSize(file);
      if file[..4] == CHIP && n + 0x10 <= ChunkLength(file) && |file| >= 16 + n {
        ChipsOverrun(Drop(file, ChunkLength(file)), image + file[16..16 + n], FirstAddress(address, file[..16]),
                     skipped + ChunkLength(file) - n - 0x10);
      }
    }
  }

  /** A file is safe if it is no longer than the buffer. */
  lemma {:induction false} SmallFilesFit(file: seq<u8>, size: nat)
    requires size + |file| <= BUFFER_SIZE
    ensures ChipsFit(file, size)
    decreases |file|
  {
    hide ChunkLength, DataSize;
    if && |file| >= 16 && file[..4] == CHIP
       && 0x10 + DataSize(file) <= ChunkLength(file) && |file| >= 16 + DataSize(file)
    {
      SmallFilesFit(Drop(file, ChunkLength(file)), size + DataSize(file));
    }
  }

  function Blank(n: nat): (r: seq<u8>)
    ensures |r| == n && Empty(r)
  {
    seq(n, _ => 0xff)
  }

  /** What load_input_file makes of a CRT file. */
  datatype Outcome = Loaded(cartType: int, ultimax: bool, banks: Banks) | Unreadable | NotCrt

  function TypeOf(file: seq<u8>): int
    requires |file| >= 0x40
  {
    BigEndian([file[0x16], file[0x17]]) - if file[0x17] >= 0x80 then 0x1_0000 else 0
  }

  /** address is the load address so far: zero when the program starts. */
  function Load(file: seq<u8>, address: nat): Outcome {
    if |file| < 16 then Unreadable
    else if file[..16] != TAG then NotCrt
    else if |file| < 0x40 then Unreadable
    else if file[0x10..0x14] != [0, 0, 0, 0x40] then Unreadable
    else if !(0 <= TypeOf(file) <= CARTRIDGE_LAST) then Unreadable
    else
      Loaded(TypeOf(file), file[0x18] == 1 && file[0x19] == 0,
             if TypeOf(file) == CARTRIDGE_EASYFLASH then
               ParseEasy(file[0x40..], Blank(EASYFLASH_SIZE), false, address)
             else ParseChips(file[0x40..], [], address, 0))
  }

  /** Plain binaries: the sizes that are accepted, alone or with a load address of two (or, for 32 KB, four) bytes. */
  const SIZES: set<nat> := {0x1000, 0x2000, 0x3000, 0x4000, 0x5000, 0x6000, 0x8000, 0x1_0000, 0x1_8000, 0x2_0000,
                            0x4_0000, 0x8_0000, 0x10_0000}

  /** Where the payload of a binary starts; -1 when the size is refused. */
  function RawOffset(size: nat): int {
    if size in SIZES then 0
    else if size >= 2 && size - 2 in SIZES then 2
    else if size == 0x8004 then 4
    else -1
  }

  // ---------- round trips ----------

  /** The length of n pieces. */
  function Total(length: nat, n: nat): nat
    decreases n
  {
    if n == 0 then 0 else length + Total(length, n - 1)
  }

  lemma {:induction false} TotalIsProduct(length: nat, n: nat)
    ensures Total(length, n) == n * length
    decreases n
  {
    if n > 0 {
      TotalIsProduct(length, n - 1);
    }
  }

  /** The whole of a sequence is n pieces of this length. */
  predicate Pieces(size: nat, length: nat, n: nat)
    decreases n
  {
    if n == 0 then size == 0 else size >= length && Pieces(size - length, length, n - 1)
  }

  lemma {:induction false} PiecesOf(length: nat, n: nat)
    ensures Pieces(n * length, length, n)
    decreases n
  {
    if n > 0 {
      PiecesOf(length, n - 1);
      assert n * length == (n - 1) * length + length;
    }
  }

  /** Both length fields of a chip agree with its data. */
  lemma ChipFields(data: seq<u8>, bank: u8, address: nat, kind: u8, rest: seq<u8>)
    requires |data| <= 0xffef && address < 0x1_0000
    ensures var file := Chip(data, bank, address, kind) + rest;
            && |file| == 16 + |data| + |rest| && file[..4] == CHIP
            && BigEndian(file[4..8]) == |data| + 0x10 && BigEndian([file[14], file[15]]) == |data|
            && file[0xb] == bank && BigEndian([file[0xc], file[0xd]]) == address && file[0xc] == High(address)
            && file[16..16 + |data|] == data && file[16 + |data|..] == rest
  {
    var header := ChipHeader(|data|, bank, address, kind);
    var file := Chip(data, bank, address, kind) + rest;
    assert file == header + (data + rest);
    assert forall i :: 0 <= i < 16 ==> file[i] == header[i];
    assert file[4..8] == [0, 0, High(|data| + 0x10), Low(|data| + 0x10)];
    Bytewise(|data| + 0x10);
    Bytewise(|data|);
    Bytewise(address);
    FourBytes(0, 0, High(|data| + 0x10), Low(|data| + 0x10));
    TwoBytes(High(|data|), Low(|data|));
    TwoBytes(High(address), Low(address));
  }

  lemma {:induction false} ChipsParse(image: seq<u8>, length: nat, n: nat, bank: nat, address: u16, kind: u8,
                                      done: seq<u8>, first: nat, skipped: nat)
    requires Pieces(|image|, length, n) && 0 < length <= 0xffef && |done| + |image| <= BUFFER_SIZE
    requires done != [] || n > 0
    ensures ParseChips(Chips(image, length, n, bank, address, kind), done, first, skipped)
         == Banks(done + image, if first == 0 && n > 0 then address else first, skipped)
    decreases n
  {
    hide Chip, Low, ParseChips;
    if n == 0 {
      assert done + image == done;
      ParseEnd(done, first, skipped);
    } else {
      var data := image[..length];
      var rest := Chips(image[length..], length, n - 1, bank + 1, address, kind);
      ParseOne(data, Low(bank), address, kind, rest, done, first, skipped);
      ChipsParse(image[length..], length, n - 1, bank + 1, address, kind, done + data,
                 if first == 0 then address else first, skipped);
      assert done + data + image[length..] == done + image;
    }
  }

  lemma ParseEnd(done: seq<u8>, first: nat, skipped: nat)
    requires done != []
    ensures ParseChips([], done, first, skipped) == Banks(done, first, skipped)
  {
  }

  lemma ParseOne(data: seq<u8>, bank: u8, address: u16, kind: u8, rest: seq<u8>, done: seq<u8>, first: nat,
                 skipped: nat)
    requires |data| <= 0xffef && |done| + |data| <= BUFFER_SIZE
    ensures ParseChips(Chip(data, bank, address, kind) + rest, done, first, skipped)
         == ParseChips(rest, done + data, if first == 0 then address else first, skipped)
  {
    hide Chip, Append, Low, High;
    var file := Chip(data, bank, address, kind) + rest;
    ChipFields(data, bank, address, kind, rest);
    assert file[..16][4..8] == file[4..8];
    assert Drop(file, 16 + |data|) == rest;
  }

  /** A file of the regular kind: what save_regular_crt writes for a whole number of banks. */
  function RegularFile(image: seq<u8>, length: nat, n: nat, address: u16, kind: u8, cartType: int, game: u8, exrom: u8,
                       name: seq<u8>): seq<u8> {
    Header(cartType, game, exrom, name) + Chips(image, length, n, 0, address, kind)
  }

  /** Loading it gives back the type, the ultimax configuration and the exact payload, and skips nothing. */
  lemma RegularRoundTrip(image: seq<u8>, length: nat, n: nat, address: u16, kind: u8, cartType: int, game: u8,
                         exrom: u8, name: seq<u8>)
    requires 0 < n <= 256 && 0 < length <= 0xffef && |image| == n * length && |image| <= BUFFER_SIZE
    requires 0 <= cartType <= CARTRIDGE_LAST && cartType != CARTRIDGE_EASYFLASH
    ensures Load(RegularFile(image, length, n, address, kind, cartType, game, exrom, name), 0)
         == Loaded(cartType, exrom == 1 && game == 0, Banks(image, address, 0))
  {
    PiecesOf(length, n);
    ChipsParse(image, length, n, 0, address, kind, [], 0, 0);
    assert [] + image == image;
    HeaderLoads(cartType, game, exrom, name, Chips(image, length, n, 0, address, kind));
  }

  lemma {:induction false} ChipsPrefix(buffer: seq<u8>, length: nat, n: nat, bank: nat, address: nat, kind: u8)
    requires Total(length, n) <= |buffer| && length > 0
    ensures Chips(buffer, length, n, bank, address, kind)
         == Chips(buffer[..Total(length, n)], length, n, bank, address, kind)
    decreases n
  {
    hide Chip, Low;
    if n > 0 {
      var image := buffer[..Total(length, n)];
      ChipsPrefix(buffer[length..], length, n - 1, bank + 1, address, kind);
      assert image[..length] == buffer[..length];
      assert image[length..] == buffer[length..][..Total(length, n - 1)];
    }
  }

  /** What the converter writes from its buffer, and loads again. */
  lemma SavedBufferLoads(buffer: seq<u8>, length: nat, n: nat, address: u16, kind: u8, cartType: int, game: u8,
                         exrom: u8, name: seq<u8>)
    requires 0 < n <= 256 && 0 < length <= 0xffef && n * length <= |buffer| && n * length <= BUFFER_SIZE
    requires 0 <= cartType <= CARTRIDGE_LAST && cartType != CARTRIDGE_EASYFLASH
    ensures Load(RegularFile(buffer, length, n, address, kind, cartType, game, exrom, name), 0)
         == Loaded(cartType, exrom == 1 && game == 0, Banks(buffer[..n * length], address, 0))
  {
    hide Load, Header, Chips;
    TotalIsProduct(length, n);
    ChipsPrefix(buffer, length, n, 0, address, kind);
    RegularRoundTrip(buffer[..n * length], length, n, address, kind, cartType, game, exrom, name);
  }

  /** The bound on the length is exact: the chunk length of a longer chip does not fit, and the loader refuses it. */
  lemma LongChipsAreRejected(image: seq<u8>, length: nat, n: nat, address: u16, kind: u8)
    requires 0 < n && 0xfff0 <= length < 0x1_0000 && |image| >= length
    ensures ParseChips(Chips(image, length, n, 0, address, kind), [], 0, 0) == Rejected
  {
    hide Append;
    ChipHead(image[..length], 0, address, kind, Chips(image[length..], length, n - 1, 1, address, kind));
    LengthField(length);
  }

  lemma ChipHead(data: seq<u8>, bank: u8, address: nat, kind: u8, rest: seq<u8>)
    ensures var file := Chip(data, bank, address, kind) + rest;
            && |file| == 16 + |data| + |rest| && file[..4] == CHIP
            && file[..16][4..8] == [0, 0, High(|data| + 0x10), Low(|data| + 0x10)]
            && file[..16][14] == High(|data|) && file[..16][15] == Low(|data|)
  {
    var header := ChipHeader(|data|, bank, address, kind);
    var file := Chip(data, bank, address, kind) + rest;
    assert file == header + (data + rest);
    assert file[..16] == header;
    assert file[..4] == header[..4];
  }

  lemma LengthField(length: nat)
    requires 0xfff0 <= length < 0x1_0000
    ensures BigEndian([0, 0, High(length + 0x10), Low(length + 0x10)]) == length + 0x10 - 0x1_0000
    ensures BigEndian([High(length), Low(length)]) == length
  {
    Bytewise(length + 0x10);
    Bytewise(length);
    assert Wrap16(length + 0x10) == length + 0x10 - 0x1_0000;
    hide High, Low, Wrap16;
    FourBytes(0, 0, High(length + 0x10), Low(length + 0x10));
    TwoBytes(High(length), Low(length));
  }

  lemma HeaderLoads(cartType: int, game: u8, exrom: u8, name: seq<u8>, body: seq<u8>)
    requires 0 <= cartType <= CARTRIDGE_LAST
    ensures var file := Header(cartType, game, exrom, name) + body;
            && |file| >= 0x40 && file[..16] == TAG && file[0x10..0x14] == [0, 0, 0, 0x40]
            && TypeOf(file) == cartType && file[0x18] == exrom && file[0x19] == game && file[0x40..] == body
  {
    var header := Header(cartType, game, exrom, name);
    var file := header + body;
    assert file[..16] == header[..16];
    assert file[0x10..0x14] == header[0x10..0x14] == [0, 0, 0, 0x40];
    TwoBytes(0, Low(cartType));
  }

  /** A negative type, kept for tests, is written but never accepted back. */
  lemma NegativeTypesAreRejected(cartType: int, game: u8, exrom: u8, name: seq<u8>, body: seq<u8>)
    requires -128 <= cartType < 0
    ensures Load(Header(cartType, game, exrom, name) + body, 0) == Unreadable
  {
    var header := Header(cartType, game, exrom, name);
    var file := header + body;
    assert file[..16] == header[..16];
    assert file[0x17] == Low(cartType) && file[0x16] == 0;
    assert Low(cartType) == cartType + 0x100;
    TwoBytes(0, Low(cartType));
  }

  // ---------- EasyFlash ----------

  /** The image up to half-bank k, and blanks behind it. */
  function UpTo(image: seq<u8>, k: nat): (r: seq<u8>)
    requires |image| == EASYFLASH_SIZE && k <= 128
    ensures |r| == EASYFLASH_SIZE
  {
    image[..k * HALF_BANK] + Blank(EASYFLASH_SIZE - k * HALF_BANK)
  }

  lemma SkipEmpty(image: seq<u8>, k: nat)
    requires |image| == EASYFLASH_SIZE && k < 128 && Empty(HalfBank(image, k))
    ensures UpTo(image, k + 1) == UpTo(image, k)
  {
    forall i | 0 <= i < EASYFLASH_SIZE
      ensures UpTo(image, k + 1)[i] == UpTo(image, k)[i]
    {
      if k * HALF_BANK <= i < (k + 1) * HALF_BANK {
        assert image[i] == HalfBank(image, k)[i - k * HALF_BANK];
      }
    }
  }

  lemma FillHalf(image: seq<u8>, k: nat)
    requires |image| == EASYFLASH_SIZE && k < 128
    ensures Written(UpTo(image, k), k * HALF_BANK, HalfBank(image, k)) == UpTo(image, k + 1)
  {
  }

  lemma EasyPlace(image: seq<u8>, k: nat, rest: seq<u8>)
    requires |image| == EASYFLASH_SIZE && k < 128
    ensures var file := EasyChip(image, k) + rest;
            && |file| == 16 + HALF_BANK + |rest| && file[..4] == CHIP
            && EasyPosition(file[..16]) == k * HALF_BANK
            && file[16..16 + HALF_BANK] == HalfBank(image, k) && file[16 + HALF_BANK..] == rest
  {
    hide HalfBank, Chip, Append;
    ChipFields(HalfBank(image, k), k / 2, if k % 2 == 0 then 0x8000 else 0xa000, 2, rest);
  }

  predicate AllEmpty(image: seq<u8>, k: nat)
    requires |image| == EASYFLASH_SIZE && k <= 128
  {
    forall j :: k <= j < 128 ==> Empty(HalfBank(image, j))
  }

  lemma {:induction false} EasyChipsParse(image: seq<u8>, k: nat, omit: bool, any: bool, address: nat)
    requires |image| == EASYFLASH_SIZE && k <= 128
    ensures var banks := ParseEasy(EasyChips(image, k, omit), UpTo(image, k), any, address);
            if !any && (k == 128 || (omit && AllEmpty(image, k))) then banks == Rejected
            else banks.Banks? && banks.image == image
    decreases 128 - k
  {
    hide EasyChip, UpTo, Written, Empty, HalfBank, Append, EasyPosition;
    if k == 128 {
      assert UpTo(image, 128) == image by { WholeImage(image); }
    } else if omit && Empty(HalfBank(image, k)) {
      SkipEmpty(image, k);
      EasyChipsParse(image, k + 1, omit, any, address);
    } else {
      var rest := EasyChips(image, k + 1, omit);
      var file := EasyChip(image, k) + rest;
      EasyPlace(image, k, rest);
      FillHalf(image, k);
      EasyChipsParse(image, k + 1, omit, true, FirstAddress(address, file[..16]));
    }
  }

  lemma WholeImage(image: seq<u8>)
    requires |image| == EASYFLASH_SIZE
    ensures UpTo(image, 128) == image
  {
  }

  function EasyFile(image: seq<u8>, omit: bool, name: seq<u8>): seq<u8>
    requires |image| == EASYFLASH_SIZE
  {
    Header(CARTRIDGE_EASYFLASH, 0, 0, name) + EasyChips(image, 0, omit)
  }

  /** The omitted half-banks come back: loading an EasyFlash file gives the original megabyte byte for byte, exactly
      when some half-bank is not empty or nothing was omitted. */
  lemma EasyFlashRoundTrip(image: seq<u8>, omit: bool, name: seq<u8>)
    requires |image| == EASYFLASH_SIZE
    ensures var loaded := Load(EasyFile(image, omit, name), 0);
            && loaded.Loaded? && loaded.cartType == CARTRIDGE_EASYFLASH && !loaded.ultimax
            && (loaded.banks.Banks? && loaded.banks.image == image <==> !omit || !AllEmpty(image, 0))
            && (omit && AllEmpty(image, 0) ==> loaded.banks == Rejected)
  {
    HeaderLoads(CARTRIDGE_EASYFLASH, 0, 0, name, EasyChips(image, 0, omit));
    EasyChipsParse(image, 0, omit, false, 0);
    assert UpTo(image, 0) == Blank(EASYFLASH_SIZE);
  }

  /** The blank image is written without a single chip, and such a file is refused. */
  lemma BlankImageIsRejected(name: seq<u8>)
    ensures Load(EasyFile(Blank(EASYFLASH_SIZE), true, name), 0) == Loaded(CARTRIDGE_EASYFLASH, false, Rejected)
  {
    hide Load, EasyFile;
    EasyFlashRoundTrip(Blank(EASYFLASH_SIZE), true, name);
  }

  /** A file whose first chip names bank 64 runs past the buffer. */
  lemma BankOverruns(data: seq<u8>, address: u16, name: seq<u8>, rest: seq<u8>)
    requires |data| == HALF_BANK
    ensures Load(Header(CARTRIDGE_EASYFLASH, 0, 0, name) + (Chip(data, 64, address, 2) + rest), 0)
         == Loaded(CARTRIDGE_EASYFLASH, false, Overrun)
  {
    hide Append, ParseEasy, Chip, High, Header;
    var body := Chip(data, 64, address, 2) + rest;
    HeaderLoads(CARTRIDGE_EASYFLASH, 0, 0, name, body);
    ChipFields(data, 64, address, 2, rest);
    EasyOverruns(body, Blank(EASYFLASH_SIZE), false, 0);
  }
}
