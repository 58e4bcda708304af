/** The bytes of a saved cartridge, one by one, as tools that read the format expect them. */
module CrtLayout {
  import opened Bytes
  import opened CrtFormat

  /** At this place of the file is a chip with this data. */
  ghost predicate HasChip(file: seq<u8>, at: nat, bank: int, address: nat, kind: u8, data: seq<u8>, length: nat) {
    && |data| == length && at + 16 + length <= |file|
    && file[at..at + 4] == [0x43, 0x48, 0x49, 0x50]
    && file[at + 4] == file[at + 5] == 0
    && file[at + 6] == (length + 16) / 0x100 % 0x100 && file[at + 7] == (length + 16) % 0x100
    && file[at + 8] == 0 && file[at + 9] == kind && file[at + 0xa] == 0 && file[at + 0xb] == bank
    && file[at + 0xc] == address / 0x100 % 0x100 && file[at + 0xd] == address % 0x100
    && file[at + 0xe] == length / 0x100 % 0x100 && file[at + 0xf] == length % 0x100
    && file[at + 16..at + 16 + length] == data
  }

  /** The k-th of the pieces of this length. */
  function Piece(buffer: seq<u8>, length: nat, k: nat): seq<u8> {
    if k * length + length <= |buffer| then buffer[k * length..k * length + length] else []
  }

  lemma FirstChip(data: seq<u8>, bank: u8, address: nat, kind: u8, rest: seq<u8>)
    ensures HasChip(Chip(data, bank, address, kind) + rest, 0, bank, address, kind, data, |data|)
  {
    hide High, Low;
    var header := ChipHeader(|data|, bank, address, kind);
    var file := Chip(data, bank, address, kind) + rest;
    assert file == header + (data + rest);
    assert forall i :: 0 <= i < 16 ==> file[i] == header[i];
    TwoDigits(|data|);
    TwoDigits(|data| + 0x10);
    TwoDigits(address);
  }

  lemma TwoDigits(x: nat)
    ensures High(x) == x / 0x100 % 0x100 && Low(x) == x % 0x100
  {
  }

  lemma ChipBehind(front: seq<u8>, file: seq<u8>, at: nat, bank: int, address: nat, kind: u8, data: seq<u8>,
                   length: nat)
    requires HasChip(file, at, bank, address, kind, data, length)
    ensures HasChip(front + file, |front| + at, bank, address, kind, data, length)
  {
    var all, n := front + file, |front|;
    assert forall i :: 0 <= i < |file| ==> all[n + i] == file[i];
    assert all[n + at..n + at + 4] == file[at..at + 4];
    assert all[n + at + 16..n + at + 16 + length] == file[at + 16..at + 16 + length];
  }

  /** The k-th piece by cutting off the ones before it. */
  function Cut(image: seq<u8>, length: nat, k: nat): seq<u8>
    decreases k
  {
    if |image| < length then [] else if k == 0 then image[..length] else Cut(image[length..], length, k - 1)
  }

  lemma {:induction false} CutIsPiece(image: seq<u8>, length: nat, k: nat)
    ensures Total(length, k) + length <= |image| ==>
              Cut(image, length, k) == image[Total(length, k)..Total(length, k) + length]
    decreases k
  {
    if k > 0 && length <= |image| {
      CutIsPiece(image[length..], length, k - 1);
    }
  }

  lemma {:induction false} CutsLaidOut(image: seq<u8>, length: nat, n: nat, bank: nat, address: nat, kind: u8, k: nat)
    requires k < n && Total(length, n) <= |image| && bank + n <= 0x100
    ensures HasChip(Chips(image, length, n, bank, address, kind), Total(16 + length, k), bank + k, address, kind,
                    Cut(image, length, k), length)
    decreases n
  {
    hide Chip, Low, HasChip;
    var data := image[..length];
    var rest := Chips(image[length..], length, n - 1, bank + 1, address, kind);
    LowByte(bank);
    if k == 0 {
      FirstChip(data, bank, address, kind, rest);
    } else {
      CutsLaidOut(image[length..], length, n - 1, bank + 1, address, kind, k - 1);
      ChipLength(data, bank, address, kind);
      ChipBehind(Chip(data, bank, address, kind), rest, Total(16 + length, k - 1), bank + k, address, kind,
                 Cut(image, length, k), length);
    }
  }

  lemma {:induction false} TotalGrows(length: nat, k: nat, n: nat)
    requires k < n
    ensures Total(length, k) + length <= Total(length, n)
    decreases n
  {
    if k > 0 {
      TotalGrows(length, k - 1, n - 1);
    }
  }

  /** Chip k of a file of equal banks: where it starts, its bank, address and kind, and what it holds. */
  lemma ChipsLaidOut(image: seq<u8>, length: nat, n: nat, bank: nat, address: nat, kind: u8, k: nat)
    requires k < n && Total(length, n) <= |image| && bank + n <= 0x100
    ensures HasChip(Chips(image, length, n, bank, address, kind), k * (16 + length), bank + k, address, kind,
                    Piece(image, length, k), length)
  {
    hide HasChip, Chips;
    CutsLaidOut(image, length, n, bank, address, kind, k);
    CutIsPiece(image, length, k);
    TotalGrows(length, k, n);
    TotalIsProduct(length, k);
    TotalIsProduct(16 + length, k);
  }

  lemma LowByte(bank: nat)
    requires bank < 0x100
    ensures Low(bank) == bank
  {
  }

  lemma ChipLength(data: seq<u8>, bank: u8, address: nat, kind: u8)
    ensures |Chip(data, bank, address, kind)| == 16 + |data|
  {
  }

  /** Behind the header n chips follow each other, with the banks from 0 on and the pieces of a buffer. */
  ghost predicate HasBanks(file: seq<u8>, buffer: seq<u8>, length: nat, n: nat, address: nat, kind: u8) {
    forall k | 0 <= k < n :: HasChip(file, 0x40 + k * (16 + length), k, address, kind, Piece(buffer, length, k), length)
  }

  lemma BanksLaidOut(header: seq<u8>, buffer: seq<u8>, length: nat, n: nat, address: nat, kind: u8)
    requires |header| == 0x40 && Total(length, n) <= |buffer| && n <= 0x100
    ensures HasBanks(header + Chips(buffer, length, n, 0, address, kind), buffer, length, n, address, kind)
  {
    hide HasChip, Piece, Chips;
    forall k | 0 <= k < n
      ensures HasChip(header + Chips(buffer, length, n, 0, address, kind), 0x40 + k * (16 + length), k, address, kind,
                      Piece(buffer, length, k), length)
    {
      ChipsLaidOut(buffer, length, n, 0, address, kind, k);
      ChipBehind(header, Chips(buffer, length, n, 0, address, kind), k * (16 + length), k, address, kind,
                 Piece(buffer, length, k), length);
    }
  }

  // ---------- EasyFlash ----------

  predicate Omitted(image: seq<u8>, k: nat, omit: bool)
    requires |image| == EASYFLASH_SIZE && k < 128
  {
    omit && forall i :: k * 0x2000 <= i < k * 0x2000 + 0x2000 ==> image[i] == 0xff
  }

  lemma OmittedIsEmpty(image: seq<u8>, k: nat, omit: bool)
    requires |image| == EASYFLASH_SIZE && k < 128
    ensures Omitted(image, k, omit) <==> omit && Empty(HalfBank(image, k))
  {
    if omit && Empty(HalfBank(image, k)) {
      forall i | k * 0x2000 <= i < k * 0x2000 + 0x2000
        ensures image[i] == 0xff
      {
        assert image[i] == HalfBank(image, k)[i - k * 0x2000];
      }
    }
  }

  /** How many of the first k half-banks are written. */
  function Kept(image: seq<u8>, k: nat, omit: bool): (n: nat)
    requires |image| == EASYFLASH_SIZE && k <= 128
    ensures n <= k
  {
    if k == 0 then 0 else Kept(image, k - 1, omit) + OneIf(!Omitted(image, k - 1, omit))
  }

  lemma {:induction false} EasyChipsLaidOut(image: seq<u8>, k: nat, omit: bool, j: nat)
    requires |image| == EASYFLASH_SIZE && k <= j < 128 && !Omitted(image, j, omit)
    ensures Kept(image, j, omit) >= Kept(image, k, omit)
    ensures HasChip(EasyChips(image, k, omit), 0x2010 * (Kept(image, j, omit) - Kept(image, k, omit)), j / 2,
                    if j % 2 == 0 then 0x8000 else 0xa000, 2, HalfBank(image, j), 0x2000)
    decreases 128 - k
  {
    hide Chip, HalfBank, Omitted, Empty, HasChip;
    OmittedIsEmpty(image, k, omit);
    var rest := EasyChips(image, k + 1, omit);
    var address := if k % 2 == 0 then 0x8000 else 0xa000;
    if k == j {
      FirstChip(HalfBank(image, k), k / 2, address, 2, rest);
    } else {
      EasyChipsLaidOut(image, k + 1, omit, j);
      if !Omitted(image, k, omit) {
        ChipLength(HalfBank(image, k), k / 2, address, 2);
        ChipBehind(EasyChip(image, k), rest, 0x2010 * (Kept(image, j, omit) - Kept(image, k + 1, omit)), j / 2,
                   if j % 2 == 0 then 0x8000 else 0xa000, 2, HalfBank(image, j), 0x2000);
      }
    }
  }

  /** Behind the header the half-banks that are not omitted follow each other, each with its bank and address. */
  ghost predicate HasHalves(file: seq<u8>, image: seq<u8>, omit: bool)
    requires |image| == EASYFLASH_SIZE
  {
    forall k | 0 <= k < 128 && !Omitted(image, k, omit) ::
      HasChip(file, 0x40 + 0x2010 * Kept(image, k, omit), k / 2, if k % 2 == 0 then 0x8000 else 0xa000, 2,
              HalfBank(image, k), 0x2000)
  }

  lemma HalvesLaidOut(name: seq<u8>, image: seq<u8>, omit: bool)
    requires |image| == EASYFLASH_SIZE
    ensures HasHalves(EasyFile(image, omit, name), image, omit)
  {
    hide HasChip, EasyChips, Omitted, HalfBank;
    var header := Header(CARTRIDGE_EASYFLASH, 0, 0, name);
    forall k | 0 <= k < 128 && !Omitted(image, k, omit)
      ensures HasChip(EasyFile(image, omit, name), 0x40 + 0x2010 * Kept(image, k, omit), k / 2,
                      if k % 2 == 0 then 0x8000 else 0xa000, 2, HalfBank(image, k), 0x2000)
    {
      EasyChipsLaidOut(image, 0, omit, k);
      ChipBehind(header, EasyChips(image, 0, omit), 0x2010 * Kept(image, k, omit), k / 2,
                 if k % 2 == 0 then 0x8000 else 0xa000, 2, HalfBank(image, k), 0x2000);
    }
  }

  /** The type of an EasyFlash file is 32; both of its lines are written as zero. */
  lemma EasyHeader(image: seq<u8>, omit: bool, name: seq<u8>)
    requires |image| == EASYFLASH_SIZE
    ensures var file := EasyFile(image, omit, name);
            |file| >= 0x40 && file[0x16] == 0 && file[0x17] == 32 && file[0x18] == 0 && file[0x19] == 0
  {
    hide EasyChips, Header;
    HeaderLaidOut(CARTRIDGE_EASYFLASH, 0, 0, name, EasyChips(image, 0, omit));
  }

  // ---------- the header ----------

  /** The 64 bytes of the header. */
  lemma HeaderLaidOut(cartType: int, game: u8, exrom: u8, name: seq<u8>, body: seq<u8>)
    ensures var file := Header(cartType, game, exrom, name) + body;
            && |file| == 0x40 + |body| && file[0x40..] == body
            && (forall i :: 0 <= i < 16 ==> file[i] as char == "C64 CARTRIDGE   "[i])
            && file[0x10..0x16] == [0, 0, 0, 0x40, 1, 0] && file[0x16] == 0 && file[0x17] == cartType % 0x100
            && file[0x18] == exrom && file[0x19] == game && file[0x1a..0x20] == [0, 0, 0, 0, 0, 0]
            && (forall i :: 0 <= i < 32 ==>
                  file[0x20 + i] == if i >= |name| then 0
                                    else if 97 <= name[i] <= 122 then name[i] - 32 else name[i])
  {
    var header := Header(cartType, game, exrom, name);
    var file := header + body;
    assert forall i :: 0 <= i < 0x40 ==> file[i] == header[i];
    assert header[0x20..] == NameField(name);
    assert forall i :: 0 <= i < 32 ==> header[0x20 + i] == header[0x20..][i];
    assert file[0x10..0x16] == header[0x10..0x16] && file[0x1a..0x20] == header[0x1a..0x20];
  }

  /** Binaries hold a power of two from 4 KB to 1 MB, or 12, 20, 24 or 96 KB, with up to two bytes before them, and
      32 KB also with four. */
  lemma AcceptedSizes(size: nat)
    ensures size in SIZES <==> (exists k :: 12 <= k <= 20 && size == Power2(k)) || size in {12288, 20480, 24576, 98304}
    ensures RawOffset(size)
         == if size in SIZES then 0 else if size - 2 in SIZES then 2 else if size == 32772 then 4 else -1
  {
    assert Power2(8) == 0x100;
    assert Power2(12) == 0x1000;
    assert Power2(16) == 0x1_0000 && Power2(13) == 0x2000 && Power2(14) == 0x4000 && Power2(15) == 0x8000;
    assert Power2(20) == 0x10_0000 && Power2(17) == 0x2_0000 && Power2(18) == 0x4_0000 && Power2(19) == 0x8_0000;
  }

  function Byte(file: seq<u8>, i: nat): int
    requires i < |file|
  {
    file[i]
  }

  /** The fields that the loaders read: numbers with the most significant byte first, a type that is negative when bit 7
      of its last byte is set, and an EasyFlash position. */
  lemma FieldsRead(file: seq<u8>)
    requires |file| >= 0x40
    ensures ChunkLength(file) == 0x100_0000 * Byte(file, 4) + 0x1_0000 * Byte(file, 5) + 0x100 * Byte(file, 6)
                                 + Byte(file, 7)
    ensures DataSize(file) == 0x100 * Byte(file, 14) + Byte(file, 15)
    ensures TypeOf(file) == 0x100 * Byte(file, 0x16) + Byte(file, 0x17) - (if file[0x17] >= 0x80 then 0x1_0000 else 0)
    ensures EasyPosition(file[..16]) == 0x4000 * Byte(file, 0xb) + (if file[0xc] == 0x80 then 0 else 0x2000)
  {
    assert file[4..8] == [file[4], file[5], file[6], file[7]];
    FourBytes(file[4], file[5], file[6], file[7]);
    TwoBytes(file[14], file[15]);
    TwoBytes(file[0x16], file[0x17]);
  }
}
