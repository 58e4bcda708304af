/** The converter itself, vice/src/cartconv.c: a buffer, an offset and a size in it, and two files. */
module CartConv {
  import opened Bytes
  import opened CrtFormat
  import opened CrtLayout

  class Converter {
    const fileBuffer: array<u8>
    var loadfileOffset: nat
    var loadfileSize: nat
    var loadAddress: nat
    var isUltimax: bool
    var loadedType: int
    /** cart_type and cart_name of the file being written. */
    var cartType: int
    var cartName: seq<u8>
    var omitEmptyBanks: bool
    var outfile: seq<u8>
    /** What is left to read. */
    var infile: seq<u8>

    ghost predicate Valid() { fileBuffer.Length == BUFFER_SIZE }

    constructor ()
      ensures Valid() && fresh(fileBuffer) && loadAddress == 0 && omitEmptyBanks
    {
      fileBuffer := new u8[BUFFER_SIZE](_ => 0);
      loadfileOffset, loadfileSize, loadAddress, isUltimax, loadedType := 0, 0, 0, false, 0;
      cartType, cartName, omitEmptyBanks, outfile, infile := -1, [], true, [], [];
    }

    // ---------- files ----------

    /** fread: fewer bytes than asked for at the end of the file. */
    method Fread(n: nat) returns (data: seq<u8>)
      modifies this`infile
      ensures data == old(if n <= |infile| then infile[..n] else infile)
      ensures infile == Drop(old(infile), n)
    {
      if n <= |infile| {
        data := infile[..n];
        infile := infile[n..];
      } else {
        data := infile;
        infile := [];
      }
    }

    /** How many of n bytes there are. */
    function Readable(n: nat): nat
      reads this`infile
    {
      if n <= |infile| then n else |infile|
    }

    /** fread would write past the buffer. */
    predicate Overruns(at: nat, n: nat)
      reads this`infile
    {
      Readable(n) > 0 && at + Readable(n) > BUFFER_SIZE
    }

    /** fread into the buffer: as many bytes as there are, up to n. */
    method FreadInto(at: nat, n: nat) returns (count: nat)
      requires Valid() && !Overruns(at, n)
      modifies this`infile, fileBuffer
      ensures count == old(Readable(n)) && infile == Drop(old(infile), n)
      ensures fileBuffer[..] == if count == 0 then old(fileBuffer[..])
                                else Written(old(fileBuffer[..]), at, old(infile)[..count])
    {
      ghost var was := fileBuffer[..];
      var data := Fread(n);
      for i := 0 to |data|
        invariant infile == Drop(old(infile), n)
        invariant forall k :: 0 <= k < BUFFER_SIZE ==>
                    fileBuffer[k] == if at <= k < at + i then data[k - at] else was[k]
      {
        fileBuffer[at + i] := data[i];
      }
      count := |data|;
      assert data == old(infile)[..count];
      assert fileBuffer[..] == if count == 0 then was else Written(was, at, data);
    }

    // ---------- writing ----------

    /** write_crt_header */
    method WriteCrtHeader(game: u8, exrom: u8)
      modifies this`outfile
      ensures outfile == Header(cartType, game, exrom, cartName)
    {
      var name := new u8[32](_ => 0);
      var endOfName := false;
      for i := 0 to 32
        invariant endOfName <==> i > |cartName|
        invariant forall k :: 0 <= k < i ==> name[k] == if k < |cartName| then Upper(cartName[k]) else 0
        invariant forall k :: i <= k < 32 ==> name[k] == 0
      {
        if endOfName {
          name[i] := 0;
        } else if i == |cartName| {
          endOfName := true;
        } else {
          name[i] := Upper(cartName[i]);
        }
      }
      assert name[..] == NameField(cartName);
      outfile := TAG + [0, 0, 0, 0x40, 1, 0, 0, Low(cartType), exrom, game, 0, 0, 0, 0, 0, 0] + name[..];
    }

    /** write_chip_package; it insists that the bank fits in a byte. */
    method WriteChipPackage(length: nat, bank: nat, address: nat, kind: u8)
      requires Valid() && bank < 0x100 && loadfileOffset + length <= BUFFER_SIZE
      modifies this`outfile, this`loadfileOffset
      ensures outfile == old(outfile) + Chip(fileBuffer[old(loadfileOffset)..][..length], bank, address, kind)
      ensures loadfileOffset == old(loadfileOffset) + length
    {
      hide Low, High;
      var header := CHIP + [0, 0, High(length + 0x10), Low(length + 0x10), 0, kind, 0, bank, High(address),
                            Low(address), High(length), Low(length)];
      outfile := outfile + header;
      var data := fileBuffer[loadfileOffset..loadfileOffset + length];
      assert data == fileBuffer[loadfileOffset..][..length];
      outfile := outfile + data;
      loadfileOffset := loadfileOffset + length;
    }

    /** The chips of save_regular_crt. */
    method WriteChips(length: nat, n: nat, address: nat, kind: u8)
      requires Valid() && n <= 0x100 && length > 0
      requires loadfileOffset + Total(length, n) <= BUFFER_SIZE
      modifies this`outfile, this`loadfileOffset
      ensures outfile == old(outfile) + Chips(fileBuffer[old(loadfileOffset)..], length, n, 0, address, kind)
      ensures loadfileOffset == old(loadfileOffset) + Total(length, n)
    {
      hide Chip;
      ghost var done: seq<u8> := [];
      ghost var all := Chips(fileBuffer[loadfileOffset..], length, n, 0, address, kind);
      for i := 0 to n
        invariant loadfileOffset + Total(length, n - i) == old(loadfileOffset) + Total(length, n)
        invariant outfile == old(outfile) + done
        invariant all == done + Chips(fileBuffer[loadfileOffset..], length, n - i, i, address, kind)
      {
        ghost var rest := fileBuffer[loadfileOffset..];
        ghost var chip := Chip(rest[..length], i, address, kind);
        assert rest[length..] == fileBuffer[loadfileOffset + length..];
        WriteChipPackage(length, i, address, kind);
        done := done + chip;
      }
    }

    /** save_regular_crt; banks == 0 means that the size of the image decides, half-size chips included. */
    method SaveRegularCrt(length: nat, banks: nat, address: nat, kind: u8, game: u8, exrom: u8)
      requires Valid() && length > 1 && NumberOfChips(length, banks) <= 0x100
      requires loadfileOffset + Total(ChipLength(length, banks), NumberOfChips(length, banks)) <= BUFFER_SIZE
      modifies this`outfile, this`loadfileOffset
      ensures outfile == Header(cartType, game, exrom, cartName)
                      + Chips(fileBuffer[old(loadfileOffset)..], ChipLength(length, banks),
                              NumberOfChips(length, banks), 0, address, kind)
      ensures HasBanks(outfile, old(fileBuffer[loadfileOffset..]), ChipLength(length, banks),
                       NumberOfChips(length, banks), address, kind)
    {
      BanksLaidOut(Header(cartType, game, exrom, cartName), fileBuffer[loadfileOffset..], ChipLength(length, banks),
                   NumberOfChips(length, banks), address, kind);
      hide HasBanks, Chips;
      WriteCrtHeader(game, exrom);
      var realBanks := banks;
      var chip := length;
      if realBanks == 0 {
        if loadfileSize == chip / 2 {
          chip := chip / 2;
        }
        realBanks := loadfileSize / chip;
      }
      WriteChips(chip, realBanks, address, kind);
    }

    function ChipLength(length: nat, banks: nat): (r: nat)
      requires length > 1
      reads this`loadfileSize
      ensures r > 0
    {
      if banks == 0 && loadfileSize == length / 2 then length / 2 else length
    }

    function NumberOfChips(length: nat, banks: nat): nat
      requires length > 1
      reads this`loadfileSize
    {
      if banks == 0 then loadfileSize / ChipLength(length, banks) else banks
    }

    method CheckEmptyEasyflash() returns (empty: bool)
      requires Valid() && loadfileOffset + HALF_BANK <= BUFFER_SIZE
      ensures empty == Empty(fileBuffer[loadfileOffset..loadfileOffset + HALF_BANK])
    {
      ghost var half := fileBuffer[loadfileOffset..loadfileOffset + HALF_BANK];
      for i := 0 to HALF_BANK
        invariant forall k :: 0 <= k < i ==> half[k] == 0xff
      {
        if fileBuffer[loadfileOffset + i] != 0xff {
          assert half[i] != 0xff;
          return false;
        }
      }
      return true;
    }
  
    /** save_easyflash_crt */
    method SaveEasyflashCrt()
      requires Valid() && loadfileOffset + EASYFLASH_SIZE <= BUFFER_SIZE && cartType == CARTRIDGE_EASYFLASH
      modifies this`outfile, this`loadfileOffset
      ensures outfile == EasyFile(fileBuffer[old(loadfileOffset)..][..EASYFLASH_SIZE], omitEmptyBanks, cartName)
      ensures HasHalves(outfile, old(fileBuffer[loadfileOffset..])[..EASYFLASH_SIZE], omitEmptyBanks)
    {
      hide EasyChips, HasHalves;
      HalvesLaidOut(cartName, fileBuffer[loadfileOffset..][..EASYFLASH_SIZE], omitEmptyBanks);
      WriteCrtHeader(0, 0);
      ghost var image := fileBuffer[loadfileOffset..][..EASYFLASH_SIZE];
      ghost var header := outfile;
      ghost var done: seq<u8> := [];
      for i := 0 to 64
        invariant loadfileOffset == old(loadfileOffset) + 2 * i * HALF_BANK
        invariant outfile == header + done
        invariant EasyChips(image, 0, omitEmptyBanks) == done + EasyChips(image, 2 * i, omitEmptyBanks)
      {
        for j := 0 to 2
          invariant loadfileOffset == old(loadfileOffset) + (2 * i + j) * HALF_BANK
          invariant outfile == header + done
          invariant EasyChips(image, 0, omitEmptyBanks) == done + EasyChips(image, 2 * i + j, omitEmptyBanks)
        {
          done := SaveHalf(image, i, j, old(loadfileOffset), header, done);
        }
      }
      NoMoreChips(image, omitEmptyBanks);
      assert done + [] == done;
    }

    /** One half-bank, unless it is empty and empty ones are omitted. */
    method SaveHalf(ghost image: seq<u8>, i: nat, j: nat, ghost start: nat, ghost header: seq<u8>, ghost done: seq<u8>)
      returns (ghost done': seq<u8>)
      requires Valid() && i < 64 && j < 2 && start + EASYFLASH_SIZE <= BUFFER_SIZE
      requires image == fileBuffer[start..][..EASYFLASH_SIZE] && loadfileOffset == start + (2 * i + j) * HALF_BANK
      requires outfile == header + done
      requires EasyChips(image, 0, omitEmptyBanks) == done + EasyChips(image, 2 * i + j, omitEmptyBanks)
      modifies this`outfile, this`loadfileOffset
      ensures loadfileOffset == old(loadfileOffset) + HALF_BANK
      ensures outfile == header + done'
      ensures EasyChips(image, 0, omitEmptyBanks) == done' + EasyChips(image, 2 * i + j + 1, omitEmptyBanks)
    {
      hide Chip, Empty, HalfBank;
      ghost var k := 2 * i + j;
      HalfOf(fileBuffer[..], start, image, k);
      assert fileBuffer[loadfileOffset..loadfileOffset + HALF_BANK] == fileBuffer[..][loadfileOffset..][..HALF_BANK];
      done' := done;
      var empty := CheckEmptyEasyflash();
      if omitEmptyBanks && empty {
        loadfileOffset := loadfileOffset + HALF_BANK;
      } else {
        WriteChipPackage(HALF_BANK, i, if j == 0 then 0x8000 else 0xa000, 2);
        assert k / 2 == i && (k % 2 == 0 <==> j == 0);
        done' := done + EasyChip(image, k);
      }
    }

    // ---------- reading ----------

    /** What the fields say about an image that was loaded. */
    ghost predicate Holds(banks: Banks)
      requires Valid()
      reads this, fileBuffer
    {
      banks.Banks? && loadfileSize == |banks.image| <= BUFFER_SIZE
      && fileBuffer[..loadfileSize] == banks.image && loadAddress == banks.address
    }

    /** What is still to come. */
    ghost function Ahead(skipped: nat): Banks
      requires Valid() && loadfileSize <= BUFFER_SIZE
      reads this, fileBuffer
    {
      ParseChips(infile, fileBuffer[..loadfileSize], loadAddress, skipped)
    }

    /** One round of the loop of load_all_banks. */
    method LoadChip(ghost skipped: nat) returns (status: Status, ghost skipped': nat)
      requires Valid() && loadfileSize <= BUFFER_SIZE
      modifies this`infile, this`loadfileSize, this`loadAddress, fileBuffer
      ensures loadfileSize <= BUFFER_SIZE && |infile| <= |old(infile)|
      ensures status == More ==> Ahead(skipped') == old(Ahead(skipped)) && |infile| < |old(infile)|
      ensures status == Failed ==> old(Ahead(skipped)).Rejected?
      ensures status == Overran ==> old(Ahead(skipped)).Overrun?
      ensures status == Done ==> Holds(old(Ahead(skipped)))
    {
      hide Append, ParseChips, ChunkLength, DataSize, FirstAddress;
      skipped' := skipped;
      ghost var file := infile;
      ghost var image := fileBuffer[..loadfileSize];
      ghost var address := loadAddress;
      if |infile| < 16 {
        ParseShort(file, image, address, skipped);
      }
      var header := Fread(16);
      if |header| != 16 {
        return if loadfileSize == 0 then Failed else Done, skipped;
      }
      var length, datasize := ChipSizes(header, file);
      if header[..4] != CHIP {
        ParseStops(file, image, address, skipped);
        return Failed, skipped;
      }
      NoteAddress(header);
      if datasize + 0x10 > length {
        ParseStops(file, image, address, skipped);
        return Failed, skipped;
      }
      ParseGoesOn(file, image, address, skipped);
      status := TakeData(datasize);
      if status != More {
        return;
      }
      var pad := length - (datasize + 0x10);
      if pad > 0 {
        infile := Drop(infile, pad);
      }
      skipped' := skipped + pad;
      assert file[16..][..datasize] == file[16..16 + datasize];
      assert infile == Drop(file, length);
    }

    /** The load address is that of the first chip. */
    method NoteAddress(header: seq<u8>)
      requires |header| == 16
      modifies this`loadAddress
      ensures loadAddress == FirstAddress(old(loadAddress), header)
    {
      if loadAddress == 0 {
        loadAddress := BigEndian([header[0xc], header[0xd]]);
      }
    }

    method ChipSizes(header: seq<u8>, ghost file: seq<u8>) returns (length: nat, datasize: nat)
      requires |file| >= 16 && header == file[..16]
      ensures length == ChunkLength(file) && datasize == DataSize(file) && header[..4] == file[..4]
    {
      hide Append;
      assert header[..4] == file[..4] && header[4..8] == file[4..8];
      length := BigEndian(header[4..8]);
      datasize := BigEndian([header[14], header[15]]);
    }

    /** The data of a chip goes behind what is there already. */
    method TakeData(n: nat) returns (status: Status)
      requires Valid() && loadfileSize <= BUFFER_SIZE
      modifies this`infile, this`loadfileSize, fileBuffer
      ensures status == if old(loadfileSize + Readable(n)) > BUFFER_SIZE then Overran
                        else if n <= |old(infile)| then More else Failed
      ensures loadfileSize == old(loadfileSize) + (if status == More then n else 0)
      ensures |infile| <= |old(infile)|
      ensures status == More ==> infile == Drop(old(infile), n) && loadfileSize <= BUFFER_SIZE
                                 && fileBuffer[..loadfileSize] == old(fileBuffer[..loadfileSize] + infile[..n])
    {
      hide Written;
      ghost var buffer := fileBuffer[..];
      if Overruns(loadfileSize, n) {
        return Overran;
      }
      var count := FreadInto(loadfileSize, n);
      if count != n {
        return Failed;
      }
      WrittenPrefix(buffer, loadfileSize, old(infile)[..n]);
      loadfileSize := loadfileSize + n;
      assert fileBuffer[..loadfileSize] == fileBuffer[..][..loadfileSize];
      return More;
    }

    /** load_all_banks for all types but EasyFlash. */
    method LoadAllBanks() returns (status: Status)
      requires Valid() && loadfileSize == 0
      modifies this`infile, this`loadfileSize, this`loadAddress, fileBuffer
      ensures status == StatusOf(old(ParseChips(infile, [], loadAddress, 0)))
      ensures status == Done ==> Holds(old(ParseChips(infile, [], loadAddress, 0)))
    {
      hide ParseChips;
      ghost var skipped: nat := 0;
      status := More;
      assert fileBuffer[..0] == [];
      ghost var result := Ahead(0);
      while status == More
        invariant loadfileSize <= BUFFER_SIZE
        invariant status == More ==> Ahead(skipped) == result
        invariant status != More ==> status == StatusOf(result)
        invariant status == Done ==> Holds(result)
        decreases |infile|, if status == More then 1 else 0
      {
        status, skipped := LoadChip(skipped);
      }
    }

    /** What is still to come in an EasyFlash file. */
    ghost function AheadEasy(any: bool): Banks
      requires Valid()
      reads this, fileBuffer
    {
      ParseEasy(infile, fileBuffer[..EASYFLASH_SIZE], any, loadAddress)
    }

    /** One round of the loop of load_easyflash_crt: the half-bank goes where its bank and address say. */
    method LoadHalf(any: bool) returns (status: Status)
      requires Valid() && (any <==> loadfileSize != 0)
      requires any ==> loadfileSize == EASYFLASH_SIZE
      modifies this`infile, this`loadfileSize, this`loadAddress, fileBuffer
      ensures |infile| <= |old(infile)|
      ensures status == More ==> AheadEasy(true) == old(AheadEasy(any)) && |infile| < |old(infile)|
      ensures status == More || status == Done ==> loadfileSize == EASYFLASH_SIZE
      ensures status == Failed ==> old(AheadEasy(any)).Rejected?
      ensures status == Overran ==> old(AheadEasy(any)).Overrun?
      ensures status == Done ==> Holds(old(AheadEasy(any)))
    {
      hide Append, Written, BankOf, FirstAddress;
      ghost var file := infile;
      var header := Fread(16);
      if |header| != 16 {
        return if loadfileSize == 0 then Failed else Done;
      }
      loadfileSize := EASYFLASH_SIZE;
      assert header == file[..16] && header[..4] == file[..4];
      if header[..4] != CHIP {
        return Failed;
      }
      NoteAddress(header);
      var at := EasyPosition(header);
      ghost var buffer := fileBuffer[..];
      if Overruns(at, HALF_BANK) {
        return Overran;
      }
      var count := FreadInto(at, HALF_BANK);
      if count != HALF_BANK {
        return Failed;
      }
      assert file[16..][..HALF_BANK] == file[16..16 + HALF_BANK];
      HalfFits(at);
      WrittenWithin(buffer, EASYFLASH_SIZE, at, file[16..16 + HALF_BANK]);
      assert fileBuffer[..EASYFLASH_SIZE] == fileBuffer[..][..EASYFLASH_SIZE];
      assert buffer[..EASYFLASH_SIZE] == old(fileBuffer[..EASYFLASH_SIZE]);
      assert infile == file[16 + HALF_BANK..];
      status := More;
    }

    /** load_easyflash_crt */
    method LoadEasyflashCrt() returns (status: Status)
      requires Valid() && loadfileSize == 0
      modifies this`infile, this`loadfileSize, this`loadAddress, fileBuffer
      ensures status == StatusOf(old(ParseEasy(infile, Blank(EASYFLASH_SIZE), false, loadAddress)))
      ensures status == Done ==> Holds(old(ParseEasy(infile, Blank(EASYFLASH_SIZE), false, loadAddress)))
    {
      hide ParseEasy;
      for i := 0 to EASYFLASH_SIZE
        invariant infile == old(infile) && loadAddress == old(loadAddress) && loadfileSize == 0
        invariant forall k :: 0 <= k < i ==> fileBuffer[k] == 0xff
      {
        fileBuffer[i] := 0xff;
      }
      assert fileBuffer[..EASYFLASH_SIZE] == Blank(EASYFLASH_SIZE);
      status := More;
      var any := false;
      ghost var result := AheadEasy(false);
      while status == More
        invariant status == More ==> AheadEasy(any) == result && (any <==> loadfileSize != 0)
        invariant status == More && any ==> loadfileSize == EASYFLASH_SIZE
        invariant status != More ==> status == StatusOf(result)
        invariant status == Done ==> Holds(result)
        decreases |infile|, if status == More then 1 else 0
      {
        status := LoadHalf(any);
        any := true;
      }
    }

    // ---------- the input file ----------

    /** load_input_file, without repair mode and padding. The buffer first holds the beginning of the file. */
    method LoadInputFile(file: seq<u8>) returns (status: Status)
      requires Valid()
      modifies this`infile, this`loadfileSize, this`loadfileOffset, this`loadAddress, this`isUltimax, this`loadedType
      modifies fileBuffer
      ensures var outcome := Load(file, old(loadAddress));
              && (outcome.Unreadable? ==> status == Failed)
              && (outcome.Loaded? ==> status == StatusOf(outcome.banks))
              && (outcome.Loaded? && status == Done ==>
                    loadedType == outcome.cartType && isUltimax == outcome.ultimax && Holds(outcome.banks)
                    && loadfileOffset == 0)
              && (outcome.NotCrt? ==>
                    var size := if |file| <= BUFFER_SIZE then |file| else BUFFER_SIZE;
                    && status == (if RawOffset(size) >= 0 then Done else Failed)
                    && (status == Done ==> loadfileOffset == RawOffset(size) && loadfileSize == size - loadfileOffset
                                           && fileBuffer[..size] == file[..size]))
    {
      hide Load, Written, RawOffset;
      HowLoadBegins(file, loadAddress);
      loadfileOffset := 0;
      infile := file;
      var count := FreadInto(0, 16);
      if count != 16 {
        return Failed;
      }
      WrittenPrefix(old(fileBuffer[..]), 0, file[..16]);
      assert fileBuffer[..16] == file[..16];
      if fileBuffer[..16] != TAG {
        var ok := LoadBinary(file);
        return if ok then Done else Failed;
      }
      status := LoadCrt(file);
    }

    /** The rest of a file that starts with the tag. */
    method LoadCrt(file: seq<u8>) returns (status: Status)
      requires Valid() && |file| >= 16 && infile == file[16..] && fileBuffer[..16] == file[..16] == TAG
      modifies this`infile, this`loadfileSize, this`loadAddress, this`isUltimax, this`loadedType, fileBuffer
      ensures var outcome := Load(file, old(loadAddress));
              && (outcome.Unreadable? ==> status == Failed)
              && (outcome.Loaded? ==> status == StatusOf(outcome.banks))
              && (outcome.Loaded? && status == Done ==>
                    loadedType == outcome.cartType && isUltimax == outcome.ultimax && Holds(outcome.banks))
    {
      hide ParseChips, ParseEasy, Append;
      var rest := Fread(0x30);
      if |rest| != 0x30 {
        return Failed;
      }
      var header := fileBuffer[..16] + rest;
      assert header == file[..0x40] && header[0x10..0x14] == file[0x10..0x14];
      if header[0x10..0x14] != [0, 0, 0, 0x40] {
        return Failed;
      }
      isUltimax := header[0x18] == 1 && header[0x19] == 0;
      loadedType := BigEndian([header[0x16], header[0x17]]);
      if header[0x17] >= 0x80 {
        loadedType := loadedType - 0x1_0000;
      }
      assert loadedType == TypeOf(file);
      if !(0 <= loadedType <= CARTRIDGE_LAST) {
        return Failed;
      }
      loadfileSize := 0;
      assert infile == file[0x40..];
      if loadedType == CARTRIDGE_EASYFLASH {
        status := LoadEasyflashCrt();
      } else {
        status := LoadAllBanks();
      }
    }

    /** The rest of a file that does not start with the tag. */
    method LoadBinary(file: seq<u8>) returns (ok: bool)
      requires Valid() && |file| >= 16 && infile == file[16..] && fileBuffer[..16] == file[..16] && loadfileOffset == 0
      modifies this`infile, this`loadfileSize, this`loadfileOffset, fileBuffer
      ensures var size := if |file| <= BUFFER_SIZE then |file| else BUFFER_SIZE;
              && ok == (RawOffset(size) >= 0)
              && (ok ==> loadfileOffset == RawOffset(size) && loadfileSize == size - loadfileOffset
                         && fileBuffer[..size] == file[..size])
    {
      hide Written;
      ghost var buffer := fileBuffer[..];
      var count := FreadInto(0x10, 0x10_0000 - 14);
      loadfileSize := count + 0x10;
      WrittenPrefix(buffer, 0x10, file[16..][..count]);
      assert fileBuffer[..loadfileSize] == fileBuffer[..][..loadfileSize];
      assert file[..16] + file[16..][..count] == file[..loadfileSize];
      if loadfileSize in SIZES {
        return true;
      } else if loadfileSize - 2 in SIZES {
        loadfileSize := loadfileSize - 2;
        loadfileOffset := 2;
        return true;
      } else if loadfileSize == 0x8004 {
        loadfileSize := loadfileSize - 4;
        loadfileOffset := 4;
        return true;
      }
      return false;
    }

    // ---------- there and back ----------

    /** One run of the program saves a regular cartridge, another loads the file: the buffer holds the payload again. */
    method SaveThenLoad(length: nat, banks: nat, address: u16, kind: u8, game: u8, exrom: u8)
      returns (next: Converter, status: Status)
      requires Valid() && length > 1 && 0 < NumberOfChips(length, banks) <= 0x100
      requires loadfileOffset + Total(ChipLength(length, banks), NumberOfChips(length, banks)) <= BUFFER_SIZE
      requires ChipLength(length, banks) <= 0xffef
      requires 0 <= cartType <= CARTRIDGE_LAST && cartType != CARTRIDGE_EASYFLASH
      modifies this`outfile, this`loadfileOffset
      ensures fresh(next) && next.Valid() && status == Done
      ensures next.loadedType == cartType && next.isUltimax == (exrom == 1 && game == 0) && next.loadAddress == address
      ensures next.loadfileOffset == 0
              && next.loadfileSize == Total(ChipLength(length, banks), NumberOfChips(length, banks))
      ensures next.fileBuffer[..next.loadfileSize] == old(fileBuffer[loadfileOffset..])[..next.loadfileSize]
    {
      hide Load, Chips, Header;
      ghost var buffer := fileBuffer[loadfileOffset..];
      ghost var n := NumberOfChips(length, banks);
      TotalIsProduct(ChipLength(length, banks), n);
      SavedBufferLoads(buffer, ChipLength(length, banks), n, address, kind, cartType, game, exrom, cartName);
      SaveRegularCrt(length, banks, address, kind, game, exrom);
      next := new Converter();
      status := next.LoadInputFile(outfile);
    }

    /** The same for EasyFlash: the megabyte comes back, unless there was nothing but omitted half-banks in it. */
    method SaveThenLoadEasyflash() returns (next: Converter, status: Status)
      requires Valid() && loadfileOffset + EASYFLASH_SIZE <= BUFFER_SIZE && cartType == CARTRIDGE_EASYFLASH
      modifies this`outfile, this`loadfileOffset
      ensures fresh(next) && next.Valid()
      ensures var image := old(fileBuffer[loadfileOffset..])[..EASYFLASH_SIZE];
              && status == (if omitEmptyBanks && AllEmpty(image, 0) then Failed else Done)
              && (status == Done ==>
                    next.loadedType == CARTRIDGE_EASYFLASH && next.loadfileOffset == 0
                    && next.loadfileSize == EASYFLASH_SIZE && next.fileBuffer[..EASYFLASH_SIZE] == image)
    {
      hide Load, EasyFile, AllEmpty;
      ghost var image := fileBuffer[loadfileOffset..][..EASYFLASH_SIZE];
      EasyFlashRoundTrip(image, omitEmptyBanks, cartName);
      SaveEasyflashCrt();
      next := new Converter();
      status := next.LoadInputFile(outfile);
    }
  }

  /** How a round of a loading loop ended. The model stops where the program would write past its buffer. */
  datatype Status = More | Done | Failed | Overran

  function StatusOf(banks: Banks): Status {
    match banks
    case Banks(_, _, _) => Done
    case Rejected => Failed
    case Overrun => Overran
  }

  lemma HalfFits(at: nat)
    requires at + HALF_BANK <= BUFFER_SIZE && at % HALF_BANK == 0
    ensures at + HALF_BANK <= EASYFLASH_SIZE
  {
  }

  lemma HalfOf(buffer: seq<u8>, start: nat, image: seq<u8>, k: nat)
    requires start + EASYFLASH_SIZE <= |buffer| && image == buffer[start..][..EASYFLASH_SIZE] && k < 128
    ensures buffer[start + k * HALF_BANK..][..HALF_BANK] == HalfBank(image, k)
  {
  }

  lemma NoMoreChips(image: seq<u8>, omit: bool)
    requires |image| == EASYFLASH_SIZE
    ensures EasyChips(image, 128, omit) == []
  {
  }

  lemma WrittenWithin(buffer: seq<u8>, size: nat, at: nat, data: seq<u8>)
    requires at + |data| <= size <= |buffer|
    ensures Written(buffer, at, data)[..size] == Written(buffer[..size], at, data)
  {
  }

  lemma HowLoadBegins(file: seq<u8>, address: nat)
    ensures |file| < 16 ==> Load(file, address) == Unreadable
    ensures |file| >= 16 && file[..16] != TAG ==> Load(file, address) == NotCrt
    ensures |file| >= 16 && file[..16] == TAG ==> Load(file, address) != NotCrt
  {
    hide ParseChips, ParseEasy, TypeOf;
  }
}
