/** The converter itself (vice/src/cartconv.c): a file buffer with an offset and a size, filled
    by the loaders and emptied by the savers. */
module CartConverter {
  import opened Bytes
  import opened CrtFormat
  import opened EasyFlashFormat
  import opened CrtFile
  import opened DelaCartridge

  /** `Stray` stands for a write past the end of the buffer. */
  datatype Outcome = Done | Failed | Stray

  class Converter {
    const filebuffer: array<byte>
    const headerbuffer: array<byte>
    var loadfileOffset: nat
    var loadfileSize: nat
    var loadAddress: int
    var loadfileIsCrt: bool
    var loadfileIsUltimax: bool
    var loadfileCartType: int
    var cartType: byte
    var cartName: seq<byte>
    var omitEmptyBanks: bool
    var inputPadding: bool
    var convertToPrg: bool
    var infile: seq<byte>
    var inpos: nat
    var outfile: seq<byte>

    constructor (cartType: byte, cartName: seq<byte>, omitEmptyBanks: bool, inputPadding: bool, convertToPrg: bool)
      ensures Valid() && fresh(filebuffer) && fresh(headerbuffer)
      ensures this.cartType == cartType && this.cartName == cartName && this.omitEmptyBanks == omitEmptyBanks
      ensures this.inputPadding == inputPadding && this.convertToPrg == convertToPrg
      ensures loadAddress == 0 && outfile == []
    {
      this.cartType, this.cartName, this.omitEmptyBanks := cartType, cartName, omitEmptyBanks;
      this.inputPadding, this.convertToPrg := inputPadding, convertToPrg;
      filebuffer := new byte[BUFFER_SIZE](_ => 0);
      headerbuffer := new byte[0x40](_ => 0);
      loadfileOffset, loadfileSize, loadAddress := 0, 0, 0;
      loadfileIsCrt, loadfileIsUltimax, loadfileCartType := false, false, 0;
      infile, inpos, outfile := [], 0, [];
    }

    ghost predicate Valid() {
      filebuffer != headerbuffer && filebuffer.Length == BUFFER_SIZE && headerbuffer.Length == 0x40
    }

    /** The loaded image. */
    ghost function Window(): seq<byte>
      requires Valid() && loadfileOffset + loadfileSize <= BUFFER_SIZE
      reads this`loadfileOffset, this`loadfileSize, filebuffer
    {
      filebuffer[loadfileOffset..loadfileOffset + loadfileSize]
    }

    /** What is left to read; seeking past the end leaves nothing. */
    ghost function Rest(): seq<byte>
      reads this`infile, this`inpos
    {
      infile[Min(inpos, |infile|)..]
    }

    // ----- Reading -----

    /** `fread` into a buffer: as many bytes as there are, up to `n`. */
    method Fread(buffer: array<byte>, at: nat, n: nat) returns (got: nat)
      requires at + Min(n, |Rest()|) <= buffer.Length
      modifies buffer, this`inpos
      ensures got == Min(n, old(|Rest()|)) && Rest() == old(Rest())[got..]
      ensures inpos == Min(old(inpos), |infile|) + got
      ensures buffer[..] == Overwrite(old(buffer[..]), at, old(Rest())[..got])
    {
      var start := Min(inpos, |infile|);
      got := Min(n, |infile| - start);
      forall i | 0 <= i < got {
        buffer[at + i] := infile[start + i];
      }
      inpos := start + got;
      assert buffer[..] == Overwrite(old(buffer[..]), at, old(Rest())[..got]);
    }

    /** The 16 bytes of a chip header, or fewer at the end of the file. */
    method FreadChip() returns (chipbuffer: seq<byte>)
      modifies this`inpos
      ensures chipbuffer == old(Rest())[..Min(16, old(|Rest()|))] && Rest() == old(Rest())[|chipbuffer|..]
    {
      var start := Min(inpos, |infile|);
      var got := Min(16, |infile| - start);
      chipbuffer := infile[start..start + got];
      inpos := start + got;
    }

    /** `fseek` past the padding, perhaps beyond the end of the file. */
    method Seek(pad: nat)
      modifies this`inpos
      ensures Rest() == old(Rest())[Min(pad, |old(Rest())|)..]
    {
      Skipped(infile, Min(inpos, |infile|), pad);
      if pad > 0 {
        inpos := inpos + pad;
      }
    }

    /** The data of a packet, and the padding behind it. */
    method LoadData(length: nat, datasize: nat) returns (s: Turn)
      requires Valid() && loadfileSize <= BUFFER_SIZE && datasize + 0x10 <= length
      modifies this`inpos, this`loadfileSize, filebuffer
      ensures var b := old(Rest());
              if old(loadfileSize) + Min(datasize, |b|) > BUFFER_SIZE then s == Lost
              else if |b| < datasize then s == Break
              else
                && s == Again && Rest() == b[Min(length - 0x10, |b|)..]
                && loadfileSize == old(loadfileSize) + datasize <= BUFFER_SIZE
                && filebuffer[..loadfileSize] == old(filebuffer[..loadfileSize]) + b[..datasize]
    {
      ghost var b := Rest();
      if loadfileSize + Min(datasize, |infile| - Min(inpos, |infile|)) > filebuffer.Length {
        return Lost;
      }
      var got := ReadBehind(datasize);
      if got != datasize {
        return Break;
      }
      hide Rest;
      var pad := length - (datasize + 0x10);
      Skipped(b, datasize, pad);
      Seek(pad);
      loadfileSize := loadfileSize + datasize;
      s := Again;
    }

    /** `fread` behind what is loaded. */
    method ReadBehind(n: nat) returns (got: nat)
      requires Valid() && loadfileSize + Min(n, |Rest()|) <= BUFFER_SIZE
      modifies this`inpos, filebuffer
      ensures got == Min(n, old(|Rest()|)) && Rest() == old(Rest())[got..]
      ensures filebuffer[..loadfileSize + got] == old(filebuffer[..loadfileSize]) + old(Rest())[..got]
    {
      ghost var b, before := Rest(), filebuffer[..];
      got := Fread(filebuffer, loadfileSize, n);
      OverwrittenPrefix(before, loadfileSize, b[..got]);
      hide Overwrite, Rest;
      assert before[..loadfileSize] == old(filebuffer[..loadfileSize]);
      assert filebuffer[..loadfileSize + got] == filebuffer[..][..loadfileSize + got];
    }

    /** One turn of the loading loop. */
    method LoadBank() returns (s: Turn)
      requires Valid() && loadfileSize <= BUFFER_SIZE
      modifies this`inpos, this`loadfileSize, this`loadAddress, filebuffer
      ensures match ReadOne(old(Rest()), BUFFER_SIZE - old(loadfileSize))
              case End => s == Ended && unchanged(`loadfileSize) && unchanged(`loadAddress) && unchanged(filebuffer)
              case Broken => s == Break
              case TooLong => s == Lost
              case More(c, rest) =>
                && s == Again && Rest() == rest
                && loadfileSize == old(loadfileSize) + |c.data| <= BUFFER_SIZE
                && filebuffer[..loadfileSize] == old(filebuffer[..loadfileSize]) + c.data
                && loadAddress == if old(loadAddress) == 0 then c.address else old(loadAddress)
    {
      ghost var b := Rest();
      var chipbuffer := FreadChip();
      if |chipbuffer| != 16 {
        return Ended;
      }
      assert chipbuffer == b[..16];
      assert b[..4] == chipbuffer[..4] && b[4..8] == chipbuffer[4..8] && b[12..14] == chipbuffer[12..14]
          && b[14..16] == chipbuffer[14..16];
      if chipbuffer[..4] != TAG {
        return Break;
      }
      if loadAddress == 0 {
        loadAddress := BigEndian(chipbuffer[12..14]);
      }
      var length, datasize := BigEndian(chipbuffer[4..8]), BigEndian(chipbuffer[14..16]);
      if datasize + 0x10 > length {
        return Break;
      }
      assert length - 16 >= datasize && |b| >= 16;
      assert b[16..][..Min(datasize, |b| - 16)] == b[16..16 + Min(datasize, |b| - 16)];
      assert b[16..][Min(length - 16, |b| - 16)..] == b[Min(length, |b|)..];
      s := LoadData(length, datasize);
    }

    method LoadAllBanks() returns (r: Outcome)
      requires Valid() && loadfileSize == 0
      modifies this`inpos, this`loadfileSize, this`loadAddress, filebuffer
      ensures match Read(old(Rest()), BUFFER_SIZE)
              case Overrun => r == Stray
              case Bad => r == Failed
              case Chips(cs) =>
                && (r == if Payload(cs) == [] then Failed else Done)
                && loadfileSize == |Payload(cs)| <= BUFFER_SIZE && filebuffer[..loadfileSize] == Payload(cs)
                && loadAddress == FirstAddress(cs, old(loadAddress))
    {
      hide ReadOne, Rest, Read;
      ghost var cs: seq<Chip> := [];
      ghost var whole := Rest();
      assert Prefixed([], Read(whole, BUFFER_SIZE)) == Read(whole, BUFFER_SIZE);
      while true
        invariant loadfileSize == |Payload(cs)| <= BUFFER_SIZE && filebuffer[..loadfileSize] == Payload(cs)
        invariant Read(whole, BUFFER_SIZE) == Prefixed(cs, Read(Rest(), BUFFER_SIZE - loadfileSize))
        invariant loadAddress == FirstAddress(cs, old(loadAddress))
        decreases |Rest()|
      {
        ghost var b := Rest();
        OneMoreChip(cs, b, BUFFER_SIZE, old(loadAddress));
        var s := LoadBank();
        match s {
          case Ended =>
            return if loadfileSize == 0 then Failed else Done;
          case Break =>
            return Failed;
          case Lost =>
            return Stray;
          case Again =>
            cs := cs + [ReadOne(b, BUFFER_SIZE - |Payload(cs)|).chip];
        }
      }
    }

    /** One turn of the EasyFlash loop, which puts each chip where its header says. */
    method LoadFlashChip() returns (s: Turn)
      requires Valid()
      modifies this`inpos, this`loadfileSize, this`loadAddress, filebuffer
      ensures var b := old(Rest());
              if |b| < 16 then
                s == Ended && unchanged(`loadfileSize) && unchanged(`loadAddress) && unchanged(filebuffer)
              else if b[..4] != TAG then s == Break
              else if Place(b) + Min(CHIP_SIZE, |b| - 16) > BUFFER_SIZE then s == Lost
              else if |b| - 16 < CHIP_SIZE then s == Break
              else
                && s == Again && Rest() == b[16 + CHIP_SIZE..] && loadfileSize == IMAGE_SIZE
                && filebuffer[..] == Overwrite(old(filebuffer[..]), Place(b), b[16..16 + CHIP_SIZE])
                && loadAddress == if old(loadAddress) == 0 then BigEndian(b[12..14]) else old(loadAddress)
    {
      ghost var b := Rest();
      var chipbuffer := FreadChip();
      if |chipbuffer| != 16 {
        return Ended;
      }
      assert chipbuffer == b[..16];
      assert b[..4] == chipbuffer[..4] && b[12..14] == chipbuffer[12..14] && Place(b) == Place(chipbuffer);
      loadfileSize := 0x10_0000;
      if chipbuffer[..4] != TAG {
        return Break;
      }
      if loadAddress == 0 {
        loadAddress := BigEndian(chipbuffer[12..14]);
      }
      var loadPosition := Place(chipbuffer);
      hide Place, BigEndian, Overwrite;
      if loadPosition + Min(0x2000, |infile| - Min(inpos, |infile|)) > filebuffer.Length {
        return Lost;
      }
      assert b[16..][..Min(0x2000, |b| - 16)] == b[16..16 + Min(0x2000, |b| - 16)];
      assert |b| - 16 >= 0x2000 ==> b[16..][0x2000..] == b[16 + 0x2000..];
      var got := Fread(filebuffer, loadPosition, 0x2000);
      s := if got != 0x2000 then Break else Again;
    }

    method LoadEasyflash() returns (r: Outcome)
      requires Valid() && loadfileSize == 0
      modifies this`inpos, this`loadfileSize, this`loadAddress, filebuffer
      ensures match ReadFlash(old(Rest()), Erased(IMAGE_SIZE) + old(filebuffer[IMAGE_SIZE..]), false, old(loadAddress))
              case FlashOverrun => r == Stray
              case FlashBad => r == Failed
              case Flash(buffer, any, address) =>
                && r == (if any then Done else Failed)
                && (any ==> loadfileSize == IMAGE_SIZE) && filebuffer[..] == buffer && loadAddress == address
    {
      ghost var whole, start := Rest(), Erased(IMAGE_SIZE) + filebuffer[IMAGE_SIZE..];
      forall i | 0 <= i < 0x10_0000 {
        filebuffer[i] := 0xff;
      }
      assert filebuffer[..] == start;
      ghost var any := false;
      hide Rest, Overwrite, Place, BigEndian;
      while true
        invariant loadfileSize == if any then IMAGE_SIZE else 0
        invariant ReadFlash(whole, start, false, old(loadAddress)) == ReadFlash(Rest(), filebuffer[..], any, loadAddress)
        decreases |Rest()|
      {
        var s := LoadFlashChip();
        match s {
          case Ended =>
            return if loadfileSize == 0 then Failed else Done;
          case Break =>
            return Failed;
          case Lost =>
            return Stray;
          case Again =>
            any := true;
        }
      }
    }

    method LoadBody() returns (r: Outcome)
      requires Valid() && loadfileSize == 0 && loadfileCartType >= 0
      modifies this`inpos, this`loadfileSize, this`loadAddress, filebuffer
      ensures match CrtFile.LoadBody(old(Rest()), loadfileCartType, loadfileIsUltimax, old(loadAddress))
              case Rejected => r == Failed
              case Undefined => r == Stray
              case Binary(_) => false
              case Crt(data, _, _, address) =>
                && r == Done && loadfileSize == |data| <= BUFFER_SIZE && filebuffer[..loadfileSize] == data
                && loadAddress == address
    {
      if loadfileCartType == EASYFLASH {
        ghost var b, a, spare := Rest(), loadAddress, filebuffer[IMAGE_SIZE..];
        ghost var blank := Erased(BUFFER_SIZE - IMAGE_SIZE);
        r := LoadEasyflash();
        SpareStays(b, Erased(IMAGE_SIZE), spare, blank, false, a);
        assert Erased(IMAGE_SIZE) + blank == Erased(BUFFER_SIZE);
        assert filebuffer[..][..IMAGE_SIZE] == filebuffer[..IMAGE_SIZE];
      } else {
        r := LoadAllBanks();
      }
    }

    /** The rest of a file that is no CRT. */
    method LoadRaw() returns (r: Outcome)
      requires Valid() && loadfileOffset == 0 && inpos == 16 <= |infile| && filebuffer[..16] == infile[..16]
      modifies this`inpos, this`loadfileSize, this`loadfileOffset, filebuffer
      ensures match LoadBinary(infile, inputPadding)
              case Binary(data) =>
                r == Done && loadfileOffset + loadfileSize <= BUFFER_SIZE && Window() == data
              case Rejected => r == Failed
              case _ => false
    {
      var got := Fread(filebuffer, 0x10, 0x10_0000 - 14);
      loadfileSize := got + 0x10;
      ghost var n := Min(|infile|, BUFFER_SIZE);
      assert loadfileSize == n && filebuffer[..n] == infile[..n];
      r := Done;
      if KnownSize(loadfileSize) {
        loadfileOffset := 0;
      } else if KnownSize(loadfileSize - 2) {
        loadfileSize := loadfileSize - 2;
        loadfileOffset := 2;
        assert filebuffer[2..n] == filebuffer[..n][2..];
      } else if loadfileSize == 0x8004 {
        loadfileSize := loadfileSize - 4;
        loadfileOffset := 4;
        assert filebuffer[4..n] == filebuffer[..n][4..];
      } else if !inputPadding {
        r := Failed;
      }
    }

    /** The CRT header behind the signature. */
    method ReadHeader() returns (ok: bool)
      requires Valid() && inpos == 16 <= |infile|
      modifies this`inpos, this`loadfileIsUltimax, this`loadfileCartType, headerbuffer
      ensures ok == (|infile| >= 64 && infile[0x10..0x14] == [0, 0, 0, 0x40] && 0 <= TypeField(infile) <= LAST_TYPE)
      ensures ok ==> headerbuffer[0x10..] == infile[0x10..0x40] && Rest() == infile[0x40..]
                     && loadfileCartType == TypeField(infile)
                     && loadfileIsUltimax == (infile[0x18] == 1 && infile[0x19] == 0)
    {
      var got := Fread(headerbuffer, 0x10, 0x30);
      if got != 0x30 {
        return false;
      }
      assert headerbuffer[..][0x10..] == infile[0x10..0x40];
      HeaderCells(headerbuffer[..], infile);
      if headerbuffer[0x10] != 0 || headerbuffer[0x11] != 0 || headerbuffer[0x12] != 0 || headerbuffer[0x13] != 0x40 {
        return false;
      }
      loadfileIsUltimax := headerbuffer[0x18] == 1 && headerbuffer[0x19] == 0;
      var lo: int := headerbuffer[0x17];
      var hi: int := headerbuffer[0x16];
      loadfileCartType := lo + 0x100 * hi;
      if lo >= 0x80 {
        loadfileCartType := loadfileCartType - 0x1_0000;
      }
      ok := 0 <= loadfileCartType <= LAST_TYPE;
    }

    method LoadCrtFile() returns (r: Outcome)
      requires Valid() && inpos == 16 <= |infile| && loadfileOffset == 0
      modifies this`inpos, this`loadfileSize, this`loadAddress
      modifies this`loadfileIsCrt, this`loadfileIsUltimax, this`loadfileCartType, filebuffer, headerbuffer
      ensures match LoadCrt(infile, old(loadAddress))
              case Rejected => r == Failed
              case Undefined => r == Stray
              case Binary(_) => false
              case Crt(data, cartType, ultimax, address) =>
                && r == Done && loadfileSize <= BUFFER_SIZE && Window() == data && loadfileIsCrt
                && loadfileCartType == cartType && loadfileIsUltimax == ultimax && loadAddress == address
                && |infile| >= 64 && headerbuffer[0x10..] == infile[0x10..0x40]
    {
      hide TypeField, Rest;
      loadfileIsCrt := true;
      var ok := ReadHeader();
      if !ok {
        return Failed;
      }
      loadfileSize := 0;
      r := LoadBody();
      hide CrtFile.LoadBody;
    }

    method LoadInputFile(file: File) returns (r: Outcome)
      requires Valid()
      modifies this`infile, this`inpos, this`loadfileOffset, this`loadfileSize, this`loadAddress
      modifies this`loadfileIsCrt, this`loadfileIsUltimax, this`loadfileCartType, filebuffer, headerbuffer
      ensures match Load(file, inputPadding, old(loadAddress))
              case Rejected => r == Failed
              case Undefined => r == Stray
              case Binary(data) =>
                && r == Done && loadfileOffset + loadfileSize <= BUFFER_SIZE && Window() == data && !loadfileIsCrt
                && unchanged(`loadAddress) && unchanged(`loadfileIsUltimax) && unchanged(`loadfileCartType)
              case Crt(data, cartType, ultimax, address) =>
                && r == Done && loadfileOffset == 0 && loadfileSize <= BUFFER_SIZE && Window() == data && loadfileIsCrt
                && loadfileCartType == cartType && loadfileIsUltimax == ultimax && loadAddress == address
                && headerbuffer[0x10..] == file.bytes[0x10..0x40]
    {
      loadfileOffset := 0;
      if file.Absent? {
        return Failed;
      }
      infile, inpos := file.bytes, 0;
      var got := Fread(filebuffer, 0, 16);
      if got != 16 {
        return Failed;
      }
      assert filebuffer[..][..16] == infile[..16];
      assert filebuffer[..16] == infile[..16];
      if filebuffer[..16] == SIGNATURE {
        r := LoadCrtFile();
      } else {
        loadfileIsCrt := false;
        r := LoadRaw();
      }
    }

    // ----- Writing -----

    /** The name in upper case, zeros behind it. */
    static method FillName(header: array<byte>, name: seq<byte>)
      requires header.Length == 0x40
      modifies header
      ensures header[..] == old(header[..0x20]) + NameField(name)
    {
      var endofname := false;
      var i := 0;
      while i < 32
        invariant 0 <= i <= 32 && header[..0x20] == old(header[..0x20])
        invariant endofname == (i > |name|)
        invariant header[0x20..0x20 + i] == NameField(name)[..i]
      {
        if endofname {
          header[0x20 + i] := 0;
        } else if i == |name| {
          endofname := true;
          header[0x20 + i] := 0;
        } else {
          header[0x20 + i] := Upper(name[i]);
        }
        assert NameField(name)[..i + 1] == NameField(name)[..i] + [header[0x20 + i]];
        i := i + 1;
      }
      assert header[..] == header[..0x20] + header[0x20..0x20 + 32];
    }

    method WriteCrtHeader(gameline: byte, exromline: byte)
      requires Valid()
      modifies this`outfile
      ensures outfile == HeaderBytes(cartType, cartName, gameline, exromline)
    {
      var fields := SIGNATURE + [0, 0, 0, 0x40, 1, 0, 0, cartType, exromline, gameline, 0, 0, 0, 0, 0, 0];
      var header := new byte[0x40](i requires 0 <= i < 0x40 => if i < 0x20 then fields[i] else 0);
      assert header[..0x20] == fields;
      FillName(header, cartName);
      outfile := header[..];
    }

    method WriteChipPackage(length: nat, bankint: nat, address: nat, kind: byte)
      requires Valid() && bankint < 0x100 && loadfileOffset + length <= BUFFER_SIZE
      modifies this`outfile, this`loadfileOffset
      ensures var data := filebuffer[old(loadfileOffset)..old(loadfileOffset) + length];
              outfile == old(outfile) + Written(length, bankint, address, kind, data)
      ensures loadfileOffset == old(loadfileOffset) + length
    {
      var chipHeader := TAG + [0, 0, U8((length + 0x10) / 0x100), (length + 0x10) % 0x100, 0, kind, 0, bankint,
                               U8(address / 0x100), address % 0x100, U8(length / 0x100), length % 0x100];
      var data := filebuffer[loadfileOffset..loadfileOffset + length];
      outfile := outfile + chipHeader;
      outfile := outfile + data;
      Assoc(old(outfile), chipHeader, data);
      loadfileOffset := loadfileOffset + length;
    }

    /** Banks 0 to `k - 1`, one packet each. */
    method SaveBanks(length: nat, k: nat, address: nat, kind: byte)
      requires Valid() && k <= 0x100 && loadfileOffset + Total(k, length) <= BUFFER_SIZE
      modifies this`outfile, this`loadfileOffset
      ensures var image := filebuffer[old(loadfileOffset)..old(loadfileOffset) + Total(k, length)];
              outfile == old(outfile) + WrittenBanks(image, length, 0, k, address, kind)
    {
      hide Written, WrittenBanks;
      ghost var stop, header := loadfileOffset + Total(k, length), outfile;
      ghost var image := filebuffer[loadfileOffset..stop];
      ghost var todo := WrittenBanks(image, length, 0, k, address, kind);
      var i := 0;
      while i < k
        invariant 0 <= i <= k && loadfileOffset + Total(k - i, length) == stop && image == filebuffer[loadfileOffset..stop]
        invariant outfile + WrittenBanks(image, length, i, k - i, address, kind) == header + todo
      {
        SaveBank(length, i, k, address, kind, image);
        image, i := image[length..], i + 1;
      }
      NoBank(image, length, k, address, kind);
      assert outfile + [] == outfile;
    }

    static lemma NoBank(image: seq<byte>, length: nat, bank: nat, address: nat, kind: byte)
      requires bank <= 0x100
      ensures WrittenBanks(image, length, bank, 0, address, kind) == []
    {
    }

    /** The first bank of what is left of the image. */
    method SaveBank(length: nat, i: nat, k: nat, address: nat, kind: byte, ghost image: seq<byte>)
      requires Valid() && i < k <= 0x100 && loadfileOffset + Total(k - i, length) <= BUFFER_SIZE
      requires image == filebuffer[loadfileOffset..loadfileOffset + Total(k - i, length)]
      modifies this`outfile, this`loadfileOffset
      ensures loadfileOffset == old(loadfileOffset) + length
      ensures image[length..] == filebuffer[loadfileOffset..loadfileOffset + Total(k - i - 1, length)]
      ensures outfile + WrittenBanks(image[length..], length, i + 1, k - i - 1, address, kind)
           == old(outfile) + WrittenBanks(image, length, i, k - i, address, kind)
    {
      hide Written;
      ghost var rest := WrittenBanks(image[length..], length, i + 1, k - i - 1, address, kind);
      Assoc(outfile, Written(length, i, address, kind, image[..length]), rest);
      assert filebuffer[loadfileOffset..loadfileOffset + length] == image[..length];
      WriteChipPackage(length, i, address, kind);
    }

    method SaveRegularCrt(length: nat, banks: nat, address: nat, kind: byte, game: byte, exrom: byte)
      requires Valid() && length >= 2
      requires var l, k := BankLength(length, banks, loadfileSize), BankCount(length, banks, loadfileSize);
               k <= 0x100 && loadfileOffset + Total(k, l) <= BUFFER_SIZE
      modifies this`outfile, this`loadfileOffset
      ensures var l, k := BankLength(length, banks, loadfileSize), BankCount(length, banks, loadfileSize);
              var image := filebuffer[old(loadfileOffset)..old(loadfileOffset) + Total(k, l)];
              outfile == HeaderBytes(cartType, cartName, game, exrom) + WrittenBanks(image, l, 0, k, address, kind)
    {
      hide WrittenBanks, HeaderBytes;
      var length', realBanks := length, banks;
      WriteCrtHeader(game, exrom);
      if realBanks == 0 {
        if loadfileSize == length' / 2 {
          length' := length' / 2;
        }
        realBanks := loadfileSize / length';
      }
      SaveBanks(length', realBanks, address, kind);
    }

    method CheckEmptyEasyflash() returns (empty: bool)
      requires Valid() && loadfileOffset + CHIP_SIZE <= BUFFER_SIZE
      ensures empty <==> filebuffer[loadfileOffset..loadfileOffset + CHIP_SIZE] == Erased(CHIP_SIZE)
    {
      ghost var data := filebuffer[loadfileOffset..loadfileOffset + CHIP_SIZE];
      var i := 0;
      while i < 0x2000
        invariant 0 <= i <= 0x2000 && data[..i] == Erased(CHIP_SIZE)[..i]
      {
        assert filebuffer[loadfileOffset + i] == data[i];
        if filebuffer[loadfileOffset + i] != 0xff {
          assert data[i] != Erased(CHIP_SIZE)[i];
          return false;
        }
        i := i + 1;
      }
      empty := true;
    }

    /** One 8 KB chip of an EasyFlash image, or nothing when it is erased and may be left out. */
    method SaveFlashChip(i: nat, j: nat)
      requires Valid() && i < 64 && j < 2 && loadfileOffset + CHIP_SIZE <= BUFFER_SIZE
      modifies this`outfile, this`loadfileOffset
      ensures loadfileOffset == old(loadfileOffset) + CHIP_SIZE
      ensures outfile == old(outfile) + WrittenFlash(omitEmptyBanks, i, j, filebuffer[old(loadfileOffset)..loadfileOffset])
    {
      hide Written;
      var empty := false;
      if omitEmptyBanks {
        empty := CheckEmptyEasyflash();
      }
      if empty {
        loadfileOffset := loadfileOffset + 0x2000;
        assert outfile + [] == outfile;
      } else {
        WriteChipPackage(0x2000, i, if j == 0 then 0x8000 else 0xa000, 2);
      }
    }

    /** The two chips of one bank. */
    method SaveFlashBank(ghost image: seq<byte>, i: nat)
      requires Valid() && i < 64 && loadfileOffset + 2 * CHIP_SIZE <= BUFFER_SIZE && |image| == IMAGE_SIZE
      requires filebuffer[loadfileOffset..loadfileOffset + 2 * CHIP_SIZE] == image[2 * i * CHIP_SIZE..(2 * i + 2) * CHIP_SIZE]
      modifies this`outfile, this`loadfileOffset
      ensures loadfileOffset == old(loadfileOffset) + 2 * CHIP_SIZE
      ensures outfile + Packets(FlashChips(image, omitEmptyBanks, 2 * i + 2))
           == old(outfile) + Packets(FlashChips(image, omitEmptyBanks, 2 * i))
    {
      hide FlashChips, Packets, WrittenFlash, ChipData;
      ghost var start, before, omit := loadfileOffset, outfile, omitEmptyBanks;
      ghost var both := filebuffer[start..start + 2 * CHIP_SIZE];
      var j := 0;
      while j < 2
        invariant 0 <= j <= 2 && loadfileOffset == start + j * CHIP_SIZE
        invariant outfile + Packets(FlashChips(image, omit, 2 * i + j)) == before + Packets(FlashChips(image, omit, 2 * i))
      {
        ghost var data := ChipData(image, 2 * i + j);
        HalfBank(image, i, j, both);
        assert filebuffer[loadfileOffset..loadfileOffset + CHIP_SIZE] == both[j * CHIP_SIZE..(j + 1) * CHIP_SIZE];
        NextFlashChip(image, omit, i, j);
        Assoc(outfile, WrittenFlash(omit, i, j, data), Packets(FlashChips(image, omit, 2 * i + j + 1)));
        SaveFlashChip(i, j);
        j := j + 1;
      }
    }

    method SaveEasyflashCrt()
      requires Valid() && loadfileOffset + IMAGE_SIZE <= BUFFER_SIZE
      modifies this`outfile, this`loadfileOffset
      ensures var image := filebuffer[old(loadfileOffset)..old(loadfileOffset) + IMAGE_SIZE];
              outfile == HeaderBytes(cartType, cartName, 0, 0) + Packets(FlashChips(image, omitEmptyBanks, 0))
    {
      hide FlashChips, Packets, HeaderBytes;
      WriteCrtHeader(0, 0);
      ghost var start, header, omit := loadfileOffset, outfile, omitEmptyBanks;
      ghost var image := filebuffer[start..start + IMAGE_SIZE];
      ghost var todo := Packets(FlashChips(image, omit, 0));
      var i := 0;
      while i < 64
        invariant 0 <= i <= 64 && loadfileOffset == start + 2 * i * CHIP_SIZE && image == filebuffer[start..start + IMAGE_SIZE]
        invariant outfile + Packets(FlashChips(image, omit, 2 * i)) == header + todo
      {
        ghost var from := 2 * i * CHIP_SIZE;
        SubSlice(filebuffer[..], start, start + IMAGE_SIZE, from, from + 2 * CHIP_SIZE);
        SaveFlashBank(image, i);
        i := i + 1;
      }
      NoFlashChip(image, omit);
      assert outfile + [] == outfile;
    }

    method SaveBinaryOutputFile()
      requires Valid() && loadfileSize <= BUFFER_SIZE
      modifies this`outfile
      ensures outfile == (if convertToPrg then [Lo(loadAddress), Hi(loadAddress)] else [])
                       + filebuffer[..loadfileSize]
    {
      outfile := [];
      if convertToPrg {
        outfile := outfile + [Lo(loadAddress), Hi(loadAddress)];
      }
      outfile := outfile + filebuffer[..loadfileSize];
    }

    // ----- Dela EP7x8 -----

    /** One 8 KB bank of an inserted image. */
    method WriteSlot(bank: nat, ghost data: seq<byte>)
      requires Valid() && |data| >= SLOT && loadfileOffset + |data| <= BUFFER_SIZE
      requires filebuffer[loadfileOffset..loadfileOffset + |data|] == data && bank + |data| / SLOT <= 0x100
      modifies this`outfile, this`loadfileOffset
      ensures loadfileOffset == old(loadfileOffset) + SLOT
      ensures filebuffer[loadfileOffset..loadfileOffset + |data| - SLOT] == data[SLOT..]
      ensures outfile + Packets(Slots(data[SLOT..], bank + 1)) == old(outfile) + Packets(Slots(data, bank))
    {
      ghost var c, rest := Slot(data[..SLOT], bank), Slots(data[SLOT..], bank + 1);
      PacketInFront(c, rest);
      WrittenIsPacket(bank, 0x8000, 0, data[..SLOT]);
      hide Written, Packet, Slots;
      Assoc(outfile, Packet(c), Packets(rest));
      assert filebuffer[loadfileOffset..loadfileOffset + SLOT] == data[..SLOT];
      WriteChipPackage(0x2000, bank, 0x8000, 0);
    }

    /** The banks of an inserted 32, 16 or 8 KB image. */
    method WriteFour(chipCounter: nat, ghost header: seq<byte>, ghost cs: seq<Chip>, ghost data: seq<byte>)
      requires Valid() && WellBanked(cs) && chipCounter == |cs| && |data| == 4 * SLOT
      requires loadfileOffset + |data| <= BUFFER_SIZE
      requires filebuffer[loadfileOffset..loadfileOffset + |data|] == data
      requires AllPrintable(cs) && outfile == header + Packets(cs)
      modifies this`outfile, this`loadfileOffset
      ensures AllPrintable(cs + Slots(data, |cs|)) && outfile == header + Packets(cs + Slots(data, |cs|))
    {
      SlotsInsert(cs, data, header);
      hide Packets, Slots, WellBanked, AllPrintable;
      WriteSlot(chipCounter, data);
      WriteSlot(chipCounter + 1, data[SLOT..]);
      WriteSlot(chipCounter + 2, data[SLOT..][SLOT..]);
      WriteSlot(chipCounter + 3, data[SLOT..][SLOT..][SLOT..]);
      NoSlot(data[SLOT..][SLOT..][SLOT..][SLOT..], chipCounter + 4);
      assert outfile + [] == outfile;
    }

    method WriteTwo(chipCounter: nat, ghost header: seq<byte>, ghost cs: seq<Chip>, ghost data: seq<byte>)
      requires Valid() && WellBanked(cs) && chipCounter == |cs| && |data| == 2 * SLOT
      requires loadfileOffset + |data| <= BUFFER_SIZE
      requires filebuffer[loadfileOffset..loadfileOffset + |data|] == data
      requires AllPrintable(cs) && outfile == header + Packets(cs)
      modifies this`outfile, this`loadfileOffset
      ensures AllPrintable(cs + Slots(data, |cs|)) && outfile == header + Packets(cs + Slots(data, |cs|))
    {
      SlotsInsert(cs, data, header);
      hide Packets, Slots, WellBanked, AllPrintable;
      WriteSlot(chipCounter, data);
      WriteSlot(chipCounter + 1, data[SLOT..]);
      NoSlot(data[SLOT..][SLOT..], chipCounter + 2);
      assert outfile + [] == outfile;
    }

    method WriteOne(chipCounter: nat, ghost header: seq<byte>, ghost cs: seq<Chip>, ghost data: seq<byte>)
      requires Valid() && WellBanked(cs) && chipCounter == |cs| && |data| == 1 * SLOT
      requires loadfileOffset + |data| <= BUFFER_SIZE
      requires filebuffer[loadfileOffset..loadfileOffset + |data|] == data
      requires AllPrintable(cs) && outfile == header + Packets(cs)
      modifies this`outfile, this`loadfileOffset
      ensures AllPrintable(cs + Slots(data, |cs|)) && outfile == header + Packets(cs + Slots(data, |cs|))
    {
      SlotsInsert(cs, data, header);
      hide Packets, Slots, WellBanked, AllPrintable;
      WriteSlot(chipCounter, data);
      NoSlot(data[SLOT..], chipCounter + 1);
      assert outfile + [] == outfile;
    }

    /** One inserted file: `chipCounter` is the next free bank, `insertedSize` counts the bytes. */
    method InsertFile(chipCounter: nat, insertedSize: nat, ghost header: seq<byte>, ghost cs: seq<Chip>, ghost l: Loading)
      returns (r: Outcome, chipCounter': nat, insertedSize': nat)
      requires Valid() && loadfileOffset + loadfileSize <= BUFFER_SIZE
      requires WellBanked(cs) && chipCounter == |cs| && insertedSize == InsertedSize(cs)
      requires l.Binary? || l.Crt?
      requires Window() == l.data && loadfileIsCrt == l.Crt?
      requires l.Crt? ==> loadfileCartType == l.cartType && loadfileIsUltimax == l.ultimax
      requires AllPrintable(cs) && outfile == header + Packets(cs)
      modifies this`outfile, this`loadfileOffset
      ensures r == if Insert(cs, l).Placed? then Done else Failed
      ensures r == Done ==>
                var p := Insert(cs, l).chips;
                && chipCounter' == |p| && insertedSize' == InsertedSize(p)
                && AllPrintable(p) && outfile == header + Packets(p)
    {
      chipCounter', insertedSize' := chipCounter, insertedSize;
      r := Done;
      ghost var data := l.data;
      SlotsLength(data, |cs|);
      InsertBySize(cs, l);
      hide Packets, Slots, Insert, WellBanked, AllPrintable;
      var size := loadfileSize;
      if size == 0x8000 {
        if loadfileIsCrt || insertedSize != 0 {
          r := Failed;
        } else {
          WriteFour(chipCounter, header, cs, data);
          chipCounter' := chipCounter' + 4;
          insertedSize' := insertedSize' + 0x8000;
        }
      }
      if size == 0x4000 {
        if loadfileIsCrt && (loadfileCartType != 0 || loadfileIsUltimax) {
          r := Failed;
        } else if insertedSize >= 0xc000 {
          r := Failed;
        } else {
          WriteTwo(chipCounter, header, cs, data);
          chipCounter' := chipCounter' + 2;
          insertedSize' := insertedSize' + 0x4000;
        }
      }
      if size == 0x2000 {
        if loadfileIsCrt && (loadfileCartType != 0 || loadfileIsUltimax) {
          r := Failed;
        } else if insertedSize >= 0xe000 {
          r := Failed;
        } else {
          WriteOne(chipCounter, header, cs, data);
          chipCounter' := chipCounter' + 1;
          insertedSize' := insertedSize' + 0x2000;
        }
      }
    }

    /** A base image and the files to insert behind it. */
    method SaveDelaep7x8Crt(files: seq<File>) returns (r: Outcome)
      requires Valid() && loadfileOffset + loadfileSize <= BUFFER_SIZE
      modifies this`infile, this`inpos, this`loadfileOffset, this`loadfileSize, this`loadAddress, this`outfile
      modifies this`loadfileIsCrt, this`loadfileIsUltimax, this`loadfileCartType, filebuffer, headerbuffer
      ensures if old(loadfileSize) != SLOT || files == [] then r == Failed
              else
                var base := [Slot(old(Window()), 0)];
                WellBanked(base) &&
                match InsertAll(base, files, inputPadding, old(loadAddress))
                case Refused => r == Failed
                case Astray => r == Stray
                case Placed(cs) =>
                  r == Done && AllPrintable(cs) && outfile == HeaderBytes(cartType, cartName, 1, 0) + Packets(cs)
    {
      hide Packets, HeaderBytes, WellBanked, AllPrintable, InsertAll;
      if loadfileSize != 0x2000 {
        return Failed;
      }
      if |files| == 0 {
        return Failed;
      }
      ghost var header := HeaderBytes(cartType, cartName, 1, 0);
      ghost var base := [Slot(Window(), 0)];
      WriteCrtHeader(1, 0);
      WriteBase(header);
      r := InsertFiles(files, header, base);
    }

    method InsertFiles(files: seq<File>, ghost header: seq<byte>, ghost base: seq<Chip>) returns (r: Outcome)
      requires Valid() && WellBanked(base) && |base| == 1 && AllPrintable(base) && outfile == header + Packets(base)
      modifies this`infile, this`inpos, this`loadfileOffset, this`loadfileSize, this`loadAddress, this`outfile
      modifies this`loadfileIsCrt, this`loadfileIsUltimax, this`loadfileCartType, filebuffer, headerbuffer
      ensures match InsertAll(base, files, inputPadding, old(loadAddress))
              case Refused => r == Failed
              case Astray => r == Stray
              case Placed(cs) => r == Done && AllPrintable(cs) && outfile == header + Packets(cs)
    {
      hide Packets, HeaderBytes, Insert, WellBanked, Load, InsertAll, NextAddress, AllPrintable;
      assert files[0..] == files;
      var insertedSize, chipCounter, i := 0, 1, 0;
      ghost var cs := base;
      while i != |files|
        invariant 0 <= i <= |files|
        invariant WellBanked(cs) && chipCounter == |cs| && insertedSize == InsertedSize(cs)
        invariant AllPrintable(cs) && outfile == header + Packets(cs)
        invariant InsertAll(base, files, inputPadding, old(loadAddress))
               == InsertAll(cs, files[i..], inputPadding, loadAddress)
        decreases |files| - i
      {
        InsertAllStep(cs, files, i, inputPadding, loadAddress);
        ghost var l := Load(files[i], inputPadding, loadAddress);
        r, chipCounter, insertedSize := InsertNext(files[i], chipCounter, insertedSize, header, cs);
        if r != Done {
          return;
        }
        cs := Insert(cs, l).chips;
        i := i + 1;
      }
      InsertAllDone(cs, files, inputPadding, loadAddress);
      r := Done;
    }

    /** Load a file and insert it. */
    method InsertNext(file: File, chipCounter: nat, insertedSize: nat, ghost header: seq<byte>, ghost cs: seq<Chip>)
      returns (r: Outcome, chipCounter': nat, insertedSize': nat)
      requires Valid() && WellBanked(cs) && chipCounter == |cs| && insertedSize == InsertedSize(cs)
      requires AllPrintable(cs) && outfile == header + Packets(cs)
      modifies this`infile, this`inpos, this`loadfileOffset, this`loadfileSize, this`loadAddress, this`outfile
      modifies this`loadfileIsCrt, this`loadfileIsUltimax, this`loadfileCartType, filebuffer, headerbuffer
      ensures var l := Load(file, inputPadding, old(loadAddress));
              match Insert(cs, l)
              case Refused => r == Failed
              case Astray => r == Stray
              case Placed(p) =>
                && r == Done && loadAddress == NextAddress(l, old(loadAddress))
                && chipCounter' == |p| && insertedSize' == InsertedSize(p)
                && AllPrintable(p) && outfile == header + Packets(p)
    {
      hide Packets, Insert, WellBanked, Load;
      ghost var l := Load(file, inputPadding, loadAddress);
      chipCounter', insertedSize' := chipCounter, insertedSize;
      AtMostEight(cs);
      InsertKinds(cs, l);
      r := LoadInputFile(file);
      if r == Done {
        r, chipCounter', insertedSize' := InsertFile(chipCounter, insertedSize, header, cs, l);
      }
    }

    /** Bank 0. */
    method WriteBase(ghost header: seq<byte>)
      requires Valid() && loadfileSize == 0x2000 && loadfileOffset + loadfileSize <= BUFFER_SIZE && outfile == header
      modifies this`outfile, this`loadfileOffset
      ensures var base := [Slot(old(Window()), 0)];
              WellBanked(base) && AllPrintable(base) && outfile == header + Packets(base)
    {
      ghost var c := Slot(Window(), 0);
      PacketInFront(c, []);
      WrittenIsPacket(0, 0x8000, 0, c.data);
      hide Written, Packet;
      assert [c] + [] == [c] && Packet(c) + [] == Packet(c);
      WriteChipPackage(0x2000, 0, 0x8000, 0);
    }
  }

  datatype Turn = Again | Ended | Break | Lost

  lemma SubSlice(s: seq<byte>, start: nat, stop: nat, from: nat, to: nat)
    requires start <= stop <= |s| && from <= to <= stop - start
    ensures s[start..stop][from..to] == s[start + from..start + to]
  {
    var x, y := s[start..stop][from..to], s[start + from..start + to];
    assert |x| == |y|;
    assert forall k :: 0 <= k < |x| ==> x[k] == y[k];
  }

  lemma Skipped(s: seq<byte>, at: nat, n: nat)
    requires at <= |s|
    ensures s[at..][Min(n, |s| - at)..] == s[Min(at + n, |s|)..]
  {
  }

  lemma OverwrittenPrefix(buffer: seq<byte>, at: nat, data: seq<byte>)
    requires at + |data| <= |buffer|
    ensures Overwrite(buffer, at, data)[..at + |data|] == buffer[..at] + data
  {
  }

  /** The reader's progress over one packet. */
  lemma OneMoreChip(cs: seq<Chip>, b: seq<byte>, room: nat, address: int)
    requires |Payload(cs)| <= room
    ensures var left := room - |Payload(cs)|;
            match ReadOne(b, left)
            case End => Prefixed(cs, Read(b, left)) == Chips(cs)
            case Broken => Prefixed(cs, Read(b, left)) == Bad
            case TooLong => Prefixed(cs, Read(b, left)) == Overrun
            case More(c, rest) =>
              && Prefixed(cs, Read(b, left)) == Prefixed(cs + [c], Read(rest, left - |c.data|))
              && Payload(cs + [c]) == Payload(cs) + c.data
              && FirstAddress(cs + [c], address)
              == if FirstAddress(cs, address) == 0 then c.address else FirstAddress(cs, address)
  {
    hide FirstAddress;
    var left := room - |Payload(cs)|;
    match ReadOne(b, left)
    case End => assert cs + [] == cs;
    case Broken =>
    case TooLong =>
    case More(c, rest) =>
      Prefixes(cs, c, Read(rest, left - |c.data|));
      PayloadAppend(cs, [c]);
      assert [c][1..] == [] && Payload([c]) == c.data + [] == c.data;
      FirstAddressAppend(cs, c, address);
  }

  /** Insertion case by case. */
  lemma InsertBySize(cs: seq<Chip>, l: Loading)
    requires WellBanked(cs) && (l.Binary? || l.Crt?)
    ensures |cs| <= 8
    ensures |l.data| == 0x8000 ==>
      Insert(cs, l) == if l.Crt? || InsertedSize(cs) != 0 then Refused else Placed(cs + Slots(l.data, |cs|))
    ensures |l.data| == 0x4000 ==>
      Insert(cs, l) == if !Generic(l) || InsertedSize(cs) >= 0xc000 then Refused else Placed(cs + Slots(l.data, |cs|))
    ensures |l.data| == 0x2000 ==>
      Insert(cs, l) == if !Generic(l) || InsertedSize(cs) >= 0xe000 then Refused else Placed(cs + Slots(l.data, |cs|))
    ensures |l.data| !in {0x2000, 0x4000, 0x8000} ==> Insert(cs, l) == Placed(cs)
  {
  }

  lemma Prefixes(cs: seq<Chip>, c: Chip, next: Scan)
    ensures Prefixed(cs, Prefixed([c], next)) == Prefixed(cs + [c], next)
  {
    if next.Chips? {
      assert (cs + [c]) + next.chips == cs + ([c] + next.chips);
    }
  }

  lemma {:induction false} FirstAddressAppend(cs: seq<Chip>, c: Chip, address: int)
    ensures FirstAddress(cs + [c], address)
         == if FirstAddress(cs, address) == 0 then c.address else FirstAddress(cs, address)
  {
    var all := cs + [c];
    if cs == [] {
      assert all == [c] && [c][1..] == [];
    } else if address == 0 {
      FirstAddressAppend(cs[1..], c, cs[0].address);
      assert all[0] == cs[0] && all[1..] == cs[1..] + [c];
    }
  }

  /** The header's fields, cell by cell. */
  lemma HeaderCells(h: seq<byte>, b: seq<byte>)
    requires |h| == 0x40 <= |b| && h[0x10..] == b[0x10..0x40]
    ensures forall i :: 0x10 <= i < 0x40 ==> h[i] == b[i]
  {
    forall i | 0x10 <= i < 0x40
      ensures h[i] == b[i]
    {
      assert h[0x10..][i - 0x10] == b[0x10..0x40][i - 0x10];
    }
  }

  /** A chip of half the usual size makes the banks half as long. */
  function BankLength(length: nat, banks: nat, size: nat): (l: nat)
    requires length >= 2
    ensures l > 0
  {
    if banks == 0 && size == length / 2 then length / 2 else length
  }

  function BankCount(length: nat, banks: nat, size: nat): nat
    requires length >= 2
  {
    if banks == 0 then size / BankLength(length, banks, size) else banks
  }

  /** What the writer emits for one chip. */
  function WrittenFlash(omit: bool, i: nat, j: nat, data: seq<byte>): seq<byte>
    requires i < 64
  {
    if omit && data == Erased(CHIP_SIZE) then []
    else Written(CHIP_SIZE, i, if j == 0 then 0x8000 else 0xa000, 2, data)
  }

  /** What is left to write, one chip at a time. */
  lemma NextFlashChip(image: seq<byte>, omit: bool, i: nat, j: nat)
    requires |image| == IMAGE_SIZE && i < 64 && j < 2
    ensures Packets(FlashChips(image, omit, 2 * i + j))
         == WrittenFlash(omit, i, j, ChipData(image, 2 * i + j)) + Packets(FlashChips(image, omit, 2 * i + j + 1))
  {
    hide Written, Packet, ChipData, Erased;
    var n, data := 2 * i + j, ChipData(image, 2 * i + j);
    var rest := FlashChips(image, omit, n + 1);
    assert n / 2 == i && n % 2 == j;
    WrittenIsPacket(i, if j == 0 then 0x8000 else 0xa000, 2, data);
    PacketInFront(FlashChip(image, n), rest);
    assert [] + Packets(rest) == Packets(rest);
  }

  lemma PacketInFront(c: Chip, rest: seq<Chip>)
    requires Printable(c) && AllPrintable(rest)
    ensures AllPrintable([c] + rest) && Packets([c] + rest) == Packet(c) + Packets(rest)
  {
    hide Packet, Printable;
    assert ([c] + rest)[1..] == rest;
  }

  lemma HalfBank(image: seq<byte>, i: nat, j: nat, both: seq<byte>)
    requires |image| == IMAGE_SIZE && i < 64 && j < 2
    requires both == image[2 * i * CHIP_SIZE..(2 * i + 2) * CHIP_SIZE]
    ensures both[j * CHIP_SIZE..(j + 1) * CHIP_SIZE] == ChipData(image, 2 * i + j)
  {
    SubSlice(image, 2 * i * CHIP_SIZE, (2 * i + 2) * CHIP_SIZE, j * CHIP_SIZE, (j + 1) * CHIP_SIZE);
  }

  lemma NoFlashChip(image: seq<byte>, omit: bool)
    requires |image| == IMAGE_SIZE
    ensures Packets(FlashChips(image, omit, 128)) == []
  {
  }

  lemma NoSlot(data: seq<byte>, bank: nat)
    requires |data| == 0 && bank <= 0x100
    ensures Packets(Slots(data, bank)) == []
  {
  }

  lemma SlotsLength(data: seq<byte>, bank: nat)
    requires bank <= 8
    ensures |data| in {0x2000, 0x4000, 0x8000} ==> |Slots(data, bank)| == |data| / SLOT
  {
    if |data| in {0x2000, 0x4000, 0x8000} {
      SlotsAre(data, bank);
    }
  }

  lemma SlotsInsert(cs: seq<Chip>, data: seq<byte>, header: seq<byte>)
    requires WellBanked(cs) && |data| in {0x2000, 0x4000, 0x8000}
    ensures var s := Slots(data, |cs|);
            && |s| == |data| / SLOT && AllPrintable(cs) && AllPrintable(cs + s)
            && header + Packets(cs + s) == header + Packets(cs) + Packets(s)
  {
    var s := Slots(data, |cs|);
    SlotsAre(data, |cs|);
    BankedArePrintable(cs);
    hide Packets, Slots;
    PacketsAppend(cs, s);
    Assoc(header, Packets(cs), Packets(s));
  }

  /** One turn of the loop over the files to insert. */
  lemma InsertAllStep(cs: seq<Chip>, files: seq<File>, i: nat, padding: bool, known: int)
    requires WellBanked(cs) && i < |files|
    ensures |cs| <= 8
    ensures var l := Load(files[i], padding, known);
            var p := Insert(cs, l);
            && (p.Placed? ==> WellBanked(p.chips))
            && InsertAll(cs, files[i..], padding, known)
            == if p.Placed? then InsertAll(p.chips, files[i + 1..], padding, NextAddress(l, known)) else p
  {
    var l := Load(files[i], padding, known);
    assert files[i..][0] == files[i] && files[i..][1..] == files[i + 1..];
    if Insert(cs, l).Placed? {
      InsertKeeps(cs, l);
    }
  }

  lemma InsertAllDone(cs: seq<Chip>, files: seq<File>, padding: bool, known: int)
    requires WellBanked(cs)
    ensures InsertAll(cs, files[|files|..], padding, known) == Placed(cs)
  {
  }

  lemma AtMostEight(cs: seq<Chip>)
    requires WellBanked(cs)
    ensures |cs| <= 8
  {
  }

  lemma InsertKinds(cs: seq<Chip>, l: Loading)
    requires |cs| <= 8
    ensures l.Rejected? ==> Insert(cs, l) == Refused
    ensures l.Undefined? <==> Insert(cs, l) == Astray
  {
  }
}
