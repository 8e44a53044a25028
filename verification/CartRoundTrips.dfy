/** Converting an image to a cartridge file and the file back to an image
    (vice/src/cartconv.c), with the converter itself doing both. */
module CartRoundTrips {
  import opened Bytes
  import opened CrtFormat
  import opened EasyFlashFormat
  import opened CrtFile
  import opened CartConverter

  /** Load a cartridge file into a fresh converter and write it out as an image. */
  method ToBinary(file: seq<byte>) returns (r: Outcome, back: Converter)
    ensures fresh(back) && fresh(back.filebuffer) && fresh(back.headerbuffer) && back.Valid()
    ensures match Load(Present(file), false, 0)
            case Crt(data, cartType, _, address) =>
              && r == Done && back.outfile == data && back.loadfileCartType == cartType && back.loadAddress == address
              && |file| >= 0x40 && back.headerbuffer[0x18] == file[0x18] && back.headerbuffer[0x19] == file[0x19]
            case Rejected => r == Failed
            case Undefined => r == Stray
            case Binary(_) => true
  {
    back := new Converter(0, [], true, false, false);
    r := back.LoadInputFile(Present(file));
    hide Load;
    if r == Done && back.loadfileIsCrt {
      HeaderCells(back.headerbuffer[..], file);
      back.SaveBinaryOutputFile();
    }
  }

  /** A regular cartridge and back: the same bytes, type, control lines and load address, whatever
      the bank size, as long as the banks cover the image and a bank with its header fits 16 bits. */
  method RegularThereAndBack(c: Converter, length: nat, banks: nat, address: word, kind: byte, game: byte, exrom: byte)
    returns (r: Outcome, back: Converter)
    requires c.Valid() && c.cartType <= LAST_TYPE && c.cartType != EASYFLASH && length >= 2
    requires c.loadfileSize > 0 && c.loadfileOffset + c.loadfileSize <= BUFFER_SIZE
    requires var l, k := BankLength(length, banks, c.loadfileSize), BankCount(length, banks, c.loadfileSize);
             k <= 0x100 && Total(k, l) == c.loadfileSize && l + 0x10 < 0x1_0000
    modifies c`outfile, c`loadfileOffset
    ensures r == Done && fresh(back) && back.Valid()
    ensures back.outfile == old(c.Window()) && back.loadfileCartType == c.cartType && back.loadAddress == address
    ensures back.headerbuffer[0x18] == exrom && back.headerbuffer[0x19] == game
  {
    hide Load, LoadBody, HeaderBytes, WrittenBanks, BankLength, BankCount;
    ghost var image := c.Window();
    c.SaveRegularCrt(length, banks, address, kind, game, exrom);
    ghost var l, k := BankLength(length, banks, c.loadfileSize), BankCount(length, banks, c.loadfileSize);
    RegularFileRoundTrip(c.cartType, c.cartName, game, exrom, image, l, k, address, kind, false);
    LoadAfterHeader(c.cartType, c.cartName, game, exrom, WrittenBanks(image, l, 0, k, address, kind), false, 0);
    r, back := ToBinary(c.outfile);
  }

  /** An EasyFlash image and back: the same bytes, unless omitting erased chips left no chip. */
  method EasyFlashThereAndBack(c: Converter) returns (r: Outcome, back: Converter)
    requires c.Valid() && c.cartType == EASYFLASH
    requires c.loadfileSize == IMAGE_SIZE && c.loadfileOffset + c.loadfileSize <= BUFFER_SIZE
    modifies c`outfile, c`loadfileOffset
    ensures fresh(back)
    ensures var image := old(c.Window());
            if !c.omitEmptyBanks || exists k :: 0 <= k < 128 && !IsErased(image, k)
            then r == Done && back.outfile == image && back.loadfileCartType == EASYFLASH
            else r == Failed
  {
    hide Load, HeaderBytes, FlashChips, Packets, IsErased;
    ghost var image := c.Window();
    c.SaveEasyflashCrt();
    EasyFlashFileRoundTrip(c.cartName, image, c.omitEmptyBanks, false);
    r, back := ToBinary(c.outfile);
  }
}
