/** Whole cartridge files (vice/src/cartconv.c): the 64-byte CRT header, the packets as the
    writer really emits them, and what loading any file yields. */
module CrtFile {
  import opened Bytes
  import opened CrtFormat
  import opened EasyFlashFormat

  const SIGNATURE: seq<byte> :=
    [0x43, 0x36, 0x34, 0x20, 0x43, 0x41, 0x52, 0x54, 0x52, 0x49, 0x44, 0x47, 0x45, 0x20, 0x20, 0x20]

  const EASYFLASH := 32
  const LAST_TYPE := 60

  function Upper(c: byte): byte {
    if 0x61 <= c <= 0x7a then c - 0x20 else c
  }

  /** The name field: at most 32 characters, in upper case, the rest zero. */
  function NameField(name: seq<byte>): (s: seq<byte>)
    ensures |s| == 32
  {
    seq(32, i requires 0 <= i < 32 => if i < |name| then Upper(name[i]) else 0)
  }

  function HeaderBytes(cartType: byte, name: seq<byte>, game: byte, exrom: byte): (h: seq<byte>)
    ensures |h| == 64
  {
    SIGNATURE + [0, 0, 0, 0x40, 1, 0, 0, cartType, exrom, game, 0, 0, 0, 0, 0, 0] + NameField(name)
  }

  /** A packet as the writer emits it: every field is cut to the bytes it has. */
  function Written(length: nat, bank: byte, address: nat, kind: byte, data: seq<byte>): (p: seq<byte>)
    ensures |p| == 16 + |data|
  {
    TAG + [0, 0, U8((length + 0x10) / 0x100), (length + 0x10) % 0x100, 0, kind, 0, bank,
           U8(address / 0x100), address % 0x100, U8(length / 0x100), length % 0x100] + data
  }

  /** Short enough lengths lose nothing. */
  lemma WrittenIsPacket(bank: byte, address: word, kind: byte, data: seq<byte>)
    requires |data| + 0x10 < 0x1_0000
    ensures Written(|data|, bank, address, kind, data) == Packet(Chip(kind, bank, address, data, []))
  {
    var length := |data| + 0x10;
    assert length / 0x1_0000 == 0 && length % 0x1_0000 == length;
    assert Be32(length) == [0, 0, length / 0x100, length % 0x100];
  }

  /** The first `k` banks of an image as the writer emits them, numbered from `bank` on. */
  function WrittenBanks(image: seq<byte>, length: nat, bank: nat, k: nat, address: nat, kind: byte): seq<byte>
    requires bank + k <= 0x100 && Total(k, length) <= |image|
    decreases k
  {
    if k == 0 then
      []
    else
      var first := Written(length, bank, address, kind, image[..length]);
      first + WrittenBanks(image[length..], length, bank + 1, k - 1, address, kind)
  }

  lemma {:induction false} WrittenBanksArePackets(image: seq<byte>, length: nat, bank: nat, k: nat, address: word, kind: byte)
    requires bank + k <= 0x100 && Total(k, length) <= |image| && length + 0x10 < 0x1_0000
    ensures WrittenBanks(image, length, bank, k, address, kind) == Packets(Banks(image, length, bank, k, kind, address))
    decreases k
  {
    if k > 0 {
      hide Written, Packet;
      WrittenIsPacket(bank, address, kind, image[..length]);
      WrittenBanksArePackets(image[length..], length, bank + 1, k - 1, address, kind);
      var cs := Banks(image, length, bank, k, kind, address);
      assert cs[1..] == Banks(image[length..], length, bank + 1, k - 1, kind, address);
    }
  }

  /** Banks of 0xfff0 bytes or a little more announce a chunk shorter than their data, and no
      reader accepts them. */
  lemma WideBanksAreRejected(image: seq<byte>, length: nat, k: nat, address: word, kind: byte, room: nat)
    requires 0 < k <= 0x100 && Total(k, length) <= |image| && 0xfff0 <= length < 0x1_0000
    ensures Read(WrittenBanks(image, length, 0, k, address, kind), room) == Bad
  {
    hide Written;
    WideChunk(length, address, kind, image[..length], WrittenBanks(image[length..], length, 1, k - 1, address, kind), room);
  }

  lemma WideChunk(length: nat, address: nat, kind: byte, data: seq<byte>, rest: seq<byte>, room: nat)
    requires 0xfff0 <= length < 0x1_0000
    ensures Read(Written(length, 0, address, kind, data) + rest, room) == Bad
  {
    var b := Written(length, 0, address, kind, data) + rest;
    assert b[..4] == TAG;
    assert (length + 0x10) / 0x100 == 0x100;
    assert b[4..8] == [0, 0, 0, length + 0x10 - 0x1_0000];
    assert b[14..16] == [length / 0x100, length % 0x100] == Be16(length);
    assert b[4..8][..2] == [0, 0] && BigEndian([0, 0]) == 0;
  }

  // ----- Loading -----

  datatype File = Absent | Present(bytes: seq<byte>)

  /** What is in memory after loading. */
  datatype Loading =
    | Binary(data: seq<byte>)
    | Crt(data: seq<byte>, cartType: nat, ultimax: bool, address: int)
    | Rejected
    | Undefined

  predicate KnownSize(n: int) {
    n in {0x1000, 0x2000, 0x3000, 0x4000, 0x5000, 0x6000, 0x8000, 0x1_0000, 0x1_8000, 0x2_0000, 0x4_0000, 0x8_0000,
          0x10_0000}
  }

  /** The type field; a low byte above 127 stands for a negative test number. */
  function TypeField(h: seq<byte>): int
    requires |h| >= 64
  {
    var lo: int := h[0x17];
    var hi: int := h[0x16];
    lo + 0x100 * hi - (if lo >= 0x80 then 0x1_0000 else 0)
  }

  function LoadBody(body: seq<byte>, cartType: nat, ultimax: bool, known: int): Loading {
    if cartType == EASYFLASH then
      var r := ReadFlash(body, Erased(BUFFER_SIZE), false, known);
      if r.FlashOverrun? then Undefined
      else if r.Flash? && r.any && |r.buffer| == BUFFER_SIZE then Crt(r.buffer[..IMAGE_SIZE], cartType, ultimax, r.address)
      else Rejected
    else
      var r := Read(body, BUFFER_SIZE);
      if r.Overrun? then Undefined
      else if r.Chips? && Payload(r.chips) != [] then Crt(Payload(r.chips), cartType, ultimax, FirstAddress(r.chips, known))
      else Rejected
  }

  function LoadCrt(b: seq<byte>, known: int): Loading {
    if |b| < 64 || b[0x10..0x14] != [0, 0, 0, 0x40] || !(0 <= TypeField(b) <= LAST_TYPE) then Rejected
    else LoadBody(b[64..], TypeField(b), b[0x18] == 1 && b[0x19] == 0, known)
  }

  /** A plain image, perhaps with a load address of two or four bytes in front; only its first
      megabyte and two bytes are looked at. */
  function LoadBinary(b: seq<byte>, padding: bool): Loading
    requires |b| >= 16
  {
    var n := Min(|b|, BUFFER_SIZE);
    if KnownSize(n) then Binary(b[..n])
    else if KnownSize(n - 2) then Binary(b[2..n])
    else if n == 0x8004 then Binary(b[4..n])
    else if padding then Binary(b[..n])
    else Rejected
  }

  function Load(file: File, padding: bool, known: int): Loading {
    if file.Absent? || |file.bytes| < 16 then Rejected
    else if file.bytes[..16] == SIGNATURE then LoadCrt(file.bytes, known)
    else LoadBinary(file.bytes, padding)
  }

  // ----- Round trips -----

  /** The header of a saved file is understood. */
  lemma LoadAfterHeader(cartType: byte, name: seq<byte>, game: byte, exrom: byte, body: seq<byte>, padding: bool, known: int)
    requires cartType <= LAST_TYPE
    ensures Load(Present(HeaderBytes(cartType, name, game, exrom) + body), padding, known)
         == LoadBody(body, cartType, exrom == 1 && game == 0, known)
    ensures var b := HeaderBytes(cartType, name, game, exrom) + body; b[0x18] == exrom && b[0x19] == game
  {
    var h := HeaderBytes(cartType, name, game, exrom);
    var b := h + body;
    assert b[..16] == h[..16] == SIGNATURE;
    assert b[0x10..0x14] == h[0x10..0x14] == [0, 0, 0, 0x40];
    assert b[64..] == body;
    assert b[0x16] == h[0x16] == 0 && b[0x17] == h[0x17] == cartType && b[0x18] == h[0x18] && b[0x19] == h[0x19];
  }

  /** Saving an image as a regular cartridge and loading the file returns the image, the type and
      the load address exactly when a bank and its header fit 16 bits together. */
  lemma RegularFileRoundTrip(cartType: byte, name: seq<byte>, game: byte, exrom: byte, image: seq<byte>, length: nat, k: nat,
      address: word, kind: byte, padding: bool)
    requires cartType <= LAST_TYPE && cartType != EASYFLASH
    requires 0 < length < 0x1_0000 && 0 < k <= 0x100 && Total(k, length) == |image| <= BUFFER_SIZE
    ensures var file := HeaderBytes(cartType, name, game, exrom) + WrittenBanks(image, length, 0, k, address, kind);
            && (length + 0x10 < 0x1_0000
                <==> Load(Present(file), padding, 0) == Crt(image, cartType, exrom == 1 && game == 0, address))
            && (length + 0x10 >= 0x1_0000 ==> Load(Present(file), padding, 0) == Rejected)
  {
    var body := WrittenBanks(image, length, 0, k, address, kind);
    LoadAfterHeader(cartType, name, game, exrom, body, padding, 0);
    hide HeaderBytes, WrittenBanks, Load, Banks, Packets;
    if length + 0x10 < 0x1_0000 {
      WrittenBanksArePackets(image, length, 0, k, address, kind);
      RegularRoundTrip(image, length, k, kind, address, BUFFER_SIZE);
      assert image != [];
    } else {
      WideBanksAreRejected(image, length, k, address, kind, BUFFER_SIZE);
    }
  }

  /** Saving and loading an EasyFlash image returns the image, unless nothing was worth writing. */
  lemma EasyFlashFileRoundTrip(name: seq<byte>, image: seq<byte>, omit: bool, padding: bool)
    requires |image| == IMAGE_SIZE
    ensures var file := HeaderBytes(EASYFLASH, name, 0, 0) + Packets(FlashChips(image, omit, 0));
            if !omit || exists k :: 0 <= k < 128 && !IsErased(image, k)
            then Load(Present(file), padding, 0)
              == Crt(image, EASYFLASH, false, FirstAddress(FlashChips(image, omit, 0), 0))
            else Load(Present(file), padding, 0) == Rejected
  {
    hide IsErased, Load, HeaderBytes, Packets, FlashChips, ReadFlash;
    var body := Packets(FlashChips(image, omit, 0));
    LoadAfterHeader(EASYFLASH, name, 0, 0, body, padding, 0);
    var spare := Erased(BUFFER_SIZE - IMAGE_SIZE);
    assert Erased(BUFFER_SIZE) == Erased(IMAGE_SIZE) + spare;
    FlashRoundTrip(image, omit, spare, 0);
    hide Erased;
    assert (image + spare)[..IMAGE_SIZE] == image;
  }
}
