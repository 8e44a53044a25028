/** EasyFlash images (vice/src/cartconv.c): 64 banks of two 8 KB chips, of which the writer may
    leave out those that are erased, and a reader that places each chip by its header. */
module EasyFlashFormat {
  import opened Bytes
  import opened CrtFormat

  const CHIP_SIZE := 0x2000
  const IMAGE_SIZE := 0x10_0000
  const BUFFER_SIZE := 0x10_0002

  function Erased(n: nat): (s: seq<byte>)
    ensures |s| == n
  {
    seq(n, _ => 0xff)
  }

  /** The contents of the n-th chip: bank n / 2, low or high half. */
  function ChipData(image: seq<byte>, n: nat): (d: seq<byte>)
    requires |image| == IMAGE_SIZE && n < 128
    ensures |d| == CHIP_SIZE
  {
    image[n * CHIP_SIZE..(n + 1) * CHIP_SIZE]
  }

  predicate IsErased(image: seq<byte>, n: nat)
    requires |image| == IMAGE_SIZE && n < 128
  {
    ChipData(image, n) == Erased(CHIP_SIZE)
  }

  function FlashChip(image: seq<byte>, n: nat): (c: Chip)
    requires |image| == IMAGE_SIZE && n < 128
    ensures Printable(c)
  {
    Chip(2, n / 2, if n % 2 == 0 then 0x8000 else 0xa000, ChipData(image, n), [])
  }

  /** The packets written for chips `n` to 127. */
  function FlashChips(image: seq<byte>, omit: bool, n: nat): (cs: seq<Chip>)
    requires |image| == IMAGE_SIZE && n <= 128
    ensures AllPrintable(cs)
    decreases 128 - n
  {
    if n == 128 then []
    else if omit && IsErased(image, n) then FlashChips(image, omit, n + 1)
    else [FlashChip(image, n)] + FlashChips(image, omit, n + 1)
  }

  /** What the loader makes of the packets: the buffer, whether there was any packet, and the
      first load address that is not zero. */
  datatype FlashScan = Flash(buffer: seq<byte>, any: bool, address: int) | FlashBad | FlashOverrun

  /** Where a packet's data goes: `load_position`. */
  function Place(b: seq<byte>): nat
    requires |b| >= 16
  {
    var bank: nat := b[11];
    bank * 0x4000 + (if b[12] == 0x80 then 0 else 0x2000)
  }

  function Overwrite(buffer: seq<byte>, at: nat, data: seq<byte>): (r: seq<byte>)
    requires at + |data| <= |buffer|
    ensures |r| == |buffer|
  {
    buffer[..at] + data + buffer[at + |data|..]
  }

  function ReadFlash(b: seq<byte>, buffer: seq<byte>, any: bool, address: int): FlashScan
    decreases |b|
  {
    if |b| < 16 then
      Flash(buffer, any, address)
    else if b[..4] != TAG then
      FlashBad
    else
      var n := Min(CHIP_SIZE, |b| - 16);
      if Place(b) + n > |buffer| then FlashOverrun
      else if n != CHIP_SIZE then FlashBad
      else ReadFlash(b[16 + CHIP_SIZE..], Overwrite(buffer, Place(b), b[16..16 + CHIP_SIZE]), true,
                     if address == 0 then BigEndian(b[12..14]) else address)
  }

  /** The buffer once the chips below `n` are in place. */
  function Partial(image: seq<byte>, n: nat, spare: seq<byte>): (s: seq<byte>)
    requires |image| == IMAGE_SIZE && n <= 128
    ensures |s| == IMAGE_SIZE + |spare|
  {
    image[..n * CHIP_SIZE] + Erased(IMAGE_SIZE - n * CHIP_SIZE) + spare
  }

  /** One packet of the writer, read by the loader. */
  lemma ReadOneChip(image: seq<byte>, n: nat, rest: seq<byte>, buffer: seq<byte>, any: bool,
      address: int)
    requires |image| == IMAGE_SIZE && n < 128 && |buffer| >= IMAGE_SIZE
    ensures ReadFlash(Packet(FlashChip(image, n)) + rest, buffer, any, address)
         == ReadFlash(rest, Overwrite(buffer, n * CHIP_SIZE, ChipData(image, n)), true,
                      if address == 0 then FlashChip(image, n).address else address)
  {
    var c := FlashChip(image, n);
    var b := Packet(c) + rest;
    HeaderFields(c, rest);
    assert c.bank == n / 2 && (c.address == 0x8000 || c.address == 0xa000);
    hide Packet, FlashChip;
    assert b[10..12][1] == b[11] && b[12..14][0] == b[12] && b[12..14][1] == b[13];
    assert b[11] == n / 2 && (b[12] == 0x80 <==> n % 2 == 0);
    assert Place(b) == n * CHIP_SIZE;
    assert b[16 + CHIP_SIZE..] == rest;
  }

  lemma PlaceOne(image: seq<byte>, n: nat, spare: seq<byte>)
    requires |image| == IMAGE_SIZE && n < 128
    ensures Overwrite(Partial(image, n, spare), n * CHIP_SIZE, ChipData(image, n)) == Partial(image, n + 1, spare)
    ensures IsErased(image, n) ==> Partial(image, n, spare) == Partial(image, n + 1, spare)
  {
    var size := n * CHIP_SIZE;
    assert image[..size + CHIP_SIZE] == image[..size] + ChipData(image, n);
    assert Erased(IMAGE_SIZE - size) == Erased(CHIP_SIZE) + Erased(IMAGE_SIZE - size - CHIP_SIZE);
  }

  /** Whatever chips were left out, the loader rebuilds the image. */
  lemma {:induction false} FlashChipsRebuild(image: seq<byte>, omit: bool, n: nat, spare: seq<byte>, any: bool,
      address: int)
    requires |image| == IMAGE_SIZE && n <= 128
    ensures ReadFlash(Packets(FlashChips(image, omit, n)), Partial(image, n, spare), any, address)
         == Flash(image + spare, any || FlashChips(image, omit, n) != [],
                  FirstAddress(FlashChips(image, omit, n), address))
    decreases 128 - n
  {
    hide Overwrite, Packet, FlashChip, ChipData;
    if n == 128 {
      assert Partial(image, 128, spare) == image + spare;
    } else {
      PlaceOne(image, n, spare);
      var rest := FlashChips(image, omit, n + 1);
      if omit && IsErased(image, n) {
        FlashChipsRebuild(image, omit, n + 1, spare, any, address);
      } else {
        var first := if address == 0 then FlashChip(image, n).address else address;
        FlashChipsRebuild(image, omit, n + 1, spare, true, first);
        ReadOneChip(image, n, Packets(rest), Partial(image, n, spare), any, address);
        assert ([FlashChip(image, n)] + rest)[1..] == rest;
      }
    }
  }

  /** Nothing is written exactly when erased chips are omitted and the whole image is erased. */
  lemma {:induction false} NothingWritten(image: seq<byte>, omit: bool, n: nat)
    requires |image| == IMAGE_SIZE && n <= 128
    ensures FlashChips(image, omit, n) == [] <==> n == 128 || (omit && forall k :: n <= k < 128 ==> IsErased(image, k))
    decreases 128 - n
  {
    hide IsErased;
    if n < 128 {
      NothingWritten(image, omit, n + 1);
    }
  }

  /** The round trip of an image through the writer and the loader. */
  lemma FlashRoundTrip(image: seq<byte>, omit: bool, spare: seq<byte>, address: int)
    requires |image| == IMAGE_SIZE
    ensures ReadFlash(Packets(FlashChips(image, omit, 0)), Erased(IMAGE_SIZE) + spare, false, address)
         == Flash(image + spare, !omit || exists k :: 0 <= k < 128 && !IsErased(image, k),
                  FirstAddress(FlashChips(image, omit, 0), address))
  {
    assert Partial(image, 0, spare) == Erased(IMAGE_SIZE) + spare;
    FlashChipsRebuild(image, omit, 0, spare, false, address);
    NothingWritten(image, omit, 0);
  }

  /** The bytes behind the image play no part in loading it. */
  lemma {:induction false} SpareStays(b: seq<byte>, image: seq<byte>, s: seq<byte>, t: seq<byte>, any: bool, address: int)
    requires |image| == IMAGE_SIZE && |s| == |t| == BUFFER_SIZE - IMAGE_SIZE
    ensures var r, q := ReadFlash(b, image + s, any, address), ReadFlash(b, image + t, any, address);
            && (r.Flash? <==> q.Flash?) && (r.FlashBad? <==> q.FlashBad?)
            && (r.Flash? ==> |r.buffer| == |q.buffer| == BUFFER_SIZE && r.buffer[..IMAGE_SIZE] == q.buffer[..IMAGE_SIZE]
                             && r.any == q.any && r.address == q.address)
    decreases |b|
  {
    if |b| >= 16 && b[..4] == TAG && |b| - 16 >= CHIP_SIZE && Place(b) + CHIP_SIZE <= BUFFER_SIZE {
      var data := b[16..16 + CHIP_SIZE];
      assert Place(b) + CHIP_SIZE <= IMAGE_SIZE;
      assert Overwrite(image + s, Place(b), data) == Overwrite(image, Place(b), data) + s;
      assert Overwrite(image + t, Place(b), data) == Overwrite(image, Place(b), data) + t;
      SpareStays(b[16 + CHIP_SIZE..], Overwrite(image, Place(b), data), s, t, true,
                 if address == 0 then BigEndian(b[12..14]) else address);
    }
  }
}
