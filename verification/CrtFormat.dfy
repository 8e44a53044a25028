/** The body of a CRT file (vice/src/cartconv.c): a sequence of CHIP packets, each a 16-byte
    header, the contents of one ROM bank and possibly padding up to the announced length. */
module CrtFormat {
  import opened Bytes

  /** One packet; the length of the whole chunk follows from the data and the padding. */
  datatype Chip = Chip(kind: word, bank: word, address: word, data: seq<byte>, padding: seq<byte>)

  const TAG: seq<byte> := [0x43, 0x48, 0x49, 0x50]

  function Min(a: int, b: int): int {
    if a <= b then a else b
  }

  function Be16(v: word): (s: seq<byte>)
    ensures |s| == 2 && BigEndian(s) == v
  {
    assert v / 0x100 < 0x100;
    [v / 0x100, v % 0x100]
  }

  function Be32(v: nat): (s: seq<byte>)
    requires v < 0x1_0000_0000
    ensures |s| == 4 && BigEndian(s) == v
  {
    assert v == 0x1_0000 * (v / 0x1_0000) + v % 0x1_0000;
    var s := Be16(v / 0x1_0000) + Be16(v % 0x1_0000);
    assert s[..2] == Be16(v / 0x1_0000) && s[2..] == Be16(v % 0x1_0000);
    s
  }

  /** The value of two or four bytes, the most significant first. */
  function BigEndian(s: seq<byte>): (v: nat)
    requires |s| == 2 || |s| == 4
    ensures |s| == 2 ==> v < 0x1_0000
    ensures |s| == 4 ==> v < 0x1_0000_0000
    decreases |s|
  {
    if |s| == 2 then 0x100 * s[0] + s[1] else 0x1_0000 * BigEndian(s[..2]) + BigEndian(s[2..])
  }

  lemma BigEndianPairs(s: seq<byte>)
    requires |s| == 4
    ensures Be32(BigEndian(s)) == s
    ensures Be16(BigEndian(s[..2])) == s[..2]
  {
    var hi, lo := BigEndian(s[..2]), BigEndian(s[2..]);
    var v := BigEndian(s);
    assert v / 0x1_0000 == hi && v % 0x1_0000 == lo;
    Be16Inverse(s[..2]);
    Be16Inverse(s[2..]);
  }

  lemma Be16Inverse(s: seq<byte>)
    requires |s| == 2
    ensures Be16(BigEndian(s)) == s
  {
  }

  function Chunk(c: Chip): nat {
    16 + |c.data| + |c.padding|
  }

  /** The lengths fit the header's fields. */
  predicate Printable(c: Chip) {
    |c.data| < 0x1_0000 && Chunk(c) < 0x1_0000_0000
  }

  predicate AllPrintable(cs: seq<Chip>) {
    cs == [] || (Printable(cs[0]) && AllPrintable(cs[1..]))
  }

  function Header(c: Chip): (h: seq<byte>)
    requires Printable(c)
    ensures |h| == 16
  {
    TAG + Be32(Chunk(c)) + Be16(c.kind) + Be16(c.bank) + Be16(c.address) + Be16(|c.data|)
  }

  function Packet(c: Chip): (p: seq<byte>)
    requires Printable(c)
    ensures |p| == Chunk(c)
  {
    Header(c) + c.data + c.padding
  }

  function Packets(cs: seq<Chip>): seq<byte>
    requires AllPrintable(cs)
  {
    if cs == [] then [] else Packet(cs[0]) + Packets(cs[1..])
  }

  /** The bank contents one after the other. */
  function Payload(cs: seq<Chip>): seq<byte> {
    if cs == [] then [] else cs[0].data + Payload(cs[1..])
  }

  lemma Assoc(a: seq<byte>, b: seq<byte>, c: seq<byte>)
    ensures a + (b + c) == (a + b) + c
  {
  }

  lemma {:induction false} PacketsAppend(cs: seq<Chip>, ds: seq<Chip>)
    requires AllPrintable(cs)
    requires AllPrintable(ds)
    ensures AllPrintable(cs + ds) && Packets(cs + ds) == Packets(cs) + Packets(ds)
  {
    hide Packet, Printable;
    var all := cs + ds;
    if cs == [] {
      assert all == ds;
    } else {
      PacketsAppend(cs[1..], ds);
      assert all[0] == cs[0] && all[1..] == cs[1..] + ds;
      Assoc(Packet(cs[0]), Packets(cs[1..]), Packets(ds));
    }
  }

  lemma {:induction false} PayloadAppend(cs: seq<Chip>, ds: seq<Chip>)
    ensures Payload(cs + ds) == Payload(cs) + Payload(ds)
  {
    if cs == [] {
      assert cs + ds == ds;
    } else {
      PayloadAppend(cs[1..], ds);
      assert (cs + ds)[1..] == cs[1..] + ds;
      Assoc(cs[0].data, Payload(cs[1..]), Payload(ds));
    }
  }

  /** The load address a reader keeps: the first that is not zero, an earlier one going first. */
  function FirstAddress(cs: seq<Chip>, known: int): int
    decreases |cs|
  {
    if cs == [] || known != 0 then known else FirstAddress(cs[1..], cs[0].address)
  }

  // ----- Reading -----

  /** What a reader with `room` bytes of buffer left makes of the rest of a file.  `Overrun`
      stands for a write past the end of the buffer, for which C gives no meaning. */
  datatype Scan = Chips(chips: seq<Chip>) | Bad | Overrun

  function Zeros(n: nat): (z: seq<byte>)
    ensures |z| == n
  {
    seq(n, _ => 0)
  }

  /** The first packet; padding that the end of the file cuts off counts as zeros. */
  function FirstChip(b: seq<byte>): Chip
    requires |b| >= 16 && |b| >= 16 + BigEndian(b[14..16]) && 16 + BigEndian(b[14..16]) <= BigEndian(b[4..8])
  {
    var length, size := BigEndian(b[4..8]), BigEndian(b[14..16]);
    var present := Min(length, |b|);
    Chip(BigEndian(b[8..10]), BigEndian(b[10..12]), BigEndian(b[12..14]), b[16..16 + size],
         b[16 + size..present] + Zeros(length - present))
  }

  /** The next packet and what follows it. */
  datatype Step = More(chip: Chip, rest: seq<byte>) | End | Broken | TooLong

  function ReadOne(b: seq<byte>, room: nat): (s: Step)
    ensures s.More? ==> |s.rest| < |b| && |s.chip.data| <= room
    ensures s.End? <==> |b| < 16
  {
    if |b| < 16 then
      End
    else if b[..4] != TAG then
      Broken
    else
      var length, size := BigEndian(b[4..8]), BigEndian(b[14..16]);
      if size + 16 > length then Broken
      else if Min(size, |b| - 16) > room then TooLong
      else if |b| - 16 < size then Broken
      else More(FirstChip(b), b[Min(length, |b|)..])
  }

  function Read(b: seq<byte>, room: nat): Scan
    decreases |b|
  {
    match ReadOne(b, room)
    case End => Chips([])
    case Broken => Bad
    case TooLong => Overrun
    case More(c, rest) => Prefixed([c], Read(rest, room - |c.data|))
  }

  /** Chips read earlier followed by what comes next. */
  function Prefixed(cs: seq<Chip>, s: Scan): Scan {
    if s.Chips? then Chips(cs + s.chips) else s
  }

  /** The fields of a printed header. */
  lemma HeaderFields(c: Chip, rest: seq<byte>)
    requires Printable(c)
    ensures var b := Packet(c) + rest;
            && b[..4] == TAG && BigEndian(b[4..8]) == Chunk(c) && BigEndian(b[8..10]) == c.kind
            && BigEndian(b[10..12]) == c.bank && BigEndian(b[12..14]) == c.address
            && BigEndian(b[14..16]) == |c.data|
            && b[16..16 + |c.data|] == c.data && b[16 + |c.data|..Chunk(c)] == c.padding
            && b[Chunk(c)..] == rest
  {
    var b := Packet(c) + rest;
    assert b[..16] == Header(c);
    assert b[4..8] == Header(c)[4..8] == Be32(Chunk(c));
    assert b[8..10] == Header(c)[8..10] == Be16(c.kind);
    assert b[10..12] == Header(c)[10..12] == Be16(c.bank);
    assert b[12..14] == Header(c)[12..14] == Be16(c.address);
    assert b[14..16] == Header(c)[14..16] == Be16(|c.data|);
  }

  /** Reading undoes printing for one packet. */
  lemma ReadOneUndoesPacket(c: Chip, rest: seq<byte>, room: nat)
    requires Printable(c)
    ensures ReadOne(Packet(c) + rest, room) == if |c.data| <= room then More(c, rest) else TooLong
  {
    var b := Packet(c) + rest;
    HeaderFields(c, rest);
    hide Packet, BigEndian;
    assert b[16 + |c.data|..Chunk(c)] + Zeros(0) == c.padding;
  }

  /** Reading undoes printing: packets followed by fewer than 16 stray bytes come back as they
      were, with their padding skipped, exactly when their contents fit the buffer. */
  lemma {:induction false} ReadUndoesPackets(cs: seq<Chip>, tail: seq<byte>, room: nat)
    requires AllPrintable(cs) && |tail| < 16
    ensures Read(Packets(cs) + tail, room) == if |Payload(cs)| <= room then Chips(cs) else Overrun
  {
    hide Packet, Printable;
    if cs == [] {
      assert Packets(cs) + tail == tail;
    } else {
      var c := cs[0];
      var rest := Packets(cs[1..]) + tail;
      ReadOneUndoesPacket(c, rest, room);
      Assoc(Packet(c), Packets(cs[1..]), tail);
      hide ReadOne;
      if |c.data| <= room {
        ReadUndoesPackets(cs[1..], tail, room - |c.data|);
        assert [c] + cs[1..] == cs;
      }
    }
  }

  /** A header is determined by its fields. */
  lemma HeaderOf(b: seq<byte>)
    requires |b| >= 16 && |b| >= 16 + BigEndian(b[14..16]) && 16 + BigEndian(b[14..16]) <= BigEndian(b[4..8])
    requires b[..4] == TAG
    ensures Printable(FirstChip(b)) && Chunk(FirstChip(b)) == BigEndian(b[4..8]) && Header(FirstChip(b)) == b[..16]
  {
    BigEndianPairs(b[4..8]);
    Be16Inverse(b[8..10]);
    Be16Inverse(b[10..12]);
    Be16Inverse(b[12..14]);
    Be16Inverse(b[14..16]);
    assert b[..16] == b[..4] + b[4..8] + b[8..10] + b[10..12] + b[12..14] + b[14..16];
  }

  /** Whether a file, completed by `cut` bytes of the last packet's padding, is printed packets
      followed by a few stray bytes. */
  ghost predicate IsPrinted(b: seq<byte>, cs: seq<Chip>, tail: seq<byte>, cut: nat) {
    && AllPrintable(cs)
    && b + Zeros(cut) == Packets(cs) + tail && |tail| < 16
    && (cut > 0 ==> tail == [] && cs != [] && cut <= |cs[|cs| - 1].padding|)
  }

  /** A whole packet in front of a printed file. */
  lemma OneMorePacket(c: Chip, b: seq<byte>, cs: seq<Chip>, tail: seq<byte>, cut: nat)
    requires Printable(c) && IsPrinted(b, cs, tail, cut)
    ensures IsPrinted(Packet(c) + b, [c] + cs, tail, cut)
  {
    hide Packet, Printable;
    assert ([c] + cs)[1..] == cs;
    assert (Packet(c) + b) + Zeros(cut) == Packet(c) + (b + Zeros(cut));
    assert Packet(c) + (Packets(cs) + tail) == Packets([c] + cs) + tail;
    assert cut > 0 ==> ([c] + cs)[|cs|] == cs[|cs| - 1];
  }

  /** A packet whose padding the end of the file cuts off. */
  lemma CutPacket(c: Chip, b: seq<byte>, cut: nat)
    requires Printable(c) && cut <= |c.padding| && b + Zeros(cut) == Packet(c)
    ensures IsPrinted(b, [c], [], cut)
  {
    hide Packet, Printable;
    assert [c][1..] == [];
    assert Packets([c]) == Packet(c) + Packets([]) == Packet(c) == Packet(c) + [];
  }

  /** The packet a reader takes from the front of a file. */
  lemma FirstPacket(b: seq<byte>)
    requires |b| >= 16 && |b| >= 16 + BigEndian(b[14..16]) && 16 + BigEndian(b[14..16]) <= BigEndian(b[4..8])
    requires b[..4] == TAG
    ensures var c, length := FirstChip(b), BigEndian(b[4..8]);
            && Printable(c) && Packet(c) == b[..Min(length, |b|)] + Zeros(length - Min(length, |b|))
            && length - Min(length, |b|) <= |c.padding|
  {
    HeaderOf(b);
    hide BigEndian, Printable, Header;
    var size := |FirstChip(b).data|;
    var present := Min(BigEndian(b[4..8]), |b|);
    assert b[..present] == b[..16] + b[16..16 + size] + b[16 + size..present];
  }

  /** A step of the reader takes a whole packet, or one whose padding the file cuts off. */
  lemma ReadOneIsPrinted(b: seq<byte>, room: nat) returns (cut: nat)
    requires ReadOne(b, room).More?
    ensures var (c, rest) := (ReadOne(b, room).chip, ReadOne(b, room).rest);
            && Printable(c) && cut <= |c.padding|
            && if cut == 0 then Packet(c) + rest == b else rest == [] && b + Zeros(cut) == Packet(c)
  {
    hide Packet, Printable;
    FirstPacket(b);
    var length := BigEndian(b[4..8]);
    cut := length - Min(length, |b|);
    assert Zeros(0) == [];
    assert b == b[..Min(length, |b|)] + b[Min(length, |b|)..];
  }

  /** Printing undoes reading: an accepted file is a sequence of packets followed by fewer than
      16 stray bytes, or ends inside the padding of its last packet. */
  lemma {:induction false} PacketsUndoRead(b: seq<byte>, room: nat) returns (tail: seq<byte>, cut: nat)
    requires Read(b, room).Chips?
    ensures IsPrinted(b, Read(b, room).chips, tail, cut) && |Payload(Read(b, room).chips)| <= room
    decreases |b|
  {
    hide IsPrinted, Printable, Packet, Packets, Payload, ReadOne;
    var step := ReadOne(b, room);
    if step == End {
      tail, cut := b, 0;
      NoPacket(b);
    } else {
      var c, rest := step.chip, step.rest;
      var lost := ReadOneIsPrinted(b, room);
      tail, cut := PacketsUndoRead(rest, room - |c.data|);
      var cs := Read(rest, room - |c.data|).chips;
      FirstPayload(c, cs);
      if lost == 0 {
        OneMorePacket(c, rest, cs, tail, cut);
      } else {
        assert cs == [];
        tail, cut := [], lost;
        CutPacket(c, b, cut);
        assert [c] + cs == [c];
      }
    }
  }

  lemma FirstPayload(c: Chip, cs: seq<Chip>)
    ensures Payload([c] + cs) == c.data + Payload(cs)
  {
    assert ([c] + cs)[1..] == cs;
  }

  lemma NoPacket(b: seq<byte>)
    requires |b| < 16
    ensures IsPrinted(b, [], b, 0) && Payload([]) == []
  {
    assert b + Zeros(0) == Packets([]) + b;
  }

  // ----- A file from one data image -----

  predicate AllAt(cs: seq<Chip>, address: word) {
    cs == [] || (cs[0].address == address && AllAt(cs[1..], address))
  }

  /** The size of `k` banks: `k * length`, as `TotalIsProduct` shows. */
  function Total(k: nat, length: nat): nat {
    if k == 0 then 0 else length + Total(k - 1, length)
  }

  lemma {:induction false} TotalIsProduct(k: nat, length: nat)
    ensures Total(k, length) == k * length
  {
    if k > 0 {
      TotalIsProduct(k - 1, length);
    }
  }

  /** The first `k` banks of an image, numbered from `bank` on, all at the same address. */
  function Banks(image: seq<byte>, length: nat, bank: nat, k: nat, kind: word, address: word): (cs: seq<Chip>)
    requires bank + k <= 0x100 && Total(k, length) <= |image|
    ensures |cs| == k && (length < 0x1_0000 ==> AllPrintable(cs)) && AllAt(cs, address)
    decreases k
  {
    if k == 0 then []
    else [Chip(kind, bank, address, image[..length], [])] + Banks(image[length..], length, bank + 1, k - 1, kind, address)
  }

  lemma {:induction false} BanksPayload(image: seq<byte>, length: nat, bank: nat, k: nat, kind: word, address: word)
    requires bank + k <= 0x100 && Total(k, length) <= |image|
    ensures Payload(Banks(image, length, bank, k, kind, address)) == image[..Total(k, length)]
    decreases k
  {
    if k > 0 {
      var rest := image[length..];
      BanksPayload(rest, length, bank + 1, k - 1, kind, address);
      var cs := Banks(image, length, bank, k, kind, address);
      assert cs[1..] == Banks(rest, length, bank + 1, k - 1, kind, address);
      assert image[..Total(k, length)] == image[..length] + rest[..Total(k - 1, length)];
    }
  }

  /** A data image cut into banks and printed is read back whole, with its load address. */
  lemma RegularRoundTrip(image: seq<byte>, length: nat, k: nat, kind: word, address: word, room: nat)
    requires k <= 0x100 && Total(k, length) == |image| && length < 0x1_0000 && |image| <= room
    ensures var cs := Banks(image, length, 0, k, kind, address);
            && AllPrintable(cs) && Read(Packets(cs), room) == Chips(cs)
            && Payload(cs) == image && (k > 0 ==> FirstAddress(cs, 0) == address)
  {
    var cs := Banks(image, length, 0, k, kind, address);
    BanksPayload(image, length, 0, k, kind, address);
    assert image[..|image|] == image;
    ReadUndoesPackets(cs, [], room);
    assert Packets(cs) + [] == Packets(cs);
    if k > 0 {
      SameAddress(cs[1..], address);
    }
  }

  lemma {:induction false} SameAddress(cs: seq<Chip>, address: word)
    requires AllAt(cs, address)
    ensures FirstAddress(cs, address) == address
  {
    if cs != [] && address == 0 {
      SameAddress(cs[1..], address);
    }
  }
}
