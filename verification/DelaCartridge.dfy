/** The Dela EP7x8 cartridge (vice/src/cartconv.c): a base ROM in bank 0 and inserted images of
    one, two or four banks behind it, in the order given. */
module DelaCartridge {
  import opened Bytes
  import opened CrtFormat
  import opened CrtFile

  const SLOT := 0x2000

  /** What saving with inserted files comes to: the packets of the file, or a refusal. */
  datatype Placement = Placed(chips: seq<Chip>) | Refused | Astray

  function Slot(data: seq<byte>, bank: word): Chip {
    Chip(0, bank, 0x8000, data, [])
  }

  /** An image cut into consecutive banks from `bank` on. */
  function Slots(data: seq<byte>, bank: nat): (cs: seq<Chip>)
    requires bank + |data| / SLOT <= 0x100
    ensures AllPrintable(cs)
  {
    if |data| < SLOT then [] else [Slot(data[..SLOT], bank)] + Slots(data[SLOT..], bank + 1)
  }

  /** The bytes inserted behind the base bank. */
  function InsertedSize(cs: seq<Chip>): int {
    (|cs| - 1) * SLOT
  }

  /** Only generic cartridges and plain images may be inserted. */
  predicate Generic(l: Loading) {
    l.Binary? || (l.Crt? && l.cartType == 0 && !l.ultimax)
  }

  /** One inserted file; an image of any other size is passed over. */
  function Insert(cs: seq<Chip>, l: Loading): Placement
    requires |cs| <= 8
  {
    if l.Rejected? then Refused
    else if l.Undefined? then Astray
    else if |l.data| == 0x8000 then
      if l.Crt? || InsertedSize(cs) != 0 then Refused else Placed(cs + Slots(l.data, |cs|))
    else if |l.data| == 0x4000 then
      if !Generic(l) || InsertedSize(cs) >= 0xc000 then Refused else Placed(cs + Slots(l.data, |cs|))
    else if |l.data| == 0x2000 then
      if !Generic(l) || InsertedSize(cs) >= 0xe000 then Refused else Placed(cs + Slots(l.data, |cs|))
    else
      Placed(cs)
  }

  /** The load address the next file starts with. */
  function NextAddress(l: Loading, known: int): int {
    if l.Crt? then l.address else known
  }

  /** All inserted files in turn. */
  function InsertAll(cs: seq<Chip>, files: seq<File>, padding: bool, known: int): Placement
    requires WellBanked(cs)
    decreases |files|
  {
    if files == [] then Placed(cs)
    else
      var l := Load(files[0], padding, known);
      var p := Insert(cs, l);
      if p.Placed? then
        InsertKeeps(cs, l);
        InsertAll(p.chips, files[1..], padding, NextAddress(l, known))
      else p
  }

  /** Banks 0 to at most 7, one after the other, 8 KB each. */
  ghost predicate WellBanked(cs: seq<Chip>) {
    1 <= |cs| <= 8 && forall i :: 0 <= i < |cs| ==> cs[i] == Slot(cs[i].data, i) && |cs[i].data| == SLOT
  }

  lemma {:induction false} SlotsAre(data: seq<byte>, bank: nat)
    requires bank + |data| / SLOT <= 0x100 && |data| % SLOT == 0
    ensures var s := Slots(data, bank);
            && |s| == |data| / SLOT && Payload(s) == data
            && forall i :: 0 <= i < |s| ==> s[i] == Slot(s[i].data, bank + i) && |s[i].data| == SLOT
    decreases |data|
  {
    var s := Slots(data, bank);
    if |data| >= SLOT {
      SlotsAre(data[SLOT..], bank + 1);
      var rest := Slots(data[SLOT..], bank + 1);
      assert s[1..] == rest;
      assert data == data[..SLOT] + data[SLOT..];
      forall i | 0 <= i < |s|
        ensures s[i] == Slot(s[i].data, bank + i) && |s[i].data| == SLOT
      {
        assert i > 0 ==> s[i] == rest[i - 1];
      }
    }
  }

  /** What an inserted file adds to the contents. */
  function Contribution(l: Loading): seq<byte> {
    if (l.Crt? || l.Binary?) && |l.data| in {0x2000, 0x4000, 0x8000} then l.data else []
  }

  /** Each insertion keeps the banks contiguous, never goes beyond bank 7, and adds its image
      behind what was there. */
  lemma InsertKeeps(cs: seq<Chip>, l: Loading)
    requires WellBanked(cs) && Insert(cs, l).Placed?
    ensures var p := Insert(cs, l).chips;
            WellBanked(p) && Payload(p) == Payload(cs) + Contribution(l)
  {
    if l.data != [] && |l.data| in {0x2000, 0x4000, 0x8000} {
      SlotsAre(l.data, |cs|);
      PayloadAppend(cs, Slots(l.data, |cs|));
    }
  }

  function Contributions(files: seq<File>, padding: bool, known: int): seq<byte>
    decreases |files|
  {
    if files == [] then []
    else
      var l := Load(files[0], padding, known);
      Contribution(l) + Contributions(files[1..], padding, NextAddress(l, known))
  }

  /** Any mix of inserted files that is accepted yields contiguous banks up to at most 7, holding
      the base and then the inserted images in order. */
  lemma {:induction false} InsertAllKeeps(cs: seq<Chip>, files: seq<File>, padding: bool, known: int)
    requires WellBanked(cs) && InsertAll(cs, files, padding, known).Placed?
    ensures var p := InsertAll(cs, files, padding, known).chips;
            WellBanked(p) && Payload(p) == Payload(cs) + Contributions(files, padding, known)
    decreases |files|
  {
    if files != [] {
      var l := Load(files[0], padding, known);
      hide Load, Insert, WellBanked, Contribution;
      InsertKeeps(cs, l);
      InsertAllKeeps(Insert(cs, l).chips, files[1..], padding, NextAddress(l, known));
      Assoc(Payload(cs), Contribution(l), Contributions(files[1..], padding, NextAddress(l, known)));
    }
  }

  lemma {:induction false} BankedArePrintable(cs: seq<Chip>)
    requires forall i :: 0 <= i < |cs| ==> |cs[i].data| == SLOT && cs[i].padding == []
    ensures AllPrintable(cs) && |Payload(cs)| == |cs| * SLOT
  {
    if cs != [] {
      BankedArePrintable(cs[1..]);
    }
  }

  /** Loading the finished cartridge yields the base followed by everything inserted. */
  lemma DelaRoundTrip(base: seq<byte>, files: seq<File>, cartType: byte, name: seq<byte>, padding: bool, known: int)
    requires |base| == SLOT && cartType <= LAST_TYPE && cartType != EASYFLASH
    requires InsertAll([Slot(base, 0)], files, padding, known).Placed?
    ensures var cs := InsertAll([Slot(base, 0)], files, padding, known).chips;
            && AllPrintable(cs)
            && var l := Load(Present(HeaderBytes(cartType, name, 1, 0) + Packets(cs)), padding, 0);
            l.Crt? && l.data == base + Contributions(files, padding, known) && l.cartType == cartType
  {
    var cs := InsertAll([Slot(base, 0)], files, padding, known).chips;
    InsertAllKeeps([Slot(base, 0)], files, padding, known);
    assert Payload([Slot(base, 0)]) == base by { assert [Slot(base, 0)][1..] == []; }
    BankedArePrintable(cs);
    LoadAfterHeader(cartType, name, 1, 0, Packets(cs), padding, 0);
    ReadUndoesPackets(cs, [], 0x10_0002);
    assert Packets(cs) + [] == Packets(cs);
    assert |Payload(cs)| > 0;
  }
}
