/** The status representation both processor cores use.

    `reg_p` never holds N and Z: those live in `flag_n` and `flag_z` as the last result
    byte, and are only turned into status bits when someone asks.  The remaining bits of
    `reg_p` are read and written one mask at a time, so they are kept by name here. */
module LazyFlags {
  import opened Bytes
  import opened Isa6510

  /** `reg_p` by its bits: overflow, break, decimal, interrupt, carry (bit 5 always reads as one). */
  datatype RegP = RegP(v: bool, b: bool, d: bool, i: bool, c: bool)

  /** The Boolean flags a lazy triple stands for. */
  function Lazy(p: RegP, n: byte, z: byte): Flags {
    Flags(n >= 0x80, p.v, p.b, p.d, p.i, z == 0, p.c)
  }

  /** `reg_p` as a number. */
  function Value(p: RegP): byte {
    (if p.v then 0x40 else 0) + (if p.b then 0x10 else 0) + (if p.d then 0x08 else 0) + (if p.i then 0x04 else 0) + Bit(p.c)
  }

  /** LOCAL_STATUS: the pushed byte, put together from the three variables. */
  function LocalStatus(p: RegP, n: byte, z: byte): (s: byte)
    ensures s == StatusByte(Lazy(p, n, z))
  {
    Value(p) + (if n >= 0x80 then 0x80 else 0) + 0x20 + (if z == 0 then 0x02 else 0)
  }

  /** LOCAL_SET_STATUS, part one: `reg_p` is the byte without its N and Z bits. */
  function StatusToP(s: byte): RegP {
    RegP(Bit6(s), (s / 0x10) % 2 == 1, (s / 0x08) % 2 == 1, (s / 0x04) % 2 == 1, s % 2 == 1)
  }

  /** LOCAL_SET_STATUS, part two: `flag_z` is zero exactly when the Z bit is set; `flag_n` is the byte itself. */
  function StatusToZ(s: byte): byte {
    if (s / 0x02) % 2 == 1 then 0 else 1
  }

  /** Loading a status byte into the lazy triple gives the flags of that byte. */
  lemma SetStatusLoads(s: byte)
    ensures Lazy(StatusToP(s), s, StatusToZ(s)) == FlagsOf(s)
  {
  }

  /** Four bits as a number. */
  function Nibble(b3: bool, b2: bool, b1: bool, b0: bool): (v: nat)
    ensures v < 0x10
  {
    (if b3 then 8 else 0) + (if b2 then 4 else 0) + (if b1 then 2 else 0) + (if b0 then 1 else 0)
  }

  lemma NibbleBits(b3: bool, b2: bool, b1: bool, b0: bool)
    ensures var v := Nibble(b3, b2, b1, b0);
            (v >= 8 <==> b3) && (v / 4 % 2 == 1 <==> b2) && (v / 2 % 2 == 1 <==> b1) && (v % 2 == 1 <==> b0) && v / 8 % 2 == v / 8
  {
  }

  /** The bits of a byte by its halves. */
  lemma Halves(hi: nat, lo: nat)
    requires hi < 0x10 && lo < 0x10
    ensures var s := 0x10 * hi + lo;
            && s / 0x10 == hi && s / 0x40 == hi / 4 && (s >= 0x80 <==> hi >= 8)
            && (s / 8 % 2 == 1 <==> lo >= 8) && s / 4 % 2 == lo / 4 % 2 && s / 2 % 2 == lo / 2 % 2 && s % 2 == lo % 2
  {
    LowHalf(hi, lo);
  }

  lemma LowHalf(hi: nat, lo: nat)
    requires hi < 0x10 && lo < 0x10
    ensures var s := 0x10 * hi + lo; s / 8 == 2 * hi + lo / 8 && s / 4 == 2 * (2 * hi) + lo / 4 && s / 2 == 2 * (4 * hi) + lo / 2
  {
  }

  lemma StatusRoundTrip(f: Flags)
    ensures FlagsOf(StatusByte(f)) == f
  {
    var hi, lo := Nibble(f.n, f.v, true, f.b), Nibble(f.d, f.i, f.z, f.c);
    assert StatusByte(f) == 0x10 * hi + lo;
    hide StatusByte;
    NibbleBits(f.n, f.v, true, f.b);
    NibbleBits(f.d, f.i, f.z, f.c);
    hide Nibble;
    Halves(hi, lo);
  }

  /** LOCAL_SET_STATUS of LOCAL_STATUS: pushing the status and pulling it back restores every flag of
      the lazy triple, although `flag_n` and `flag_z` themselves may end up with other values. */
  lemma LazyRoundTrip(p: RegP, n: byte, z: byte)
    ensures var s := LocalStatus(p, n, z); Lazy(StatusToP(s), s, StatusToZ(s)) == Lazy(p, n, z)
  {
    StatusRoundTrip(Lazy(p, n, z));
    hide StatusByte, FlagsOf;
    SetStatusLoads(LocalStatus(p, n, z));
  }
}
