/** The opcode matrix written out: what the decoding by bit fields gives for each opcode. */
module OpcodeMatrix {
  import opened Bytes
  import opened Isa6510

  /** The opcodes whose third byte is fetched with the opcode (the table `fetch_tab`, the same in both cores). */
  predicate FetchTab(op: byte) {
    op % 16 >= 12 || ((op / 16) % 2 == 1 && op % 16 in {9, 11})
  }

  lemma Row0Low()
    ensures Decode(0x00) == Brk && Decode(0x01) == Read(ORA, IndX) && Decode(0x02) == Jam && Decode(0x03) == Modify(SLO, IndX)
    ensures Decode(0x04) == Read(SKIP, Zp) && Decode(0x05) == Read(ORA, Zp) && Decode(0x06) == Modify(ASL, Zp) && Decode(0x07) == Modify(SLO, Zp)
  {
  }

  lemma Row0High()
    ensures Decode(0x08) == Php && Decode(0x09) == Read(ORA, Imm) && Decode(0x0a) == ModifyA(ASL) && Decode(0x0b) == Read(ANC, Imm)
    ensures Decode(0x0c) == Read(SKIP, Abs) && Decode(0x0d) == Read(ORA, Abs) && Decode(0x0e) == Modify(ASL, Abs) && Decode(0x0f) == Modify(SLO, Abs)
  {
  }

  lemma Row1Low()
    ensures Decode(0x10) == Branch(PL) && Decode(0x11) == Read(ORA, IndY) && Decode(0x12) == Jam && Decode(0x13) == Modify(SLO, IndY)
    ensures Decode(0x14) == Read(SKIP, ZpX) && Decode(0x15) == Read(ORA, ZpX) && Decode(0x16) == Modify(ASL, ZpX) && Decode(0x17) == Modify(SLO, ZpX)
  {
  }

  lemma Row1High()
    ensures Decode(0x18) == Implied(CLC) && Decode(0x19) == Read(ORA, AbsY) && Decode(0x1a) == Implied(NOP) && Decode(0x1b) == Modify(SLO, AbsY)
    ensures Decode(0x1c) == Read(SKIP, AbsX) && Decode(0x1d) == Read(ORA, AbsX) && Decode(0x1e) == Modify(ASL, AbsX) && Decode(0x1f) == Modify(SLO, AbsX)
  {
  }

  lemma Row2Low()
    ensures Decode(0x20) == Jsr && Decode(0x21) == Read(AND, IndX) && Decode(0x22) == Jam && Decode(0x23) == Modify(RLA, IndX)
    ensures Decode(0x24) == Read(BIT, Zp) && Decode(0x25) == Read(AND, Zp) && Decode(0x26) == Modify(ROL, Zp) && Decode(0x27) == Modify(RLA, Zp)
  {
  }

  lemma Row2High()
    ensures Decode(0x28) == Plp && Decode(0x29) == Read(AND, Imm) && Decode(0x2a) == ModifyA(ROL) && Decode(0x2b) == Read(ANC, Imm)
    ensures Decode(0x2c) == Read(BIT, Abs) && Decode(0x2d) == Read(AND, Abs) && Decode(0x2e) == Modify(ROL, Abs) && Decode(0x2f) == Modify(RLA, Abs)
  {
  }

  lemma Row3Low()
    ensures Decode(0x30) == Branch(MI) && Decode(0x31) == Read(AND, IndY) && Decode(0x32) == Jam && Decode(0x33) == Modify(RLA, IndY)
    ensures Decode(0x34) == Read(SKIP, ZpX) && Decode(0x35) == Read(AND, ZpX) && Decode(0x36) == Modify(ROL, ZpX) && Decode(0x37) == Modify(RLA, ZpX)
  {
  }

  lemma Row3High()
    ensures Decode(0x38) == Implied(SEC) && Decode(0x39) == Read(AND, AbsY) && Decode(0x3a) == Implied(NOP) && Decode(0x3b) == Modify(RLA, AbsY)
    ensures Decode(0x3c) == Read(SKIP, AbsX) && Decode(0x3d) == Read(AND, AbsX) && Decode(0x3e) == Modify(ROL, AbsX) && Decode(0x3f) == Modify(RLA, AbsX)
  {
  }

  lemma Row4Low()
    ensures Decode(0x40) == Rti && Decode(0x41) == Read(EOR, IndX) && Decode(0x42) == Jam && Decode(0x43) == Modify(SRE, IndX)
    ensures Decode(0x44) == Read(SKIP, Zp) && Decode(0x45) == Read(EOR, Zp) && Decode(0x46) == Modify(LSR, Zp) && Decode(0x47) == Modify(SRE, Zp)
  {
  }

  lemma Row4High()
    ensures Decode(0x48) == Pha && Decode(0x49) == Read(EOR, Imm) && Decode(0x4a) == ModifyA(LSR) && Decode(0x4b) == Read(ASR, Imm)
    ensures Decode(0x4c) == Jmp && Decode(0x4d) == Read(EOR, Abs) && Decode(0x4e) == Modify(LSR, Abs) && Decode(0x4f) == Modify(SRE, Abs)
  {
  }

  lemma Row5Low()
    ensures Decode(0x50) == Branch(VC) && Decode(0x51) == Read(EOR, IndY) && Decode(0x52) == Jam && Decode(0x53) == Modify(SRE, IndY)
    ensures Decode(0x54) == Read(SKIP, ZpX) && Decode(0x55) == Read(EOR, ZpX) && Decode(0x56) == Modify(LSR, ZpX) && Decode(0x57) == Modify(SRE, ZpX)
  {
  }

  lemma Row5High()
    ensures Decode(0x58) == Implied(CLI) && Decode(0x59) == Read(EOR, AbsY) && Decode(0x5a) == Implied(NOP) && Decode(0x5b) == Modify(SRE, AbsY)
    ensures Decode(0x5c) == Read(SKIP, AbsX) && Decode(0x5d) == Read(EOR, AbsX) && Decode(0x5e) == Modify(LSR, AbsX) && Decode(0x5f) == Modify(SRE, AbsX)
  {
  }

  lemma Row6Low()
    ensures Decode(0x60) == Rts && Decode(0x61) == Read(ADC, IndX) && Decode(0x62) == Jam && Decode(0x63) == Modify(RRA, IndX)
    ensures Decode(0x64) == Read(SKIP, Zp) && Decode(0x65) == Read(ADC, Zp) && Decode(0x66) == Modify(ROR, Zp) && Decode(0x67) == Modify(RRA, Zp)
  {
  }

  lemma Row6High()
    ensures Decode(0x68) == Pla && Decode(0x69) == Read(ADC, Imm) && Decode(0x6a) == ModifyA(ROR) && Decode(0x6b) == Read(ARR, Imm)
    ensures Decode(0x6c) == JmpInd && Decode(0x6d) == Read(ADC, Abs) && Decode(0x6e) == Modify(ROR, Abs) && Decode(0x6f) == Modify(RRA, Abs)
  {
  }

  lemma Row7Low()
    ensures Decode(0x70) == Branch(VS) && Decode(0x71) == Read(ADC, IndY) && Decode(0x72) == Jam && Decode(0x73) == Modify(RRA, IndY)
    ensures Decode(0x74) == Read(SKIP, ZpX) && Decode(0x75) == Read(ADC, ZpX) && Decode(0x76) == Modify(ROR, ZpX) && Decode(0x77) == Modify(RRA, ZpX)
  {
  }

  lemma Row7High()
    ensures Decode(0x78) == Implied(SEI) && Decode(0x79) == Read(ADC, AbsY) && Decode(0x7a) == Implied(NOP) && Decode(0x7b) == Modify(RRA, AbsY)
    ensures Decode(0x7c) == Read(SKIP, AbsX) && Decode(0x7d) == Read(ADC, AbsX) && Decode(0x7e) == Modify(ROR, AbsX) && Decode(0x7f) == Modify(RRA, AbsX)
  {
  }

  lemma Row8Low()
    ensures Decode(0x80) == Read(SKIP, Imm) && Decode(0x81) == Write(STA, IndX) && Decode(0x82) == Read(SKIP, Imm) && Decode(0x83) == Write(SAX, IndX)
    ensures Decode(0x84) == Write(STY, Zp) && Decode(0x85) == Write(STA, Zp) && Decode(0x86) == Write(STX, Zp) && Decode(0x87) == Write(SAX, Zp)
  {
  }

  lemma Row8High()
    ensures Decode(0x88) == Implied(DEY) && Decode(0x89) == Read(SKIP, Imm) && Decode(0x8a) == Implied(TXA) && Decode(0x8b) == Read(ANE, Imm)
    ensures Decode(0x8c) == Write(STY, Abs) && Decode(0x8d) == Write(STA, Abs) && Decode(0x8e) == Write(STX, Abs) && Decode(0x8f) == Write(SAX, Abs)
  {
  }

  lemma Row9Low()
    ensures Decode(0x90) == Branch(CC) && Decode(0x91) == Write(STA, IndY) && Decode(0x92) == Jam && Decode(0x93) == High(SHA, IndY)
    ensures Decode(0x94) == Write(STY, ZpX) && Decode(0x95) == Write(STA, ZpX) && Decode(0x96) == Write(STX, ZpY) && Decode(0x97) == Write(SAX, ZpY)
  {
  }

  lemma Row9High()
    ensures Decode(0x98) == Implied(TYA) && Decode(0x99) == Write(STA, AbsY) && Decode(0x9a) == Implied(TXS) && Decode(0x9b) == High(SHS, AbsY)
    ensures Decode(0x9c) == High(SHY, AbsX) && Decode(0x9d) == Write(STA, AbsX) && Decode(0x9e) == High(SHX, AbsY) && Decode(0x9f) == High(SHA, AbsY)
  {
  }

  lemma RowALow()
    ensures Decode(0xa0) == Read(LDY, Imm) && Decode(0xa1) == Read(LDA, IndX) && Decode(0xa2) == Read(LDX, Imm) && Decode(0xa3) == Read(LAX, IndX)
    ensures Decode(0xa4) == Read(LDY, Zp) && Decode(0xa5) == Read(LDA, Zp) && Decode(0xa6) == Read(LDX, Zp) && Decode(0xa7) == Read(LAX, Zp)
  {
  }

  lemma RowAHigh()
    ensures Decode(0xa8) == Implied(TAY) && Decode(0xa9) == Read(LDA, Imm) && Decode(0xaa) == Implied(TAX) && Decode(0xab) == Read(LXA, Imm)
    ensures Decode(0xac) == Read(LDY, Abs) && Decode(0xad) == Read(LDA, Abs) && Decode(0xae) == Read(LDX, Abs) && Decode(0xaf) == Read(LAX, Abs)
  {
  }

  lemma RowBLow()
    ensures Decode(0xb0) == Branch(CS) && Decode(0xb1) == Read(LDA, IndY) && Decode(0xb2) == Jam && Decode(0xb3) == Read(LAX, IndY)
    ensures Decode(0xb4) == Read(LDY, ZpX) && Decode(0xb5) == Read(LDA, ZpX) && Decode(0xb6) == Read(LDX, ZpY) && Decode(0xb7) == Read(LAX, ZpY)
  {
  }

  lemma RowBHigh()
    ensures Decode(0xb8) == Implied(CLV) && Decode(0xb9) == Read(LDA, AbsY) && Decode(0xba) == Implied(TSX) && Decode(0xbb) == Read(LAS, AbsY)
    ensures Decode(0xbc) == Read(LDY, AbsX) && Decode(0xbd) == Read(LDA, AbsX) && Decode(0xbe) == Read(LDX, AbsY) && Decode(0xbf) == Read(LAX, AbsY)
  {
  }

  lemma RowCLow()
    ensures Decode(0xc0) == Read(CPY, Imm) && Decode(0xc1) == Read(CMP, IndX) && Decode(0xc2) == Read(SKIP, Imm) && Decode(0xc3) == Modify(DCP, IndX)
    ensures Decode(0xc4) == Read(CPY, Zp) && Decode(0xc5) == Read(CMP, Zp) && Decode(0xc6) == Modify(DEC, Zp) && Decode(0xc7) == Modify(DCP, Zp)
  {
  }

  lemma RowCHigh()
    ensures Decode(0xc8) == Implied(INY) && Decode(0xc9) == Read(CMP, Imm) && Decode(0xca) == Implied(DEX) && Decode(0xcb) == Read(SBX, Imm)
    ensures Decode(0xcc) == Read(CPY, Abs) && Decode(0xcd) == Read(CMP, Abs) && Decode(0xce) == Modify(DEC, Abs) && Decode(0xcf) == Modify(DCP, Abs)
  {
  }

  lemma RowDLow()
    ensures Decode(0xd0) == Branch(NE) && Decode(0xd1) == Read(CMP, IndY) && Decode(0xd2) == Jam && Decode(0xd3) == Modify(DCP, IndY)
    ensures Decode(0xd4) == Read(SKIP, ZpX) && Decode(0xd5) == Read(CMP, ZpX) && Decode(0xd6) == Modify(DEC, ZpX) && Decode(0xd7) == Modify(DCP, ZpX)
  {
  }

  lemma RowDHigh()
    ensures Decode(0xd8) == Implied(CLD) && Decode(0xd9) == Read(CMP, AbsY) && Decode(0xda) == Implied(NOP) && Decode(0xdb) == Modify(DCP, AbsY)
    ensures Decode(0xdc) == Read(SKIP, AbsX) && Decode(0xdd) == Read(CMP, AbsX) && Decode(0xde) == Modify(DEC, AbsX) && Decode(0xdf) == Modify(DCP, AbsX)
  {
  }

  lemma RowELow()
    ensures Decode(0xe0) == Read(CPX, Imm) && Decode(0xe1) == Read(SBC, IndX) && Decode(0xe2) == Read(SKIP, Imm) && Decode(0xe3) == Modify(ISB, IndX)
    ensures Decode(0xe4) == Read(CPX, Zp) && Decode(0xe5) == Read(SBC, Zp) && Decode(0xe6) == Modify(INC, Zp) && Decode(0xe7) == Modify(ISB, Zp)
  {
  }

  lemma RowEHigh()
    ensures Decode(0xe8) == Implied(INX) && Decode(0xe9) == Read(SBC, Imm) && Decode(0xea) == Implied(NOP) && Decode(0xeb) == Read(SBC, Imm)
    ensures Decode(0xec) == Read(CPX, Abs) && Decode(0xed) == Read(SBC, Abs) && Decode(0xee) == Modify(INC, Abs) && Decode(0xef) == Modify(ISB, Abs)
  {
  }

  lemma RowFLow()
    ensures Decode(0xf0) == Branch(EQ) && Decode(0xf1) == Read(SBC, IndY) && Decode(0xf2) == Jam && Decode(0xf3) == Modify(ISB, IndY)
    ensures Decode(0xf4) == Read(SKIP, ZpX) && Decode(0xf5) == Read(SBC, ZpX) && Decode(0xf6) == Modify(INC, ZpX) && Decode(0xf7) == Modify(ISB, ZpX)
  {
  }

  lemma RowFHigh()
    ensures Decode(0xf8) == Implied(SED) && Decode(0xf9) == Read(SBC, AbsY) && Decode(0xfa) == Implied(NOP) && Decode(0xfb) == Modify(ISB, AbsY)
    ensures Decode(0xfc) == Read(SKIP, AbsX) && Decode(0xfd) == Read(SBC, AbsX) && Decode(0xfe) == Modify(INC, AbsX) && Decode(0xff) == Modify(ISB, AbsX)
  {
  }
}
