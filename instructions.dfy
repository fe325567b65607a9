/** The instruction set (src/instruction.rs): the 34 instruction variants and
    the pure decoder from a 16-bit opcode.  Operand names follow Cowgod's
    Chip-8 Technical Reference, section 3.1: `x` and `y` are register
    indices, `kk` an immediate byte, `nnn` a 12-bit address, `n` a nibble. */
module Instructions {
  import opened Words

  datatype Option<+T> = None | Some(value: T)

  datatype Instruction =
    | Sys(nnn: u16)
    | Cls
    | Ret
    | Jp(nnn: u16)
    | Call(nnn: u16)
    | SeByte(x: u8, kk: u8)
    | SneByte(x: u8, kk: u8)
    | SeReg(x: u8, y: u8)
    | LdByte(x: u8, kk: u8)
    | AddByte(x: u8, kk: u8)
    | LdReg(x: u8, y: u8)
    | Or(x: u8, y: u8)
    | And(x: u8, y: u8)
    | Xor(x: u8, y: u8)
    | AddReg(x: u8, y: u8)
    | Sub(x: u8, y: u8)
    | Shr(x: u8)
    | Subn(x: u8, y: u8)
    | Shl(x: u8)
    | SneReg(x: u8, y: u8)
    | LdI(nnn: u16)
    | JpV0(nnn: u16)
    | Rnd(x: u8, kk: u8)
    | Drw(x: u8, y: u8, n: u8)
    | Skp(x: u8)
    | Sknp(x: u8)
    | LdRegFromDt(x: u8)
    | LdRegFromKey(x: u8)
    | LdDtFromReg(x: u8)
    | LdStFromReg(x: u8)
    | AddI(x: u8)
    | LdF(x: u8)
    | LdB(x: u8)
    | LdIWrite(x: u8)
    | LdIRead(x: u8)

  /** `(opcode & 0xF000) >> 12`: the family (see `NibbleFieldsAreMasks`). */
  function FirstNibble(op: u16): (r: u8)
    ensures r < 0x10
  {
    op / 0x1000
  }

  /** `opcode & 0x000F`: the low nibble. */
  function LastNibble(op: u16): (r: u8)
    ensures r < 0x10
  {
    op % 0x10
  }

  /** `opcode & 0x0FFF`: the 12-bit address. */
  function Address(op: u16): (r: u16)
    ensures r < 0x1000
  {
    op % 0x1000
  }

  /** `(opcode & 0x0F00) >> 8`: the first register index, bits 8-11. */
  function RegX(op: u16): (r: u8)
    ensures r < 0x10
  {
    (op / 0x100) % 0x10
  }

  /** `(opcode & 0x00F0) >> 4`: the second register index, bits 4-7. */
  function RegY(op: u16): (r: u8)
    ensures r < 0x10
  {
    (op / 0x10) % 0x10
  }

  /** `opcode & 0x00FF`: the immediate byte. */
  function LowByte(op: u16): (r: u8) {
    op % 0x100
  }

  /** `(opcode & 0xF << k) >> k` is bits k..k+3 of the opcode. */
  lemma NibbleAt(op: u16, k: nat)
    ensures ShiftRight(Words.And(op, 0xF * Pow2(k)), k) == (op / Pow2(k)) % 0x10
  {
    NibbleMask(op, k);
    ShiftLeftRight((op / Pow2(k)) % 0x10, k);
  }

  /** The three nibble fields are exactly the mask-and-shift expressions of
      `from_opcode`. */
  lemma NibbleFieldsAreMasks(op: u16)
    ensures FirstNibble(op) == ShiftRight(Words.And(op, 0xF000), 12)
    ensures RegX(op) == ShiftRight(Words.And(op, 0x0F00), 8)
    ensures RegY(op) == ShiftRight(Words.And(op, 0x00F0), 4)
  {
    NibbleField(op, 12);
    NibbleField(op, 8);
    NibbleField(op, 4);
  }

  /** `NibbleAt` with the shift written as a constant. */
  lemma NibbleField(op: u16, k: nat)
    requires k == 4 || k == 8 || k == 12
    ensures k == 12 ==> ShiftRight(Words.And(op, 0xF000), k) == op / 0x1000
    ensures k == 8 ==> ShiftRight(Words.And(op, 0x0F00), k) == (op / 0x100) % 0x10
    ensures k == 4 ==> ShiftRight(Words.And(op, 0x00F0), k) == (op / 0x10) % 0x10
  {
    Pow2Values();
    NibbleAt(op, k);
    var p := Pow2(k);
    assert 0xF * p == if k == 12 then 0xF000 else if k == 8 then 0x0F00 else 0x00F0;
    if k == 12 {
      assert op / p == op / 0x1000 < 0x10;
    }
  }

  /** The three low fields are exactly the masks of `from_opcode`. */
  lemma LowFieldsAreMasks(op: u16)
    ensures LastNibble(op) == Words.And(op, 0x000F)
    ensures Address(op) == Words.And(op, 0x0FFF)
    ensures LowByte(op) == Words.And(op, 0x00FF)
  {
    Pow2Values();
    AndLowMask(op, 4);
    AndLowMask(op, 8);
    AndLowMask(op, 12);
  }

  /** The fields overlap as the encoding says: the address is `x`, `y`, `n`
      and the immediate byte is `y`, `n`; the four nibbles make up the opcode. */
  lemma FieldsCompose(op: u16)
    ensures Address(op) / 0x100 == RegX(op)
    ensures (Address(op) / 0x10) % 0x10 == RegY(op) && Address(op) % 0x10 == LastNibble(op)
    ensures LowByte(op) / 0x10 == RegY(op) && LowByte(op) % 0x10 == LastNibble(op)
    ensures op == FirstNibble(op) * 0x1000 + RegX(op) * 0x100 + RegY(op) * 0x10 + LastNibble(op)
  {
    var f: nat, x: nat, y: nat, n: nat := FirstNibble(op), RegX(op), RegY(op), LastNibble(op);
    DivMulUnique(op, 0x100, (op / 0x10) / 0x10, y * 0x10 + n);
    DivMulUnique(op, 0x1000, (op / 0x100) / 0x10, x * 0x100 + y * 0x10 + n);
    var a: nat, b: nat := Address(op), LowByte(op);
    DivMulUnique(a, 0x100, x, y * 0x10 + n);
    DivMulUnique(a, 0x10, x * 0x10 + y, n);
    DivMulUnique(x * 0x10 + y, 0x10, x, y);
    DivMulUnique(op, 0x100, f * 0x10 + x, y * 0x10 + n);
    DivMulUnique(b, 0x10, y, n);
  }

  /** `Instruction::from_opcode`. */
  function FromOpcode(op: u16): (r: Option<Instruction>)
    ensures r.None? ==> FirstNibble(op) == 0x8 || FirstNibble(op) == 0xE || FirstNibble(op) == 0xF
  {
    var first, n, nnn, x, y, kk :=
      FirstNibble(op), LastNibble(op), Address(op), RegX(op), RegY(op), LowByte(op);
    match first
    case 0x0 =>
      (match kk
       case 0xE0 => Some(Cls)
       case 0xEE => Some(Ret)
       case _ => Some(Sys(nnn)))
    case 0x1 => Some(Jp(nnn))
    case 0x2 => Some(Call(nnn))
    case 0x3 => Some(SeByte(x, kk))
    case 0x4 => Some(SneByte(x, kk))
    case 0x5 => Some(SeReg(x, y))
    case 0x6 => Some(LdByte(x, kk))
    case 0x7 => Some(AddByte(x, kk))
    case 0x8 =>
      (match n
       case 0x0 => Some(LdReg(x, y))
       case 0x1 => Some(Or(x, y))
       case 0x2 => Some(And(x, y))
       case 0x3 => Some(Xor(x, y))
       case 0x4 => Some(AddReg(x, y))
       case 0x5 => Some(Sub(x, y))
       case 0x6 => Some(Shr(x))
       case 0x7 => Some(Subn(x, y))
       case 0xE => Some(Shl(x))
       case _ => None)
    case 0x9 => Some(SneReg(x, y))
    case 0xA => Some(LdI(nnn))
    case 0xB => Some(JpV0(nnn))
    case 0xC => Some(Rnd(x, kk))
    case 0xD => Some(Drw(x, y, n))
    case 0xE =>
      (match kk
       case 0x9E => Some(Skp(x))
       case 0xA1 => Some(Sknp(x))
       case _ => None)
    case 0xF =>
      (match kk
       case 0x07 => Some(LdRegFromDt(x))
       case 0x0A => Some(LdRegFromKey(x))
       case 0x15 => Some(LdDtFromReg(x))
       case 0x18 => Some(LdStFromReg(x))
       case 0x1E => Some(AddI(x))
       case 0x29 => Some(LdF(x))
       case 0x33 => Some(LdB(x))
       case 0x55 => Some(LdIWrite(x))
       case 0x65 => Some(LdIRead(x))
       case _ => None)
    case _ => None
  }

  /** The operands a decoded instruction can carry: register indices and
      nibbles below 16, addresses below 0x1000. */
  predicate OperandsInRange(ins: Instruction) {
    match ins
    case Sys(nnn) => nnn < 0x1000
    case Jp(nnn) => nnn < 0x1000
    case Call(nnn) => nnn < 0x1000
    case LdI(nnn) => nnn < 0x1000
    case JpV0(nnn) => nnn < 0x1000
    case Cls => true
    case Ret => true
    case SeByte(x, _) => x < 0x10
    case SneByte(x, _) => x < 0x10
    case LdByte(x, _) => x < 0x10
    case AddByte(x, _) => x < 0x10
    case Rnd(x, _) => x < 0x10
    case SeReg(x, y) => x < 0x10 && y < 0x10
    case LdReg(x, y) => x < 0x10 && y < 0x10
    case Or(x, y) => x < 0x10 && y < 0x10
    case And(x, y) => x < 0x10 && y < 0x10
    case Xor(x, y) => x < 0x10 && y < 0x10
    case AddReg(x, y) => x < 0x10 && y < 0x10
    case Sub(x, y) => x < 0x10 && y < 0x10
    case Subn(x, y) => x < 0x10 && y < 0x10
    case SneReg(x, y) => x < 0x10 && y < 0x10
    case Drw(x, y, n) => x < 0x10 && y < 0x10 && n < 0x10
    case Shr(x) => x < 0x10
    case Shl(x) => x < 0x10
    case Skp(x) => x < 0x10
    case Sknp(x) => x < 0x10
    case LdRegFromDt(x) => x < 0x10
    case LdRegFromKey(x) => x < 0x10
    case LdDtFromReg(x) => x < 0x10
    case LdStFromReg(x) => x < 0x10
    case AddI(x) => x < 0x10
    case LdF(x) => x < 0x10
    case LdB(x) => x < 0x10
    case LdIWrite(x) => x < 0x10
    case LdIRead(x) => x < 0x10
  }

  type nibble = x: nat | x < 0x10

  /** The four nibbles of an opcode, most significant first. */
  datatype Nibbles = Nibbles(f: nibble, x: nibble, y: nibble, n: nibble)

  /** An opcode from its four nibbles. */
  function Word(q: Nibbles): u16 {
    q.f * 0x1000 + q.x * 0x100 + q.y * 0x10 + q.n
  }

  /** What the decoder extracts from an opcode built from nibbles. */
  lemma WordFields(q: Nibbles)
    ensures FirstNibble(Word(q)) == q.f && RegX(Word(q)) == q.x && RegY(Word(q)) == q.y
    ensures LastNibble(Word(q)) == q.n && LowByte(Word(q)) == q.y * 0x10 + q.n
    ensures Address(Word(q)) == q.x * 0x100 + q.y * 0x10 + q.n
  {
    var w := Word(q);
    DivMulUnique(w, 0x1000, q.f, q.x * 0x100 + q.y * 0x10 + q.n);
    DivMulUnique(w, 0x100, q.f * 0x10 + q.x, q.y * 0x10 + q.n);
    DivMulUnique(q.f * 0x10 + q.x, 0x10, q.f, q.x);
    DivMulUnique(w, 0x10, q.f * 0x100 + q.x * 0x10 + q.y, q.n);
    DivMulUnique(q.f * 0x100 + q.x * 0x10 + q.y, 0x10, q.f * 0x10 + q.x, q.y);
  }

  /** The nibbles of an opcode with an address or an immediate byte operand. */
  function WithAddress(f: nat, nnn: nat): Nibbles
    requires f < 0x10 && nnn < 0x1000
  {
    Nibbles(f, nnn / 0x100, (nnn / 0x10) % 0x10, nnn % 0x10)
  }

  function WithByte(f: nat, x: nat, kk: nat): Nibbles
    requires f < 0x10 && x < 0x10 && kk < 0x100
  {
    Nibbles(f, x, kk / 0x10, kk % 0x10)
  }

  /** The decoder finds the family and the address an opcode was built with. */
  lemma WithAddressFields(f: nat, nnn: nat)
    requires f < 0x10 && nnn < 0x1000
    ensures var w := Word(WithAddress(f, nnn));
      FirstNibble(w) == f && Address(w) == nnn && LowByte(w) == nnn % 0x100
  {
    var a := nnn / 0x10;
    DivMulUnique(nnn, 0x100, a / 0x10, (a % 0x10) * 0x10 + nnn % 0x10);
    WordFields(WithAddress(f, nnn));
  }

  /** The decoder finds the family, the register and the byte an opcode was
      built with. */
  lemma WithByteFields(f: nat, x: nat, kk: nat)
    requires f < 0x10 && x < 0x10 && kk < 0x100
    ensures var w := Word(WithByte(f, x, kk));
      FirstNibble(w) == f && RegX(w) == x && LowByte(w) == kk
  {
    WordFields(WithByte(f, x, kk));
  }

  /** The nibbles of the canonical opcode of an instruction, as section 3.1 of
      Cowgod's Chip-8 Technical Reference writes it (bits the decoder ignores
      are 0). */
  function EncodeNibbles(ins: Instruction): Nibbles
    requires OperandsInRange(ins)
  {
    match ins
    case Sys(nnn) => WithAddress(0x0, nnn)
    case Cls => Nibbles(0x0, 0, 0xE, 0x0)
    case Ret => Nibbles(0x0, 0, 0xE, 0xE)
    case Jp(nnn) => WithAddress(0x1, nnn)
    case Call(nnn) => WithAddress(0x2, nnn)
    case SeByte(x, kk) => WithByte(0x3, x, kk)
    case SneByte(x, kk) => WithByte(0x4, x, kk)
    case SeReg(x, y) => Nibbles(0x5, x, y, 0)
    case LdByte(x, kk) => WithByte(0x6, x, kk)
    case AddByte(x, kk) => WithByte(0x7, x, kk)
    case LdReg(x, y) => Nibbles(0x8, x, y, 0x0)
    case Or(x, y) => Nibbles(0x8, x, y, 0x1)
    case And(x, y) => Nibbles(0x8, x, y, 0x2)
    case Xor(x, y) => Nibbles(0x8, x, y, 0x3)
    case AddReg(x, y) => Nibbles(0x8, x, y, 0x4)
    case Sub(x, y) => Nibbles(0x8, x, y, 0x5)
    case Shr(x) => Nibbles(0x8, x, 0, 0x6)
    case Subn(x, y) => Nibbles(0x8, x, y, 0x7)
    case Shl(x) => Nibbles(0x8, x, 0, 0xE)
    case SneReg(x, y) => Nibbles(0x9, x, y, 0)
    case LdI(nnn) => WithAddress(0xA, nnn)
    case JpV0(nnn) => WithAddress(0xB, nnn)
    case Rnd(x, kk) => WithByte(0xC, x, kk)
    case Drw(x, y, n) => Nibbles(0xD, x, y, n)
    case Skp(x) => Nibbles(0xE, x, 0x9, 0xE)
    case Sknp(x) => Nibbles(0xE, x, 0xA, 0x1)
    case LdRegFromDt(x) => Nibbles(0xF, x, 0x0, 0x7)
    case LdRegFromKey(x) => Nibbles(0xF, x, 0x0, 0xA)
    case LdDtFromReg(x) => Nibbles(0xF, x, 0x1, 0x5)
    case LdStFromReg(x) => Nibbles(0xF, x, 0x1, 0x8)
    case AddI(x) => Nibbles(0xF, x, 0x1, 0xE)
    case LdF(x) => Nibbles(0xF, x, 0x2, 0x9)
    case LdB(x) => Nibbles(0xF, x, 0x3, 0x3)
    case LdIWrite(x) => Nibbles(0xF, x, 0x5, 0x5)
    case LdIRead(x) => Nibbles(0xF, x, 0x6, 0x5)
  }

  /** The canonical opcode of an instruction. */
  function Encode(ins: Instruction): (op: u16)
    requires OperandsInRange(ins)
  {
    Word(EncodeNibbles(ins))
  }

  /** The opcode bits the decoder does not look at for this instruction:
      the `x` nibble of CLS and RET, the low nibble of SE Vx, Vy and of
      SNE Vx, Vy, and the `y` nibble of SHR and SHL. */
  function IgnoredBits(ins: Instruction): nat {
    match ins
    case Cls => 0x0F00
    case Ret => 0x0F00
    case SeReg(_, _) => 0x000F
    case SneReg(_, _) => 0x000F
    case Shr(_) => 0x00F0
    case Shl(_) => 0x00F0
    case _ => 0
  }

  /** Every field of a decoded instruction is in range: register operands
      and nibbles are below 16, addresses below 0x1000. */
  lemma DecodedOperandsInRange(op: u16)
    ensures FromOpcode(op).Some? ==> OperandsInRange(FromOpcode(op).value)
  {
  }

  /** Family 0 always decodes: low byte 0xE0 is CLS and 0xEE is RET whatever
      bits 8-11 hold, anything else is SYS with the 12-bit address. */
  lemma Family0(op: u16)
    requires op / 0x1000 == 0
    ensures FromOpcode(op) ==
      if op % 0x100 == 0xE0 then Some(Cls)
      else if op % 0x100 == 0xEE then Some(Ret)
      else Some(Sys(op % 0x1000))
  {
  }

  /** Family 8 decodes exactly for the low nibbles 0-7 and E; SHR and SHL
      keep only `x`. */
  lemma Family8(op: u16)
    requires op / 0x1000 == 8
    ensures FromOpcode(op).Some? <==> op % 0x10 in {0, 1, 2, 3, 4, 5, 6, 7, 0xE}
    ensures op % 0x10 == 6 ==> FromOpcode(op) == Some(Shr((op / 0x100) % 0x10))
    ensures op % 0x10 == 0xE ==> FromOpcode(op) == Some(Shl((op / 0x100) % 0x10))
  {
  }

  /** Families 5 and 9 ignore the low nibble; DRW takes the low nibble as its
      third operand. */
  lemma Families5And9AndD(op: u16)
    ensures op / 0x1000 == 5 ==> FromOpcode(op) == Some(SeReg((op / 0x100) % 0x10, (op / 0x10) % 0x10))
    ensures op / 0x1000 == 9 ==> FromOpcode(op) == Some(SneReg((op / 0x100) % 0x10, (op / 0x10) % 0x10))
    ensures op / 0x1000 == 0xD ==> FromOpcode(op) == Some(Drw((op / 0x100) % 0x10, (op / 0x10) % 0x10, op % 0x10))
  {
  }

  /** `from_opcode` yields no instruction exactly when the family is 8, E or F
      and the low nibble (family 8) or low byte (E, F) selects no variant.
      Every other family decodes, so the final `_ => None` arm is unreachable. */
  lemma DecodeNoneIff(op: u16)
    ensures FromOpcode(op).None? <==>
      || (op / 0x1000 == 0x8 && op % 0x10 !in {0x0, 0x1, 0x2, 0x3, 0x4, 0x5, 0x6, 0x7, 0xE})
      || (op / 0x1000 == 0xE && op % 0x100 !in {0x9E, 0xA1})
      || (op / 0x1000 == 0xF && op % 0x100 !in {0x07, 0x0A, 0x15, 0x18, 0x1E, 0x29, 0x33, 0x55, 0x65})
  {
  }

  /** Decoding examples: JP 0x234, CLS (also with a non-zero `x` nibble),
      RET, SYS 0, SE VA, VB (low nibble ignored), SHR VA (`y` ignored), an
      unknown family-8 selector, DRW V1, V2, 3, an unknown family-E selector,
      LD V2, [I]. */
  lemma DecodeExample1()
    ensures FromOpcode(0x1234) == Some(Jp(0x234))
  {
  }

  lemma DecodeExample2()
    ensures FromOpcode(0x00E0) == Some(Cls)
  {
  }

  lemma DecodeExample3()
    ensures FromOpcode(0x01E0) == Some(Cls)
  {
  }

  lemma DecodeExample4()
    ensures FromOpcode(0x00EE) == Some(Ret)
  {
  }

  lemma DecodeExample5()
    ensures FromOpcode(0x0000) == Some(Sys(0))
  {
  }

  lemma DecodeExample6()
    ensures FromOpcode(0x5AB7) == Some(SeReg(0xA, 0xB))
  {
  }

  lemma DecodeExample7()
    ensures FromOpcode(0x8AB6) == Some(Shr(0xA))
  {
  }

  lemma DecodeExample8()
    ensures FromOpcode(0x8AB8) == None
  {
  }

  lemma DecodeExample9()
    ensures FromOpcode(0xD123) == Some(Drw(1, 2, 3))
  {
  }

  lemma DecodeExample10()
    ensures FromOpcode(0xE1A2) == None
  {
  }

  lemma DecodeExample11()
    ensures FromOpcode(0xF265) == Some(LdIRead(2))
  {
  }

  /** Decoding the canonical opcode of an instruction gives it back, except for
      a SYS whose address has low byte 0xE0 or 0xEE (those decode as CLS, RET). */
  lemma DecodeEncode(ins: Instruction)
    requires OperandsInRange(ins)
    requires ins.Sys? ==> ins.nnn % 0x100 !in {0xE0, 0xEE}
    ensures FromOpcode(Encode(ins)) == Some(ins)
  {
    if ins.Sys? || ins.Cls? || ins.Ret? || ins.Jp? || ins.Call? || ins.SeByte? || ins.SneByte? {
      DecodeEncodeLow(ins);
    } else if ins.SeReg? || ins.LdByte? || ins.AddByte? || ins.SneReg? {
      DecodeEncodeMiddle(ins);
    } else if ins.LdI? || ins.JpV0? || ins.Rnd? || ins.Drw? {
      DecodeEncodeUpper(ins);
    } else if ins.Skp? || ins.Sknp? || ins.LdRegFromDt? || ins.LdRegFromKey? || ins.LdDtFromReg? ||
              ins.LdStFromReg? || ins.AddI? || ins.LdF? || ins.LdB? || ins.LdIWrite? || ins.LdIRead? {
      DecodeEncodeHigh(ins);
    } else {
      DecodeEncode8(ins);
    }
  }

  /** `DecodeEncode` for families 0-4. */
  lemma DecodeEncodeLow(ins: Instruction)
    requires OperandsInRange(ins)
    requires ins.Sys? || ins.Cls? || ins.Ret? || ins.Jp? || ins.Call? || ins.SeByte? || ins.SneByte?
    requires ins.Sys? ==> ins.nnn % 0x100 !in {0xE0, 0xEE}
    ensures FromOpcode(Encode(ins)) == Some(ins)
  {
    match ins
    case Sys(nnn) => WithAddressFields(0x0, nnn);
    case Jp(nnn) => WithAddressFields(0x1, nnn);
    case Call(nnn) => WithAddressFields(0x2, nnn);
    case SeByte(x, kk) => WithByteFields(0x3, x, kk);
    case SneByte(x, kk) => WithByteFields(0x4, x, kk);
    case Cls => WordFields(EncodeNibbles(ins));
    case Ret => WordFields(EncodeNibbles(ins));
  }

  /** `DecodeEncode` for families 5-7 and 9. */
  lemma DecodeEncodeMiddle(ins: Instruction)
    requires OperandsInRange(ins)
    requires ins.SeReg? || ins.LdByte? || ins.AddByte? || ins.SneReg?
    ensures FromOpcode(Encode(ins)) == Some(ins)
  {
    match ins
    case LdByte(x, kk) => WithByteFields(0x6, x, kk);
    case AddByte(x, kk) => WithByteFields(0x7, x, kk);
    case SeReg(_, _) => WordFields(EncodeNibbles(ins));
    case SneReg(_, _) => WordFields(EncodeNibbles(ins));
  }

  /** `DecodeEncode` for families A-D. */
  lemma DecodeEncodeUpper(ins: Instruction)
    requires OperandsInRange(ins)
    requires ins.LdI? || ins.JpV0? || ins.Rnd? || ins.Drw?
    ensures FromOpcode(Encode(ins)) == Some(ins)
  {
    match ins
    case LdI(nnn) => WithAddressFields(0xA, nnn);
    case JpV0(nnn) => WithAddressFields(0xB, nnn);
    case Rnd(x, kk) => WithByteFields(0xC, x, kk);
    case Drw(_, _, _) => WordFields(EncodeNibbles(ins));
  }

  /** `DecodeEncode` for families E and F. */
  lemma DecodeEncodeHigh(ins: Instruction)
    requires OperandsInRange(ins)
    requires ins.Skp? || ins.Sknp? || ins.LdRegFromDt? || ins.LdRegFromKey? || ins.LdDtFromReg? ||
             ins.LdStFromReg? || ins.AddI? || ins.LdF? || ins.LdB? || ins.LdIWrite? || ins.LdIRead?
    ensures FromOpcode(Encode(ins)) == Some(ins)
  {
    WordFields(EncodeNibbles(ins));
  }

  /** `DecodeEncode` for family 8. */
  lemma DecodeEncode8(ins: Instruction)
    requires OperandsInRange(ins)
    requires ins.LdReg? || ins.Or? || ins.And? || ins.Xor? || ins.AddReg? || ins.Sub? ||
             ins.Shr? || ins.Subn? || ins.Shl?
    ensures FromOpcode(Encode(ins)) == Some(ins)
  {
    WordFields(EncodeNibbles(ins));
  }

  /** `x & mask` for the don't-care masks, in arithmetic. */
  lemma IgnoredBitsArith(op: u16, ins: Instruction)
    ensures Words.And(op, IgnoredBits(ins)) ==
      match IgnoredBits(ins)
      case 0x0F00 => ((op / 0x100) % 0x10) * 0x100
      case 0x00F0 => ((op / 0x10) % 0x10) * 0x10
      case 0x000F => op % 0x10
      case _ => 0
  {
    Pow2Values();
    match IgnoredBits(ins)
    case 0x0F00 => NibbleMask(op, 8);
    case 0x00F0 => NibbleMask(op, 4);
    case 0x000F => NibbleMask(op, 0);
    case _ =>
  }

  /** The decoder reads every bit of the opcode except `IgnoredBits`: the
      canonical encoding of what it decodes is the opcode with those bits
      cleared. */
  lemma EncodeDecode(op: u16)
    requires FromOpcode(op).Some?
    ensures OperandsInRange(FromOpcode(op).value)
    ensures Encode(FromOpcode(op).value) == op - Words.And(op, IgnoredBits(FromOpcode(op).value))
  {
    var ins := FromOpcode(op).value;
    var q := OpNibbles(op);
    FieldsCompose(op);
    IgnoredBitsArith(op, ins);
    assert Word(q) == op;
    var f := FirstNibble(op);
    if f <= 7 {
      DecodedNibblesLow(op);
    } else if f == 8 {
      DecodedNibbles8(op);
    } else if f <= 0xD {
      DecodedNibblesUpper(op);
    } else {
      DecodedNibblesHigh(op);
    }
  }

  /** The four nibbles of an opcode. */
  function OpNibbles(op: u16): Nibbles {
    Nibbles(FirstNibble(op), RegX(op), RegY(op), LastNibble(op))
  }

  /** The nibbles `q` with the nibble under `mask` set to 0. */
  function Cleared(q: Nibbles, mask: nat): Nibbles {
    match mask
    case 0x0F00 => q.(x := 0)
    case 0x00F0 => q.(y := 0)
    case 0x000F => q.(n := 0)
    case _ => q
  }

  /** `EncodeDecode` on nibbles, for families 0-7. */
  lemma DecodedNibblesLow(op: u16)
    requires FromOpcode(op).Some? && FirstNibble(op) <= 7
    ensures OperandsInRange(FromOpcode(op).value)
    ensures EncodeNibbles(FromOpcode(op).value) == Cleared(OpNibbles(op), IgnoredBits(FromOpcode(op).value))
  {
    DecodedOperandsInRange(op);
    FieldsCompose(op);
  }

  /** `EncodeDecode` on nibbles, for family 8. */
  lemma DecodedNibbles8(op: u16)
    requires FromOpcode(op).Some? && FirstNibble(op) == 8
    ensures OperandsInRange(FromOpcode(op).value)
    ensures EncodeNibbles(FromOpcode(op).value) == Cleared(OpNibbles(op), IgnoredBits(FromOpcode(op).value))
  {
    DecodedOperandsInRange(op);
    FieldsCompose(op);
  }

  /** `EncodeDecode` on nibbles, for families 9-D. */
  lemma DecodedNibblesUpper(op: u16)
    requires FromOpcode(op).Some? && 9 <= FirstNibble(op) <= 0xD
    ensures OperandsInRange(FromOpcode(op).value)
    ensures EncodeNibbles(FromOpcode(op).value) == Cleared(OpNibbles(op), IgnoredBits(FromOpcode(op).value))
  {
    DecodedOperandsInRange(op);
    FieldsCompose(op);
  }

  /** `EncodeDecode` on nibbles, for families E and F. */
  lemma DecodedNibblesHigh(op: u16)
    requires FromOpcode(op).Some? && 0xE <= FirstNibble(op)
    ensures OperandsInRange(FromOpcode(op).value)
    ensures EncodeNibbles(FromOpcode(op).value) == Cleared(OpNibbles(op), IgnoredBits(FromOpcode(op).value))
  {
    DecodedOperandsInRange(op);
    FieldsCompose(op);
  }
}
