/** The Vole machine: sixteen byte registers, 256 bytes of memory, a
    program counter, an instruction register and a halted flag, driven by a
    fetch, decode and execute cycle over sixteen-bit instructions.

    `Machine` is the machine state as a value, and its member functions say
    what one step does; `Cpu` is the machine as the program keeps it, with
    its registers and memory updated in place, and each of its methods is
    proved to take the state where the matching function says. */
module Vole {
  import opened Wrappers
  import Floating

  /** A sixteen-bit instruction word: the opcode in bits 15-12, then three
      four-bit operands. */
  type Instruction = bv16

  // ---------------------------------------------------------------------
  // Instruction fields
  // ---------------------------------------------------------------------

  /** Bits 15-12: the opcode. */
  function OpcodeBits(instr: Instruction): (b: bv8)
    ensures b < 16
  {
    (instr >> 12) as bv8
  }

  /** Bits 11-8: the first operand. */
  function Operand1Bits(instr: Instruction): (b: bv8)
    ensures b < 16
  {
    ((instr & 0x0F00) >> 8) as bv8
  }

  /** Bits 7-4: the second operand. */
  function Operand2Bits(instr: Instruction): (b: bv8)
    ensures b < 16
  {
    ((instr & 0x00F0) >> 4) as bv8
  }

  /** Bits 3-0: the third operand. */
  function Operand3Bits(instr: Instruction): (b: bv8)
    ensures b < 16
  {
    (instr & 0x000F) as bv8
  }

  /** Bits 7-0: the second and third operands read as one byte. */
  function Operand23Bits(instr: Instruction): (b: bv8)
    ensures b == (Operand2Bits(instr) << 4) | Operand3Bits(instr)
  {
    (instr & 0x00FF) as bv8
  }

  /** Bits 11-0: the three operands together. */
  function OperandBits(instr: Instruction): (b: Instruction)
    ensures b < 0x1000
    ensures b == (Operand1Bits(instr) as bv16 << 8) | Operand23Bits(instr) as bv16
  {
    instr & 0x0FFF
  }

  /** The four nibbles put back together give the instruction. */
  lemma InstructionFields(instr: Instruction)
    ensures instr == (OpcodeBits(instr) as bv16 << 12) | OperandBits(instr)
  {
  }

  // ---------------------------------------------------------------------
  // Opcodes
  // ---------------------------------------------------------------------

  /** The twelve instructions, with the operands each one uses. */
  datatype OpCode =
    | LoadAddr(reg: bv8, addr: bv8)                     // 0x1
    | LoadValue(reg: bv8, value: bv8)                   // 0x2
    | Store(reg: bv8, addr: bv8)                        // 0x3
    | Move(sourceReg: bv8, targetReg: bv8)              // 0x4
    | AddInt(targetReg: bv8, reg1: bv8, reg2: bv8)      // 0x5
    | AddFloat(targetReg: bv8, reg1: bv8, reg2: bv8)    // 0x6
    | Or(targetReg: bv8, reg1: bv8, reg2: bv8)          // 0x7
    | And(targetReg: bv8, reg1: bv8, reg2: bv8)         // 0x8
    | Xor(targetReg: bv8, reg1: bv8, reg2: bv8)         // 0x9
    | Rotate(reg: bv8, times: bv8)                      // 0xA
    | Jump(reg: bv8, addr: bv8)                         // 0xB
    | Halt                                              // 0xC
  {
    /** Every register operand names one of the sixteen registers, and the
        rotation count fits in a nibble, as decoding guarantees. */
    predicate WellFormed()
    {
      match this
      case LoadAddr(reg, _) => reg < 16
      case LoadValue(reg, _) => reg < 16
      case Store(reg, _) => reg < 16
      case Move(source, target) => source < 16 && target < 16
      case AddInt(target, r1, r2) => target < 16 && r1 < 16 && r2 < 16
      case AddFloat(target, r1, r2) => target < 16 && r1 < 16 && r2 < 16
      case Or(target, r1, r2) => target < 16 && r1 < 16 && r2 < 16
      case And(target, r1, r2) => target < 16 && r1 < 16 && r2 < 16
      case Xor(target, r1, r2) => target < 16 && r1 < 16 && r2 < 16
      case Rotate(reg, times) => reg < 16 && times < 16
      case Jump(reg, _) => reg < 16
      case Halt => true
    }

    /** The register this instruction writes, if it writes one. */
    function Target(): Option<bv8>
    {
      match this
      case LoadAddr(reg, _) => Some(reg)
      case LoadValue(reg, _) => Some(reg)
      case Move(_, target) => Some(target)
      case AddInt(target, _, _) => Some(target)
      case AddFloat(target, _, _) => Some(target)
      case Or(target, _, _) => Some(target)
      case And(target, _, _) => Some(target)
      case Xor(target, _, _) => Some(target)
      case Rotate(reg, _) => Some(reg)
      case _ => None
    }

    /** The opcode nibble of this instruction. */
    function Code(): (c: bv8)
      ensures 1 <= c <= 12
    {
      match this
      case LoadAddr(_, _) => 0x1
      case LoadValue(_, _) => 0x2
      case Store(_, _) => 0x3
      case Move(_, _) => 0x4
      case AddInt(_, _, _) => 0x5
      case AddFloat(_, _, _) => 0x6
      case Or(_, _, _) => 0x7
      case And(_, _, _) => 0x8
      case Xor(_, _, _) => 0x9
      case Rotate(_, _) => 0xA
      case Jump(_, _) => 0xB
      case Halt => 0xC
    }
  }

  /** Decodes an instruction word: the opcodes 0x1 to 0xC with their
      operand fields, and nothing for 0x0 and 0xD to 0xF. */
  function Decode(instr: Instruction): (r: Option<OpCode>)
    ensures r.Some? <==> 1 <= OpcodeBits(instr) <= 12
    ensures r.Some? ==> r.value.WellFormed() && r.value.Code() == OpcodeBits(instr)
  {
    var operand1 := Operand1Bits(instr);
    var operand2 := Operand2Bits(instr);
    var operand3 := Operand3Bits(instr);
    match OpcodeBits(instr)
    case 0x1 => Some(LoadAddr(operand1, Operand23Bits(instr)))
    case 0x2 => Some(LoadValue(operand1, Operand23Bits(instr)))
    case 0x3 => Some(Store(operand1, Operand23Bits(instr)))
    case 0x4 => Some(Move(operand2, operand3))
    case 0x5 => Some(AddInt(operand1, operand2, operand3))
    case 0x6 => Some(AddFloat(operand1, operand2, operand3))
    case 0x7 => Some(Or(operand1, operand2, operand3))
    case 0x8 => Some(And(operand1, operand2, operand3))
    case 0x9 => Some(Xor(operand1, operand2, operand3))
    case 0xA => Some(Rotate(operand1, operand3))
    case 0xB => Some(Jump(operand1, Operand23Bits(instr)))
    case 0xC => Some(Halt)
    case _ => None
  }

  /** The four nibbles of an instruction word, from the top down. */
  datatype Nibbles = Nibbles(code: bv8, x: bv8, y: bv8, z: bv8)
  {
    predicate Valid()
    {
      code < 16 && x < 16 && y < 16 && z < 16
    }

    /** The byte the two low nibbles make. */
    function Low(): bv8
    {
      (y << 4) | z
    }
  }

  /** The nibbles the field getters read. */
  function NibblesOf(instr: Instruction): (n: Nibbles)
    ensures n.Valid()
  {
    Nibbles(OpcodeBits(instr), Operand1Bits(instr), Operand2Bits(instr), Operand3Bits(instr))
  }

  /** The instruction word with the given nibbles. */
  function Word(n: Nibbles): Instruction
  {
    (n.code as bv16 << 12) | (n.x as bv16 << 8) | (n.y as bv16 << 4) | n.z as bv16
  }

  /** The field getters read back the nibbles of a word. */
  lemma NibblesOfWord(n: Nibbles)
    requires n.Valid()
    ensures NibblesOf(Word(n)) == n
  {
    assert OpcodeBits(Word(n)) == n.code;
    assert Operand1Bits(Word(n)) == n.x;
    assert Operand2Bits(Word(n)) == n.y;
  }

  /** An instruction is the word of its own nibbles. */
  lemma WordOfNibbles(instr: Instruction)
    ensures Word(NibblesOf(instr)) == instr
  {
  }

  /** Clearing the first operand nibble clears bits 11-8. */
  lemma WordWithoutFirst(instr: Instruction, op: OpCode)
    requires op.Move?
    ensures Word(Used(op, NibblesOf(instr))) == instr & UsedBits(op)
  {
    var n := NibblesOf(instr);
    assert Used(op, n) == n.(x := 0) && UsedBits(op) == 0xF0FF;
    assert Word(n.(x := 0)) == instr & 0xF0FF;
  }

  /** Clearing the second operand nibble clears bits 7-4. */
  lemma WordWithoutSecond(instr: Instruction, op: OpCode)
    requires op.Rotate?
    ensures Word(Used(op, NibblesOf(instr))) == instr & UsedBits(op)
  {
    var n := NibblesOf(instr);
    assert Used(op, n) == n.(y := 0) && UsedBits(op) == 0xFF0F;
    assert Word(n.(y := 0)) == instr & 0xFF0F;
  }

  /** Clearing all operand nibbles leaves the opcode bits. */
  lemma WordOpcodeOnly(instr: Instruction, op: OpCode)
    requires op.Halt?
    ensures Word(Used(op, NibblesOf(instr))) == instr & UsedBits(op)
  {
    var n := NibblesOf(instr);
    assert Used(op, n) == n.(x := 0, y := 0, z := 0) && UsedBits(op) == 0xF000;
    assert Word(n.(x := 0, y := 0, z := 0)) == instr & 0xF000;
  }

  /** An opcode that reads every nibble keeps the whole word. */
  lemma WordWhole(instr: Instruction, op: OpCode)
    requires !op.Move? && !op.Rotate? && !op.Halt?
    ensures Word(Used(op, NibblesOf(instr))) == instr & UsedBits(op)
  {
    WordOfNibbles(instr);
  }

  /** A byte splits into two nibbles that join back into it. */
  lemma ByteNibbles(b: bv8)
    ensures b >> 4 < 16 && b & 0x0F < 16
    ensures ((b >> 4) << 4) | (b & 0x0F) == b
  {
  }

  /** Two nibbles joined into a byte split back apart. */
  lemma NibblesByte(y: bv8, z: bv8)
    requires y < 16 && z < 16
    ensures ((y << 4) | z) >> 4 == y && ((y << 4) | z) & 0x0F == z
  {
  }

  /** The nibbles of the word of an opcode: zero in the fields it does not
      use. */
  function NibblesFor(op: OpCode): (n: Nibbles)
    requires op.WellFormed()
    ensures n.Valid() && n.code == op.Code()
  {
    var code := op.Code();
    match op
    case LoadAddr(reg, addr) => Nibbles(code, reg, addr >> 4, addr & 0x0F)
    case LoadValue(reg, value) => Nibbles(code, reg, value >> 4, value & 0x0F)
    case Store(reg, addr) => Nibbles(code, reg, addr >> 4, addr & 0x0F)
    case Move(source, target) => Nibbles(code, 0, source, target)
    case AddInt(target, r1, r2) => Nibbles(code, target, r1, r2)
    case AddFloat(target, r1, r2) => Nibbles(code, target, r1, r2)
    case Or(target, r1, r2) => Nibbles(code, target, r1, r2)
    case And(target, r1, r2) => Nibbles(code, target, r1, r2)
    case Xor(target, r1, r2) => Nibbles(code, target, r1, r2)
    case Rotate(reg, times) => Nibbles(code, reg, 0, times)
    case Jump(reg, addr) => Nibbles(code, reg, addr >> 4, addr & 0x0F)
    case Halt => Nibbles(code, 0, 0, 0)
  }

  /** The instruction word of an opcode, with zero in the fields it does
      not use. */
  function Assemble(op: OpCode): Instruction
    requires op.WellFormed()
  {
    Word(NibblesFor(op))
  }

  /** The nibbles an opcode reads: which of the operand nibbles it leaves
      out. */
  function Used(op: OpCode, n: Nibbles): Nibbles
  {
    match op
    case Move(_, _) => n.(x := 0)
    case Rotate(_, _) => n.(y := 0)
    case Halt => n.(x := 0, y := 0, z := 0)
    case _ => n
  }

  /** The bits of an instruction word an opcode reads. */
  function UsedBits(op: OpCode): Instruction
  {
    match op
    case Move(_, _) => 0xF0FF
    case Rotate(_, _) => 0xFF0F
    case Halt => 0xF000
    case _ => 0xFFFF
  }

  /** Decoding reads the opcode nibble and the operand nibbles only. */
  lemma DecodeNibbles(instr: Instruction)
    ensures Operand23Bits(instr) == NibblesOf(instr).Low()
  {
  }

  /** Decoding the word of a well-formed opcode gives the opcode back. */
  lemma DecodeAssemble(op: OpCode)
    requires op.WellFormed()
    ensures Decode(Assemble(op)) == Some(op)
  {
    if op.LoadAddr? || op.LoadValue? || op.Store? || op.Jump? {
      DecodeAssembleByte(op);
    } else {
      NibblesOfWord(NibblesFor(op));
      DecodeAssembleRegisters(op);
    }
  }

  /** The round trip for the opcodes with a byte operand. */
  lemma DecodeAssembleByte(op: OpCode)
    requires op.WellFormed()
    requires op.LoadAddr? || op.LoadValue? || op.Store? || op.Jump?
    ensures Decode(Assemble(op)) == Some(op)
  {
    match op
    case LoadAddr(reg, addr) => ByteWord(op.Code(), reg, addr);
    case LoadValue(reg, value) => ByteWord(op.Code(), reg, value);
    case Store(reg, addr) => ByteWord(op.Code(), reg, addr);
    case Jump(reg, addr) => ByteWord(op.Code(), reg, addr);
  }

  /** The getters read back the fields of a word with a byte operand. */
  lemma ByteWord(code: bv8, reg: bv8, b: bv8)
    requires code < 16 && reg < 16
    ensures var w := Word(Nibbles(code, reg, b >> 4, b & 0x0F));
      OpcodeBits(w) == code && Operand1Bits(w) == reg && Operand23Bits(w) == b
  {
    var n := Nibbles(code, reg, b >> 4, b & 0x0F);
    ByteNibbles(b);
    NibblesOfWord(n);
    DecodeNibbles(Word(n));
  }

  /** The round trip for the opcodes whose operands are all nibbles. */
  lemma DecodeAssembleRegisters(op: OpCode)
    requires op.WellFormed()
    requires !(op.LoadAddr? || op.LoadValue? || op.Store? || op.Jump?)
    requires NibblesOf(Assemble(op)) == NibblesFor(op)
    ensures Decode(Assemble(op)) == Some(op)
  {
  }

  /** Decoding keeps exactly the nibbles the opcode reads. */
  lemma NibblesForDecode(instr: Instruction)
    requires Decode(instr).Some?
    ensures NibblesFor(Decode(instr).value) == Used(Decode(instr).value, NibblesOf(instr))
  {
    var code := OpcodeBits(instr);
    if code == 0x1 {
      LoadAddrNibbles(instr);
    } else if code == 0x2 {
      LoadValueNibbles(instr);
    } else if code == 0x3 {
      StoreNibbles(instr);
    } else if code == 0xB {
      JumpNibbles(instr);
    } else if 0x5 <= code <= 0x9 {
      TripleNibbles(instr);
    } else {
      OtherNibbles(instr);
    }
  }

  /** Decoding a load from memory keeps all four nibbles. */
  lemma LoadAddrNibbles(instr: Instruction)
    requires OpcodeBits(instr) == 0x1
    ensures Decode(instr).Some?
    ensures NibblesFor(Decode(instr).value) == NibblesOf(instr)
  {
    ByteSplit(instr);
  }

  /** Decoding a load of an immediate value keeps all four nibbles. */
  lemma LoadValueNibbles(instr: Instruction)
    requires OpcodeBits(instr) == 0x2
    ensures Decode(instr).Some?
    ensures NibblesFor(Decode(instr).value) == NibblesOf(instr)
  {
    ByteSplit(instr);
  }

  /** Decoding a store keeps all four nibbles. */
  lemma StoreNibbles(instr: Instruction)
    requires OpcodeBits(instr) == 0x3
    ensures Decode(instr).Some?
    ensures NibblesFor(Decode(instr).value) == NibblesOf(instr)
  {
    ByteSplit(instr);
  }

  /** Decoding a conditional jump keeps all four nibbles. */
  lemma JumpNibbles(instr: Instruction)
    requires OpcodeBits(instr) == 0xB
    ensures Decode(instr).Some?
    ensures NibblesFor(Decode(instr).value) == NibblesOf(instr)
  {
    ByteSplit(instr);
  }

  /** Decoding an operation on three registers keeps all four nibbles. */
  lemma TripleNibbles(instr: Instruction)
    requires 0x5 <= OpcodeBits(instr) <= 0x9
    ensures Decode(instr).Some?
    ensures NibblesFor(Decode(instr).value) == NibblesOf(instr)
  {
  }

  /** Decoding a move, a rotation or a halt keeps the nibbles it reads. */
  lemma OtherNibbles(instr: Instruction)
    requires OpcodeBits(instr) in {0x4, 0xA, 0xC}
    ensures Decode(instr).Some?
    ensures NibblesFor(Decode(instr).value) == Used(Decode(instr).value, NibblesOf(instr))
  {
  }

  /** The byte operand splits into the second and third nibbles. */
  lemma ByteSplit(instr: Instruction)
    ensures Operand23Bits(instr) >> 4 == Operand2Bits(instr)
    ensures Operand23Bits(instr) & 0x0F == Operand3Bits(instr)
  {
    var n := NibblesOf(instr);
    DecodeNibbles(instr);
    NibblesByte(n.y, n.z);
  }

  /** Clearing the nibbles an opcode does not read clears their bits. */
  lemma UsedWord(instr: Instruction, op: OpCode)
    ensures Word(Used(op, NibblesOf(instr))) == instr & UsedBits(op)
  {
    if op.Move? {
      WordWithoutFirst(instr, op);
    } else if op.Rotate? {
      WordWithoutSecond(instr, op);
    } else if op.Halt? {
      WordOpcodeOnly(instr, op);
    } else {
      WordWhole(instr, op);
    }
  }

  /** Decoding keeps exactly the bits the opcode reads: assembling the
      decoded opcode gives the word with the unused fields cleared. */
  lemma AssembleDecode(instr: Instruction)
    requires Decode(instr).Some?
    ensures Assemble(Decode(instr).value) == instr & UsedBits(Decode(instr).value)
  {
    NibblesForDecode(instr);
    UsedWord(instr, Decode(instr).value);
  }

  // ---------------------------------------------------------------------
  // Arithmetic and logic
  // ---------------------------------------------------------------------

  /** Bit `i` of a byte, counting from the least significant. */
  predicate Bit(x: bv8, i: bv8)
    requires i < 8
  {
    (x >> i) & 1 == 1
  }

  /** Integer addition of two bytes, wrapping around modulo 256: the sum
      is the low byte of the sixteen-bit sum, which it equals when that fits
      in a byte. */
  function WrappingAdd(a: bv8, b: bv8): (s: bv8)
    ensures s as bv16 == (a as bv16 + b as bv16) & 0xFF
    ensures a as bv16 + b as bv16 < 0x100 ==> s as bv16 == a as bv16 + b as bv16
  {
    a + b
  }

  /** Bitwise or: a bit of the result is set when it is set in either byte. */
  function BitOr(a: bv8, b: bv8): (c: bv8)
    ensures forall i: bv8 | i < 8 :: Bit(c, i) == (Bit(a, i) || Bit(b, i))
  {
    OrBits(a, b);
    a | b
  }

  /** Each bit of `a | b` is the or of the bits of `a` and `b`. */
  lemma OrBits(a: bv8, b: bv8)
    ensures forall i: bv8 | i < 8 :: Bit(a | b, i) == (Bit(a, i) || Bit(b, i))
  {
    forall i: bv8 | i < 8
      ensures Bit(a | b, i) == (Bit(a, i) || Bit(b, i))
    {
      assert (a | b) >> i == (a >> i) | (b >> i);
    }
  }

  /** Bitwise and: a bit of the result is set when it is set in both bytes. */
  function BitAnd(a: bv8, b: bv8): (c: bv8)
    ensures forall i: bv8 | i < 8 :: Bit(c, i) == (Bit(a, i) && Bit(b, i))
  {
    AndBits(a, b);
    a & b
  }

  /** Each bit of `a & b` is the and of the bits of `a` and `b`. */
  lemma AndBits(a: bv8, b: bv8)
    ensures forall i: bv8 | i < 8 :: Bit(a & b, i) == (Bit(a, i) && Bit(b, i))
  {
    forall i: bv8 | i < 8
      ensures Bit(a & b, i) == (Bit(a, i) && Bit(b, i))
    {
      assert ((a & b) >> i) & 1 == ((a >> i) & 1) & ((b >> i) & 1);
    }
  }

  /** Bitwise exclusive or: a bit of the result is set when it is set in
      exactly one of the bytes. */
  function BitXor(a: bv8, b: bv8): (c: bv8)
    ensures forall i: bv8 | i < 8 :: Bit(c, i) == (Bit(a, i) != Bit(b, i))
  {
    XorBits(a, b);
    a ^ b
  }

  /** Each bit of `a ^ b` is the exclusive or of the bits of `a` and `b`. */
  lemma XorBits(a: bv8, b: bv8)
    ensures forall i: bv8 | i < 8 :: Bit(a ^ b, i) == (Bit(a, i) != Bit(b, i))
  {
    forall i: bv8 | i < 8
      ensures Bit(a ^ b, i) == (Bit(a, i) != Bit(b, i))
    {
      assert (a ^ b) >> i == (a >> i) ^ (b >> i);
    }
  }

  /** Rotation of a byte to the right: bit `i` of the result is bit
      `i + times` of the byte, counted around the byte, so a count of eight
      or more rotates by the count modulo eight. */
  function Rotated(x: bv8, times: bv8): (y: bv8)
    ensures forall i: bv8 | i < 8 :: Bit(y, i) == Bit(x, (i + times) & 7)
  {
    x.RotateRight((times & 7) as int)
  }

  /** Floating-point addition of two bytes: both are decoded, added, and the
      sum encoded again. The sum keeps its sign and its magnitude is never
      rounded up. */
  function FloatAdd(a: bv8, b: bv8): (s: bv8)
    ensures var sum := Floating.Value(a) + Floating.Value(b);
            && (Floating.SignBit(s) == 1 <==> sum < 0.0)
            && Floating.Magnitude(s) <= Floating.Abs(sum)
  {
    FloatSumRounds(Floating.Value(a) + Floating.Value(b));
    Floating.Encoding(Floating.Value(a) + Floating.Value(b))
  }

  /** A float sum is the encoding of the sum of the two decoded bytes. */
  lemma FloatAddIs(a: bv8, b: bv8)
    ensures FloatAdd(a, b) == Floating.Encoding(Floating.Value(a) + Floating.Value(b))
  {
  }

  /** Two decoded bytes add up to at most 15 in magnitude. */
  lemma SumBounded(a: bv8, b: bv8)
    ensures Floating.Abs(Floating.Value(a) + Floating.Value(b)) <= 15.0
  {
    var x, y := Floating.Value(a), Floating.Value(b);
    assert Floating.Abs(x) <= 7.5 && Floating.Abs(y) <= 7.5;
  }

  /** A sum that a canonical byte stands for exactly is computed exactly. */
  lemma FloatAddExact(a: bv8, b: bv8, c: bv8)
    requires Floating.Canonical(c) && Floating.Value(c) == Floating.Value(a) + Floating.Value(b)
    ensures FloatAdd(a, b) == c
  {
    Floating.EncodingOfValue(c);
  }

  /** Encoding a sum of two decoded bytes keeps its sign and never rounds
      its magnitude up. */
  lemma FloatSumRounds(sum: real)
    requires Floating.Abs(sum) <= 15.0
    ensures var s := Floating.Encoding(sum);
            && (Floating.SignBit(s) == 1 <==> sum < 0.0)
            && Floating.Magnitude(s) <= Floating.Abs(sum)
  {
    if Floating.Abs(sum) < 8.0 {
      Floating.EncodingTruncates(sum);
    } else {
      Floating.EncodingSaturates(sum);
      Floating.MagnitudeBound(Floating.Encoding(sum));
    }
  }

  // ---------------------------------------------------------------------
  // Machine state
  // ---------------------------------------------------------------------

  /** How a run ends. `Finished` carries the result of the last cycle,
      false when an illegal instruction stopped the machine. `OutOfFuel`
      is a run still going when its budget of cycles is spent, and
      `PcOutOfRange` one whose program counter leaves no room to fetch two
      bytes, where the program fails on an out-of-bounds memory index. */
  datatype RunOutcome = Finished(legal: bool) | OutOfFuel | PcOutOfRange

  /** A run's outcome with the machine it ends in. */
  datatype RunResult = RunResult(outcome: RunOutcome, final: Machine)

  /** The machine state as a value. */
  datatype Machine = Machine(
    registers: seq<bv8>,
    memory: seq<bv8>,
    programCounter: nat,
    instructionRegister: Instruction,
    halted: bool)
  {
    /** Sixteen registers and 256 bytes of memory. */
    predicate Valid()
    {
      |registers| == 16 && |memory| == 256
    }

    /** Both bytes of the next instruction are inside memory. */
    predicate CanFetch()
    {
      programCounter + 1 < |memory|
    }

    /** Loads the two bytes at the program counter, high byte first, into
        the instruction register. */
    function Fetch(): (m: Machine)
      requires Valid() && CanFetch()
      ensures m.Valid() && m == this.(instructionRegister := m.instructionRegister)
      ensures m.instructionRegister >> 8 == memory[programCounter] as Instruction
      ensures m.instructionRegister & 0xFF == memory[programCounter + 1] as Instruction
    {
      var high := memory[programCounter] as Instruction << 8;
      this.(instructionRegister := high | memory[programCounter + 1] as Instruction)
    }

    /** The value an opcode writes into its target register, read in this
        state. */
    function Written(op: OpCode): bv8
      requires Valid() && op.WellFormed() && op.Target().Some?
    {
      match op
      case LoadAddr(_, addr) => memory[addr]
      case LoadValue(_, value) => value
      case Move(source, _) => registers[source]
      case AddInt(_, r1, r2) => WrappingAdd(registers[r1], registers[r2])
      case AddFloat(_, r1, r2) => FloatAdd(registers[r1], registers[r2])
      case Or(_, r1, r2) => BitOr(registers[r1], registers[r2])
      case And(_, r1, r2) => BitAnd(registers[r1], registers[r2])
      case Xor(_, r1, r2) => BitXor(registers[r1], registers[r2])
      case Rotate(reg, times) => Rotated(registers[reg], times)
    }

    /** Where a jump leaves the program counter: the byte stored at the
        jump's address when register 0 equals the jump's register, and the
        jump's own address otherwise. */
    function JumpTarget(reg: bv8, addr: bv8): nat
      requires Valid() && reg < 16
    {
      if registers[0] == registers[reg] then memory[addr] as nat else programCounter
    }

    /** The effect of an opcode, before the program counter moves on. */
    function Effect(op: OpCode): Machine
      requires Valid() && op.WellFormed()
    {
      match op
      case LoadAddr(reg, addr) => this.(registers := registers[reg := memory[addr]])
      case LoadValue(reg, value) => this.(registers := registers[reg := value])
      case Store(reg, addr) => this.(memory := memory[addr := registers[reg]])
      case Move(source, target) => this.(registers := registers[target := registers[source]])
      case AddInt(target, r1, r2) =>
        this.(registers := registers[target := WrappingAdd(registers[r1], registers[r2])])
      case AddFloat(target, r1, r2) =>
        this.(registers := registers[target := FloatAdd(registers[r1], registers[r2])])
      case Or(target, r1, r2) => this.(registers := registers[target := BitOr(registers[r1], registers[r2])])
      case And(target, r1, r2) => this.(registers := registers[target := BitAnd(registers[r1], registers[r2])])
      case Xor(target, r1, r2) => this.(registers := registers[target := BitXor(registers[r1], registers[r2])])
      case Rotate(reg, times) => this.(registers := registers[reg := Rotated(registers[reg], times)])
      case Jump(reg, addr) =>
        if registers[0] == registers[reg] then this.(programCounter := memory[addr] as nat) else this
      case Halt => this.(halted := true)
    }

    /** Executes an opcode: its effect, then two bytes on for every opcode
        but a jump. */
    function Execute(op: OpCode): (m: Machine)
      requires Valid() && op.WellFormed()
      ensures m.Valid()
    {
      var m := Effect(op);
      EffectFrame(op);
      if op.Jump? then m else m.(programCounter := m.programCounter + 2)
    }

    /** Only the opcode's target register, the store's memory byte, the
        program counter and, for a halt, the halted flag change; the program
        counter moves two bytes on for every opcode but a jump. */
    lemma ExecuteFrame(op: OpCode)
      requires Valid() && op.WellFormed()
      ensures var m := Execute(op);
              && m.instructionRegister == instructionRegister
              && m.programCounter == (if op.Jump? then JumpTarget(op.reg, op.addr) else programCounter + 2)
              && m.halted == (halted || op.Halt?)
              && m.memory == (if op.Store? then memory[op.addr := registers[op.reg]] else memory)
              && (op.Target().None? ==> m.registers == registers)
              && (op.Target().Some? ==> m.registers == registers[op.Target().value := Written(op)])
    {
      EffectFrame(op);
    }

    /** The effect of an opcode changes one register, one memory byte, the
        program counter or the halted flag, as the opcode says. */
    lemma EffectFrame(op: OpCode)
      requires Valid() && op.WellFormed()
      ensures Effect(op) == (
        if op.Target().Some? then this.(registers := registers[op.Target().value := Written(op)])
        else if op.Store? then this.(memory := memory[op.addr := registers[op.reg]])
        else if op.Jump? then this.(programCounter := JumpTarget(op.reg, op.addr))
        else this.(halted := true))
    {
      if op.Target().Some? {
        RegisterEffect(op);
      }
    }

    /** An opcode with a target register writes only that register. */
    lemma RegisterEffect(op: OpCode)
      requires Valid() && op.WellFormed() && op.Target().Some?
      ensures Effect(op) == this.(registers := registers[op.Target().value := Written(op)])
    {
    }

    /** One fetch, decode and execute cycle. The flag is false when the
        fetched instruction is illegal; the machine then halts with its
        registers, memory and program counter as they were. */
    function Cycle(): (r: (Machine, bool))
      requires Valid() && CanFetch()
      ensures r.0.Valid()
      ensures var instr := Fetch().instructionRegister;
              && r.0.instructionRegister == instr
              && (r.1 <==> Decode(instr).Some?)
              && (r.1 ==> r.0 == Fetch().Execute(Decode(instr).value))
              && (r.1 ==> (r.0.halted <==> halted || Decode(instr) == Some(Halt)))
              && (!r.1 ==> r.0.halted && r.0.registers == registers && r.0.memory == memory
                           && r.0.programCounter == programCounter)
    {
      var m := Fetch();
      match Decode(m.instructionRegister)
      case Some(op) => m.ExecuteFrame(op); (m.Execute(op), true)
      case None => (m.(halted := true), false)
    }

    /** Cycles until the machine halts, with `last` the result of the cycle
        before, for at most `fuel` cycles. A run that finishes ends halted,
        on a halt instruction exactly when its result is true; a run that
        does not finish ends with the machine still going. */
    function RunFrom(last: bool, fuel: nat): (r: RunResult)
      requires Valid()
      ensures r.final.Valid()
      ensures halted ==> r == RunResult(Finished(last), this)
      ensures r.outcome.Finished? == r.final.halted
      ensures r.outcome.Finished? && !halted ==>
                Decode(r.final.instructionRegister) == if r.outcome.legal then Some(Halt) else None
      ensures r.outcome.PcOutOfRange? ==> !r.final.CanFetch()
      decreases fuel, 1
    {
      if halted then RunResult(Finished(last), this)
      else if !CanFetch() then RunResult(PcOutOfRange, this)
      else if fuel == 0 then RunResult(OutOfFuel, this)
      else RunOn(fuel)
    }

    /** The rest of a run of a machine that is going: one cycle, then the
        run from the state that cycle leaves. */
    function RunOn(fuel: nat): (r: RunResult)
      requires Valid() && !halted && CanFetch() && fuel > 0
      ensures r.final.Valid()
      ensures r.outcome.Finished? == r.final.halted
      ensures r.outcome.Finished? ==>
                Decode(r.final.instructionRegister) == if r.outcome.legal then Some(Halt) else None
      ensures r.outcome.PcOutOfRange? ==> !r.final.CanFetch()
      decreases fuel, 0
    {
      var (m, ok) := Cycle();
      m.RunFrom(ok, fuel - 1)
    }

    /** One step of a run: a machine that is going and can fetch cycles
        once and runs on with the cycle's result and one cycle less. */
    lemma RunStep(last: bool, fuel: nat)
      requires Valid() && !halted && CanFetch() && fuel > 0
      ensures RunFrom(last, fuel) == Cycle().0.RunFrom(Cycle().1, fuel - 1)
    {
      assert RunFrom(last, fuel) == RunOn(fuel);
    }

    /** A machine that is halted, whose program counter has run off the end
        of memory or that has no fuel left stops at once. */
    lemma RunStopped(last: bool, fuel: nat)
      requires Valid() && (halted || !CanFetch() || fuel == 0)
      ensures RunFrom(last, fuel) ==
                RunResult(if halted then Finished(last) else if !CanFetch() then PcOutOfRange else OutOfFuel, this)
    {
    }

    /** The same step, for a cycle already taken. */
    lemma RunAfterCycle(last: bool, fuel: nat, next: Machine, ok: bool)
      requires Valid() && !halted && CanFetch() && fuel > 0 && (next, ok) == Cycle()
      ensures next.Valid() && next.RunFrom(ok, fuel - 1) == RunFrom(last, fuel)
    {
      RunStep(last, fuel);
    }

    /** Runs until the machine halts, for at most `fuel` cycles: true when
        it was halted to begin with or stopped on a halt instruction. */
    function Run(fuel: nat): (r: RunResult)
      requires Valid()
      ensures r.outcome == Finished(true) ==>
                halted || Decode(r.final.instructionRegister) == Some(Halt)
      ensures r.outcome == Finished(false) ==>
                !halted && Decode(r.final.instructionRegister).None?
    {
      RunFrom(true, fuel)
    }
  }

  /** More fuel does not change a run that ended within its fuel: the fuel
      bound only cuts off runs that would go on. */
  lemma {:induction false} RunFuelMonotone(m: Machine, last: bool, fuel: nat, more: nat)
    requires m.Valid() && fuel <= more
    requires !m.RunFrom(last, fuel).outcome.OutOfFuel?
    ensures m.RunFrom(last, more) == m.RunFrom(last, fuel)
    decreases fuel
  {
    if !m.halted && m.CanFetch() {
      var (next, ok) := m.Cycle();
      m.RunAfterCycle(last, more, next, ok);
      m.RunAfterCycle(last, fuel, next, ok);
      RunFuelMonotone(next, ok, fuel - 1, more - 1);
    } else {
      m.RunStopped(last, fuel);
      m.RunStopped(last, more);
    }
  }

  /** A jump whose condition fails leaves the program counter where it is,
      so the machine fetches the same jump again and never halts. */
  lemma {:induction false} UntakenJumpRepeats(m: Machine, last: bool, fuel: nat)
    requires m.Valid() && !m.halted && m.CanFetch()
    requires var op := Decode(m.Fetch().instructionRegister);
             op.Some? && op.value.Jump? && m.registers[0] != m.registers[op.value.reg]
    ensures m.RunFrom(last, fuel).outcome == OutOfFuel
    decreases fuel
  {
    if fuel > 0 {
      var (next, ok) := m.Cycle();
      assert next.Fetch() == m.Fetch();
      UntakenJumpRepeats(next, ok, fuel - 1);
    }
  }

  /** A byte of zeros. */
  function Zeros(n: nat): (s: seq<bv8>)
    ensures |s| == n && forall i | 0 <= i < n :: s[i] == 0
  {
    seq(n, _ => 0)
  }

  /** A new machine: every register and memory byte zero, the program
      counter and instruction register zero, not halted. */
  function Reset(): (m: Machine)
    ensures m.Valid() && !m.halted && m.programCounter == 0 && m.instructionRegister == 0
    ensures forall i | 0 <= i < 16 :: m.registers[i] == 0
    ensures forall i | 0 <= i < 256 :: m.memory[i] == 0
  {
    Machine(Zeros(16), Zeros(256), 0, 0, false)
  }

  /** A new machine with a program copied to the start of memory; nothing
      when the program does not fit. */
  function Loaded(program: seq<bv8>): (r: Option<Machine>)
    ensures r.Some? <==> |program| <= 256
    ensures r.Some? ==> var m := r.value;
              && m == Reset().(memory := m.memory) && m.Valid()
              && m.memory[..|program|] == program
              && forall i | |program| <= i < 256 :: m.memory[i] == 0
  {
    if |program| > 256 then None
    else Some(Reset().(memory := program + Zeros(256 - |program|)))
  }

  // ---------------------------------------------------------------------
  // The machine in place
  // ---------------------------------------------------------------------

  /** The machine as the program keeps it, with registers and memory in
      arrays updated in place. Each method takes the state where the
      matching function of `Machine` says. */
  class Cpu {
    const registers: array<bv8>
    const memory: array<bv8>
    var programCounter: nat
    var instructionRegister: Instruction
    var halted: bool

    /** Sixteen registers and 256 bytes of memory, in separate arrays. */
    ghost predicate Valid()
      reads this
    {
      registers.Length == 16 && memory.Length == 256 && registers != memory
    }

    /** The state of the machine as a value. */
    function State(): Machine
      reads this, registers, memory
    {
      Machine(registers[..], memory[..], programCounter, instructionRegister, halted)
    }

    /** A new machine, with everything zero and not halted. */
    constructor ()
      ensures Valid() && State() == Reset()
      ensures fresh(registers) && fresh(memory)
    {
      registers := new bv8[16](_ => 0);
      memory := new bv8[256](_ => 0);
      programCounter := 0;
      instructionRegister := 0;
      halted := false;
      new;
      assert registers[..] == Zeros(16);
      assert memory[..] == Zeros(256);
    }

    /** A new machine with a program copied to the start of its memory. */
    constructor Init(program: seq<bv8>)
      requires |program| <= 256
      ensures Valid() && Loaded(program) == Some(State())
      ensures fresh(registers) && fresh(memory)
    {
      registers := new bv8[16](_ => 0);
      memory := new bv8[256](_ => 0);
      programCounter := 0;
      instructionRegister := 0;
      halted := false;
      new;
      for i := 0 to |program|
        invariant forall j | 0 <= j < i :: memory[j] == program[j]
        invariant forall j | i <= j < 256 :: memory[j] == 0
        invariant forall j | 0 <= j < 16 :: registers[j] == 0
        invariant programCounter == 0 && instructionRegister == 0 && !halted
      {
        memory[i] := program[i];
      }
      assert registers[..] == Zeros(16);
      assert memory[..] == program + Zeros(256 - |program|);
    }

    /** Loads the instruction at the program counter. */
    method Fetch()
      requires Valid() && State().CanFetch()
      modifies this
      ensures Valid() && State() == old(State()).Fetch()
    {
      var high := memory[programCounter];
      var low := memory[programCounter + 1];
      var instr: Instruction := high as Instruction << 8;
      instr := instr | low as Instruction;
      instructionRegister := instr;
    }

    /** Applies an opcode, then moves the program counter two bytes on unless
        the opcode is a jump. */
    method Execute(op: OpCode)
      requires Valid() && op.WellFormed()
      modifies this, registers, memory
      ensures Valid() && State() == old(State()).Execute(op)
    {
      Apply(op);
      if !op.Jump? {
        programCounter := programCounter + 2;
      }
    }

    /** The effect of an opcode on the registers, memory, program counter
        and halted flag. */
    method Apply(op: OpCode)
      requires Valid() && op.WellFormed()
      modifies this, registers, memory
      ensures Valid() && State() == old(State()).Effect(op)
    {
      if op.Target().Some? {
        State().RegisterEffect(op);
        var value := Compute(op);
        SetRegister(op.Target().value, value);
      } else if op.Store? {
        SetMemory(op.addr, registers[op.reg]);
      } else if op.Jump? {
        if registers[0] == registers[op.reg] {
          programCounter := memory[op.addr] as nat;
        }
      } else {
        halted := true;
      }
    }

    /** The value an opcode with a target register writes there. */
    method Compute(op: OpCode) returns (value: bv8)
      requires Valid() && op.WellFormed() && op.Target().Some?
      ensures value == State().Written(op)
    {
      if op.LoadAddr? || op.LoadValue? || op.Move? {
        value := Transfer(op);
      } else if op.AddInt? || op.AddFloat? || op.Rotate? {
        value := Arithmetic(op);
      } else {
        value := Logic(op);
      }
    }

    /** The byte a load or a move copies. */
    method Transfer(op: OpCode) returns (value: bv8)
      requires Valid() && op.WellFormed() && (op.LoadAddr? || op.LoadValue? || op.Move?)
      ensures value == State().Written(op)
    {
      if op.LoadAddr? {
        value := memory[op.addr];
      } else if op.LoadValue? {
        value := op.value;
      } else {
        value := registers[op.sourceReg];
      }
    }

    /** The integer sum, floating-point sum or rotation of registers. */
    method Arithmetic(op: OpCode) returns (value: bv8)
      requires Valid() && op.WellFormed() && (op.AddInt? || op.AddFloat? || op.Rotate?)
      ensures value == State().Written(op)
    {
      if op.AddInt? {
        value := WrappingAdd(registers[op.reg1], registers[op.reg2]);
      } else if op.AddFloat? {
        value := FloatSum(registers[op.reg1], registers[op.reg2]);
      } else {
        value := Rotated(registers[op.reg], op.times);
      }
    }

    /** The bitwise or, and, or exclusive or of two registers. */
    method Logic(op: OpCode) returns (value: bv8)
      requires Valid() && op.WellFormed() && (op.Or? || op.And? || op.Xor?)
      ensures value == State().Written(op)
    {
      if op.Or? {
        value := BitOr(registers[op.reg1], registers[op.reg2]);
      } else if op.And? {
        value := BitAnd(registers[op.reg1], registers[op.reg2]);
      } else {
        value := BitXor(registers[op.reg1], registers[op.reg2]);
      }
    }

    /** Decodes two bytes, adds them and encodes the sum. */
    static method FloatSum(a: bv8, b: bv8) returns (s: bv8)
      ensures s == FloatAdd(a, b)
    {
      var f1 := Floating.Decode(a);
      var f2 := Floating.Decode(b);
      assert Floating.Abs(f1 + f2) < 128.0 by { SumBounded(a, b); }
      s := Floating.Encode(f1 + f2);
      FloatAddIs(a, b);
    }

    /** Writes one register. */
    method SetRegister(reg: bv8, value: bv8)
      requires Valid() && reg < 16
      modifies registers
      ensures Valid() && State() == old(State()).(registers := old(registers[..])[reg := value])
    {
      registers[reg] := value;
    }

    /** Writes one memory byte. */
    method SetMemory(addr: bv8, value: bv8)
      requires Valid()
      modifies memory
      ensures Valid() && State() == old(State()).(memory := old(memory[..])[addr := value])
    {
      memory[addr] := value;
    }

    /** One fetch, decode and execute cycle: false when the instruction is
        illegal, which halts the machine. */
    method Cycle() returns (legal: bool)
      requires Valid() && State().CanFetch()
      modifies this, registers, memory
      ensures Valid() && (State(), legal) == old(State()).Cycle()
    {
      Fetch();
      var decoded := Decode(instructionRegister);
      if decoded.Some? {
        Execute(decoded.value);
        legal := true;
      } else {
        halted := true;
        legal := false;
      }
    }

    /** One cycle of a run, with one cycle less of fuel left. */
    method Advance(last: bool, left: nat) returns (legal: bool, rest: nat)
      requires Valid() && !halted && State().CanFetch() && left > 0
      modifies this, registers, memory
      ensures Valid() && rest == left - 1
      ensures State().RunFrom(legal, rest) == old(State()).RunFrom(last, left)
    {
      ghost var before := State();
      legal := Cycle();
      before.RunAfterCycle(last, left, State(), legal);
      rest := left - 1;
    }

    /** Cycles until the machine halts, for at most `fuel` cycles, and
        returns how the run ended. */
    method Run(fuel: nat) returns (outcome: RunOutcome)
      requires Valid()
      modifies this, registers, memory
      ensures Valid() && RunResult(outcome, State()) == old(State()).Run(fuel)
    {
      var last := true;
      var left := fuel;
      while !halted && programCounter + 1 < memory.Length && left > 0
        invariant Valid()
        invariant State().RunFrom(last, left) == old(State()).Run(fuel)
        decreases left
      {
        last, left := Advance(last, left);
      }
      State().RunStopped(last, left);
      if halted {
        outcome := Finished(last);
      } else if programCounter + 1 >= memory.Length {
        outcome := PcOutOfRange;
      } else {
        outcome := OutOfFuel;
      }
    }
  }
}
