/** The older prototype of the Vole machine: the same registers, memory and
    opcodes, but an instruction is fetched without an instruction register,
    decoding an illegal opcode is a failure of the program rather than a
    result, executing an opcode never moves the program counter on (only a
    taken jump sets it), and the floating-point addition is an integer
    addition.

    `Machine` is the prototype's state as a value and `Cpu` the prototype as
    the program keeps it, each of its methods proved to take the state where
    the matching function of `Machine` says. */
module Legacy {
  import opened Wrappers
  import Vole

  /** An instruction word, wrapped as the prototype wraps it. */
  datatype Instruction = Instruction(instr: bv16)
  {
    /** Bits 15-12: the opcode. */
    function OpcodeBits(): (b: bv8)
      ensures b < 16 && b == Vole.OpcodeBits(instr)
    {
      (instr >> 12) as bv8
    }

    /** Bits 11-8: the first operand. */
    function Operand1Bits(): (b: bv8)
      ensures b < 16 && b == Vole.Operand1Bits(instr)
    {
      ((instr & 0x0F00) >> 8) as bv8
    }

    /** Bits 7-4: the second operand. */
    function Operand2Bits(): (b: bv8)
      ensures b < 16 && b == Vole.Operand2Bits(instr)
    {
      ((instr & 0x00F0) >> 4) as bv8
    }

    /** Bits 3-0: the third operand. */
    function Operand3Bits(): (b: bv8)
      ensures b < 16 && b == Vole.Operand3Bits(instr)
    {
      (instr & 0x000F) as bv8
    }

    /** Bits 7-0: the second and third operands read as one byte. */
    function Operand23Bits(): (b: bv8)
      ensures b == (Operand2Bits() << 4) | Operand3Bits() && b == Vole.Operand23Bits(instr)
    {
      (instr & 0x00FF) as bv8
    }

    /** Bits 11-0: the three operands together. */
    function OperandBits(): (b: bv16)
      ensures b < 0x1000 && b == Vole.OperandBits(instr)
    {
      instr & 0x0FFF
    }
  }

  /** An opcode nibble the prototype can decode. */
  predicate Decodable(instr: Instruction)
  {
    1 <= instr.OpcodeBits() <= 12
  }

  /** Decodes an instruction word whose opcode is one of 0x1 to 0xC; the
      prototype has no case for the others. */
  function Decode(instr: Instruction): (op: Vole.OpCode)
    requires Decodable(instr)
    ensures op.WellFormed() && op.Code() == instr.OpcodeBits()
  {
    var operand1 := instr.Operand1Bits();
    var operand2 := instr.Operand2Bits();
    var operand3 := instr.Operand3Bits();
    match instr.OpcodeBits()
    case 0x1 => Vole.LoadAddr(operand1, instr.Operand23Bits())
    case 0x2 => Vole.LoadValue(operand1, instr.Operand23Bits())
    case 0x3 => Vole.Store(operand1, instr.Operand23Bits())
    case 0x4 => Vole.Move(operand2, operand3)
    case 0x5 => Vole.AddInt(operand1, operand2, operand3)
    case 0x6 => Vole.AddFloat(operand1, operand2, operand3)
    case 0x7 => Vole.Or(operand1, operand2, operand3)
    case 0x8 => Vole.And(operand1, operand2, operand3)
    case 0x9 => Vole.Xor(operand1, operand2, operand3)
    case 0xA => Vole.Rotate(operand1, operand3)
    case 0xB => Vole.Jump(operand1, instr.Operand23Bits())
    case 0xC => Vole.Halt
  }

  /** The prototype decodes the words the machine decodes, to the same
      opcodes, and fails on exactly the words the machine rejects. */
  lemma DecodeAgrees(instr: Instruction)
    ensures Decodable(instr) <==> Vole.Decode(instr.instr).Some?
    ensures Decodable(instr) ==> Vole.Decode(instr.instr) == Some(Decode(instr))
  {
    var code := instr.OpcodeBits();
    if 1 <= code <= 3 {
      DecodeAgreesMemory(instr);
    } else if 4 <= code <= 6 {
      DecodeAgreesCopy(instr);
    } else if 7 <= code <= 9 {
      DecodeAgreesLogic(instr);
    } else if 10 <= code <= 12 {
      DecodeAgreesControl(instr);
    }
  }

  /** The same, for the loads and the store. */
  lemma DecodeAgreesMemory(instr: Instruction)
    requires 1 <= instr.OpcodeBits() <= 3
    ensures Vole.Decode(instr.instr) == Some(Decode(instr))
  {
  }

  /** The same, for the move and the two additions. */
  lemma DecodeAgreesCopy(instr: Instruction)
    requires 4 <= instr.OpcodeBits() <= 6
    ensures Vole.Decode(instr.instr) == Some(Decode(instr))
  {
  }

  /** The same, for or, and, and exclusive or. */
  lemma DecodeAgreesLogic(instr: Instruction)
    requires 7 <= instr.OpcodeBits() <= 9
    ensures Vole.Decode(instr.instr) == Some(Decode(instr))
  {
  }

  /** The same, for the rotation, the jump and the halt. */
  lemma DecodeAgreesControl(instr: Instruction)
    requires 10 <= instr.OpcodeBits() <= 12
    ensures Vole.Decode(instr.instr) == Some(Decode(instr))
  {
  }

  /** Decoding the word an opcode assembles to gives the opcode back. */
  lemma DecodeAssembled(op: Vole.OpCode)
    requires op.WellFormed()
    ensures var instr := Instruction(Vole.Assemble(op));
            Decodable(instr) && Decode(instr) == op
  {
    Vole.DecodeAssemble(op);
    DecodeAgrees(Instruction(Vole.Assemble(op)));
  }

  // ---------------------------------------------------------------------
  // Machine state
  // ---------------------------------------------------------------------

  /** The prototype's state as a value. */
  datatype Machine = Machine(
    generalPurposeRegisters: seq<bv8>,
    mainMemory: seq<bv8>,
    programCounter: nat,
    halted: bool)
  {
    /** Sixteen registers and 256 bytes of memory. */
    predicate Valid()
    {
      |generalPurposeRegisters| == 16 && |mainMemory| == 256
    }

    /** Both bytes of the next instruction are inside memory. */
    predicate CanFetch()
    {
      programCounter + 1 < |mainMemory|
    }

    /** The two bytes at the program counter, high byte first. */
    function Fetch(): (instr: Instruction)
      requires Valid() && CanFetch()
      ensures instr.instr >> 8 == mainMemory[programCounter] as bv16
      ensures instr.instr & 0xFF == mainMemory[programCounter + 1] as bv16
    {
      var high := mainMemory[programCounter] as bv16 << 8;
      Instruction(high | mainMemory[programCounter + 1] as bv16)
    }

    /** Executes an opcode in place. Nothing moves the program counter
        but a jump whose condition holds, and a floating-point addition adds
        the two bytes as integers. */
    function Execute(op: Vole.OpCode): Machine
      requires Valid() && op.WellFormed()
    {
      var registers := generalPurposeRegisters;
      match op
      case LoadAddr(reg, addr) => this.(generalPurposeRegisters := registers[reg := mainMemory[addr]])
      case LoadValue(reg, value) => this.(generalPurposeRegisters := registers[reg := value])
      case Store(reg, addr) => this.(mainMemory := mainMemory[addr := registers[reg]])
      case Move(source, target) => this.(generalPurposeRegisters := registers[target := registers[source]])
      case AddInt(target, r1, r2) =>
        this.(generalPurposeRegisters := registers[target := Vole.WrappingAdd(registers[r1], registers[r2])])
      case AddFloat(target, r1, r2) =>
        this.(generalPurposeRegisters := registers[target := Vole.WrappingAdd(registers[r1], registers[r2])])
      case Or(target, r1, r2) =>
        this.(generalPurposeRegisters := registers[target := Vole.BitOr(registers[r1], registers[r2])])
      case And(target, r1, r2) =>
        this.(generalPurposeRegisters := registers[target := Vole.BitAnd(registers[r1], registers[r2])])
      case Xor(target, r1, r2) =>
        this.(generalPurposeRegisters := registers[target := Vole.BitXor(registers[r1], registers[r2])])
      case Rotate(reg, times) =>
        this.(generalPurposeRegisters := registers[reg := Vole.Rotated(registers[reg], times)])
      case Jump(reg, addr) =>
        if registers[0] == registers[reg] then this.(programCounter := mainMemory[addr] as nat) else this
      case Halt => this.(halted := true)
    }

    /** The machine's state with the same registers, memory, program counter
        and halted flag, and `instr` in its instruction register. */
    function AsMachine(instr: bv16): (m: Vole.Machine)
      ensures m.registers == generalPurposeRegisters && m.memory == mainMemory
      ensures m.programCounter == programCounter && m.halted == halted
      ensures m.instructionRegister == instr
    {
      Vole.Machine(generalPurposeRegisters, mainMemory, programCounter, instr, halted)
    }

    /** Every opcode but a floating-point addition has on the prototype the
        effect it has on the machine before the machine's program counter
        moves on. */
    lemma ExecuteIsEffect(op: Vole.OpCode, instr: bv16)
      requires Valid() && op.WellFormed() && !op.AddFloat?
      ensures Execute(op).AsMachine(instr) == AsMachine(instr).Effect(op)
    {
    }

    /** A floating-point addition is the integer addition of the same
        registers. */
    lemma AddFloatIsAddInt(target: bv8, reg1: bv8, reg2: bv8)
      requires Valid() && target < 16 && reg1 < 16 && reg2 < 16
      ensures Execute(Vole.AddFloat(target, reg1, reg2)) == Execute(Vole.AddInt(target, reg1, reg2))
    {
    }

    /** Executing an opcode changes at most its target register, the
        store's memory byte, the halted flag on a halt, and the program
        counter on a taken jump, which sets it to the byte stored at the
        jump's address. */
    lemma ExecuteFrame(op: Vole.OpCode)
      requires Valid() && op.WellFormed()
      ensures var m := Execute(op);
              && m.programCounter ==
                   (if op.Jump? && generalPurposeRegisters[0] == generalPurposeRegisters[op.reg]
                    then mainMemory[op.addr] as nat else programCounter)
              && m.Valid()
              && m.halted == (halted || op.Halt?)
              && m.mainMemory ==
                   (if op.Store? then mainMemory[op.addr := generalPurposeRegisters[op.reg]] else mainMemory)
              && (op.Target().None? ==> m.generalPurposeRegisters == generalPurposeRegisters)
              && (op.Target().Some? ==>
                    m.generalPurposeRegisters == generalPurposeRegisters[op.Target().value := Written(op)])
    {
      if op.Target().Some? {
        RegisterExecute(op);
      }
    }

    /** The value an opcode with a target register writes there, read in
        this state. */
    function Written(op: Vole.OpCode): bv8
      requires Valid() && op.WellFormed() && op.Target().Some?
    {
      var registers := generalPurposeRegisters;
      match op
      case LoadAddr(_, addr) => mainMemory[addr]
      case LoadValue(_, value) => value
      case Move(source, _) => registers[source]
      case AddInt(_, r1, r2) => Vole.WrappingAdd(registers[r1], registers[r2])
      case AddFloat(_, r1, r2) => Vole.WrappingAdd(registers[r1], registers[r2])
      case Or(_, r1, r2) => Vole.BitOr(registers[r1], registers[r2])
      case And(_, r1, r2) => Vole.BitAnd(registers[r1], registers[r2])
      case Xor(_, r1, r2) => Vole.BitXor(registers[r1], registers[r2])
      case Rotate(reg, times) => Vole.Rotated(registers[reg], times)
    }

    /** An opcode with a target register writes only that register. */
    lemma RegisterExecute(op: Vole.OpCode)
      requires Valid() && op.WellFormed() && op.Target().Some?
      ensures Execute(op) == this.(generalPurposeRegisters := generalPurposeRegisters[op.Target().value := Written(op)])
    {
    }

    /** Fetches, decodes and executes the instruction at the program
        counter. */
    function Step(): (m: Machine)
      requires Valid() && CanFetch() && Decodable(Fetch())
      ensures m.Valid()
    {
      ExecuteFrame(Decode(Fetch()));
      Execute(Decode(Fetch()))
    }

    /** A step that neither jumps nor stores into the instruction it
        executes leaves the program counter where it is, so the next step
        fetches the same instruction again. */
    lemma StepRefetches()
      requires Valid() && CanFetch() && Decodable(Fetch())
      requires var op := Decode(Fetch());
               !op.Jump? && (op.Store? ==> op.addr as nat != programCounter && op.addr as nat != programCounter + 1)
      ensures Step().programCounter == programCounter
      ensures Step().Valid() && Step().CanFetch() && Step().Fetch() == Fetch()
    {
      var op := Decode(Fetch());
      ExecuteFrame(op);
      var m := Step();
      assert m.mainMemory[programCounter] == mainMemory[programCounter];
      assert m.mainMemory[programCounter + 1] == mainMemory[programCounter + 1];
    }
  }

  /** A new prototype: every register and memory byte zero, the program
      counter zero, not halted. */
  function Reset(): (m: Machine)
    ensures m.Valid() && !m.halted && m.programCounter == 0
    ensures forall i | 0 <= i < 16 :: m.generalPurposeRegisters[i] == 0
    ensures forall i | 0 <= i < 256 :: m.mainMemory[i] == 0
  {
    Machine(Vole.Zeros(16), Vole.Zeros(256), 0, false)
  }

  // ---------------------------------------------------------------------
  // The prototype in place
  // ---------------------------------------------------------------------

  /** The prototype as the program keeps it, with registers and memory in
      arrays updated in place. */
  class Cpu {
    const generalPurposeRegisters: array<bv8>
    const mainMemory: array<bv8>
    var programCounter: nat
    var halted: bool

    /** Sixteen registers and 256 bytes of memory, in separate arrays. */
    ghost predicate Valid()
      reads this
    {
      generalPurposeRegisters.Length == 16 && mainMemory.Length == 256
      && generalPurposeRegisters != mainMemory
    }

    /** The state of the prototype as a value. */
    function State(): Machine
      reads this, generalPurposeRegisters, mainMemory
    {
      Machine(generalPurposeRegisters[..], mainMemory[..], programCounter, halted)
    }

    /** A new prototype, with everything zero and not halted. */
    constructor ()
      ensures Valid() && State() == Reset()
      ensures fresh(generalPurposeRegisters) && fresh(mainMemory)
    {
      generalPurposeRegisters := new bv8[16](_ => 0);
      mainMemory := new bv8[256](_ => 0);
      programCounter := 0;
      halted := false;
      new;
      assert generalPurposeRegisters[..] == Vole.Zeros(16);
      assert mainMemory[..] == Vole.Zeros(256);
    }

    /** Reads the instruction at the program counter, changing nothing. */
    method Fetch() returns (instr: Instruction)
      requires Valid() && State().CanFetch()
      ensures instr == State().Fetch()
    {
      var byte0 := mainMemory[programCounter];
      var byte1 := mainMemory[programCounter + 1];
      var word: bv16 := byte0 as bv16 << 8;
      word := word | byte1 as bv16;
      instr := Instruction(word);
    }

    /** Executes an opcode in place. */
    method Execute(op: Vole.OpCode)
      requires Valid() && op.WellFormed()
      modifies this, generalPurposeRegisters, mainMemory
      ensures Valid() && State() == old(State()).Execute(op)
    {
      if op.Target().Some? {
        State().RegisterExecute(op);
        var value := Compute(op);
        SetRegister(op.Target().value, value);
      } else if op.Store? {
        SetMemory(op.addr, generalPurposeRegisters[op.reg]);
      } else if op.Jump? {
        if generalPurposeRegisters[0] == generalPurposeRegisters[op.reg] {
          programCounter := mainMemory[op.addr] as nat;
        }
      } else {
        halted := true;
      }
    }

    /** The value an opcode with a target register writes there. */
    method Compute(op: Vole.OpCode) returns (value: bv8)
      requires Valid() && op.WellFormed() && op.Target().Some?
      ensures value == State().Written(op)
    {
      if op.LoadAddr? || op.LoadValue? || op.Move? {
        value := Transfer(op);
      } else if op.AddInt? || op.AddFloat? || op.Rotate? {
        value := Arithmetic(op);
      } else {
        value := Logic(op);
      }
    }

    /** The byte a load or a move copies. */
    method Transfer(op: Vole.OpCode) returns (value: bv8)
      requires Valid() && op.WellFormed() && (op.LoadAddr? || op.LoadValue? || op.Move?)
      ensures value == State().Written(op)
    {
      if op.LoadAddr? {
        value := mainMemory[op.addr];
      } else if op.LoadValue? {
        value := op.value;
      } else {
        value := generalPurposeRegisters[op.sourceReg];
      }
    }

    /** The sum of two registers, either addition wrapping around, or the
        rotation of one register. */
    method Arithmetic(op: Vole.OpCode) returns (value: bv8)
      requires Valid() && op.WellFormed() && (op.AddInt? || op.AddFloat? || op.Rotate?)
      ensures value == State().Written(op)
    {
      if op.Rotate? {
        value := Vole.Rotated(generalPurposeRegisters[op.reg], op.times);
      } else {
        value := Vole.WrappingAdd(generalPurposeRegisters[op.reg1], generalPurposeRegisters[op.reg2]);
      }
    }

    /** The bitwise or, and, or exclusive or of two registers. */
    method Logic(op: Vole.OpCode) returns (value: bv8)
      requires Valid() && op.WellFormed() && (op.Or? || op.And? || op.Xor?)
      ensures value == State().Written(op)
    {
      var a, b := generalPurposeRegisters[op.reg1], generalPurposeRegisters[op.reg2];
      if op.Or? {
        value := Vole.BitOr(a, b);
      } else if op.And? {
        value := Vole.BitAnd(a, b);
      } else {
        value := Vole.BitXor(a, b);
      }
    }

    /** Writes one register. */
    method SetRegister(reg: bv8, value: bv8)
      requires Valid() && reg < 16
      modifies generalPurposeRegisters
      ensures Valid()
      ensures State() == old(State()).(generalPurposeRegisters := old(generalPurposeRegisters[..])[reg := value])
    {
      generalPurposeRegisters[reg] := value;
    }

    /** Writes one memory byte. */
    method SetMemory(addr: bv8, value: bv8)
      requires Valid()
      modifies mainMemory
      ensures Valid() && State() == old(State()).(mainMemory := old(mainMemory[..])[addr := value])
    {
      mainMemory[addr] := value;
    }

    /** Fetches, decodes and executes one instruction. */
    method Step()
      requires Valid() && State().CanFetch() && Decodable(State().Fetch())
      modifies this, generalPurposeRegisters, mainMemory
      ensures Valid() && State() == old(State()).Step()
    {
      var next := Fetch();
      var op := Decode(next);
      Execute(op);
    }
  }
}
