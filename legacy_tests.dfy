/** The examples of the prototype's own test suite, each worked through the
    prototype's state model: one step of a new prototype with the two bytes
    of an instruction at address 0 and the registers or memory it reads set
    up beforehand. */
module LegacyTests {
  import Vole
  import opened Legacy

  /** A new prototype with the instruction `high low` at address 0. */
  function Start(high: bv8, low: bv8): (m: Machine)
    ensures m.Valid() && m.CanFetch() && m.Fetch() == Instruction((high as bv16 << 8) | low as bv16)
  {
    var m := Reset();
    m.(mainMemory := m.mainMemory[0 := high][1 := low])
  }

  /** The word `0x1234` has opcode 1 and operands `0x234`. */
  lemma FieldsExample()
    ensures Instruction(0x1234).OpcodeBits() == 0x01
    ensures Instruction(0x1234).OperandBits() == 0x0234
  {
  }

  /** `0x14A3` loads memory byte `0xA3` into register 4, and the program
      counter stays at 0. */
  lemma LoadAddrExample()
    ensures var m := Start(0x14, 0xA3);
            var start := m.(mainMemory := m.mainMemory[0xA3 := 0xCD]);
            start.Fetch() == Instruction(0x14A3) && Decodable(start.Fetch())
            && start.Step().generalPurposeRegisters[4] == 0xCD && start.Step().programCounter == 0
  {
    assert Decode(Instruction(0x14A3)) == Vole.LoadAddr(4, 0xA3);
  }

  /** `0x20A3` puts `0xA3` into register 0. */
  lemma LoadValueExample()
    ensures var m := Start(0x20, 0xA3);
            Decodable(m.Fetch()) && m.Step().generalPurposeRegisters[0] == 0xA3
  {
    assert Decode(Instruction(0x20A3)) == Vole.LoadValue(0, 0xA3);
  }

  /** `0x35B1` stores register 5 at address `0xB1`. */
  lemma StoreExample()
    ensures var m := Start(0x35, 0xB1);
            var start := m.(generalPurposeRegisters := m.generalPurposeRegisters[5 := 0x58]);
            Decodable(start.Fetch()) && start.Step().mainMemory[0xB1] == 0x58
  {
    assert Decode(Instruction(0x35B1)) == Vole.Store(5, 0xB1);
  }

  /** `0x40A4` copies register `0xA` into register 4. */
  lemma MoveExample()
    ensures var m := Start(0x40, 0xA4);
            var start := m.(generalPurposeRegisters := m.generalPurposeRegisters[0xA := 0xFF]);
            Decodable(start.Fetch()) && start.Step().generalPurposeRegisters[4] == 0xFF
  {
    assert Decode(Instruction(0x40A4)) == Vole.Move(0xA, 4);
  }

  /** `0x5726` adds registers 2 and 6 into register 7. */
  lemma AddIntExample()
    ensures var m := Start(0x57, 0x26);
            var start := m.(generalPurposeRegisters := m.generalPurposeRegisters[2 := 0x03][6 := 0x05]);
            Decodable(start.Fetch()) && start.Step().generalPurposeRegisters[7] == 0x08
  {
    assert Decode(Instruction(0x5726)) == Vole.AddInt(7, 2, 6);
  }

  /** `0x634E` adds registers 4 and `0xE` into register 3, as integers. */
  lemma AddFloatExample()
    ensures var m := Start(0x63, 0x4E);
            var start := m.(generalPurposeRegisters := m.generalPurposeRegisters[4 := 0x03][0xE := 0x05]);
            Decodable(start.Fetch()) && start.Step().generalPurposeRegisters[3] == 0x08
  {
    assert Decode(Instruction(0x634E)) == Vole.AddFloat(3, 4, 0xE);
  }

  /** `0x7CB4` puts `0xF0 | 0x0F` into register `0xC`. */
  lemma OrExample()
    ensures var m := Start(0x7C, 0xB4);
            var start := m.(generalPurposeRegisters := m.generalPurposeRegisters[0xB := 0xF0][4 := 0x0F]);
            Decodable(start.Fetch()) && start.Step().generalPurposeRegisters[0xC] == 0xFF
  {
    assert Decode(Instruction(0x7CB4)) == Vole.Or(0xC, 0xB, 4);
  }

  /** `0x8045` puts `0xF3 & 0x05` into register 0. */
  lemma AndExample()
    ensures var m := Start(0x80, 0x45);
            var start := m.(generalPurposeRegisters := m.generalPurposeRegisters[4 := 0xF3][5 := 0x05]);
            Decodable(start.Fetch()) && start.Step().generalPurposeRegisters[0] == 0x01
  {
    assert Decode(Instruction(0x8045)) == Vole.And(0, 4, 5);
  }

  /** `0x95F3` puts `0xF3 ^ 0x05` into register 5. */
  lemma XorExample()
    ensures var m := Start(0x95, 0xF3);
            var start := m.(generalPurposeRegisters := m.generalPurposeRegisters[0xF := 0xF3][3 := 0x05]);
            Decodable(start.Fetch()) && start.Step().generalPurposeRegisters[5] == 0xF6
  {
    assert Decode(Instruction(0x95F3)) == Vole.Xor(5, 0xF, 3);
  }

  /** `0xA403` rotates register 4 right by three places. */
  lemma RotateExample()
    ensures var m := Start(0xA4, 0x03);
            var start := m.(generalPurposeRegisters := m.generalPurposeRegisters[4 := 0x07]);
            Decodable(start.Fetch()) && start.Step().generalPurposeRegisters[4] == 0xE0
  {
    assert Decode(Instruction(0xA403)) == Vole.Rotate(4, 3);
  }

  /** `0xB43C` jumps, since registers 0 and 4 are equal, to the address
      stored at `0x3C`. */
  lemma JumpExample()
    ensures var m := Start(0xB4, 0x3C);
            var start := m.(mainMemory := m.mainMemory[0x3C := 0xAB],
                            generalPurposeRegisters := m.generalPurposeRegisters[0 := 0x05][4 := 0x05]);
            Decodable(start.Fetch()) && start.Step().programCounter == 0xAB
  {
    assert Decode(Instruction(0xB43C)) == Vole.Jump(4, 0x3C);
  }

  /** `0xC000` halts the prototype. */
  lemma HaltExample()
    ensures var m := Start(0xC0, 0x00);
            Decodable(m.Fetch()) && m.Step().halted
  {
    assert Decode(Instruction(0xC000)) == Vole.Halt;
  }
}
