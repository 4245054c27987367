/** The example programs of the machine's own test suite, each worked
    through the machine state model. */
module VoleTests {
  import opened Wrappers
  import Floating
  import opened Vole

  /** The machine with `program` loaded at address 0. */
  function Boot(program: seq<bv8>): (m: Machine)
    requires |program| <= 256
    ensures m.Valid() && m == Loaded(program).value
  {
    Loaded(program).value
  }

  /** Instruction `0x14A3` loads memory byte `0xA3` into register 4. */
  lemma LoadAddrExample()
    ensures var m := Boot([0x14, 0xA3]);
            var r := m.(memory := m.memory[0xA3 := 0xCD]).Cycle();
            r.1 && r.0.registers[4] == 0xCD && r.0.programCounter == 2
  {
    var m := Boot([0x14, 0xA3]);
    var start := m.(memory := m.memory[0xA3 := 0xCD]);
    assert start.Fetch().instructionRegister == 0x14A3;
    assert Decode(0x14A3) == Some(LoadAddr(4, 0xA3));
  }

  /** Instruction `0x20A3` puts `0xA3` into register 0. */
  lemma LoadValueExample()
    ensures var r := Boot([0x20, 0xA3]).Cycle();
            r.1 && r.0.registers[0] == 0xA3
  {
    var m := Boot([0x20, 0xA3]);
    assert m.Fetch().instructionRegister == 0x20A3;
    assert Decode(0x20A3) == Some(LoadValue(0, 0xA3));
  }

  /** Instruction `0x35B1` stores register 5 at address `0xB1`. */
  lemma StoreExample()
    ensures var m := Boot([0x35, 0xB1]);
            var r := m.(registers := m.registers[5 := 0x58]).Cycle();
            r.1 && r.0.memory[0xB1] == 0x58
  {
    var m := Boot([0x35, 0xB1]);
    var start := m.(registers := m.registers[5 := 0x58]);
    assert start.Fetch().instructionRegister == 0x35B1;
    assert Decode(0x35B1) == Some(Store(5, 0xB1));
  }

  /** Instruction `0x40A4` copies register `0xA` into register 4. */
  lemma MoveExample()
    ensures var m := Boot([0x40, 0xA4]);
            var r := m.(registers := m.registers[0xA := 0xFF]).Cycle();
            r.1 && r.0.registers[4] == 0xFF
  {
    var m := Boot([0x40, 0xA4]);
    var start := m.(registers := m.registers[0xA := 0xFF]);
    assert start.Fetch().instructionRegister == 0x40A4;
    assert Decode(0x40A4) == Some(Move(0xA, 4));
  }

  /** Instruction `0x5726` adds registers 2 and 6 into register 7. */
  lemma AddIntExample()
    ensures var m := Boot([0x57, 0x26]);
            var r := m.(registers := m.registers[2 := 0x03][6 := 0x05]).Cycle();
            r.1 && r.0.registers[7] == 0x08
  {
    var m := Boot([0x57, 0x26]);
    var start := m.(registers := m.registers[2 := 0x03][6 := 0x05]);
    assert start.Fetch().instructionRegister == 0x5726;
    assert Decode(0x5726) == Some(AddInt(7, 2, 6));
  }

  /** Instruction `0x634E` adds registers 4 and `0xE` as floating-point
      numbers: 3/256 and 5/256 make 1/32, which is byte `0x08`. */
  lemma AddFloatExample()
    ensures var m := Boot([0x63, 0x4E]);
            var r := m.(registers := m.registers[4 := 0x03][0xE := 0x05]).Cycle();
            r.1 && r.0.registers[3] == 0x08
  {
    var m := Boot([0x63, 0x4E]);
    var start := m.(registers := m.registers[4 := 0x03][0xE := 0x05]);
    assert start.Fetch().instructionRegister == 0x634E;
    assert Decode(0x634E) == Some(AddFloat(3, 4, 0xE));
    assert Floating.Pow2(8) == 256 by {
      assert Floating.Pow2(4) == 16;
    }
    assert Floating.Value(0x03) == 3.0 / 256.0;
    assert Floating.Value(0x05) == 5.0 / 256.0;
    assert Floating.Value(0x08) == 8.0 / 256.0;
    assert Floating.Canonical(0x08);
    FloatAddExact(0x03, 0x05, 0x08);
  }

  /** Instruction `0x7CB4` puts `0xF0 | 0x0F` into register `0xC`. */
  lemma OrExample()
    ensures var m := Boot([0x7C, 0xB4]);
            var r := m.(registers := m.registers[0xB := 0xF0][4 := 0x0F]).Cycle();
            r.1 && r.0.registers[0xC] == 0xFF
  {
    var m := Boot([0x7C, 0xB4]);
    var start := m.(registers := m.registers[0xB := 0xF0][4 := 0x0F]);
    assert start.Fetch().instructionRegister == 0x7CB4;
    assert Decode(0x7CB4) == Some(Or(0xC, 0xB, 4));
  }

  /** Instruction `0x8045` puts `0xF3 & 0x05` into register 0. */
  lemma AndExample()
    ensures var m := Boot([0x80, 0x45]);
            var r := m.(registers := m.registers[4 := 0xF3][5 := 0x05]).Cycle();
            r.1 && r.0.registers[0] == 0x01
  {
    var m := Boot([0x80, 0x45]);
    var start := m.(registers := m.registers[4 := 0xF3][5 := 0x05]);
    assert start.Fetch().instructionRegister == 0x8045;
    assert Decode(0x8045) == Some(And(0, 4, 5));
  }

  /** Instruction `0x95F3` puts `0xF3 ^ 0x05` into register 5. */
  lemma XorExample()
    ensures var m := Boot([0x95, 0xF3]);
            var r := m.(registers := m.registers[0xF := 0xF3][3 := 0x05]).Cycle();
            r.1 && r.0.registers[5] == 0xF6
  {
    var m := Boot([0x95, 0xF3]);
    var start := m.(registers := m.registers[0xF := 0xF3][3 := 0x05]);
    assert start.Fetch().instructionRegister == 0x95F3;
    assert Decode(0x95F3) == Some(Xor(5, 0xF, 3));
  }

  /** Instruction `0xA403` rotates register 4 right by three places. */
  lemma RotateExample()
    ensures var m := Boot([0xA4, 0x03]);
            var r := m.(registers := m.registers[4 := 0x07]).Cycle();
            r.1 && r.0.registers[4] == 0xE0
  {
    var m := Boot([0xA4, 0x03]);
    var start := m.(registers := m.registers[4 := 0x07]);
    assert start.Fetch().instructionRegister == 0xA403;
    assert Decode(0xA403) == Some(Rotate(4, 3));
  }

  /** Instruction `0xB43C` jumps, since registers 0 and 4 are equal, to the
      address stored at `0x3C`. */
  lemma JumpExample()
    ensures var m := Boot([0xB4, 0x3C]);
            var r := m.(memory := m.memory[0x3C := 0xAB],
                        registers := m.registers[0 := 0x05][4 := 0x05]).Cycle();
            r.1 && r.0.programCounter == 0xAB
  {
    var m := Boot([0xB4, 0x3C]);
    var start := m.(memory := m.memory[0x3C := 0xAB], registers := m.registers[0 := 0x05][4 := 0x05]);
    assert start.Fetch().instructionRegister == 0xB43C;
    assert Decode(0xB43C) == Some(Jump(4, 0x3C));
  }

  /** Instruction `0xC000` halts the machine; the cycle still succeeds. */
  lemma HaltExample()
    ensures var r := Boot([0xC0]).Cycle();
            r.1 && r.0.halted
  {
    var m := Boot([0xC0]);
    assert m.Fetch().instructionRegister == 0xC000;
  }

  /** Instruction `0xD302` is illegal: the cycle fails and halts. */
  lemma IllegalCycleExample()
    ensures var r := Boot([0xD3, 0x02]).Cycle();
            !r.1 && r.0.halted
  {
    var m := Boot([0xD3, 0x02]);
    assert m.Fetch().instructionRegister == 0xD302;
  }

  /** Running an illegal instruction reports failure and halts. */
  lemma IllegalRunExample(fuel: nat)
    requires fuel >= 1
    ensures var r := Boot([0xD3, 0x02]).Run(fuel);
            r.outcome == Finished(false) && r.final.halted
  {
    var m := Boot([0xD3, 0x02]);
    IllegalCycleExample();
    m.RunStep(true, fuel);
  }

  /** A run whose next cycle executes a halt finishes with that cycle. */
  lemma HaltsNext(m: Machine, last: bool, fuel: nat)
    requires m.Valid() && !m.halted && m.CanFetch() && fuel >= 1
    requires m.Cycle().1 && m.Cycle().0.halted
    ensures m.RunFrom(last, fuel) == RunResult(Finished(true), m.Cycle().0)
  {
    m.RunStep(last, fuel);
  }

  /** The program `14 02 34 17 C0 00`. */
  function StoreProgram(): (m: Machine)
    ensures m.Valid()
  {
    Boot([0x14, 0x02, 0x34, 0x17, 0xC0, 0x00])
  }

  /** The program `14 02 34 17 C0 00` after its first cycle. */
  function StoreAfterLoad(): Machine
  {
    var m := StoreProgram();
    m.(registers := m.registers[4 := 0x34], programCounter := 2, instructionRegister := 0x1402)
  }

  /** The program `14 02 34 17 C0 00` after its second cycle. */
  function StoreAfterStore(): Machine
  {
    var m := StoreAfterLoad();
    m.(memory := m.memory[0x17 := 0x34], programCounter := 4, instructionRegister := 0x3417)
  }

  /** Its first cycle loads the byte at address 2, `0x34`, into register 4. */
  lemma StoreProgramFirst()
    ensures StoreProgram().Cycle() == (StoreAfterLoad(), true)
  {
    var m := StoreProgram();
    assert m.Fetch().instructionRegister == 0x1402;
    assert Decode(0x1402) == Some(LoadAddr(4, 0x02));
  }

  /** Its second cycle stores register 4 at `0x17`. */
  lemma StoreProgramSecond()
    ensures StoreAfterLoad().Cycle() == (StoreAfterStore(), true)
  {
    var m1 := StoreAfterLoad();
    assert m1.Fetch().instructionRegister == 0x3417;
    assert Decode(0x3417) == Some(Store(4, 0x17));
  }

  /** Its third cycle halts. */
  lemma StoreProgramLast()
    ensures var r := StoreAfterStore().Cycle();
            r.1 && r.0.halted && r.0.memory[0x17] == 0x34
  {
    var m2 := StoreAfterStore();
    assert m2.memory[4] == 0xC0 && m2.memory[5] == 0x00;
    assert m2.Fetch().instructionRegister == 0xC000;
  }

  /** The run from the start goes on from the second state. */
  lemma StoreRunAfterLoad(fuel: nat)
    requires fuel >= 1
    ensures StoreProgram().RunFrom(true, fuel) == StoreAfterLoad().RunFrom(true, fuel - 1)
  {
    StoreProgramFirst();
    StoreProgram().RunAfterCycle(true, fuel, StoreAfterLoad(), true);
  }

  /** The run from the second state goes on from the third. */
  lemma StoreRunAfterStore(fuel: nat)
    requires fuel >= 1
    ensures StoreAfterLoad().RunFrom(true, fuel) == StoreAfterStore().RunFrom(true, fuel - 1)
  {
    StoreProgramSecond();
    StoreAfterLoad().RunAfterCycle(true, fuel, StoreAfterStore(), true);
  }

  /** The run from the third state halts on its next cycle. */
  lemma StoreRunHalts(fuel: nat)
    requires fuel >= 1
    ensures var r := StoreAfterStore().RunFrom(true, fuel);
            r.outcome == Finished(true) && r.final.halted && r.final.memory[0x17] == 0x34
  {
    StoreProgramLast();
    HaltsNext(StoreAfterStore(), true, fuel);
  }

  /** The run from the second state stores `0x34` at `0x17` and halts. */
  lemma StoreRunFromLoad(fuel: nat)
    requires fuel >= 2
    ensures var r := StoreAfterLoad().RunFrom(true, fuel);
            r.outcome == Finished(true) && r.final.halted && r.final.memory[0x17] == 0x34
  {
    StoreRunAfterStore(fuel);
    StoreRunHalts(fuel - 1);
  }

  /** The program `14 02 34 17 C0 00` loads the byte at address 2 into
      register 4, stores it at `0x17` and halts. */
  lemma RunExample(fuel: nat)
    requires fuel >= 3
    ensures var r := StoreProgram().Run(fuel);
            r.outcome == Finished(true) && r.final.halted && r.final.memory[0x17] == 0x34
  {
    StoreRunAfterLoad(fuel);
    StoreRunFromLoad(fuel - 1);
  }

  /** The program at `0xB0`, with the data byte `0x0F` at `0xB8`. */
  function RotateProgram(): (m: Machine)
    ensures m.Valid()
  {
    var program: seq<bv8> := [0x13, 0xB8, 0xA3, 0x02, 0x33, 0xB8, 0xC0, 0x00, 0x0F];
    Reset().(memory := Zeros(0xB0) + program + Zeros(256 - 0xB0 - 9), programCounter := 0xB0)
  }

  /** The program at `0xB0` after its first cycle. */
  function RotateAfterLoad(): Machine
  {
    var m := RotateProgram();
    m.(registers := m.registers[3 := 0x0F], programCounter := 0xB2, instructionRegister := 0x13B8)
  }

  /** The program at `0xB0` after its second cycle. */
  function RotateAfterRotate(): Machine
  {
    var m := RotateProgram();
    m.(registers := m.registers[3 := 0xC3], programCounter := 0xB4, instructionRegister := 0xA302)
  }

  /** The program at `0xB0` after its third cycle. */
  function RotateAfterStore(): Machine
  {
    var m := RotateAfterRotate();
    m.(memory := m.memory[0xB8 := 0xC3], programCounter := 0xB6, instructionRegister := 0x33B8)
  }

  /** The first cycle of the program at `0xB0` loads `0x0F` into register 3. */
  lemma RotateProgramFirstCycle()
    ensures RotateProgram().Cycle() == (RotateAfterLoad(), true)
    ensures RotateAfterLoad().registers[3] == 0x0F
  {
    var m := RotateProgram();
    assert m.memory[0xB0] == 0x13 && m.memory[0xB1] == 0xB8 && m.memory[0xB8] == 0x0F;
    assert m.Fetch().instructionRegister == 0x13B8;
    assert Decode(0x13B8) == Some(LoadAddr(3, 0xB8));
  }

  /** The second cycle rotates register 3 right by two places. */
  lemma RotateProgramSecondCycle()
    ensures RotateAfterLoad().Cycle() == (RotateAfterRotate(), true)
  {
    var m1 := RotateAfterLoad();
    assert m1.memory[0xB2] == 0xA3 && m1.memory[0xB3] == 0x02;
    assert m1.Fetch().instructionRegister == 0xA302;
    assert Decode(0xA302) == Some(Rotate(3, 2));
    assert m1.registers[3 := 0xC3] == RotateProgram().registers[3 := 0xC3];
  }

  /** The third cycle stores register 3 back at `0xB8`. */
  lemma RotateProgramThirdCycle()
    ensures RotateAfterRotate().Cycle() == (RotateAfterStore(), true)
  {
    var m2 := RotateAfterRotate();
    assert m2.memory[0xB4] == 0x33 && m2.memory[0xB5] == 0xB8;
    assert m2.Fetch().instructionRegister == 0x33B8;
    assert Decode(0x33B8) == Some(Store(3, 0xB8));
  }

  /** The fourth cycle halts the machine with `0xC3` at `0xB8`. */
  lemma RotateProgramLastCycle()
    ensures var r := RotateAfterStore().Cycle();
            r.1 && r.0.halted && r.0.memory[0xB8] == 0xC3
  {
    var m3 := RotateAfterStore();
    assert m3.memory[0xB6] == 0xC0 && m3.memory[0xB7] == 0x00;
    assert m3.Fetch().instructionRegister == 0xC000;
  }

  /** The run after the second cycle goes on from the third state. */
  lemma RotateRunAfterRotate(fuel: nat)
    requires fuel >= 1
    ensures RotateAfterLoad().RunFrom(true, fuel) == RotateAfterRotate().RunFrom(true, fuel - 1)
  {
    RotateProgramSecondCycle();
    RotateAfterLoad().RunAfterCycle(true, fuel, RotateAfterRotate(), true);
  }

  /** The run after the third cycle goes on from the fourth state. */
  lemma RotateRunAfterStore(fuel: nat)
    requires fuel >= 1
    ensures RotateAfterRotate().RunFrom(true, fuel) == RotateAfterStore().RunFrom(true, fuel - 1)
  {
    RotateProgramThirdCycle();
    RotateAfterRotate().RunAfterCycle(true, fuel, RotateAfterStore(), true);
  }

  /** The run from the fourth state halts on its next cycle. */
  lemma RotateRunHalts(fuel: nat)
    requires fuel >= 1
    ensures var r := RotateAfterStore().RunFrom(true, fuel);
            r.outcome == Finished(true) && r.final.halted && r.final.memory[0xB8] == 0xC3
  {
    RotateProgramLastCycle();
    HaltsNext(RotateAfterStore(), true, fuel);
  }

  /** The run from the third state stores `0xC3` at `0xB8` and halts. */
  lemma RotateRunFromRotate(fuel: nat)
    requires fuel >= 2
    ensures var r := RotateAfterRotate().RunFrom(true, fuel);
            r.outcome == Finished(true) && r.final.halted && r.final.memory[0xB8] == 0xC3
  {
    RotateRunAfterStore(fuel);
    RotateRunHalts(fuel - 1);
  }

  /** From the state its first cycle leaves (see `RotateProgramFirstCycle`),
      the program at `0xB0` runs on to leave `0xC3` at `0xB8` and halt. */
  lemma RotateProgramRun(fuel: nat)
    requires fuel >= 3
    ensures var r := RotateAfterLoad().Run(fuel);
            r.outcome == Finished(true) && r.final.halted && r.final.memory[0xB8] == 0xC3
  {
    RotateRunAfterRotate(fuel);
    RotateRunFromRotate(fuel - 1);
  }
}
