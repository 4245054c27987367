# Vole machine in Dafny

This is a model of the core of the `vole-rs` crate. It covers:

- **The Vole machine:** sixteen 8-bit registers, 256 bytes of memory, a
  program counter, a 16-bit instruction register and a halted flag. It runs
  the twelve instructions of the Vole instruction set.
- **The 8-bit floating-point format** that the machine's floating-point add
  uses: one sign bit, a 3-bit exponent stored with a bias of 4, and a 4-bit
  mantissa.
- **The earlier prototype of the same machine** that the crate still ships
  in its library root. That prototype has no instruction register, runs one
  `step` at a time, never moves the program counter on, and adds floats as
  integers.

Modules:

- `Wrappers`: the `Option` type.
- `Floating` (`floating.dfy`): the byte format.
  - The getters.
  - `Value`, a closed-form reading of a byte (±mantissa·2^(exponent−4)).
  - `Decode`, the decoding loop, proved to compute `Value`.
  - `Encoding`, a reference definition of what the encoder produces. The
    value is cut to whole 1/32 steps, held at 7 for the whole part, and its
    leading bit picks the exponent.
  - `Encode`, the encoder's exponent ladder and greedy mantissa loop,
    proved to compute `Encoding`.
  - The encoder's properties: where the kept value sits relative to the
    input, its behaviour above 8, the round trip of canonical bytes, and
    idempotence.
- `Vole` (`vole.dfy`):
  - The instruction fields, and `Decode` with a round trip against an
    assembler.
  - The byte operations.
  - A datatype `Machine` whose member functions specify fetch, execute,
    cycle and run.
  - A class `Cpu`: the machine in place, with its registers and memory held
    in arrays. Each method is proved to leave the state that the matching
    `Machine` function gives.
- `Legacy` (`legacy.dfy`): the prototype, built the same way (a value-level
  `Machine` and a class `Cpu`). It reuses the engine's `OpCode` datatype, and
  lemmas tie it to the engine where the two agree.
- `FloatingTests`, `VoleTests` and `LegacyTests`: the crate's unit tests,
  restated as lemmas about the model.

Numbers:

- Bytes are `bv8` and instructions `bv16`, so the integer add wraps modulo
  256.
- The program counter is a `nat`. A fetch needs `pc + 1 < 256`, the bound the
  source's array indexing checks.
- Floats are Dafny `real`s. The machine only ever encodes the sum of two
  decoded bytes: a multiple of 1/256 whose magnitude is at most 15. An `f32`
  holds such a sum exactly, so exact reals give the same encoder decisions.

The encoder keeps five binary fraction digits, so its step is 1/32, and it
always normalises the mantissa. A nonzero byte therefore survives decoding
and re-encoding exactly when its mantissa is normalised (8 or more) and its
value is a multiple of 1/32; `Floating.SurvivesIffCanonical` states this as
an if-and-only-if over the `Canonical` bytes. Bytes below 1/4 with low
mantissa bits set, and every byte with a mantissa below 8, come back
changed: `0x19` (0.0703125) re-encodes as `0x18`, `0x29` (0.140625) as
`0x28`, and `0x74` (2.0) as `0x68`.

The `volerup` front end displays a `cpu.cycle` field
(volerup/src/view.rs:157) that the `Cpu` of `vole.rs` does not define, so
the model has no cycle counter.

## Model

| member | source | states |
|---|---|---|
| Floating.SignBit | vole-rs/src/floating.rs:9-11 | the sign bit is 0 or 1, and it is 1 exactly for bytes of 128 and above |
| Floating.Exponent | vole-rs/src/floating.rs:14-27 | the exponent is the 3-bit field minus 4, so it lies in −4..3; the panic arm cannot be reached |
| Floating.Mantissa | vole-rs/src/floating.rs:30-32 | the mantissa is the low four bits: below 16 and equal to the byte mod 16 |
| Floating.Value | vole-rs/src/floating.rs:35-62 | a byte's magnitude is at most 7.5, and a negative value has the sign bit set |
| Floating.MagnitudeBound | vole-rs/src/floating.rs:35-62 | every byte's magnitude lies in 0..7.5 |
| Floating.Decode | vole-rs/src/floating.rs:35-62 | the integer-part shift plus the loop summing fraction bits yields exactly ±mantissa·2^(exponent−4) |
| Floating.SplitMantissa | vole-rs/src/floating.rs:39-48 | the integer part and the masked fraction bits together make up the mantissa split at `4 - exponent` |
| Floating.SumStep | vole-rs/src/floating.rs:50-56 | each loop step adds the next fraction bit at its weight 1/2^i to the sum of the bits already consumed |
| Floating.Truncate | vole-rs/src/floating.rs:67 | the integer cast truncates toward zero: the result is within 1 of the input, below it in magnitude, and of the same sign |
| Floating.TruncateParts | vole-rs/src/floating.rs:67-68 | the absolute integer part and fractional part are floor(&#124;v&#124;) and &#124;v&#124; − floor(&#124;v&#124;) |
| Floating.HighBit | vole-rs/src/floating.rs:70-88 | the exponent code is the position of the highest set bit: 2^p ≤ n < 2^(p+1) |
| Floating.ExponentCode | vole-rs/src/floating.rs:70-88 | the if-ladder on the integer and fractional parts picks the highest set bit of the 1/32-step count |
| Floating.IntegerExponent | vole-rs/src/floating.rs:70-75 | for values of 1 and above, the integer ladder matches the step count's highest bit |
| Floating.FractionExponent | vole-rs/src/floating.rs:76-83 | for fractions from 1/16 up, the fraction ladder matches the step count's highest bit |
| Floating.SetBit | vole-rs/src/floating.rs:95-132 | setting a fresh lower bit adds its weight, keeps the bits below it clear, and makes the shift the smaller of the two |
| Floating.CollectBit | vole-rs/src/floating.rs:95-132 | one greedy step keeps bits + 32·remainder unchanged and leaves the remainder below the step's weight |
| Floating.CollectedSteps | vole-rs/src/floating.rs:90-132 | once the remainder is below 1/32, the collected bits are the step count of min(int, 7) + fraction |
| Floating.AlignMantissa | vole-rs/src/floating.rs:133 | shifting the collected bits left to bit 7 and then right by 4 leaves the top four bits of the step count |
| Floating.MantissaBits | vole-rs/src/floating.rs:90-134 | the greedy mantissa loop returns the four leading bits of the step count |
| Floating.Pack | vole-rs/src/floating.rs:136-138 | the byte with the sign in bit 7, the exponent code in bits 6-4 and the mantissa in bits 3-0; `PackFields` and `UnpackFields` are its partners |
| Floating.PackFields | vole-rs/src/floating.rs:136-139 | packing a sign, an exponent code and a mantissa within their widths reads back field by field |
| Floating.UnpackFields | vole-rs/src/floating.rs:9-32 | every byte is the packing of its own sign, exponent code and mantissa |
| Floating.EncodeAssembles | vole-rs/src/floating.rs:136-139 | the source's shift-and-or packing of the three computed fields is the reference encoding |
| Floating.Encoding | vole-rs/src/floating.rs:65-139 | the reference encoder: the sign of v, and the exponent and mantissa that normalise the count of 1/32 steps in min(integer part of &#124;v&#124;, 7) plus its fraction; its meaning is stated by the lemmas below |
| Floating.Encode | vole-rs/src/floating.rs:65-140 | for &#124;value&#124; < 128, the encoder returns the reference encoding |
| Floating.EncodingFields | vole-rs/src/floating.rs:65-139 | the sign bit is set iff the value is negative; the exponent code is the highest bit of the step count; the mantissa is its top four bits |
| Floating.StepsBelowEight | vole-rs/src/floating.rs:67-132 | below 8, the step count is floor(32·&#124;v&#124;) |
| Floating.EncodingTruncates | vole-rs/src/floating.rs:65-139 | below 8: the right sign, the kept magnitude at most &#124;v&#124; and within one unit (1/2^min(4−e, 5)) of it, and a normalised mantissa or zero |
| Floating.EncodingSaturates | vole-rs/src/floating.rs:65-139 | for 8 ≤ &#124;v&#124; < 128, the result has exponent 3 and stands for 7 or 7.5 with the input's sign |
| Floating.ZeroEncoding | vole-rs/src/floating.rs:232-233 | zero encodes as the byte 0 |
| Floating.EncodingOfValue | vole-rs/src/floating.rs:35-139 | encoding a canonical byte's value gives back that byte |
| Floating.EncodingCanonical | vole-rs/src/floating.rs:65-139 | every encoding is canonical or is negative zero `0x80` |
| Floating.EncodingIdempotent | vole-rs/src/floating.rs:35-139 | decoding and re-encoding an encoding changes nothing, except that `0x80` becomes 0 |
| Floating.SurvivesIffCanonical | vole-rs/src/floating.rs:35-139 | a byte comes back unchanged from decoding and re-encoding iff it is canonical |
| FloatingTests.FieldExamples | vole-rs/src/floating.rs:147-166 | sign of `0x80` and `0x70`, exponent of `0x70`, mantissa of `0x0A` |
| FloatingTests.DecodeExamples | vole-rs/src/floating.rs:168-193 | the eight decoded values of the decode test |
| FloatingTests.ExactExample | vole-rs/src/floating.rs:196-215 | a value that a canonical byte stands for encodes to that byte and decodes back |
| FloatingTests.EncodeMinusNineEighthsExample | vole-rs/src/floating.rs:197-199 | −1.125 encodes to `0xD9`, which decodes to −1.125 |
| FloatingTests.EncodeNineEighthsExample | vole-rs/src/floating.rs:201-203 | 1.125 encodes to `0x59`, which decodes to 1.125 |
| FloatingTests.EncodeEighthExample | vole-rs/src/floating.rs:205-207 | 0.125 encodes with exponent −2 and decodes to 0.125 |
| FloatingTests.EncodeHalfExample | vole-rs/src/floating.rs:209-211 | 0.525 encodes with exponent 0 and decodes to 0.5 |
| FloatingTests.EncodeThreeEighthsExample | vole-rs/src/floating.rs:213-215 | 0.375 encodes to `0x3C` and decodes back |
| FloatingTests.EncodeElevenQuartersExample | vole-rs/src/floating.rs:217-218 | 2.75 encodes to `0x6B` |
| FloatingTests.EncodeFiveExample | vole-rs/src/floating.rs:220-221 | 5.25 encodes to `0x7A` |
| FloatingTests.EncodeThreeQuartersExample | vole-rs/src/floating.rs:223-224 | 0.75 encodes to `0x4C` |
| FloatingTests.EncodeMinusSevenHalvesExample | vole-rs/src/floating.rs:226-227 | −3.5 encodes to `0xEE` |
| FloatingTests.EncodeFourExample | vole-rs/src/floating.rs:229-230 | −4.375 encodes to `0xF8` |
| FloatingTests.OffGridExample | vole-rs/src/floating.rs:35-139 | `0x19` decodes to 0.0703125, and that value encodes to `0x18` |
| FloatingTests.OffGridEighthExample | vole-rs/src/floating.rs:35-139 | `0x29` decodes to 0.140625, and that value encodes to `0x28` |
| FloatingTests.UnnormalisedExample | vole-rs/src/floating.rs:35-139 | `0x74` decodes to 2.0, and that value encodes to `0x68` |
| Vole.OpcodeBits | vole-rs/src/vole.rs:42-44 | the opcode is the top nibble of the instruction |
| Vole.Operand1Bits | vole-rs/src/vole.rs:46-48 | the first operand is the second nibble |
| Vole.Operand2Bits | vole-rs/src/vole.rs:50-52 | the second operand is the third nibble |
| Vole.Operand3Bits | vole-rs/src/vole.rs:54-56 | the third operand is the low nibble |
| Vole.Operand23Bits | vole-rs/src/vole.rs:58-60 | the low byte is operand 2 above operand 3 |
| Vole.OperandBits | vole-rs/src/vole.rs:62-64 | the 12 operand bits are operand 1 above the low byte |
| Vole.InstructionFields | vole-rs/src/vole.rs:42-64 | the opcode and operand fields put back together give the instruction |
| Vole.NibblesOfWord | vole-rs/src/vole.rs:42-64 | splitting a word built from four nibbles gives back the nibbles |
| Vole.WordOfNibbles | vole-rs/src/vole.rs:42-64 | building a word from an instruction's nibbles gives back the instruction |
| Vole.Decode | vole-rs/src/vole.rs:66-125 | decoding succeeds iff the opcode nibble is 1..12; the opcode has in-range fields and that nibble as its code |
| Vole.DecodeAssemble | vole-rs/src/vole.rs:66-125 | decoding an assembled opcode gives the opcode back |
| Vole.AssembleDecode | vole-rs/src/vole.rs:66-125 | assembling a decoded instruction gives back the instruction's bits that the opcode reads; the others read as 0 |
| Vole.WrappingAdd | vole-rs/src/vole.rs:144-151 | the 8-bit sum is the low byte of the full sum, and equals it whenever it fits |
| Vole.FloatAdd | vole-rs/src/vole.rs:152-166 | the sum byte has the sign of the real sum and a magnitude no larger |
| Vole.SumBounded | vole-rs/src/vole.rs:152-166 | a sum of two decoded bytes is at most 15 in magnitude, inside the encoder's range |
| Vole.FloatAddExact | vole-rs/src/vole.rs:152-166 | when a canonical byte stands for the sum exactly, the float add returns it |
| Vole.FloatSumRounds | vole-rs/src/vole.rs:152-166 | encoding a sum within 15 keeps its sign and rounds its magnitude down |
| Vole.BitOr | vole-rs/src/vole.rs:167-174 | each result bit is the or of the operand bits |
| Vole.BitAnd | vole-rs/src/vole.rs:175-182 | each result bit is the and of the operand bits |
| Vole.BitXor | vole-rs/src/vole.rs:183-190 | each result bit differs iff exactly one operand bit is set |
| Vole.Rotated | vole-rs/src/vole.rs:191-194 | rotating right by t puts bit (i + t) mod 8 at position i |
| Vole.Machine.Fetch | vole-rs/src/vole.rs:34-40 | the instruction register becomes the big-endian word at pc, pc + 1; nothing else changes |
| Vole.Machine.Written | vole-rs/src/vole.rs:128-194 | the byte an instruction with a target register writes: the loaded byte, the value, the copied register, or the result of the byte operation on the two source registers |
| Vole.Machine.JumpTarget | vole-rs/src/vole.rs:195-199 | the byte stored at the jump's address when register 0 equals the jump's register, otherwise the unchanged pc |
| Vole.Machine.Effect | vole-rs/src/vole.rs:128-203 | the match of execute before pc moves on, one arm per instruction; `EffectFrame` states what each arm changes |
| Vole.Machine.Execute | vole-rs/src/vole.rs:127-209 | execute keeps the machine well formed; `ExecuteFrame` states its whole effect |
| Vole.Machine.ExecuteFrame | vole-rs/src/vole.rs:127-209 | executing writes only the target register, or the stored byte, or the halted flag; pc moves on by 2 except for a jump; a jump goes to the byte at its address iff register 0 equals its register |
| Vole.Machine.EffectFrame | vole-rs/src/vole.rs:128-203 | per instruction kind: what each arm changes, with the register or memory update written out |
| Vole.Machine.RegisterEffect | vole-rs/src/vole.rs:128-194 | an instruction with a target register changes exactly that register, to the value it computes |
| Vole.Machine.Cycle | vole-rs/src/vole.rs:213-222 | a cycle fetches; on a legal instruction it executes and reports true; otherwise it halts, changes nothing else and reports false |
| Vole.Machine.RunFrom | vole-rs/src/vole.rs:226-232 | a run finishes exactly when it ends halted, on a halt instruction when it reports true and an illegal one when false; it stops early only with the pc out of range |
| Vole.Machine.RunOn | vole-rs/src/vole.rs:226-232 | a run of a going machine with fuel left: one cycle, then the rest of the loop; the same outcome guarantees as `RunFrom` |
| Vole.Machine.Run | vole-rs/src/vole.rs:226-232 | a run that reports true ended on a halt; one that reports false ended on an illegal instruction |
| Vole.RunFuelMonotone | vole-rs/src/vole.rs:226-232 | extra cycles do not change a run that already ended |
| Vole.UntakenJumpRepeats | vole-rs/src/vole.rs:195-199 | a jump whose registers differ leaves pc in place, so the run never halts |
| Vole.Zeros | vole-rs/src/vole.rs:15-23 | a zero-filled sequence of the given length |
| Vole.Reset | vole-rs/src/vole.rs:15-23 | a new machine is zeroed, not halted, with pc 0 |
| Vole.Loaded | vole-rs/src/vole.rs:25-32 | loading fails iff the program exceeds 256 bytes; otherwise memory holds the program followed by zeros |
| Vole.Cpu.constructor | vole-rs/src/vole.rs:15-23 | the new machine's state is `Reset()`, in fresh arrays |
| Vole.Cpu.Init | vole-rs/src/vole.rs:25-32 | the loaded state is `Loaded(program)`, in fresh arrays |
| Vole.Cpu.Fetch | vole-rs/src/vole.rs:34-40 | the new state is `Machine.Fetch` of the old |
| Vole.Cpu.Execute | vole-rs/src/vole.rs:127-209 | the new state is `Machine.Execute` of the old |
| Vole.Cpu.Apply | vole-rs/src/vole.rs:128-203 | the in-place match leaves the per-instruction effect before pc moves |
| Vole.Cpu.Compute | vole-rs/src/vole.rs:128-194 | the computed byte is the value the instruction writes to its target |
| Vole.Cpu.Transfer | vole-rs/src/vole.rs:128-143 | load and move compute the byte they write |
| Vole.Cpu.Arithmetic | vole-rs/src/vole.rs:144-194 | the integer add, float add and rotate compute the byte they write |
| Vole.Cpu.Logic | vole-rs/src/vole.rs:167-190 | or, and and xor compute the byte they write |
| Vole.Cpu.FloatSum | vole-rs/src/vole.rs:152-166 | the in-place decode, add and encode give `FloatAdd` |
| Vole.Cpu.SetRegister | vole-rs/src/vole.rs:129-194 | writing one register in place changes exactly that register of the state |
| Vole.Cpu.SetMemory | vole-rs/src/vole.rs:135-137 | writing one memory byte in place changes exactly that byte of the state |
| Vole.Cpu.Cycle | vole-rs/src/vole.rs:213-222 | the new state and the result are `Machine.Cycle` of the old state |
| Vole.Cpu.Advance | vole-rs/src/vole.rs:226-232 | one loop iteration keeps the run from the current state unchanged |
| Vole.Cpu.Run | vole-rs/src/vole.rs:226-232 | the loop's result and final state are `Machine.Run` of the old state |
| VoleTests.LoadAddrExample | vole-rs/src/vole.rs:314-321 | `0x14A3` loads the byte at `0xA3` into register 4 |
| VoleTests.LoadValueExample | vole-rs/src/vole.rs:323-329 | `0x20A3` puts `0xA3` into register 0 |
| VoleTests.StoreExample | vole-rs/src/vole.rs:331-338 | `0x35B1` stores register 5 at `0xB1` |
| VoleTests.MoveExample | vole-rs/src/vole.rs:340-347 | `0x40A4` copies register `0xA` into register 4 |
| VoleTests.AddIntExample | vole-rs/src/vole.rs:349-357 | `0x5726` adds registers 2 and 6 into register 7 |
| VoleTests.AddFloatExample | vole-rs/src/vole.rs:359-367 | `0x634E` float-adds registers 4 and `0xE` into register 3 |
| VoleTests.OrExample | vole-rs/src/vole.rs:369-377 | `0x7CB4` ors registers `0xB` and 4 into register `0xC` |
| VoleTests.AndExample | vole-rs/src/vole.rs:379-387 | `0x8045` ands registers 4 and 5 into register 0 |
| VoleTests.XorExample | vole-rs/src/vole.rs:389-397 | `0x95F3` xors registers `0xF` and 3 into register 5 |
| VoleTests.RotateExample | vole-rs/src/vole.rs:399-406 | `0xA403` rotates register 4 right by three |
| VoleTests.JumpExample | vole-rs/src/vole.rs:408-417 | `0xB43C` jumps, with registers 0 and 4 equal |
| VoleTests.HaltExample | vole-rs/src/vole.rs:419-425 | `0xC000` halts, reporting a legal cycle |
| VoleTests.RunExample | vole-rs/src/vole.rs:427-434 | the store program runs to a halt, reports true and leaves `0x34` at `0x17` |
| VoleTests.RotateProgramFirstCycle | vole-rs/src/vole.rs:436-446 | the first cycle of the program at `0xB0` loads `0x0F` into register 3 |
| VoleTests.RotateProgramRun | vole-rs/src/vole.rs:436-449 | the program at `0xB0` runs on to a halt, reports true and leaves `0xC3` at `0xB8` |
| VoleTests.IllegalCycleExample | vole-rs/src/vole.rs:451-457 | the illegal `0xD302` fails its cycle and halts |
| VoleTests.IllegalRunExample | vole-rs/src/vole.rs:459-465 | a run into `0xD302` reports false and halts |
| Legacy.Instruction.OpcodeBits | vole-rs/src/lib.rs:183-185 | the prototype's opcode getter is the top nibble, the engine's getter |
| Legacy.Instruction.Operand1Bits | vole-rs/src/lib.rs:187-189 | the second nibble, as in the engine |
| Legacy.Instruction.Operand2Bits | vole-rs/src/lib.rs:191-193 | the third nibble, as in the engine |
| Legacy.Instruction.Operand3Bits | vole-rs/src/lib.rs:195-197 | the low nibble, as in the engine |
| Legacy.Instruction.Operand23Bits | vole-rs/src/lib.rs:199-201 | operand 2 above operand 3, as in the engine |
| Legacy.Instruction.OperandBits | vole-rs/src/lib.rs:203-205 | the 12 operand bits, as in the engine |
| Legacy.Decodable | vole-rs/src/lib.rs:26-84 | the instructions the prototype's decode handles: opcode nibble 1..12; every other nibble reaches `todo!()` at lib.rs:82 |
| Legacy.Decode | vole-rs/src/lib.rs:26-84 | a decodable instruction yields an opcode with in-range fields whose code is the opcode nibble |
| Legacy.DecodeAgrees | vole-rs/src/lib.rs:26-84 | the prototype decodes exactly the instructions the engine decodes, to the same opcode |
| Legacy.DecodeAssembled | vole-rs/src/lib.rs:26-84 | the prototype decodes an assembled opcode back to itself |
| Legacy.Machine.Fetch | vole-rs/src/lib.rs:18-24 | the fetched word is the big-endian pair at pc, pc + 1 |
| Legacy.Machine.Written | vole-rs/src/lib.rs:88-152 | the byte an instruction with a target register writes on the prototype, the float add being the integer add |
| Legacy.Machine.Execute | vole-rs/src/lib.rs:86-163 | the prototype's match, with no pc advance; `ExecuteFrame` and `ExecuteIsEffect` state its effect |
| Legacy.Machine.Step | vole-rs/src/lib.rs:165-169 | fetch, decode and execute keep the machine well formed; `StepRefetches` states where it leaves pc |
| Legacy.Machine.ExecuteIsEffect | vole-rs/src/lib.rs:86-163 | apart from the float add, the prototype executes like the engine, but without moving pc on |
| Legacy.Machine.AddFloatIsAddInt | vole-rs/src/lib.rs:104-121 | the prototype's float add is its integer add |
| Legacy.Machine.ExecuteFrame | vole-rs/src/lib.rs:86-163 | pc only changes on a taken jump, to the byte at its address; only the target register, the stored byte or the halted flag change |
| Legacy.Machine.RegisterExecute | vole-rs/src/lib.rs:88-152 | an instruction with a target register changes exactly that register |
| Legacy.Machine.StepRefetches | vole-rs/src/lib.rs:165-169 | apart from a jump, or a store over the instruction itself, a step leaves pc in place, so the next step fetches the same instruction |
| Legacy.Reset | vole-rs/src/lib.rs:9-16 | a new prototype is zeroed, not halted, with pc 0 |
| Legacy.Cpu.constructor | vole-rs/src/lib.rs:9-16 | the new prototype's state is `Reset()`, in fresh arrays |
| Legacy.Cpu.Fetch | vole-rs/src/lib.rs:18-24 | the fetched instruction is `Machine.Fetch` of the state |
| Legacy.Cpu.Execute | vole-rs/src/lib.rs:86-163 | the new state is `Machine.Execute` of the old |
| Legacy.Cpu.Compute | vole-rs/src/lib.rs:88-152 | the computed byte is the value the instruction writes to its target |
| Legacy.Cpu.Transfer | vole-rs/src/lib.rs:88-103 | load and move compute the byte they write |
| Legacy.Cpu.Arithmetic | vole-rs/src/lib.rs:104-152 | both adds and rotate compute the byte they write |
| Legacy.Cpu.Logic | vole-rs/src/lib.rs:122-148 | or, and and xor compute the byte they write |
| Legacy.Cpu.SetRegister | vole-rs/src/lib.rs:88-152 | writing one register in place changes exactly that register of the state |
| Legacy.Cpu.SetMemory | vole-rs/src/lib.rs:94-96 | writing one memory byte in place changes exactly that byte of the state |
| Legacy.Cpu.Step | vole-rs/src/lib.rs:165-169 | the new state is `Machine.Step` of the old |
| LegacyTests.FieldsExample | vole-rs/src/lib.rs:227-237 | `0x1234` has opcode 1 and operand bits `0x234` |
| LegacyTests.LoadAddrExample | vole-rs/src/lib.rs:239-247 | `0x14A3` loads the byte at `0xA3` into register 4 and leaves pc at 0 |
| LegacyTests.LoadValueExample | vole-rs/src/lib.rs:249-256 | `0x20A3` puts `0xA3` into register 0 |
| LegacyTests.StoreExample | vole-rs/src/lib.rs:258-266 | `0x35B1` stores register 5 at `0xB1` |
| LegacyTests.MoveExample | vole-rs/src/lib.rs:268-276 | `0x40A4` copies register `0xA` into register 4 |
| LegacyTests.AddIntExample | vole-rs/src/lib.rs:278-287 | `0x5726` adds 3 and 5 into register 7 |
| LegacyTests.AddFloatExample | vole-rs/src/lib.rs:289-298 | `0x634E` adds 3 and 5 as integers into register 3 |
| LegacyTests.OrExample | vole-rs/src/lib.rs:300-309 | `0x7CB4` gives `0xFF` |
| LegacyTests.AndExample | vole-rs/src/lib.rs:311-320 | `0x8045` gives `0x01` |
| LegacyTests.XorExample | vole-rs/src/lib.rs:322-331 | `0x95F3` gives `0xF6` |
| LegacyTests.RotateExample | vole-rs/src/lib.rs:333-341 | `0xA403` rotates 7 to `0xE0` |
| LegacyTests.JumpExample | vole-rs/src/lib.rs:343-353 | `0xB43C` sets pc to the byte at `0x3C` |
| LegacyTests.HaltExample | vole-rs/src/lib.rs:355-361 | `0xC000` halts |

## Left out

- The user-interface crates that drive the machine are not part of this model, and neither is any printing.
- The `Display` formatting of opcodes and the `Default` implementations, which only call the constructors, are not modelled.
- `Floating.Encode`: only |value| < 128 is modelled. There the integer cast cannot saturate or overflow its absolute value. NaN and infinities are left out too. Every value the machine encodes is within 15.
- `Floating.Decode`: computes with exact reals, not `f32`. Every sum in the loop is a multiple of 1/256 below 16, which `f32` holds exactly.
- `Vole.WrappingAdd`: the integer add wraps modulo 256, as a release build does. A debug build panics on overflow, which is not modelled.
- `Vole.Machine.Run`: takes a fuel bound. A program that never halts ends the source's loop never; here it ends with `OutOfFuel`. `VoleTests.RunExample`, `VoleTests.RotateProgramRun` and `Vole.UntakenJumpRepeats` are stated for every fuel.
- `Vole.Cpu.Run`: the same fuel bound.
- A fetch with the program counter at 255 or beyond panics in the source. The model requires `CanFetch` instead, and a run in that state stops with `PcOutOfRange`.
- `Vole.Cpu.Init`: requires a program of at most 256 bytes, where the source panics. `Vole.Loaded` models the panic as `None`.
- `Legacy.Decode`: requires an opcode nibble of 1..12, where the source reaches `todo!()`. `Legacy.Decodable` says which instructions these are.
- `Legacy.Cpu.Step`: requires a fetchable, decodable instruction, where the source panics.
- `Legacy.Machine.Step`: states only that the next state is well formed. `Legacy.Machine.ExecuteFrame`, `Legacy.Machine.StepRefetches` and `Legacy.Cpu.Step` state what it does.
- The prototype's float add is its integer add, as its code reads. `Legacy.Machine.AddFloatIsAddInt` states this.
- No cycle counter is modelled: the front end reads `cpu.cycle` (volerup/src/view.rs:157), but the engine's `Cpu` has no such field.
