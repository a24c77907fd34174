# Game Boy CPU core: register bank and ADD

A Dafny model of a small Game Boy (Sharp LR35902) CPU core. The model has three parts:

- the register bank: eight byte cells A, B, C, D, E, F, H, L, a write that validates F, and the 16-bit views BC, DE and HL;
- the instruction vocabulary: `ArithmeticTarget`, which has seven members, and `Instruction`, whose one variant is `Add(target)`;
- the execution engine: `Cpu.exec`, which dispatches `Add(target)` to `add`; `add` does an overflowing 8-bit add into A and sets the Z, N, H and C flags.

Files:

- `registers.dfy` (module `Registers`) covers `src/register_bank.rs`. A `Bank` datatype is a snapshot of the eight cells. Specification functions on snapshots describe every operation: `Get`, `Write`, `BC`/`WithBC` and the others, `Has` and `SetFlag`. The class `RegisterBank` holds the eight cells as fields, and its methods are proved to agree with those functions.
- `instructions.dfy` (module `Instructions`) covers `src/instruction.rs`.
- `cpu.dfy` (module `Execution`) covers `src/cpu.rs`. `Step(s, ins)` and `AddStep(s, r)` describe one instruction as a transition from one snapshot to the next. The class `Cpu` performs the same transition in place on its `RegisterBank`, and its `Exec` and `Add` are proved equal to `Step` and `AddStep`.

Bytes and words are integers in `0..255` and `0..65535`. The bit operations of the source are written out as arithmetic:

- `v & 0xF0` is `v - v % 16`;
- `(hi as u16) << 8 | lo as u16` is `hi * 256 + lo`;
- `(w >> 8) as u8` is `w / 256`;
- the truncating `w as u8` is `w % 256`;
- `overflowing_add` returns the sum modulo 256 and whether `x + y > 255`;
- a flag bit is `f / mask % 2`.

The source calls the flag setters `set_zero_bit`, `set_subtraction_bit`, `set_carry_bit` and `set_half_carry_bit`, but does not define them. The model supplies them using the layout from Pan Docs, "CPU Registers and Flags": Z is bit 7, N is bit 6, H is bit 5 and C is bit 4. Each setter is proved to change its own bit and no other bit of F.

The F validation is modelled as the code has it, not as its comment says. `write_register(F, v)` rejects `v` when `v & 0xF0 > 0`, so it accepts exactly the values 0 to 15. The comment at `src/register_bank.rs:56` says only the top four bits are writable, and the flags live in those bits. So the intended rule is evidently to reject a value whose low nibble is non-zero, with the mask `0x0F`. As coded, `0xF0` is rejected and `0x0F` accepted, and a flag byte that the setters produce, with any flag set, cannot be written back through `write_register`. `FlagValidationRejectsFlags` states this. Where the comment and the code disagree, the model follows the code.

The unwrap of the write-back to A is modelled as a proved assertion. In `AddStep`, taking `.value` of the write's result is allowed only because the write is proved to succeed. In `Cpu.Add`, `assert written.Ok?` does the same job. So the panic cannot happen.

## Model

| member | source | states |
|---|---|---|
| `Registers.Zeroed` | src/register_bank.rs:1-12 | the default bank has every one of the eight registers equal to 0 |
| `Registers.Get` | src/register_bank.rs:35-46 | total over the eight registers; for each register, including F, the byte read is the one that leaves the bank unchanged when stored back into that register's own cell, so the read returns exactly that cell |
| `Registers.ReadsDetermineBank` | src/register_bank.rs:35-46 | the eight reads determine the bank: a bank rebuilt from them is the bank that was read |
| `Registers.ReadThenWriteBack` | src/register_bank.rs:35-66 | writing back the byte just read returns Ok with the bank unchanged, except for an F byte that the validation rejects, where the write returns `InvalidFlagValue` |
| `Registers.FlagValueAccepted` | src/register_bank.rs:57 | `!(v & 0xF0 > 0)` holds exactly for the bytes below 16 |
| `Registers.UpperNibble` | src/register_bank.rs:57 | `v & 0xF0` is a multiple of 16 that lies within 15 below `v` |
| `Registers.Write` | src/register_bank.rs:48-66 | returns Ok iff the register is not F or the value is below 16; the error is `InvalidFlagValue`; on Ok, the named cell holds the value and the other seven keep their old values |
| `Registers.BC` | src/register_bank.rs:69-71 | the word read from BC has high byte B and low byte C |
| `Registers.DE` | src/register_bank.rs:80-82 | the word read from DE has high byte D and low byte E |
| `Registers.HL` | src/register_bank.rs:89-91 | the word read from HL has high byte H and low byte L |
| `Registers.WithBC` | src/register_bank.rs:73-78 | after writing a word to BC, reading BC gives it back; only B and C change |
| `Registers.WithDE` | src/register_bank.rs:84-87 | after writing a word to DE, reading DE gives it back; only D and E change |
| `Registers.WithHL` | src/register_bank.rs:93-96 | after writing a word to HL, reading HL gives it back; only H and L change |
| `Registers.WriteThenRead` | src/register_bank.rs:48-66 | for every register other than F and every byte, the write returns Ok and reading the register afterwards gives the byte |
| `Registers.WriteFlagRegister` | src/register_bank.rs:55-61 | writing F fails iff the value is 16 or more (a bit of `0xF0` is set); on success F is exactly the value and nothing else changes |
| `Registers.WriteOnlyChangesTarget` | src/register_bank.rs:48-66 | a successful write leaves the other seven registers unchanged |
| `Registers.PairWriteThenRead` | src/register_bank.rs:69-96 | after writing a word to BC, DE or HL, reading the pair gives the word; the first register holds `w / 256` and the second `w % 256`; the other six registers are unchanged |
| `Registers.PairReadThenWrite` | src/register_bank.rs:69-96 | writing back the word just read from BC, DE or HL leaves the bank unchanged |
| `Registers.SetFlag` | src/cpu.rs:33-38 | a setter makes its flag equal to the requested value, leaves the other three flags as they were, and leaves the low nibble of F unchanged |
| `Registers.FlagByteDeterminedByFlags` | src/cpu.rs:33-38 | the four flags and the low nibble of F together determine F |
| `Registers.FlagBits` | src/cpu.rs:33-38 | every byte is the sum of its Z, N, H and C bits and its low nibble; the weights 128, 64, 32 and 16 are the Pan Docs layout that the setters use |
| `Registers.FlagValidationRejectsFlags` | src/register_bank.rs:56-58 | as coded, F rejects `0xF0` and accepts `0x0F`, and any flag byte with a flag set is rejected |
| `Registers.RegisterBank.constructor` | src/register_bank.rs:1-12 | a new bank's snapshot is the all-zero bank |
| `Registers.RegisterBank.Read` | src/register_bank.rs:35-46 | total; returns the field the register names |
| `Registers.RegisterBank.WriteRegister` | src/register_bank.rs:48-66 | returns Ok exactly when `Write` succeeds, and the bank becomes `Write`'s result; on Err (F only) it returns `InvalidFlagValue` and no field changes |
| `Registers.RegisterBank.ReadBC` | src/register_bank.rs:69-71 | the high byte of the result is B and the low byte is C |
| `Registers.RegisterBank.WriteBC` | src/register_bank.rs:73-78 | B gets the high byte and C the low byte of the word; the other six fields are unchanged |
| `Registers.RegisterBank.ReadDE` | src/register_bank.rs:80-82 | the high byte of the result is D and the low byte is E |
| `Registers.RegisterBank.WriteDE` | src/register_bank.rs:84-87 | D gets the high byte and E the low byte; the other six fields are unchanged |
| `Registers.RegisterBank.ReadHL` | src/register_bank.rs:89-91 | the high byte of the result is H and the low byte is L |
| `Registers.RegisterBank.WriteHL` | src/register_bank.rs:93-96 | H gets the high byte and L the low byte; the other six fields are unchanged |
| `Registers.RegisterBank.SetZeroBit` | src/cpu.rs:33 | only F changes, and it becomes `SetFlag(F, Zero, on)` |
| `Registers.RegisterBank.SetSubtractionBit` | src/cpu.rs:34 | only F changes, and it becomes `SetFlag(F, Subtraction, on)` |
| `Registers.RegisterBank.SetCarryBit` | src/cpu.rs:35 | only F changes, and it becomes `SetFlag(F, Carry, on)` |
| `Registers.RegisterBank.SetHalfCarryBit` | src/cpu.rs:38 | only F changes, and it becomes `SetFlag(F, HalfCarry, on)` |
| `Execution.RegisterOf` | src/cpu.rs:14-22 | the register an arithmetic target reads from is never F |
| `Execution.RegisterOfInjective` | src/cpu.rs:14-22 | distinct targets read distinct registers |
| `Execution.RegisterOfCoversAllButF` | src/instruction.rs:10-18 | the seven targets name exactly the registers other than F |
| `Execution.OverflowingAdd` | src/cpu.rs:31 | the wrapped sum plus 256 when the overflow flag is set equals the exact sum |
| `Execution.HalfCarryOut` | src/cpu.rs:36-37 | the half-carry is set exactly when the low nibble of the wrapped sum is smaller than the low nibble of the first operand |
| `Execution.AddFlags` | src/cpu.rs:33-38 | the four setter calls leave Z set iff the sum is 0, N clear, C equal to the overflow and H equal to the half-carry, with the low nibble of F unchanged |
| `Execution.AddStep` | src/cpu.rs:27-41 | ADD of register r: A becomes (A + r) mod 256; Z iff the new A is 0, N clear, C iff A + r > 255, H iff (A mod 16) + (r mod 16) > 15; only A and the flag bits of F change |
| `Execution.Step` | src/cpu.rs:12-24 | every instruction is handled; the step changes only A and F, and A becomes A plus the instruction's operand, mod 256 |
| `Execution.AddAccumulator` | src/cpu.rs:29-40 | after `Add(t)`, A equals (old A + old t) mod 256; for `Add(A)`, A equals 2 * old A mod 256 |
| `Execution.AddFlagsSet` | src/cpu.rs:31-38 | after `Add`: Z is set iff the new A is 0; N is clear; C is set iff old A + operand > 255; H is set iff (old A mod 16) + (operand mod 16) > 15 |
| `Execution.AddFrame` | src/cpu.rs:27-41 | `Add` leaves B, C, D, E, H, L and the low nibble of F unchanged |
| `Execution.AddIgnoresFlags` | src/cpu.rs:13-30 | `Add` never reads F: banks that differ only in F give results that agree on every register and on all four flags, and give identical results when their low nibbles of F agree |
| `Execution.Cpu.constructor` | src/cpu.rs:6-9 | the CPU owns the given register bank |
| `Execution.Cpu.Exec` | src/cpu.rs:12-24 | every instruction is handled, with no fallthrough case; the bank afterwards is `Step` of the bank before |
| `Execution.Cpu.Add` | src/cpu.rs:27-41 | the bank afterwards is `AddStep` of the bank before; the write-back to A is proved to return Ok |

## Left out

- Flag getters (`has_*`): the source has none. The predicate `Has` is used only to state the flag results, as a single-bit test.
- Panics: the `unwrap` in `add` is modelled as an assertion that is proved. No runtime abort is modelled.
- Error message: the source returns the string error "Invalid register F value". The model uses the constructor `InvalidFlagValue` instead.
- Build concerns: the derives (`Default`, `Debug`, `Clone`, `Copy`, `PartialEq`, `Eq`) and the Rust visibility of `RegisterBank`, `Register` and `Cpu` are not modelled.
- Execution.Cpu: Rust embeds the register bank in `Cpu` by value. The model holds it as an object reference in a `const` field, so the CPU shares the bank object with whoever created it and that creator sees every change the CPU makes. In Rust the bank is a `Copy` value moved into the CPU, and the caller's own copy stays unchanged.
- Environment: instruction fetch and decode from bytes, the memory bus, timing and interrupts are not part of this model, because the source has none of them.
- The low-nibble invariant: Pan Docs, "CPU Registers and Flags", gives bits 0 to 3 of F as always zero. The code does not enforce this (`write_register(F, 0x0F)` succeeds), so the model does not state it as an invariant of the bank. It proves only that the flag setters and `Add` leave the low nibble as they found it.
