/** The execution engine: one instruction applied to the register bank.

    `Step` and `AddStep` describe an instruction as a transition from one
    `Bank` snapshot to the next; the `Cpu` class performs it in place on a
    `RegisterBank` and is proved to agree with them. */
module Execution {
  import opened Registers
  import Instructions

  /** The register an arithmetic target names: the one with the same name. */
  function RegisterOf(t: Instructions.ArithmeticTarget): (r: Register)
    ensures r != F
  {
    match t
    case A => Register.A
    case B => Register.B
    case C => Register.C
    case D => Register.D
    case E => Register.E
    case H => Register.H
    case L => Register.L
  }

  /** Distinct targets name distinct registers. */
  lemma RegisterOfInjective(t: Instructions.ArithmeticTarget, u: Instructions.ArithmeticTarget)
    ensures RegisterOf(t) == RegisterOf(u) ==> t == u
  {
  }

  /** The targets name exactly the seven registers other than F. */
  lemma RegisterOfCoversAllButF(r: Register)
    ensures r != F <==> exists t :: RegisterOf(t) == r
  {
    match r
    case A => assert RegisterOf(Instructions.A) == r;
    case B => assert RegisterOf(Instructions.B) == r;
    case C => assert RegisterOf(Instructions.C) == r;
    case D => assert RegisterOf(Instructions.D) == r;
    case E => assert RegisterOf(Instructions.E) == r;
    case F =>
    case H => assert RegisterOf(Instructions.H) == r;
    case L => assert RegisterOf(Instructions.L) == r;
  }

  /** `x.overflowing_add(y)` on u8: the sum modulo 256 and whether it
      overflowed. The wrapped sum plus 256 for an overflow is the exact sum. */
  function OverflowingAdd(x: Byte, y: Byte): (r: (Byte, bool))
    ensures r.0 + (if r.1 then 256 else 0) == x + y
  {
    ((x + y) % 256, x + y > 255)
  }

  /** `(x & 0xF) + (y & 0xF) > 0xF`: a carry out of bit 3. It happens exactly
      when the low nibble of the wrapped sum is below that of `x`. */
  function HalfCarryOut(x: Byte, y: Byte): (hc: bool)
    ensures hc <==> (x + y) % 16 < x % 16
  {
    x % 16 + y % 16 > 15
  }

  /** The flag byte after an 8-bit ADD, set in the order the engine sets
      them: zero, subtraction, carry, half-carry. */
  function AddFlags(f: Byte, sum: Byte, carry: bool, halfCarry: bool): (g: Byte)
    ensures Has(g, Zero) == (sum == 0) && !Has(g, Subtraction)
    ensures Has(g, Carry) == carry && Has(g, HalfCarry) == halfCarry
    ensures g % 16 == f % 16
  {
    var f := SetFlag(f, Zero, sum == 0);
    var f := SetFlag(f, Subtraction, false);
    var f := SetFlag(f, Carry, carry);
    SetFlag(f, HalfCarry, halfCarry)
  }

  /** ADD of register `r` into A: read the operand and A, set the four
      flags, then store the wrapped sum in A. The write-back goes through
      `Write`, and taking its `value` is allowed only because it is proved
      to succeed: the unwrap in the engine cannot fail. */
  function AddStep(s: Bank, r: Register): (t: Bank)
    ensures t.a == (s.a + Get(s, r)) % 256
    ensures Has(t.f, Zero) == (t.a == 0) && !Has(t.f, Subtraction)
    ensures Has(t.f, Carry) == (s.a + Get(s, r) > 255)
    ensures Has(t.f, HalfCarry) == (s.a % 16 + Get(s, r) % 16 > 15)
    ensures t.(a := s.a, f := s.f) == s && t.f % 16 == s.f % 16
  {
    var v := Get(s, r);
    var previous := Get(s, Register.A);
    var (sum, overflow) := OverflowingAdd(previous, v);
    var flags := AddFlags(s.f, sum, overflow, HalfCarryOut(previous, v));
    Write(s.(f := flags), Register.A, sum).value
  }

  /** The effect of one instruction on the bank. The match is exhaustive:
      every instruction has a handler. */
  function Step(s: Bank, ins: Instructions.Instruction): (t: Bank)
    ensures t.(a := s.a, f := s.f) == s
    ensures t.a == (s.a + Operand(s, ins)) % 256
  {
    match ins
    case Add(target) => AddStep(s, RegisterOf(target))
  }

  /** The operand of `Add(t)` is the register named by t. */
  function Operand(s: Bank, ins: Instructions.Instruction): Byte
  {
    match ins
    case Add(t) => Get(s, RegisterOf(t))
  }

  /** After ADD, A holds the sum of A and the operand modulo 256 (twice A
      modulo 256 for `Add(A)`). */
  lemma AddAccumulator(s: Bank, t: Instructions.ArithmeticTarget)
    ensures Step(s, Instructions.Add(t)).a == (s.a + Get(s, RegisterOf(t))) % 256
    ensures t == Instructions.A ==> Step(s, Instructions.Add(t)).a == 2 * s.a % 256
  {
  }

  /** After ADD: Z says whether the new A is zero, N is clear, C says whether
      the exact sum exceeds 255, and H whether the low nibbles carry. */
  lemma AddFlagsSet(s: Bank, ins: Instructions.Instruction)
    ensures var s' := Step(s, ins); var v := Operand(s, ins);
      && (Has(s'.f, Zero) <==> s'.a == 0)
      && !Has(s'.f, Subtraction)
      && (Has(s'.f, Carry) <==> s.a + v > 255)
      && (Has(s'.f, HalfCarry) <==> s.a % 16 + v % 16 > 15)
  {
  }

  /** ADD changes only A and the flag bits: B, C, D, E, H, L and the low
      nibble of F are as before. */
  lemma AddFrame(s: Bank, ins: Instructions.Instruction)
    ensures var s' := Step(s, ins);
      && s'.b == s.b && s'.c == s.c && s'.d == s.d && s'.e == s.e
      && s'.h == s.h && s'.l == s.l
      && s'.f % 16 == s.f % 16
  {
  }

  /** ADD never reads the flags: two banks that differ only in F lead to
      banks that agree on every register and on all four flags, and to the
      very same bank when their F agrees in the low nibble. */
  lemma AddIgnoresFlags(s: Bank, u: Bank, ins: Instructions.Instruction)
    requires s.(f := 0) == u.(f := 0)
    ensures Step(s, ins).(f := 0) == Step(u, ins).(f := 0)
    ensures forall flag :: Has(Step(s, ins).f, flag) == Has(Step(u, ins).f, flag)
    ensures s.f % 16 == u.f % 16 ==> Step(s, ins) == Step(u, ins)
  {
    var s', u' := Step(s, ins), Step(u, ins);
    assert s.a == u.a && Operand(s, ins) == Operand(u, ins) by {
      assert s.a == s.(f := 0).a && u.a == u.(f := 0).a;
      match ins
      case Add(t) =>
        var r := RegisterOf(t);
        assert Get(s, r) == Get(s.(f := 0), r) && Get(u, r) == Get(u.(f := 0), r);
    }
    AddFrame(s, ins);
    AddFrame(u, ins);
    assert s'.(f := 0) == u'.(f := 0);
    AddFlagsSet(s, ins);
    AddFlagsSet(u, ins);
    forall flag
      ensures Has(s'.f, flag) == Has(u'.f, flag)
    {
    }
    if s.f % 16 == u.f % 16 {
      FlagByteDeterminedByFlags(s'.f, u'.f);
    }
  }

  /** The CPU: it owns a register bank and mutates it one instruction at a
      time. */
  class Cpu {
    const registers: RegisterBank

    constructor (registers: RegisterBank)
      ensures this.registers == registers
    {
      this.registers := registers;
    }

    /** Dispatches on the instruction, every target to its register. The
        nested match spells out the mapping `RegisterOf` gives, as the
        engine's own dispatch does, so that each target's handler is a
        separate case. */
    method Exec(ins: Instructions.Instruction)
      modifies registers
      ensures registers.Snapshot() == Step(old(registers.Snapshot()), ins)
    {
      match ins {
        case Add(target) =>
          match target {
            case A => Add(Register.A);
            case B => Add(Register.B);
            case C => Add(Register.C);
            case D => Add(Register.D);
            case E => Add(Register.E);
            case H => Add(Register.H);
            case L => Add(Register.L);
          }
      }
    }

    /** Adds register `reg` into A, setting the flags on the way. */
    method Add(reg: Register)
      modifies registers
      ensures registers.Snapshot() == AddStep(old(registers.Snapshot()), reg)
    {
      var v := registers.Read(reg);
      var previous := registers.Read(Register.A);
      var (sum, overflow) := OverflowingAdd(previous, v);
      registers.SetZeroBit(sum == 0);
      registers.SetSubtractionBit(false);
      registers.SetCarryBit(overflow);
      var lowerCarry := HalfCarryOut(previous, v);
      registers.SetHalfCarryBit(lowerCarry);
      var written := registers.WriteRegister(Register.A, sum);
      // The write-back to A is infallible; a failure here would be a defect.
      assert written.Ok?;
    }
  }

  // Worked examples of ADD, as clients of the `Cpu` contracts.

  method ScenarioAddOverflow()
  {
    var bank := new RegisterBank();
    var _ := bank.WriteRegister(Register.A, 0xFF);
    var _ := bank.WriteRegister(Register.B, 0x01);
    var cpu := new Cpu(bank);
    cpu.Exec(Instructions.Add(Instructions.B));
    assert bank.a == 0x00;
    assert Has(bank.f, Zero) && Has(bank.f, Carry) && Has(bank.f, HalfCarry) && !Has(bank.f, Subtraction);
  }

  method ScenarioAddHalfCarry()
  {
    var bank := new RegisterBank();
    var _ := bank.WriteRegister(Register.A, 0x0F);
    var _ := bank.WriteRegister(Register.B, 0x01);
    var cpu := new Cpu(bank);
    cpu.Exec(Instructions.Add(Instructions.B));
    assert bank.a == 0x10;
    assert !Has(bank.f, Zero) && !Has(bank.f, Carry) && Has(bank.f, HalfCarry) && !Has(bank.f, Subtraction);
  }

  method ScenarioAddNoFlags()
  {
    var bank := new RegisterBank();
    var _ := bank.WriteRegister(Register.A, 0x10);
    var _ := bank.WriteRegister(Register.C, 0x10);
    var cpu := new Cpu(bank);
    cpu.Exec(Instructions.Add(Instructions.C));
    assert bank.a == 0x20;
    assert !Has(bank.f, Zero) && !Has(bank.f, Carry) && !Has(bank.f, HalfCarry) && !Has(bank.f, Subtraction);
  }
}
