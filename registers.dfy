/** The register file of the Sharp LR35902: eight byte cells, the flag byte F
    and the 16-bit views BC, DE and HL.

    The bank is a mutable object (`RegisterBank`); its value at any moment is
    a `Bank` snapshot, and the specification functions below describe every
    operation on snapshots. The class methods are proved against them. */
module Registers {

  /** An unsigned 8-bit value (u8); masks, shifts and casts on it are
      written out as arithmetic below. */
  type Byte = x: int | 0 <= x < 0x100

  /** An unsigned 16-bit value (u16). */
  type Word = x: int | 0 <= x < 0x1_0000

  type Bit = x: int | 0 <= x < 2

  datatype Register = A | B | C | D | E | F | H | L

  /** The four condition flags kept in the upper nibble of F. */
  datatype Flag = Zero | Subtraction | HalfCarry | Carry

  /** The one way a register write can fail: a rejected value for F. */
  datatype RegisterError = InvalidFlagValue

  datatype Result<T, E> = Ok(value: T) | Err(error: E)

  /** The value of the whole bank at one point in time. */
  datatype Bank = Bank(a: Byte, b: Byte, c: Byte, d: Byte, e: Byte, f: Byte, h: Byte, l: Byte)

  // ---------------------------------------------------------------------
  // Byte cells

  /** The bank a fresh `RegisterBank` starts with (the derived default). */
  function Zeroed(): (s: Bank)
    ensures forall r :: Get(s, r) == 0
  {
    Bank(0, 0, 0, 0, 0, 0, 0, 0)
  }

  /** The cell named by `r`; total over all eight registers. The byte read
      is the one that, stored back into that same cell, changes nothing. */
  function Get(s: Bank, r: Register): (v: Byte)
    ensures match r
      case A => s.(a := v) == s
      case B => s.(b := v) == s
      case C => s.(c := v) == s
      case D => s.(d := v) == s
      case E => s.(e := v) == s
      case F => s.(f := v) == s
      case H => s.(h := v) == s
      case L => s.(l := v) == s
  {
    match r
    case A => s.a
    case B => s.b
    case C => s.c
    case D => s.d
    case E => s.e
    case F => s.f
    case H => s.h
    case L => s.l
  }

  /** The eight reads together determine the bank: rebuilding a bank from
      them gives back the bank that was read. */
  lemma ReadsDetermineBank(s: Bank)
    ensures Bank(Get(s, A), Get(s, B), Get(s, C), Get(s, D), Get(s, E), Get(s, F), Get(s, H), Get(s, L)) == s
  {
  }

  /** `v & 0xF0`: the byte with its lower four bits cleared. */
  function UpperNibble(v: Byte): (u: Byte)
    ensures u % 16 == 0 && 0 <= v - u < 16
  {
    v - v % 16
  }

  /** Whether a value may be stored in F. The check as coded rejects every
      value with a bit of the UPPER nibble set, although the flags live in the
      upper nibble and the lower nibble is the part meant to stay zero. This
      is very likely a bug (the mask should be 0x0F), but it is what the bank
      does, and the model follows it. */
  predicate FlagValueAccepted(v: Byte)
    ensures FlagValueAccepted(v) <==> v < 16
  {
    !(UpperNibble(v) > 0)
  }

  /** Storing `v` in `r`. Every register but F accepts every byte; for F a
      rejected value returns an error before anything is stored. */
  function Write(s: Bank, r: Register, v: Byte): (res: Result<Bank, RegisterError>)
    ensures res.Ok? <==> r != F || v < 16
    ensures res.Err? ==> res.error == InvalidFlagValue
    ensures res.Ok? ==> forall q :: Get(res.value, q) == if q == r then v else Get(s, q)
  {
    match r
    case A => Ok(s.(a := v))
    case B => Ok(s.(b := v))
    case C => Ok(s.(c := v))
    case D => Ok(s.(d := v))
    case E => Ok(s.(e := v))
    case F => if !FlagValueAccepted(v) then Err(InvalidFlagValue) else Ok(s.(f := v))
    case H => Ok(s.(h := v))
    case L => Ok(s.(l := v))
  }

  /** Writing back the byte just read is accepted and leaves the bank as it
      was, for F whenever the byte passes F's validation; otherwise the write
      is refused. */
  lemma ReadThenWriteBack(s: Bank, r: Register)
    ensures r != F || FlagValueAccepted(Get(s, r)) ==> Write(s, r, Get(s, r)) == Ok(s)
    ensures r == F && !FlagValueAccepted(Get(s, r)) ==> Write(s, r, Get(s, r)) == Err(InvalidFlagValue)
  {
  }

  /** Every register but F takes every byte, and reads it back unchanged. */
  lemma WriteThenRead(s: Bank, r: Register, v: Byte)
    requires r != F
    ensures Write(s, r, v).Ok? && Get(Write(s, r, v).value, r) == v
  {
  }

  /** Writing F fails exactly for the bytes 16..255, i.e. those with a bit of
      the upper nibble set; on success F holds exactly the new value. */
  lemma WriteFlagRegister(s: Bank, v: Byte)
    ensures Write(s, F, v).Err? <==> v >= 16
    ensures Write(s, F, v).Ok? ==> Write(s, F, v).value == s.(f := v)
  {
  }

  /** A successful write changes the named cell and nothing else. */
  lemma WriteOnlyChangesTarget(s: Bank, r: Register, v: Byte, other: Register)
    requires Write(s, r, v).Ok? && other != r
    ensures Get(Write(s, r, v).value, other) == Get(s, other)
  {
  }

  // ---------------------------------------------------------------------
  // 16-bit views

  /** `(hi as u16) << 8 | lo as u16`: the shift multiplies by 256 and leaves
      the low byte zero, so the or adds `lo`. */
  function Combine(hi: Byte, lo: Byte): Word
  {
    hi * 256 + lo
  }

  /** `(w >> 8) as u8`: the high byte of a word. */
  function High(w: Word): Byte
  {
    w / 256
  }

  /** `w as u8`: the cast truncates to the low byte. */
  function Low(w: Word): Byte
  {
    w % 256
  }

  /** The word whose high byte is B and whose low byte is C. */
  function BC(s: Bank): (w: Word)
    ensures High(w) == s.b && Low(w) == s.c
  {
    Combine(s.b, s.c)
  }

  /** The word whose high byte is D and whose low byte is E. */
  function DE(s: Bank): (w: Word)
    ensures High(w) == s.d && Low(w) == s.e
  {
    Combine(s.d, s.e)
  }

  /** The word whose high byte is H and whose low byte is L. */
  function HL(s: Bank): (w: Word)
    ensures High(w) == s.h && Low(w) == s.l
  {
    Combine(s.h, s.l)
  }

  /** The bank with B and C overwritten so that BC reads `w`. */
  function WithBC(s: Bank, w: Word): (t: Bank)
    ensures BC(t) == w && t.(b := s.b, c := s.c) == s
  {
    s.(b := High(w), c := Low(w))
  }

  /** The bank with D and E overwritten so that DE reads `w`. */
  function WithDE(s: Bank, w: Word): (t: Bank)
    ensures DE(t) == w && t.(d := s.d, e := s.e) == s
  {
    s.(d := High(w), e := Low(w))
  }

  /** The bank with H and L overwritten so that HL reads `w`. */
  function WithHL(s: Bank, w: Word): (t: Bank)
    ensures HL(t) == w && t.(h := s.h, l := s.l) == s
  {
    s.(h := High(w), l := Low(w))
  }

  /** Writing a pair and reading it back gives the written word, the high
      byte goes to the first cell and the low byte to the second, and the
      other six cells are untouched. */
  lemma PairWriteThenRead(s: Bank, w: Word)
    ensures BC(WithBC(s, w)) == w && DE(WithDE(s, w)) == w && HL(WithHL(s, w)) == w
    ensures WithBC(s, w).b == w / 256 && WithBC(s, w).c == w % 256
    ensures WithDE(s, w).d == w / 256 && WithDE(s, w).e == w % 256
    ensures WithHL(s, w).h == w / 256 && WithHL(s, w).l == w % 256
    ensures WithBC(s, w).(b := s.b, c := s.c) == s
    ensures WithDE(s, w).(d := s.d, e := s.e) == s
    ensures WithHL(s, w).(h := s.h, l := s.l) == s
  {
  }

  /** Writing back the word just read leaves the bank as it was. */
  lemma PairReadThenWrite(s: Bank)
    ensures WithBC(s, BC(s)) == s && WithDE(s, DE(s)) == s && WithHL(s, HL(s)) == s
  {
  }

  // ---------------------------------------------------------------------
  // Flag bits of F (Z = bit 7, N = bit 6, H = bit 5, C = bit 4)

  function Mask(flag: Flag): Byte
  {
    match flag
    case Zero => 0x80
    case Subtraction => 0x40
    case HalfCarry => 0x20
    case Carry => 0x10
  }

  /** `f & mask != 0`: whether `flag` is set in the flag byte `f`. */
  predicate Has(f: Byte, flag: Flag)
  {
    (f / Mask(flag)) % 2 == 1
  }

  function BitOf(f: Byte, flag: Flag): Bit
  {
    if Has(f, flag) then 1 else 0
  }

  /** The byte with the given four flag bits over the low nibble `low`. */
  function FlagByte(z: Bit, n: Bit, h: Bit, c: Bit, low: int): (f: Byte)
    requires 0 <= low < 16
    ensures Has(f, Zero) == (z == 1) && Has(f, Subtraction) == (n == 1)
    ensures Has(f, HalfCarry) == (h == 1) && Has(f, Carry) == (c == 1)
    ensures f % 16 == low
  {
    var f := 128 * z + 64 * n + 32 * h + 16 * c + low;
    assert f / 16 == 8 * z + 4 * n + 2 * h + c;
    assert f / 32 == 4 * z + 2 * n + h && f / 64 == 2 * z + n && f / 128 == z;
    f
  }

  /** The upper nibble `q` of a byte, shifted down by one, two and three
      more bits, is the byte shifted down by five, six and seven. */
  lemma UpperNibbleShifts(f: Byte)
    ensures f / 32 == f / 16 / 2 && f / 64 == f / 16 / 4 && f / 128 == f / 16 / 8
  {
  }

  /** A nibble is the sum of its four bits. */
  lemma NibbleBits(q: int)
    requires 0 <= q < 16
    ensures q == 8 * (q / 8) + 4 * (q / 4 % 2) + 2 * (q / 2 % 2) + q % 2
  {
  }

  /** Every byte is its four flag bits over its low nibble. */
  lemma FlagBits(f: Byte)
    ensures f == FlagByte(BitOf(f, Zero), BitOf(f, Subtraction), BitOf(f, HalfCarry), BitOf(f, Carry), f % 16)
  {
    UpperNibbleShifts(f);
    NibbleBits(f / 16);
    assert BitOf(f, Zero) == f / 16 / 8 && BitOf(f, Subtraction) == f / 16 / 4 % 2;
    assert BitOf(f, HalfCarry) == f / 16 / 2 % 2 && BitOf(f, Carry) == f / 16 % 2;
  }

  /** `f | mask` when `on`, `f & !mask` otherwise: the bit of `flag` set or
      cleared, every other bit kept. */
  function SetFlag(f: Byte, flag: Flag, on: bool): (g: Byte)
    ensures Has(g, flag) == on
    ensures forall other :: other != flag ==> Has(g, other) == Has(f, other)
    ensures g % 16 == f % 16
  {
    if Has(f, flag) == on then f
    else
      SetFlagBits(f, flag, on);
      if on then f + Mask(flag) else f - Mask(flag)
  }

  /** Setting a clear bit adds its mask and clearing a set bit subtracts it:
      either way the result is the flag byte with just that bit replaced. */
  lemma FlagByteWithBit(f: Byte, flag: Flag, on: bool)
    requires Has(f, flag) != on
    ensures var g: int := if on then f + Mask(flag) else f - Mask(flag);
      var bit := if on then 1 else 0;
      g == match flag
        case Zero => FlagByte(bit, BitOf(f, Subtraction), BitOf(f, HalfCarry), BitOf(f, Carry), f % 16)
        case Subtraction => FlagByte(BitOf(f, Zero), bit, BitOf(f, HalfCarry), BitOf(f, Carry), f % 16)
        case HalfCarry => FlagByte(BitOf(f, Zero), BitOf(f, Subtraction), bit, BitOf(f, Carry), f % 16)
        case Carry => FlagByte(BitOf(f, Zero), BitOf(f, Subtraction), BitOf(f, HalfCarry), bit, f % 16)
  {
    FlagBits(f);
  }

  /** So after the change that bit reads `on`, and the other three flags and
      the low nibble are kept. */
  lemma SetFlagBits(f: Byte, flag: Flag, on: bool)
    requires Has(f, flag) != on
    ensures var g: int := if on then f + Mask(flag) else f - Mask(flag);
      && 0 <= g < 0x100
      && Has(g, flag) == on
      && (forall other :: other != flag ==> Has(g, other) == Has(f, other))
      && g % 16 == f % 16
  {
    FlagByteWithBit(f, flag, on);
  }

  /** A flag byte is determined by its four flags and its low nibble. */
  lemma FlagByteDeterminedByFlags(f: Byte, g: Byte)
    requires forall flag :: Has(f, flag) == Has(g, flag)
    requires f % 16 == g % 16
    ensures f == g
  {
    FlagBits(f);
    FlagBits(g);
    assert BitOf(f, Zero) == BitOf(g, Zero);
    assert BitOf(f, Subtraction) == BitOf(g, Subtraction);
    assert BitOf(f, HalfCarry) == BitOf(g, HalfCarry);
    assert BitOf(f, Carry) == BitOf(g, Carry);
  }

  /** The validation of F contradicts the flag layout: 0xF0 (all four flags
      set) is rejected and 0x0F accepted, and a flag byte with any flag set
      cannot be written back through `Write`. */
  lemma FlagValidationRejectsFlags(s: Bank, flag: Flag)
    ensures Write(s, F, 0xF0).Err? && Write(s, F, 0x0F).Ok?
    ensures Write(s, F, SetFlag(s.f, flag, true)).Err?
  {
  }

  // ---------------------------------------------------------------------
  // The mutable bank

  class RegisterBank {
    var a: Byte
    var b: Byte
    var c: Byte
    var d: Byte
    var e: Byte
    var f: Byte
    var h: Byte
    var l: Byte

    /** The current value of all eight cells. */
    function Snapshot(): Bank
      reads this
    {
      Bank(a, b, c, d, e, f, h, l)
    }

    /** A bank with every cell zero. */
    constructor ()
      ensures Snapshot() == Zeroed()
    {
      a, b, c, d, e, f, h, l := 0, 0, 0, 0, 0, 0, 0, 0;
    }

    /** The source's read, a match over the fields. `Get` is the same
        lookup on snapshots, which the lemmas use; the ensures is the bridge
        between the two. */
    function Read(r: Register): (v: Byte)
      reads this
      ensures v == Get(Snapshot(), r)
    {
      match r
      case A => a
      case B => b
      case C => c
      case D => d
      case E => e
      case F => f
      case H => h
      case L => l
    }

    method WriteRegister(r: Register, v: Byte) returns (res: Result<(), RegisterError>)
      modifies this
      ensures res.Ok? == Write(old(Snapshot()), r, v).Ok?
      ensures res.Ok? ==> Snapshot() == Write(old(Snapshot()), r, v).value
      ensures res.Err? ==> res.error == InvalidFlagValue && Snapshot() == old(Snapshot())
    {
      match r {
        case A => a := v;
        case B => b := v;
        case C => c := v;
        case D => d := v;
        case E => e := v;
        case F =>
          if UpperNibble(v) > 0 {
            return Err(InvalidFlagValue);
          }
          f := v;
        case H => h := v;
        case L => l := v;
      }
      return Ok(());
    }

    /** The word whose high byte is B and whose low byte is C. */
    function ReadBC(): (w: Word)
      reads this
      ensures High(w) == b && Low(w) == c
    {
      Combine(b, c)
    }

    method WriteBC(w: Word)
      modifies this
      ensures Snapshot() == WithBC(old(Snapshot()), w)
    {
      b := High(w);
      c := Low(w);
    }

    /** The word whose high byte is D and whose low byte is E. */
    function ReadDE(): (w: Word)
      reads this
      ensures High(w) == d && Low(w) == e
    {
      Combine(d, e)
    }

    method WriteDE(w: Word)
      modifies this
      ensures Snapshot() == WithDE(old(Snapshot()), w)
    {
      d := High(w);
      e := Low(w);
    }

    /** The word whose high byte is H and whose low byte is L. */
    function ReadHL(): (w: Word)
      reads this
      ensures High(w) == h && Low(w) == l
    {
      Combine(h, l)
    }

    method WriteHL(w: Word)
      modifies this
      ensures Snapshot() == WithHL(old(Snapshot()), w)
    {
      h := High(w);
      l := Low(w);
    }

    method SetZeroBit(on: bool)
      modifies this
      ensures Snapshot() == old(Snapshot()).(f := SetFlag(old(f), Zero, on))
    {
      f := SetFlag(f, Zero, on);
    }

    method SetSubtractionBit(on: bool)
      modifies this
      ensures Snapshot() == old(Snapshot()).(f := SetFlag(old(f), Subtraction, on))
    {
      f := SetFlag(f, Subtraction, on);
    }

    method SetHalfCarryBit(on: bool)
      modifies this
      ensures Snapshot() == old(Snapshot()).(f := SetFlag(old(f), HalfCarry, on))
    {
      f := SetFlag(f, HalfCarry, on);
    }

    method SetCarryBit(on: bool)
      modifies this
      ensures Snapshot() == old(Snapshot()).(f := SetFlag(old(f), Carry, on))
    {
      f := SetFlag(f, Carry, on);
    }
  }

  // The bank's own test scenarios, as clients of the contracts above.

  method ScenarioWriteA()
  {
    var bank := new RegisterBank();
    assert bank.Read(A) == 0;
    var ok := bank.WriteRegister(A, 5);
    assert ok.Ok? && bank.Read(A) == 5;
  }

  method ScenarioWriteFRejected()
  {
    var bank := new RegisterBank();
    var bad := bank.WriteRegister(F, 0xFF);
    assert bad.Err? && bank.Read(F) == 0;
  }

  method ScenarioBC()
  {
    var bank := new RegisterBank();
    bank.WriteBC(0xFFFF);
    var w := bank.ReadBC();
    assert w == 0xFFFF;
    assert bank.Snapshot() == Bank(0, 0xFF, 0xFF, 0, 0, 0, 0, 0);
  }

  method ScenarioDE()
  {
    var bank := new RegisterBank();
    bank.WriteDE(0x00FF);
    var w := bank.ReadDE();
    assert w == 0x00FF;
    assert bank.Snapshot() == Bank(0, 0, 0, 0x00, 0xFF, 0, 0, 0);
  }

  method ScenarioHL()
  {
    var bank := new RegisterBank();
    bank.WriteHL(0x11AA);
    var w := bank.ReadHL();
    assert w == 0x11AA;
    assert bank.Snapshot() == Bank(0, 0, 0, 0, 0, 0, 0x11, 0xAA);
  }
}
