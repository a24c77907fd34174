/** The instruction vocabulary the execution engine consumes: already
    decoded values, not opcode bytes. Register and flag layout follow the
    Pan Docs page "CPU Registers and Flags". */
module Instructions {

  /** The registers an 8-bit arithmetic instruction may name as its operand.
      The flag register F is deliberately not among them. */
  datatype ArithmeticTarget = A | B | C | D | E | H | L

  /** A decoded instruction. `Add(target)` adds the contents of `target`
      into the accumulator A. */
  datatype Instruction = Add(target: ArithmeticTarget)
}
