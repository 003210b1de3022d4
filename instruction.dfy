/**
 * The instruction sum type over all families, and `disassembly`, which
 * prints each family with its own `to_string`. The A-extension printers
 * are modelled; the printers of the other families are not part of this
 * model and come in as the `render` collaborator.
 */
module Instr {
  import opened Wrappers
  import opened RiscvImm
  import Asm
  import opened Rva

  datatype Instruction =
    | RV32I(i32: Asm.RV32I)
    | RV64I(i64: Asm.RV64I)
    | RVC(c: Asm.RVC)
    | RVZicsr(z: Asm.RVZicsr)
    | RVF(f: Asm.RVF)
    | RV32A(a32: Rva.RV32A)
    | RV64A(a64: Rva.RV64A)
    | RV128A(a128: Rva.RV128A)

  /**
   * The functions the model takes from outside: the 16-bit decoder
   * `resolve_u16` and the `to_string` printers of RV32I, RV64I, RVC,
   * RVZicsr and RVF.
   */
  datatype Collaborators = Collaborators(resolveU16: (bv16, Xlen) -> Option<Instruction>, render: Instruction -> string)

  /**
   * The assembler mnemonic of an instruction of the four families the
   * assembler produces; `None` for the floating-point and atomic families.
   */
  function Mnemonic(inst: Instruction): Option<string> {
    match inst
    case RV32I(i) => Some(i.Mnemonic())
    case RV64I(i) => Some(i.Mnemonic())
    case RVC(c) => Some(c.Mnemonic())
    case RVZicsr(z) => Some(z.Mnemonic())
    case _ => None
  }

  predicate IsAtomic(inst: Instruction) {
    inst.RV32A? || inst.RV64A? || inst.RV128A?
  }

  /** `Instruction::disassembly`. */
  function Disassembly(inst: Instruction, c: Collaborators): (s: string)
    ensures !IsAtomic(inst) ==> s == c.render(inst)
  {
    match inst
    case RV32A(a) => ToString32(a)
    case RV64A(a) => ToString64(a)
    case RV128A(a) => ToString128(a)
    case _ => c.render(inst)
  }

  /**
   * An atomic instruction prints as its operation, the width letter of its
   * family and its operands, whatever the collaborators are.
   */
  lemma DisassemblyOfAtomic(inst: Instruction, c: Collaborators, c': Collaborators)
    requires IsAtomic(inst)
    ensures Disassembly(inst, c) == Disassembly(inst, c')
    ensures inst.RV32A? ==> Disassembly(inst, c) == Printed(OpOf32(inst.a32), 'w', inst.a32.r, false)
    ensures inst.RV64A? ==> Disassembly(inst, c) == Printed(OpOf64(inst.a64), 'd', inst.a64.r, true)
    ensures inst.RV128A? ==> Disassembly(inst, c) == Printed(OpOf128(inst.a128), 'q', inst.a128.r, true)
  {
    match inst
    case RV32A(a) => ToString32Printed(a);
    case RV64A(a) => ToString64Printed(a);
    case RV128A(a) => ToString128Printed(a);
  }
}
