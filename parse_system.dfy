/** The system and fence mnemonics of the assembler, which take no operands. */
module ParseSystem {
  import opened Wrappers
  import Asm
  import opened Instr
  import opened ParseCommon

  /** The mnemonic an instruction is known by: `fencei` is a second spelling of `fence.i`. */
  function Canonical(mnem: string): string {
    if mnem == "fencei" then "fence.i" else mnem
  }

  /**
   * `system::try_parse`: `ecall`, `ebreak`, `fence` and `fence.i` (also
   * spelled `fencei`); whatever operands follow are ignored.
   */
  function TryParse(mnem: string): (r: Option<Result<Instruction, ParseError>>)
    ensures r.None? <==> mnem !in ["ecall", "ebreak", "fence", "fence.i", "fencei"]
    ensures r.Some? ==> r.value.Ok? && r.value.value.RV32I?
    ensures r.Some? ==> (r.value.value.i32.FenceI? <==> mnem in ["fence.i", "fencei"])
    ensures mnem == "ecall" ==> r == Some(Ok(Instruction.RV32I(Asm.Ecall)))
    ensures mnem == "ebreak" ==> r == Some(Ok(Instruction.RV32I(Asm.Ebreak)))
    ensures mnem == "fence" ==> r == Some(Ok(Instruction.RV32I(Asm.Fence)))
  {
    if mnem == "ecall" then Some(Ok(Instruction.RV32I(Asm.Ecall)))
    else if mnem == "ebreak" then Some(Ok(Instruction.RV32I(Asm.Ebreak)))
    else if mnem == "fence" then Some(Ok(Instruction.RV32I(Asm.Fence)))
    else if mnem == "fence.i" || mnem == "fencei" then Some(Ok(Instruction.RV32I(Asm.FenceI)))
    else None
  }

  /** An instruction the system parser returns is known by the canonical spelling of its mnemonic. */
  lemma TryParseMnemonic(mnem: string)
    ensures TryParse(mnem).Some? ==> Mnemonic(TryParse(mnem).value.value) == Some(Canonical(mnem))
  {
    SystemMnemonics();
    if mnem == "fence.i" || mnem == "fencei" {
      assert TryParse(mnem).value.value == Instruction.RV32I(Asm.FenceI);
    }
  }

  /** The names the four system instructions are known by. */
  lemma SystemMnemonics()
    ensures Asm.RV32I.Ecall.Mnemonic() == "ecall" && Asm.RV32I.Ebreak.Mnemonic() == "ebreak"
    ensures Asm.RV32I.Fence.Mnemonic() == "fence" && Asm.RV32I.FenceI.Mnemonic() == "fence.i"
  {
    FenceMnemonics();
  }

  lemma FenceMnemonics()
    ensures Asm.RV32I.Fence.Mnemonic() == "fence" && Asm.RV32I.FenceI.Mnemonic() == "fence.i"
  {
  }
}
