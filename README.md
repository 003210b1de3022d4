# wasm-riscv-online in Dafny

A model of the RISC-V assembler and disassembler behind the wasm-riscv-online
web page. The page takes machine code typed as hex and shows its assembly,
and takes assembly text and shows the machine code. The model covers the
Rust library the page calls and the page script that drives it:

- **Instruction data** (`instruction.dfy`, `riscv_imm.dfy`, `isa.dfy`, `asm.dfy`, `rva.dfy`):
  - the instruction families and their operand records;
  - the opcode and function-code constants;
  - register names, both ways;
  - the printed form of the A-extension (atomic) instructions.
- **32-bit decoder** (`decode32.dfy`, `decode_facts.dfy`): `resolve_u32`, with its field extractors and its dispatch on opcode, funct3, funct7 and register width.
- **32-bit encoder** (`encode32.dfy`): the six field packers and the RV32I, RV64I and Zicsr encoders.
  - `roundtrip32.dfy`, `roundtrip64.dfy` and `roundtrip_zicsr.dfy` prove that the decoder reads every encodable instruction back.
- **16-bit encoder** (`encode16.dfy`): every `encode_c*` helper of the compressed extension, and `encode_rvc`.
  - Each helper's checks and its word are stated in full.
  - `encode_rvc` is proved to return, for every instruction, its helper's outcome (`Encode16.RvcEncoding`).
  - The immediate of each word is read back with the layout the ISA manual gives.
- **Parser** (`parse_common.dfy`, `parse_line.dfy`, `parse_rv_i.dfy`, `parse_rvc.dfy`, `parse_zicsr.dfy`, `parse_system.dfy`):
  - comment stripping;
  - operand splitting;
  - integer, register and memory-operand reading;
  - the range checks;
  - the four mnemonic tables, tried in the order `parse_line` tries them.
- **Library entry points** (`lib.dfy`): hex input reading and printing, disassembly at one register width or at the first width that works, and assembly line by line at one width or at the first width that encodes.
- **Page script** (`frontend.dfy`, `converter.dfy`):
  - input validation;
  - splitting a byte stream into little-endian 16- and 32-bit words;
  - the normalisation of each hex line, which is padded by the length its value's low bits call for;
  - the line loop;
  - the conversion handler.
  - The handler is a class whose fields are the busy flag, the banner and the two result columns.
- **Standard-library pieces** (`rust_str.dfy`, `text.dfy`, `chars.dfy`): the Rust `str`/`char` functions and the JavaScript string functions the code relies on (`trim`, `lines`, `split_whitespace`, `from_str_radix`, `{:08x}`, `split`, `padStart`, `toLowerCase`), written out.

Where the code and its tests disagree, the model follows the code:

- `003130af` is decoded as `amoadd.d` even at 32 bits (`DecodeFacts.AmoaddDoubleOnX32`), although one test expects an error there.
- The M-extension funct3 codes of the encoder and the decoder are the code's own: `mulhsu` 100, `div` 101, `divu` 110, and `rem` and `remu` both 111.
  - With these codes `mulhu` never decodes, and `remu` decodes as `rem` (`RoundTrip32.RoundTripMul`, `RoundTrip32.RoundTripDiv`).

Loops in the source are methods with loop invariants, each proved against a function that states its result:

| method | loop |
|---|---|
| `Lib.CollectNonBlank` | the line loop of the assembly entry points |
| `Lib.TryOne` | the loop of `try_one` over the three widths |
| `Frontend.SplitTokensLoop` | the illegal-token loop |
| `Frontend.SplitBytes` | the byte-stream loop |
| `Converter.ConvertLines` | the conversion line loop |

The encoders build words step by step with `set_bits`, and they are methods whose result is tied to a word function.


## Model

| member | source | states |
|---|---|---|
| Asm.ToRegister | wasm-riscv-online/src/asm/mod.rs:229-264 | the name of each of registers 0..31 is two to four characters long |
| Asm.ToRegisterDistinct | wasm-riscv-online/src/asm/mod.rs:229-264 | the 32 register names are pairwise different, and the name is `unknown` exactly from 32 up |
| Asm.AbiRegister | wasm-riscv-online/src/asm/mod.rs:276-310 | the ABI table only ever names registers 0..31 |
| Asm.NumberedRegister | wasm-riscv-online/src/asm/mod.rs:270-274 | `x<n>` is register n exactly when n parses as a `u8` no greater than 31 |
| Asm.FromRegister | wasm-riscv-online/src/asm/mod.rs:267-311 | only registers 0..31 are ever returned |
| Asm.ReadsBack | wasm-riscv-online/src/asm/mod.rs:276-310 | a trimmed, lower-case name that is not `x<n>` is looked up in the ABI table alone |
| Asm.FromToRegister | wasm-riscv-online/src/asm/mod.rs:229-311 | reading back the ABI name `to_register` prints gives the register number back, for all 32 registers |
| Asm.FromNumberedRegister | wasm-riscv-online/src/asm/mod.rs:268-274 | `x<n>` with n at most 31 is register n in any letter case and with surrounding whitespace |
| Instr.Disassembly | wasm-riscv-online/src/asm/mod.rs:31-44 | every family other than the atomic ones prints through its own renderer; the atomic families print through the `to_string` of the A extension |
| Instr.DisassemblyOfAtomic | wasm-riscv-online/src/asm/mod.rs:31-44 | an atomic instruction prints as its operation, the width letter of its family and its operands, whichever renderers the other families use |
| Rva.ToString32Printed | wasm-riscv-online/src/asm/rva.rs:40-56 | every word-sized A instruction prints as its mnemonic, `.w` and its operands, with rd left out of an AMO |
| Rva.ToString64Printed | wasm-riscv-online/src/asm/rva.rs:58-74 | every double-word A instruction prints as its mnemonic, `.d` and its operands, with rd shown for an AMO |
| Rva.ToString128Printed | wasm-riscv-online/src/asm/rva.rs:94-110 | every quad-word A instruction prints as its mnemonic, `.q` and its operands, with rd shown for an AMO |
| Rva.PrintedStartsWithHead | wasm-riscv-online/src/asm/rva.rs:40-110 | every printed A instruction starts with its mnemonic and a space |
| Rva.ScIgnoresRd | wasm-riscv-online/src/asm/rva.rs:40-110 | `sc` never shows rd: two operand records that differ only in rd print the same at every width |
| Rva.WordAmoIgnoresRd | wasm-riscv-online/src/asm/rva.rs:40-74 | a word AMO (anything but `lr.w`) prints the same whatever its rd is |
| Isa.Opcodes32AreWide | wasm-riscv-online/src/isa.rs:7-27 | every 32-bit major opcode has its two low bits set and fits in seven bits |
| Isa.CompressedOpcodesNarrow | wasm-riscv-online/src/isa.rs:148-150 | the three compressed quadrants are 0, 1 and 2, none of them `0b11` |
| Isa.Funct3CodesFit | wasm-riscv-online/src/isa.rs:33-120 | every funct3 code fits in three bits |
| Isa.WideFunctCodesFit | wasm-riscv-online/src/isa.rs:68-140 | the funct5 and funct7 codes fit their fields, and the ecall and ebreak funct12 codes fit in twelve bits |
| Isa.AmoFunct5Distinct | wasm-riscv-online/src/isa.rs:130-140 | the eleven A-extension funct5 codes are pairwise different |
| DecodeFacts.UnlistedOpcodeRejected | wasm-riscv-online/src/decode/process32.rs:89-418 | a word whose major opcode is not in the dispatch table is refused at every register width |
| DecodeFacts.WordOpcodesOnlyOnX64 | wasm-riscv-online/src/decode/process32.rs:204-227 | the OP-IMM-32 and OP-32 opcodes decode only at 64 bits; RV32 and RV128 refuse them |
| DecodeFacts.NoRv64iOnX32 | wasm-riscv-online/src/decode/process32.rs:89-418 | nothing decodes to an RV64I instruction at 32 bits |
| DecodeFacts.WideMemoryNeedsWideXlen | wasm-riscv-online/src/decode/process32.rs:102-118 | `ld`, `lwu` and `sd` decode exactly when the width is not 32 |
| DecodeFacts.EnvironmentCallChecks | wasm-riscv-online/src/decode/process32.rs:124-141 | under SYSTEM with funct3 0, only funct12 0 (`ecall`) and 1 (`ebreak`) decode, and only when rs1 and rd are both zero |
| DecodeFacts.ShiftLeftImmediateByXlen | wasm-riscv-online/src/decode/process32.rs:142-165 | `slli` at 32 bits needs funct7 zero and gives the RV32I form; at 64 bits funct7 bit 0 may carry shamt bit 5 and the result is the RV64I form |
| DecodeFacts.ShiftRightImmediateByXlen | wasm-riscv-online/src/decode/process32.rs:142-165 | the right shifts by an immediate follow the same width rule, with funct7 0 for the logical and 0x20 for the arithmetic shift |
| DecodeFacts.MulDivQuirks | wasm-riscv-online/src/decode/process32.rs:166-203 | the `mulhu` funct3 with funct7 1 has no arm; funct3 AND with funct7 1 is `rem` at 32 bits, `remu` at 64 and refused at 128 |
| DecodeFacts.AmoOpOfInvertsCode | wasm-riscv-online/src/decode/process32.rs:372-417 | the decoder's funct5 table is exactly the inverse of the funct5 codes: eleven codes, one operation each |
| DecodeFacts.AtomicWidths | wasm-riscv-online/src/decode/process32.rs:372-417 | funct3 010 is the word form and 011 the double-word form at every width, 100 the quad-word form on RV128 only; any other funct3 or funct5 is refused |
| DecodeFacts.AmoaddDoubleOnX32 | wasm-riscv-online/src/decode/process32.rs:372-417 | `003130af` decodes to `amoadd.d ra, gp, (sp)` even at 32 bits, because the double-word arm does not check the width |
| Encode32.RWord | wasm-riscv-online/src/encode/process32.rs:7-14 | when the fields fit, the decoder reads each field of the word back; the two low bits are the opcode's |
| Encode32.IWord | wasm-riscv-online/src/encode/process32.rs:17-23 | `i_type` keeps only the low 12 bits of the immediate, in bits 31:20, and the other fields where the decoder reads them |
| Encode32.IWordFunct12 | wasm-riscv-online/src/encode/process32.rs:17-23 | the I-type immediate is also what the decoder reads as funct12 and as the CSR number |
| Encode32.IWordFunct7 | wasm-riscv-online/src/encode/process32.rs:17-23 | the upper seven bits of the I-type immediate are what the decoder reads as funct7 |
| Encode32.SWord | wasm-riscv-online/src/encode/process32.rs:26-35 | when the fields fit, the decoder reads funct3, both registers and the low 12 bits of the immediate back |
| Encode32.BWord | wasm-riscv-online/src/encode/process32.rs:38-53 | the decoder reassembles offset bits 12:1; bit 0 and the bits above 12 are dropped |
| Encode32.UWord | wasm-riscv-online/src/encode/process32.rs:56-58 | the decoder reads rd and the upper 20 bits of the immediate back |
| Encode32.JWord | wasm-riscv-online/src/encode/process32.rs:61-75 | the decoder reassembles offset bits 20:1; bit 0 and the bits above 20 are dropped |
| Encode32.RWordOfFields | wasm-riscv-online/src/encode/process32.rs:7-14 | an R word is the packing of the fields the decoder reads from it, so the packing loses nothing |
| Encode32.IWordOfFields | wasm-riscv-online/src/encode/process32.rs:17-23 | an I word is the packing of the fields the decoder reads from it |
| Encode32.SWordOfFields | wasm-riscv-online/src/encode/process32.rs:26-35 | an S word is the packing of the fields the decoder reads from it |
| Encode32.BWordOfFields | wasm-riscv-online/src/encode/process32.rs:38-53 | a B word is the packing of the fields the decoder reads from it |
| Encode32.UWordOfFields | wasm-riscv-online/src/encode/process32.rs:56-58 | a U word is the packing of the fields the decoder reads from it |
| Encode32.JWordOfFields | wasm-riscv-online/src/encode/process32.rs:61-75 | a J word is the packing of the fields the decoder reads from it |
| Encode32.ValidateShamt | wasm-riscv-online/src/encode/process32.rs:78-80 | a shift amount passes exactly when it is below 2^maxBits |
| Encode32.BuildShiftImm64 | wasm-riscv-online/src/encode/process32.rs:198-240 | the RV64I shift-immediate arms, which build their word field by field from zero, produce `ShiftImm64Word` |
| Encode32.ShiftImm64Word | wasm-riscv-online/src/encode/process32.rs:198-240 | shamt bits 4:0 sit where the decoder reads rs2, shamt bit 5 is funct7's lowest bit, and the funct7 base sits in the six bits above it |
| Encode32.EncodeRv32i | wasm-riscv-online/src/encode/process32.rs:94-182 | every word produced is a 32-bit encoding (low two bits `11`); the round-trip lemmas state what it decodes to |
| Encode32.EncodeRv64i | wasm-riscv-online/src/encode/process32.rs:184-266 | every word produced is a 32-bit encoding (low two bits `11`); the round-trip lemmas state what it decodes to |
| Encode32.EncodeZicsr | wasm-riscv-online/src/encode/process32.rs:268-279 | every word produced is a 32-bit encoding; `RoundTripCsr` states what it decodes to |
| Encode32.EncodeU32 | wasm-riscv-online/src/encode/process32.rs:82-92 | only base, RV64I and Zicsr instructions encode, and each goes to its own family's encoder (`EncodeRv32i`, `EncodeRv64i`, `EncodeZicsr`); compressed, floating-point and atomic ones are refused with their own errors; every word produced has low bits `11` |
| Encode32.EncodeU32WidthFree | wasm-riscv-online/src/encode/process32.rs:82-92 | the result is the same at 32, 64 and 128 bits: the width argument is not consulted |
| RoundTrip32.RoundTripUpperAndJumps | wasm-riscv-online/src/encode/process32.rs:97-104 | `lui`, `auipc`, `jal` and `jalr` encode, and the 32-bit decoder reads the word back as the same instruction with canonical operands |
| RoundTrip32.RoundTripBranches | wasm-riscv-online/src/encode/process32.rs:107-112 | the six branches encode and decode back as themselves |
| RoundTrip32.RoundTripLoads | wasm-riscv-online/src/encode/process32.rs:115-119 | the five RV32I loads encode and decode back as themselves |
| RoundTrip32.RoundTripStores | wasm-riscv-online/src/encode/process32.rs:122-124 | the three RV32I stores encode and decode back as themselves |
| RoundTrip32.RoundTripOpImm | wasm-riscv-online/src/encode/process32.rs:127-132 | the register-immediate operations encode and decode back as themselves |
| RoundTrip32.RoundTripShiftImm | wasm-riscv-online/src/encode/process32.rs:134-152 | the 5-bit shifts by an immediate encode and decode back as themselves |
| RoundTrip32.RoundTripArith | wasm-riscv-online/src/encode/process32.rs:155-164 | `add`, `sub`, `sll`, `slt` and `sltu` encode and decode back as themselves |
| RoundTrip32.RoundTripLogic | wasm-riscv-online/src/encode/process32.rs:155-164 | `xor`, `srl`, `sra`, `or` and `and` encode and decode back as themselves |
| RoundTrip32.RoundTripMul | wasm-riscv-online/src/encode/process32.rs:167-174 | `mul`, `mulh` and `mulhsu` encode and decode back as themselves; the `mulhu` word decodes to nothing |
| RoundTrip32.RoundTripDiv | wasm-riscv-online/src/encode/process32.rs:167-174 | `div` and `divu` decode back as themselves, and `rem` and `remu` share one word, which decodes as `rem` |
| RoundTrip32.FenceDecodes | wasm-riscv-online/src/encode/process32.rs:177-180 | `fence` encodes to 0x0000000F, which the decoder reads back as `fence` |
| RoundTrip32.FenceIDecodes | wasm-riscv-online/src/encode/process32.rs:177-180 | `fence.i` encodes to 0x0000100F, which the decoder reads back as `fence.i` |
| RoundTrip32.EcallDecodes | wasm-riscv-online/src/encode/process32.rs:177-180 | `ecall` encodes to 0x00000073, which the decoder reads back as `ecall` |
| RoundTrip32.EbreakDecodes | wasm-riscv-online/src/encode/process32.rs:177-180 | `ebreak` encodes to 0x00100073, which the decoder reads back as `ebreak` |
| RoundTrip32.KnownWords32 | wasm-riscv-online/tests/asm_encode.rs:10-40 | at encoder level: the instructions that the example lines `addi x1, x2, 10` and `lui x3, 0x12345` denote encode to the words those examples expect, 0x00a10093 and 0x123451b7. The lines themselves are not run through the parser here; `Listing.OpImmLine` states that such an `addi` line parses to that instruction |
| RoundTrip32.RoundTripRv32i | wasm-riscv-online/src/encode/process32.rs:94-182 | every RV32I instruction whose registers fit their fields encodes, and the RV32 decoder reads the word back as `Decoded32`: the same instruction with canonical operands, apart from the two M-extension quirks |
| RoundTrip64.Shift64Decodes | wasm-riscv-online/src/encode/process32.rs:198-240 | the word `BuildShiftImm64` builds decodes to its operands at 64 bits |
| RoundTrip64.RoundTripMemory | wasm-riscv-online/src/encode/process32.rs:188-190 | `lwu`, `ld` and `sd` encode and decode back as themselves at 64 bits |
| RoundTrip64.RoundTripShifts | wasm-riscv-online/src/encode/process32.rs:193-195 | the RV64I register shifts encode and decode back as their RV32I namesakes |
| RoundTrip64.RoundTripShiftImm | wasm-riscv-online/src/encode/process32.rs:198-240 | the 6-bit shifts by an immediate encode and decode back as themselves at 64 bits |
| RoundTrip64.RoundTripWordImm | wasm-riscv-online/src/encode/process32.rs:243-258 | `addiw`, `slliw`, `srliw` and `sraiw` encode and decode back as themselves |
| RoundTrip64.RoundTripWordOp | wasm-riscv-online/src/encode/process32.rs:260-264 | the word-sized register operations encode and decode back as themselves |
| RoundTrip64.KnownWords64 | wasm-riscv-online/tests/asm_encode.rs:49-50 | at encoder level: the instruction that the example line `addw a0, a0, a1` denotes encodes to the word the example expects, 0x00b5053b. The line itself is not run through the parser here; `Parse.RvILine` states that every base line parses through its own arm |
| RoundTrip64.RoundTripRv64i | wasm-riscv-online/src/encode/process32.rs:184-266 | every RV64I instruction whose registers fit their fields encodes, and the 64-bit decoder reads the word back as `Decoded64` |
| RoundTripZicsr.RoundTripCsr | wasm-riscv-online/src/encode/process32.rs:268-279 | every CSR instruction whose registers and immediate fit their fields encodes, and the decoder reads it back at any width |
| Encode16.CRegIndex | wasm-riscv-online/src/encode/process16.rs:174-180 | x8..x15 map to 0..7, and any other register is an error that names it |
| Encode16.EnsureAlign | wasm-riscv-online/src/encode/process16.rs:4-10 | for the alignments 2, 4 and 8, the immediate passes exactly when it is a multiple of the alignment |
| Encode16.CiWord | wasm-riscv-online/src/encode/process16.rs:188-198 | funct3, rd and the quadrant sit where the ISA puts them |
| Encode16.ShiftLikeWord | wasm-riscv-online/src/encode/process16.rs:119-142 | funct3 100, the selector in bits 11:10, rd' in bits 9:7, quadrant 1 |
| Encode16.CaWord | wasm-riscv-online/src/encode/process16.rs:144-159 | funct3 100, bits 12:10 are `011` (or `111` for the word forms), funct2 in bits 6:5, both registers in their fields, quadrant 1 |
| Encode16.CrWord | wasm-riscv-online/src/encode/process16.rs:161-172 | funct3 100, the link bit in bit 12, both registers in their fields, quadrant 2 |
| Encode16.ClwWord | wasm-riscv-online/src/encode/process16.rs:228-252 | the source's layout: bit 13 holds imm[5], so only funct3's upper two bits survive; both registers sit in their fields |
| Encode16.CswspWord | wasm-riscv-online/src/encode/process16.rs:303-320 | funct3 110, rs2 in bits 6:2, quadrant 2 |
| Encode16.CldspWord | wasm-riscv-online/src/encode/process16.rs:366-387 | funct3 011, rd in bits 11:7, quadrant 2 |
| Encode16.EncodeCj | wasm-riscv-online/src/encode/process16.rs:12-45 | an odd offset is refused; otherwise the word is `CjWord`, which packs offset bits 11:1 in the CJ order |
| Encode16.EncodeCb | wasm-riscv-online/src/encode/process16.rs:47-71 | an odd offset is refused, then a register outside x8..x15; otherwise the word is `CbWord` |
| Encode16.EncodeAddi16sp | wasm-riscv-online/src/encode/process16.rs:73-89 | a zero immediate is refused; otherwise the word is `Addi16spWord`, with rd fixed to sp |
| Encode16.BuildCi | wasm-riscv-online/src/encode/process16.rs:188-198 | the five `set_bits` calls of the CI packing give `CiWord` |
| Encode16.EncodeAddiw | wasm-riscv-online/src/encode/process16.rs:91-103 | rd = x0 is refused; otherwise the word is the CI word of `c.addiw` |
| Encode16.EncodeSlli | wasm-riscv-online/src/encode/process16.rs:105-117 | rd = x0 is refused; the shift amount is masked to six bits and never checked |
| Encode16.EncodeAddiLike | wasm-riscv-online/src/encode/process16.rs:188-198 | `c.addi`, `c.li` and `c.nop` never fail and give the CI word of their funct3 |
| Encode16.EncodeShiftLike | wasm-riscv-online/src/encode/process16.rs:119-142 | a register outside x8..x15 is refused first; the two shifts then refuse a zero amount and, on RV32, an amount with bit 5 set; `c.andi` takes any six-bit immediate |
| Encode16.BuildShiftLike | wasm-riscv-online/src/encode/process16.rs:119-142 | once the checks pass, the packing gives `ShiftLikeWord` |
| Encode16.EncodeCaLogic | wasm-riscv-online/src/encode/process16.rs:144-159 | both registers must be in x8..x15, rd first; a word variant is then refused on RV32; otherwise the word is `CaWord` |
| Encode16.EncodeCr | wasm-riscv-online/src/encode/process16.rs:161-172 | rdrs1 = x0 is refused; otherwise the word is `CrWord` |
| Encode16.EncodeAddi4spn | wasm-riscv-online/src/encode/process16.rs:200-226 | uimm = 0 is refused, then uimm >= 2^10, then rd outside x8..x15; otherwise the word is `Addi4spnWord` |
| Encode16.EncodeClw | wasm-riscv-online/src/encode/process16.rs:228-252 | an offset of 128 or more is refused, then a misaligned one, then rd and then rs1 outside x8..x15; otherwise the word is `ClwWord` |
| Encode16.EncodeCsw | wasm-riscv-online/src/encode/process16.rs:254-277 | the checks of `encode_clw`, with rs2 in place of rd; otherwise the word is `CswWord` |
| Encode16.EncodeClwsp | wasm-riscv-online/src/encode/process16.rs:279-301 | rd = x0 is refused, then an offset of 256 or more, then a misaligned one; otherwise the word is `ClwspWord` |
| Encode16.EncodeCswsp | wasm-riscv-online/src/encode/process16.rs:303-320 | an offset of 256 or more is refused, then a misaligned one; otherwise the word is `CswspWord` |
| Encode16.EncodeCld | wasm-riscv-online/src/encode/process16.rs:322-342 | an offset of 256 or more is refused, then a misaligned one, then rd and rs1 outside x8..x15; otherwise the word is `CldWord` |
| Encode16.EncodeCsd | wasm-riscv-online/src/encode/process16.rs:344-364 | the checks of `encode_cld`, with rs2 in place of rd; otherwise the word is `CsdWord` |
| Encode16.EncodeCldsp | wasm-riscv-online/src/encode/process16.rs:366-387 | rd = x0 is refused, then an offset of 512 or more, then a misaligned one; otherwise the word is `CldspWord` |
| Encode16.EncodeCsdsp | wasm-riscv-online/src/encode/process16.rs:389-405 | an offset of 512 or more is refused, then a misaligned one; otherwise the word is `CsdspWord` |
| Encode16.CjOffsetRoundTrip | wasm-riscv-online/src/encode/process16.rs:12-45 | the jump offset is read back from a CJ word with the layout the ISA manual gives |
| Encode16.CbOffsetRoundTrip | wasm-riscv-online/src/encode/process16.rs:47-71 | the branch offset is read back from a CB word with the ISA manual's layout |
| Encode16.Addi16spRoundTrip | wasm-riscv-online/src/encode/process16.rs:73-89 | the stack adjustment is read back from a `c.addi16sp` word |
| Encode16.CiImmRoundTrip | wasm-riscv-online/src/encode/process16.rs:188-198 | the 6-bit immediate is read back from a CI word |
| Encode16.ShiftLikeRoundTrip | wasm-riscv-online/src/encode/process16.rs:119-142 | the 6-bit immediate is read back from a `c.srli`/`c.srai`/`c.andi` word |
| Encode16.Addi4spnRoundTrip | wasm-riscv-online/src/encode/process16.rs:200-226 | the scaled immediate is read back from a `c.addi4spn` word |
| Encode16.ClwspRoundTrip | wasm-riscv-online/src/encode/process16.rs:279-301 | the offset is read back from a `c.lwsp` word |
| Encode16.CldRoundTrip | wasm-riscv-online/src/encode/process16.rs:322-342 | the offset is read back from a `c.ld` word |
| Encode16.CsdRoundTrip | wasm-riscv-online/src/encode/process16.rs:344-364 | the offset is read back from a `c.sd` word |
| Encode16.CsdspRoundTrip | wasm-riscv-online/src/encode/process16.rs:389-405 | the offset is read back from a `c.sdsp` word |
| Encode16.ClwOffset32Misencoded | wasm-riscv-online/src/encode/process16.rs:238-240 | `c.lw x8, 32(x8)` gets funct3 011, that of `c.ld`, and the ISA layout reads an offset of 0 from the word |
| Encode16.CswOffset32Misencoded | wasm-riscv-online/src/encode/process16.rs:263-265 | `c.sw x8, 32(x8)` gets funct3 111, that of `c.sd`, and the ISA layout reads an offset of 0 |
| Encode16.CswspOffset4Misencoded | wasm-riscv-online/src/encode/process16.rs:310-314 | `c.swsp x8, 4(sp)` loses imm[2], and the ISA layout reads an offset of 0 |
| Encode16.CldspOffset8Misencoded | wasm-riscv-online/src/encode/process16.rs:382-384 | `c.ldsp x8, 8(sp)` puts imm[3] where the ISA layout keeps imm[7], so the offset reads as 128 |
| Encode16.ClwIsaRoundTrip | wasm-riscv-online/src/encode/process16.rs:228-252 | the corrected `c.lw` word (imm[5:3] in bits 12:10) reads back offset bits 6:2 |
| Encode16.CswIsaRoundTrip | wasm-riscv-online/src/encode/process16.rs:254-277 | the corrected `c.sw` word reads back offset bits 6:2 |
| Encode16.CswspIsaRoundTrip | wasm-riscv-online/src/encode/process16.rs:303-320 | the corrected `c.swsp` word (imm[5:2] in bits 12:9) reads back offset bits 7:2 |
| Encode16.CldspIsaRoundTrip | wasm-riscv-online/src/encode/process16.rs:366-387 | the corrected `c.ldsp` word reads back offset bits 8:3 |
| Encode16.ClwIsaKeepsAcceptedOffset | wasm-riscv-online/src/encode/process16.rs:228-252 | every offset `encode_clw` accepts is read back whole from the corrected word |
| Encode16.CswspIsaKeepsAcceptedOffset | wasm-riscv-online/src/encode/process16.rs:303-320 | every offset `encode_cswsp` accepts is read back whole from the corrected word |
| Encode16.CldspIsaKeepsAcceptedOffset | wasm-riscv-online/src/encode/process16.rs:366-387 | every offset `encode_cldsp` accepts is read back whole from the corrected word |
| Encode16.EncodeRvc | wasm-riscv-online/src/encode/process16.rs:407-469 | each instruction gets exactly `RvcEncoding`'s outcome: the helper of its arm on its fields, with the double-word accesses refused on RV32 and `c.jal` anywhere but RV32 as not implemented; every word has its instruction's quadrant and funct3 |
| Encode16.EncodeRvcWordAccess | wasm-riscv-online/src/encode/process16.rs:419-424 | `c.lw`, `c.sw`, `c.lwsp` and `c.swsp` get the outcome of `encode_clw`, `encode_csw`, `encode_clwsp` and `encode_cswsp` on their fields, whatever the width |
| Encode16.EncodeRvcDoubleAccess | wasm-riscv-online/src/encode/process16.rs:427-438 | on RV32 the double-word accesses are refused; otherwise `c.ld`, `c.sd`, `c.ldsp` and `c.sdsp` get the outcome of their helpers on their fields |
| Encode16.EncodeRvcArith | wasm-riscv-online/src/encode/process16.rs:447-452 | each CA instruction gets `encode_ca_logic` with its own funct2 and word flag (sub 00, xor 01, or 10, and 11, subw 00 wide, addw 01 wide) |
| Encode16.EncodeRvcRegister | wasm-riscv-online/src/encode/process16.rs:455-458 | `c.jr` and `c.jalr` get `encode_cr` with rs2 = 0, `c.mv` and `c.add` with their rs2, and the link flag only for `c.jalr` and `c.add` |
| Encode16.EncodeRvcControl | wasm-riscv-online/src/encode/process16.rs:461-464 | `c.j` and `c.jal` (RV32 only) get `encode_cj` with funct3 101 and 001, `c.beqz` and `c.bnez` get `encode_cb` with 110 and 111 |
| Encode16.EncodeRvcImmediate | wasm-riscv-online/src/encode/process16.rs:407-418 | each CI and CIW instruction gets its helper's outcome: `c.nop`/`c.addi` funct3 000, `c.li` 010, `c.addi16sp`, `c.addiw`, `c.addi4spn`, `c.slli`, and `c.srli`/`c.srai`/`c.andi` with their selectors |
| Encode16.EncodeU16 | wasm-riscv-online/src/encode/process16.rs:471-476 | anything but a compressed instruction is refused; a compressed one gets `encode_rvc`'s outcome |
| Encode16.RvcEncodingFitsMap | wasm-riscv-online/src/encode/process16.rs:407-469 | every word `encode_rvc` returns has its instruction's quadrant and funct3 (only funct3's upper two bits for `c.lw`/`c.sw`) |
| Encode16.RvcImmediateReadsBack | wasm-riscv-online/src/encode/process16.rs:411-416 | the words of `c.nop`, `c.addi`, `c.li`, `c.addiw` and `c.slli` give back the six-bit immediate and rd under the ISA's CI layout |
| Encode16.RvcAddi16spReadsBack | wasm-riscv-online/src/encode/process16.rs:415 | the word of `c.addi16sp` gives back immediate bits 9:4 and names sp |
| Encode16.RvcNarrowImmediateReadsBack | wasm-riscv-online/src/encode/process16.rs:410-444 | the words of `c.addi4spn`, `c.srli`, `c.srai` and `c.andi` give back the immediate, the register and the selector of bits 11:10 |
| Encode16.RvcControlReadsBack | wasm-riscv-online/src/encode/process16.rs:461-464 | every offset the jump and branch arms accept reads back whole from the CJ and CB layouts, with the branch register |
| Encode16.RvcAccessReadsBack | wasm-riscv-online/src/encode/process16.rs:423-438 | the words of `c.lwsp`, `c.ld`, `c.sd` and `c.sdsp` give back the offset exactly, with their registers |
| Encode16.RvcArithReadsBack | wasm-riscv-online/src/encode/process16.rs:447-452 | each CA word carries the ISA's funct2 and word bit for its instruction, and both registers |
| Encode16.RvcArithInjective | wasm-riscv-online/src/encode/process16.rs:447-452 | two CA instructions with the same word are the same operation on the same registers |
| Encode16.RvcRegisterReadsBack | wasm-riscv-online/src/encode/process16.rs:455-458 | each CR word carries the link bit of `c.jalr`/`c.add`, rd/rs1, and rs2 only for `c.mv`/`c.add` |
| Encode16.RvcMoveFromZeroIsJump | wasm-riscv-online/src/encode/process16.rs:455-456 | `c.mv rd, x0` gets the word of `c.jr rd` |
| Encode16.RvcClwOffset32Misencoded | wasm-riscv-online/src/encode/process16.rs:419 | `encode_rvc` accepts `c.lw x8, 32(x8)` and returns the as-written word, whose funct3 is that of `c.ld` |
| Encode16.CswIsaKeepsAcceptedOffset | wasm-riscv-online/src/encode/process16.rs:254-277 | every offset `encode_csw` accepts is read back whole from the corrected word |
| Encode16.SetBitsWidth1 | wasm-riscv-online/src/encode/process16.rs:183-186 | a 1-bit field written at any position where it fits reads back from there, and every other bit is kept |
| Encode16.SetBitsWidth2 | wasm-riscv-online/src/encode/process16.rs:183-186 | a 2-bit field written at any position where it fits reads back from there, and every other bit is kept |
| Encode16.SetBitsWidth3 | wasm-riscv-online/src/encode/process16.rs:183-186 | a 3-bit field written at any position where it fits reads back from there, and every other bit is kept |
| Encode16.SetBitsWidth4 | wasm-riscv-online/src/encode/process16.rs:183-186 | a 4-bit field written at any position where it fits reads back from there, and every other bit is kept |
| Encode16.SetBitsWidth5 | wasm-riscv-online/src/encode/process16.rs:183-186 | a 5-bit field written at any position where it fits reads back from there, and every other bit is kept |
| ParseCommon.TrimComment | wasm-riscv-online/src/parse/common.rs:3-7 | the part of the line before its first `//` or `#`; the whole line when it has neither |
| ParseCommon.SplitOperands | wasm-riscv-online/src/parse/common.rs:9-11 | every operand is trimmed and holds no comma |
| ParseCommon.SplitOperandsJoin | wasm-riscv-online/src/parse/common.rs:9-11 | operands joined by commas split back into the same operands |
| ParseCommon.ParseRegister | wasm-riscv-online/src/parse/common.rs:13-15 | whatever `from_register` accepts, otherwise an error naming the text |
| ParseCommon.ParseInt | wasm-riscv-online/src/parse/common.rs:17-38 | a text that trims to nothing, and only such a text, is `MissingImmediate`; every value read lies in the `i64` range |
| ParseCommon.ParseIntDecimal | wasm-riscv-online/src/parse/common.rs:17-38 | `parse_int` reads back any non-negative number printed in decimal |
| ParseCommon.ParseIntNegative | wasm-riscv-online/src/parse/common.rs:17-38 | `parse_int` reads back any negative number printed as `-` and decimal digits |
| ParseCommon.ParseIntHex | wasm-riscv-online/src/parse/common.rs:17-38 | `parse_int` reads back a number printed as `0x` and fixed-width hex digits |
| ParseCommon.ImmSignedBits | wasm-riscv-online/src/parse/common.rs:40-45 | a value is accepted exactly when it lies in the signed range of `bits` bits, and is then its two's-complement pattern, below 2^bits and congruent to the value |
| ParseCommon.ParseMemOperand | wasm-riscv-online/src/parse/common.rs:47-56 | `imm(reg)` without `(` or `)` is malformed; then an unreadable offset, then an unknown register, gives its error; an offset outside -2048..2047 is out of range; otherwise the result is the register and a 12-bit pattern that sign-extends back to the offset |
| ParseCommon.ParseMemOperandOf | wasm-riscv-online/src/parse/common.rs:47-56 | `offset(reg)` with the offset written in decimal (after `-` when negative) reads back as the offset's two's-complement pattern and the register when it is in -2048..2047, and is out of range otherwise |
| Parse.Dispatch | wasm-riscv-online/src/parse/mod.rs:23-28 | the compressed, Zicsr, system and base parsers are asked in that order and the first that knows the mnemonic decides; an unknown mnemonic is `Unsupported`; nothing RV64I comes out at 32 bits; a parsed instruction carries the mnemonic asked for (`fencei` gives `fence.i`) |
| Parse.ParseLine | wasm-riscv-online/src/parse/mod.rs:13-29 | a line that is empty once its comment and surrounding whitespace are gone is an error; otherwise the lower-cased first word and the operands go to `Dispatch` |
| Parse.ParseLineKinds | wasm-riscv-online/src/parse/mod.rs:13-29 | a parsed line is a base, RV64I, compressed or Zicsr instruction, and never an RV64I one at 32 bits |
| Parse.CommentIgnored | wasm-riscv-online/src/parse/mod.rs:13-29 | appending a `#` or `//` comment to a line does not change what the line parses to |
| Parse.OperandsOfLine | wasm-riscv-online/src/parse/mod.rs:13-22 | the line `m op1, op2, …` splits back into the mnemonic `m` and exactly the operands it was written from |
| Parse.ParseLineOf | wasm-riscv-online/src/parse/mod.rs:13-29 | such a line parses to what `Dispatch` gives for the lower-cased mnemonic and those operands |
| Parse.RvILine | wasm-riscv-online/src/parse/mod.rs:23-28 | a line written with a base arm's mnemonic reaches that arm: it parses to the arm's result |
| Parse.RvcLine | wasm-riscv-online/src/parse/mod.rs:23-28 | a line written with a compressed arm's mnemonic parses to that arm's result |
| Parse.ZicsrLine | wasm-riscv-online/src/parse/mod.rs:23-28 | a line written with a CSR mnemonic parses to its register or immediate reader's result |
| Parse.SystemLine | wasm-riscv-online/src/parse/mod.rs:23-28 | a line written with one of the five system spellings parses to the system parser's instruction |
| Listing.XNameReads | wasm-riscv-online/src/parse/common.rs:13-15 | `x0`..`x31` written as a listing writes them are read back as their register numbers |
| Listing.OffsetTextReads | wasm-riscv-online/src/parse/common.rs:17-38 | a signed decimal number is one operand token that `parse_int` reads back as its value |
| Listing.RegRegImmReads | wasm-riscv-online/src/parse/rv_i.rs:108-126 | `xN, xM, imm` with a signed 12-bit immediate reads back as both registers and the immediate's two's-complement pattern |
| Listing.OpImmLine | wasm-riscv-online/src/parse/rv_i.rs:108-126 | a line `addi xN, xM, imm` (or any other OP-IMM mnemonic) with a signed 12-bit immediate parses, at every width, to that RV32I instruction |
| Listing.CompressedLineRefused | wasm-riscv-online/src/lib.rs:51-58 | as written: a line with any compressed mnemonic, whatever its operands, assembles to an `Error: ` line |
| Listing.CompressedLineEncoded | wasm-riscv-online/tests/asm_rvc_encode.rs:10-69 | with compressed instructions handed to `encode_u16`: a compressed line that parses prints a `0x` word exactly when the 16-bit encoder takes it, and the word reads back as that encoding, whose low bits are not `11` |
| ParseRvI.ParseUpper | wasm-riscv-online/src/parse/rv_i.rs:8-25 | two operands are needed; it succeeds exactly when the register and the integer parse, with no range check, and the immediate is the value wrapped to 32 bits and shifted into the upper 20 |
| ParseRvI.ParseJal | wasm-riscv-online/src/parse/rv_i.rs:26-34 | `jal rd, imm`: accepted exactly for a signed 21-bit offset, kept as its two's-complement pattern with declared width 12 |
| ParseRvI.ParseJalr | wasm-riscv-online/src/parse/rv_i.rs:35-48 | `jalr rd, imm(rs1)` or `jalr rd, rs1, imm`; any other operand count is a usage error |
| ParseRvI.ParseBranch | wasm-riscv-online/src/parse/rv_i.rs:52-72 | an odd offset is refused before the signed 13-bit range check, and the offset is stored with width 12 |
| ParseRvI.ParseLoad | wasm-riscv-online/src/parse/rv_i.rs:73-91 | `lwu` and `ld` need RV64 or RV128, which is checked after the operands parse |
| ParseRvI.ParseStore | wasm-riscv-online/src/parse/rv_i.rs:92-107 | `sd` needs RV64 or RV128, which is checked after the operands parse |
| ParseRvI.ParseOpImm | wasm-riscv-online/src/parse/rv_i.rs:108-126 | accepted exactly when the shared `rd, rs1, imm` reader accepts the operands, giving the mnemonic's variant |
| ParseRvI.ParseShift | wasm-riscv-online/src/parse/rv_i.rs:127-148 | the shift amount is the parsed value truncated to 32 bits and must be below 2^5 on RV32 and 2^6 otherwise; RV32 gives the RV32I forms, wider widths the RV64I forms |
| ParseRvI.ParseReg | wasm-riscv-online/src/parse/rv_i.rs:149-171 | accepted exactly when the shared `rd, rs1, rs2` reader accepts the operands, giving the mnemonic's variant |
| ParseRvI.ParseWideImm | wasm-riscv-online/src/parse/rv_i.rs:172-190 | `addiw`..`sraiw`: the register width is checked before the operand count |
| ParseRvI.ParseWideReg | wasm-riscv-online/src/parse/rv_i.rs:191-208 | `addw`..`sraw`: the register width is checked before the operand count |
| ParseRvI.TryParse | wasm-riscv-online/src/parse/rv_i.rs:5-211 | `None` exactly for a mnemonic without an arm; a known mnemonic gets the result of its own arm (`OpOf`); every instruction built carries the mnemonic asked for; every result is an RV32I or RV64I instruction, and only RV32I at 32 bits |
| ParseRvI.OpOfName | wasm-riscv-online/src/parse/rv_i.rs:5-211 | the arm lookup and the arm names are inverse: each arm is selected by its own mnemonic, and a mnemonic selects only the arm of that name |
| ParseRvI.ParseControl | wasm-riscv-online/src/parse/rv_i.rs:8-72 | `lui`/`auipc`, `jal`, `jalr` and the branches each go to their own parser; a success is RV32I and built by the arm asked for |
| ParseRvI.ParseOp | wasm-riscv-online/src/parse/rv_i.rs:5-211 | each arm goes to its group's parser; a success is built by the arm asked for, and an RV64-only arm fails at 32 bits |
| ParseRvI.ArmName | wasm-riscv-online/src/parse/rv_i.rs:5-211 | an instruction built by an arm is known by that arm's mnemonic |
| ParseRvc.ParseAddi4spn | wasm-riscv-online/src/parse/rvc.rs:8-19 | a value of zero or less is refused; the value is then truncated to 32 bits and must be a multiple of 4 below 2^10 |
| ParseRvc.ParseCi | wasm-riscv-online/src/parse/rvc.rs:20-37 | `c.addi` and `c.li` take a signed 6-bit immediate |
| ParseRvc.ParseMem | wasm-riscv-online/src/parse/rvc.rs:43-109 | the operand count is checked, then the register width for the RV64-only forms, then the register, the memory operand and, for the sp forms, the base |
| ParseRvc.TryParse | wasm-riscv-online/src/parse/rvc.rs:5-112 | `None` exactly for a mnemonic without an arm; `c.addi4spn`, `c.addi`, `c.li` and the memory forms each get their own parser's result; every result is compressed and carries the mnemonic asked for; `c.nop` ignores its operands; the RV64-only forms fail at 32 bits |
| ParseRvc.OpOfName | wasm-riscv-online/src/parse/rvc.rs:5-112 | the arm lookup and the arm names are inverse |
| ParseRvc.OpOfPrefix | wasm-riscv-online/src/parse/rvc.rs:5-112 | every mnemonic with an arm starts with `c.` |
| ParseSystem.TryParse | wasm-riscv-online/src/parse/system.rs:4-10 | exactly `ecall`, `ebreak`, `fence`, `fence.i` and `fencei` are known and ignore any operands; `ecall`, `ebreak` and `fence` give those instructions, and the two fence.i spellings give `fence.i` |
| ParseSystem.TryParseMnemonic | wasm-riscv-online/src/parse/system.rs:4-10 | the instruction given carries the mnemonic asked for, with `fencei` read as `fence.i` |
| ParseZicsr.ParseCsrReg | wasm-riscv-online/src/parse/zicsr.rs:7-21 | accepted exactly when rd, a CSR number in range and rs1 all parse; the CSR range is checked before rs1 is read |
| ParseZicsr.ParseCsrImm | wasm-riscv-online/src/parse/zicsr.rs:22-37 | accepted exactly when rd, a CSR number in range and an immediate in 0..31 all parse, checked in that order |
| ParseZicsr.TryParse | wasm-riscv-online/src/parse/zicsr.rs:5-40 | `None` exactly for a mnemonic that is not a CSR instruction; `csrrw`/`csrrs`/`csrrc` go to the register reader and the `i` forms to the immediate reader, with their own operation; every result is a Zicsr instruction carrying the mnemonic asked for |
| ParseZicsr.OpOfName | wasm-riscv-online/src/parse/zicsr.rs:5-40 | the mnemonic lookup and the names are inverse: each operation and source kind is selected by its own mnemonic only |
| ParseZicsr.OpOfPrefix | wasm-riscv-online/src/parse/zicsr.rs:5-40 | every CSR mnemonic starts with `csrr` |
| Lib.StripHexPrefix | wasm-riscv-online/src/lib.rs:179-186 | one leading `0x` or `0X` is removed, and nothing else |
| Lib.InputToU32 | wasm-riscv-online/src/lib.rs:179-189 | after the `0x` prefix is stripped, succeeds exactly when `from_str_radix` reads a hex number below 2^32, and yields that number; an empty rest is the `Empty` error |
| Lib.ToHexU32 | wasm-riscv-online/src/lib.rs:38 | `0x` and eight lower-case hex digits |
| Lib.HexRoundTrip | wasm-riscv-online/src/lib.rs:38 | `input_to_u32` reads what `to_hex_u32` prints back as the number printed |
| Lib.XlenOf | wasm-riscv-online/src/lib.rs:109-115 | the widths 32, 64 and 128 and no others |
| Lib.DisassembleAt | wasm-riscv-online/src/lib.rs:117-135 | an unreadable input, a 16-bit value above 0xFFFF and a word the decoder refuses give their error lines; otherwise the decoded instruction's disassembly |
| Lib.DisassembleWithXlen | wasm-riscv-online/src/lib.rs:109-136 | a width other than 32, 64 and 128 is refused before the input is read |
| Lib.Disassemble | wasm-riscv-online/src/lib.rs:15-36 | exactly the answers of `disassemble_with_xlen` at 32 bits |
| Lib.TryAll | wasm-riscv-online/src/lib.rs:140-149 | the answer at the first width, in the order 32, 64, 128, at which the attempt succeeds |
| Lib.DisassembleAuto | wasm-riscv-online/src/lib.rs:139-177 | the answer at the first of 32, 64 and 128 bits at which the input decodes; when none does, the 32-bit answer |
| Lib.LineOutputRvc | wasm-riscv-online/tests/asm_rvc_encode.rs:10-69 | a compressed instruction prints its `encode_u16` word in `0x` form when that encoder takes it, reading back as that word with low bits other than `11`, and an `Error: ` line otherwise; every other parse result prints as `LineOutput` prints it |
| Lib.LineOutput | wasm-riscv-online/src/lib.rs:49-61 | the output is a hex word exactly when the line parses and encodes, and it then reads back as the encoded word; any other output starts with `Error: ` |
| Lib.MapNonBlankIndexed | wasm-riscv-online/src/lib.rs:49-61 | one output per non-empty trimmed line, in order: output k is `f` of the k-th such line |
| Lib.CollectNonBlank | wasm-riscv-online/src/lib.rs:49-61 | the line loop both assembly entry points run: trim each line, skip the empty ones, collect `f` of the rest |
| Lib.AssembleWithXlen | wasm-riscv-online/src/lib.rs:41-62 | a width other than 32, 64 and 128 is refused; otherwise the outputs of the non-empty trimmed lines, in order, joined by newlines |
| Lib.TryOne | wasm-riscv-online/src/lib.rs:66-82 | the answer is the fold of the three attempts, in the order 32, 64, 128, that `AutoOverFirstSuccess` describes |
| Lib.AutoOverFirstSuccess | wasm-riscv-online/src/lib.rs:66-82 | over three attempts with non-empty messages, the answer is the word of the first that succeeds, otherwise the message of the last |
| Lib.TryOneFirstSuccess | wasm-riscv-online/src/lib.rs:66-82 | for a line, the word of the first width, in the order 32, 64, 128, at which it parses and encodes; otherwise the error of the 128-bit attempt |
| Lib.AssembleAuto | wasm-riscv-online/src/lib.rs:65-91 | `try_one` of every non-empty trimmed line, in order, joined by newlines |
| Frontend.PadStart | wasm-riscv-online/www/index.js:97-102 | `padStart(n, c)`: the text is kept whole at the end and preceded by `c` up to length n |
| Frontend.NonBlankLines | wasm-riscv-online/www/index.js:35 | every line kept is non-blank once trimmed and holds no newline |
| Frontend.ValidateHexInput | wasm-riscv-online/www/index.js:22-46 | whitespace only, and nothing else, is `EmptyInput`; `ByteStream` exactly when the words are even-length hex runs; a `HexLines` count is the number of non-blank lines, each of them a hex line; `BadHexLine` means some non-blank line is not one |
| Frontend.ByteStreamWords | wasm-riscv-online/www/index.js:29-31 | the byte-stream pattern accepts a non-empty text exactly when its whitespace-separated words are hex runs of even length |
| Frontend.PairsMatchWords | wasm-riscv-online/www/index.js:29-31 | on a text that starts with a non-space, the pattern holds exactly when its words are hex runs of even length |
| Frontend.MarksWideDigit | wasm-riscv-online/www/index.js:87-89 | the instruction-length test reads the low two bits of the first byte, that is, of its second hex digit |
| Frontend.Segments | wasm-riscv-online/www/index.js:80-105 | a failure is always `Incomplete`; `SegmentsRoundTrip` states what it emits |
| Frontend.FirstIllegal | wasm-riscv-online/www/index.js:71-75 | the index of the first token that is not two hex digits, or the number of tokens when all are |
| Frontend.Lowered | wasm-riscv-online/www/index.js:77 | each token lower-cased |
| Frontend.ParseByteStream | wasm-riscv-online/www/index.js:66-107 | `parseByteStream` is its splitting loop over the whitespace-separated tokens of the text |
| Frontend.SplitTokensLoop | wasm-riscv-online/www/index.js:68-105 | an illegal token is reported first; otherwise the lower-cased tokens are split into words |
| Frontend.SplitBytes | wasm-riscv-online/www/index.js:80-105 | the splitting loop emits exactly the words `Segments` describes, in order |
| Frontend.WideWord | wasm-riscv-online/www/index.js:89-98 | a 32-bit word is `0x` and eight lower-case digits that give back its four bytes, last byte first |
| Frontend.NarrowWord | wasm-riscv-online/www/index.js:99-104 | a 16-bit word is `0x` and four lower-case digits that give back its two bytes |
| Frontend.SegmentsRoundTrip | wasm-riscv-online/www/index.js:80-105 | the emitted words all have the stream-word form, hold every byte once, and give back the byte tokens in order |
| Frontend.StreamWordDecodable | wasm-riscv-online/www/index.js:97-102 | the library reads every emitted word as the value it spells, and its width rule agrees with the word's length |
| Frontend.SplitTokensCases | wasm-riscv-online/www/index.js:68-105 | a token is reported exactly when some token is not two hex digits, and then the first such; otherwise the emitted words give back the lower-cased tokens |
| Frontend.EvenTokensIllegal | wasm-riscv-online/www/index.js:71-75 | when every token is a non-empty even-length hex run, only a longer such run can be refused |
| Frontend.ByteStreamIllegalTokens | wasm-riscv-online/www/index.js:29-31 | a text the validation calls a byte stream can still be refused by the splitter, but only for a hex run longer than two digits |
| Converter.EvenPadded | wasm-riscv-online/www/index.js:117-119 | a `0` is put in front when the length is odd, so the result has even length |
| Converter.AsDouble | wasm-riscv-online/www/index.js:122 | the magnitude a JavaScript number keeps: exact below 2^53, and an even number above it |
| Converter.BinaryEndsEleven | wasm-riscv-online/www/index.js:125 | the binary text ends in `11` exactly when the two low bits of the number are set |
| Converter.MarksWord32Iff | wasm-riscv-online/www/index.js:122-125 | the 32-bit test holds exactly for a number (not NaN) below 2^53 whose two low bits are set; a larger number is an even double and never passes |
| Converter.ParseIntHexDigits | wasm-riscv-online/www/index.js:122 | `parseInt` of hex digits is their value, and NaN when there are none |
| Converter.FormattedShape | wasm-riscv-online/www/index.js:110-139 | the word is `0x`, zeros, then the text after the prefix: never truncated, digit case kept, even length, at least eight digits when the test says 32-bit and four otherwise |
| Converter.FormattedIdempotent | wasm-riscv-online/www/index.js:110-139 | normalising the word a hex line gives yields the same word again |
| Converter.FormattedFixesStreamWord | wasm-riscv-online/www/index.js:110-139 | every word the byte-stream splitter emits already has the normalised form |
| Converter.FormattedAgreesWithLib | wasm-riscv-online/www/index.js:110-139 | for a hex line below 2^32 the library reads the normalised word as the same value, and the front end's width test agrees with the library's |
| Converter.ProcessSingleInstruction | wasm-riscv-online/www/index.js:110-139 | the normalised word goes to the disassembler, whose error is thrown |
| Converter.RowOfLine | wasm-riscv-online/www/index.js:189-199 | one step of the line loop: the trimmed line and its result, or the error text when the disassembler throws |
| Converter.RowsAt | wasm-riscv-online/www/index.js:189-199 | row k of the two columns comes from line k alone |
| Converter.ConvertLines | wasm-riscv-online/www/index.js:185-199 | one row per non-blank line, in order; a line whose disassembly throws records its trimmed text and the error, and the other lines go on |
| Converter.PrepareText | wasm-riscv-online/www/index.js:161-178 | the text is trimmed and validated, and a byte stream is split into its words |
| Converter.StreamWordClean | wasm-riscv-online/www/index.js:97-102 | a word the splitter emits is a trimmed single line that normalisation leaves unchanged |
| Converter.StreamLines | wasm-riscv-online/www/index.js:178-185 | joining the emitted words with newlines and splitting into non-blank lines gives the words back |
| Converter.StreamRowInputs | wasm-riscv-online/www/index.js:185-199 | every row of a byte stream shows the emitted word itself, whatever the disassembler does with it |
| Converter.StreamConversion | wasm-riscv-online/www/index.js:169-199 | for an accepted byte stream the banner is kept, the input column lists the emitted words one row each, and those words give back the typed bytes in order, lower-cased |
| Converter.StreamFailure | wasm-riscv-online/www/index.js:169-178 | for a byte stream the splitter refuses, only the banner changes, and it carries the splitter's error |
| Converter.RefusedConversion | wasm-riscv-online/www/index.js:161-167 | for input the validation refuses, only the banner changes, and it carries the validation's verdict |
| Converter.HexConversion | wasm-riscv-online/www/index.js:185-199 | for hex lines the banner is kept and both columns have one row per line the validation counted |
| Converter.LibRow | wasm-riscv-online/www/index.js:110-139 | with the library as disassembler, a hex line below 2^32 shows its normalised word, which the library reads as that same number, and the library's disassembly of it |
| Converter.Converter.constructor | wasm-riscv-online/www/index.js:6 | no conversion is running, and the banner and both columns are empty |
| Converter.Converter.HandleConversion | wasm-riscv-online/www/index.js:158-220 | does nothing while a conversion is running; otherwise the banner and the two columns become what `AfterConversion` gives for the text, and the flag is lowered again |
| Converter.Converter.ShowConversion | wasm-riscv-online/www/index.js:180-219 | once the text is prepared: the banner when it stopped early; otherwise the flag is raised, the line loop fills the columns, and the flag is lowered |
| RustStr.Trim | wasm-riscv-online/src/asm/mod.rs:268 | `str::trim`: a result that is not empty neither starts nor ends with whitespace |
| RustStr.SplitWhitespace | wasm-riscv-online/src/parse/mod.rs:17 | `split_whitespace`: every word is non-empty and holds no whitespace |
| RustStr.Lines | wasm-riscv-online/src/lib.rs:50 | `str::lines`: no line holds a newline, and an empty text has no lines |
| RustStr.ScanValue | wasm-riscv-online/src/lib.rs:188 | the digit loop of `from_str_radix` succeeds exactly on digit strings whose value fits the bound, with that value, and fails on overflow with the overflow error |
| RustStr.FromStrRadixDenotes | wasm-riscv-online/src/lib.rs:188 | `from_str_radix` accepts exactly the texts that denote an integer in range, yields that integer, and reports `Empty` exactly for an empty text |
| RustStr.DecimalValue | wasm-riscv-online/src/parse/common.rs:17-38 | reading a number's decimal digits back in radix 10 gives the number |
| RustStr.HexFixedValue | wasm-riscv-online/src/lib.rs:38 | reading the `k` fixed hex digits of a number back gives the number when it fits in them |
| RustStr.LastHexDigitMod4 | wasm-riscv-online/www/index.js:122-125 | in radix 16 the value modulo 4 is decided by the last digit |
| ParseCommon.ImmSignedBitsInverse | wasm-riscv-online/src/parse/common.rs:40-45 | sign-extending the accepted pattern gives the value back |
| ParseRvI.UpperBits | wasm-riscv-online/src/parse/rv_i.rs:8-25 | the low 12 bits of the immediate `lui` and `auipc` build are zero |
| ParseRvI.ParseJalrMem | wasm-riscv-online/src/parse/rv_i.rs:35-41 | `jalr rd, imm(rs1)` is accepted exactly when the register and the memory operand parse, and carries both |
| ParseRvI.ParseRegRegImm | wasm-riscv-online/src/parse/rv_i.rs:108-126 | `rd, rs1, imm` is accepted exactly with three operands, two registers and a signed 12-bit immediate; a bad rd is reported first |
| ParseRvI.ParseRegRegReg | wasm-riscv-online/src/parse/rv_i.rs:149-171 | `rd, rs1, rs2` is accepted exactly with three operands that are all registers |
| ParseRvI.ParseMemory | wasm-riscv-online/src/parse/rv_i.rs:73-107 | loads go to `ParseLoad` and stores to `ParseStore`; an RV64-only load or store fails at 32 bits; a success is built by the arm asked for, and is RV64I exactly for the RV64-only mnemonics |
| ParseRvI.ParseArith | wasm-riscv-online/src/parse/rv_i.rs:108-208 | OP-IMM, the shifts, OP and the two `*w` groups each go to their own parser; a success is built by the arm asked for, is RV32I or RV64I, never RV64I at 32 bits, and the `*w` forms fail at 32 bits |
| Lib.EncodedOutput | wasm-riscv-online/src/lib.rs:51-58 | the output is a hex word exactly when the encoder succeeded, and it then reads back as the word; otherwise it starts with `Error: ` |
| Lib.Printed | wasm-riscv-online/src/lib.rs:117-135 | a decoded instruction, and only one, has a printed form, its disassembly |
| Parse.SameContent | wasm-riscv-online/src/parse/mod.rs:13-16 | two lines that keep the same text before their comments parse the same |
| Parse.TrimCommentHash | wasm-riscv-online/src/parse/common.rs:3-7 | everything from the first `#` on is dropped |
| Parse.TrimCommentSlashes | wasm-riscv-online/src/parse/common.rs:3-7 | everything from the first `//` on is dropped |
| Encode16.CaLogicFields | wasm-riscv-online/src/encode/process16.rs:144-159 | the seven `set_bits` calls of `encode_ca_logic` build `CaWord` |
| Converter.PadStartValue | wasm-riscv-online/www/index.js:97-102 | padding hex digits with zeros in front keeps them hex digits of the same value (zero for an empty text) |
| Converter.FormattedOfPadded | wasm-riscv-online/www/index.js:110-139 | a word already padded to the width its value calls for is left unchanged |
| Converter.InputToU32OfDigits | wasm-riscv-online/src/lib.rs:179-189 | the library reads `0x` and hex digits as the value they spell |
| Frontend.LoweredBytes | wasm-riscv-online/www/index.js:77 | lower-casing byte tokens keeps them byte tokens of the same value, now lower case |
| Chars.LowerHexDigit | wasm-riscv-online/www/index.js:77 | lower-casing keeps a hex digit a hex digit of the same value, in lower case |

## Left out

- **User-interface functions.** The DOM work of `www/index.js` is not modelled: `updateInputStatus`, `showError`, `highlightAssembly`, `handleClear`, `handleCopy`, `toggleHelp`, `loadExample`, the event listeners and the `greet`/`alert` binding.
  - The handler's result is the banner (`Notice`) and the two columns it would write.
- **Busy flag release.** `handleConversion` lowers the busy flag in a `setTimeout` callback. `Converter.Converter.HandleConversion` lowers it when it returns, so it does not model a second click arriving before the timer fires.
- **Outer `catch`.** The outer `catch` of `handleConversion` is not modelled, because nothing the model calls can throw there. The only exception the model carries is the disassembler's error, which the inner `catch` handles.
- **Carriage returns.** The replacement of `\r\n` by `\n` before the byte-stream split is not a step of the model, because `\r` is already whitespace to that split.
- **JavaScript numbers.** Numbers are not modelled as IEEE doubles. `Converter.AsDouble` keeps only what the 32-bit test needs: the value is exact below 2^53, and above 2^53 it is even.
- **Code that is not part of this model.** Four pieces come from code that is not part of this model: the 16-bit decoder `resolve_u16`, and the `to_string` renderers of RV32I, RV64I, RVC, RVF and Zicsr.
  - They are parameters (`Instr.Collaborators`).
  - Disassembly is proved to use them, or, for the atomic families, the modelled A-extension printer.
- **Floating point.** RVF instructions are decoded to a family with their fields, and nothing is stated about what they mean.
- **Panics.** Two Rust panics are preconditions rather than behaviour:
  - a memory operand with `)` before `(`, which makes the slice panic;
  - `-` applied to `i64::MIN`, which makes the multiplication overflow.
  - `ParseCommon.OperandsSafe`, `Parse.LineSafe` and `Lib.InputSafe` exclude these inputs, and every other input is handled.
- **Error messages.** The Chinese error messages are an error datatype with an English `Describe`. The model keeps which error is raised and where, not its wording.
- **Length-class errors.** `Lib.DisassembleAuto`'s error cases give the 32-bit answer, which is the line of the input's length class; the texts are not compared with the source's wording.
- Encode16.SetBits: that the field reads back and the other bits are kept is proved for every position, one lemma per width the encoder passes (1 to 5: `Encode16.SetBitsWidth1` to `SetBitsWidth5`). No lemma covers a variable width, or widths 6 to 15, which no caller uses. With both the width and the position variable, the proof runs out of the resource limit of 2,000,000 per proof that this project is verified under. Each encoder's `ensures` also ties its word to a word function.
- **Distinct opcodes.** That the 32-bit major opcodes are pairwise distinct is not stated; the decoder's dispatch does not rely on it.
- Encode16.EncodeSlli: the shift amount is masked to six bits and not checked, as in the source; no round trip through a 16-bit decoder is stated, because that decoder is not part of this model.
- Encode16.EncodeRvc: its result is proved to be `Encode16.RvcEncoding`'s, and the `Rvc*ReadsBack` lemmas read the immediates and registers of those words back with the ISA's layouts. Nothing is said about decoding them with `resolve_u16`, which is not part of this model.
- RiscvImm.Imm.LowU32: the `riscv::imm` module is not part of this model. An `Imm` or `Uimm` keeps the 32 bits it was built from, and `low_u32`/`low32` return those bits unchanged. Every encoder round trip relies on this. Any truncation or sign handling that `Imm::new` itself does is not captured.
- RustStr.ToLowercase: it lowercases ASCII letters only, while Rust's `to_lowercase` is Unicode-aware. So a mnemonic or register written with non-ASCII capitals is refused by the model but accepted by the source. For example, `EBREA` followed by the Kelvin sign K (U+212A) parses as `ebreak` in the source.
- Asm.ToRegister: its own contract gives only the name lengths. That the names are distinct and read back is stated by `Asm.ToRegisterDistinct` and `Asm.FromToRegister`.
- **Compressed mnemonics without a parser arm.** The compressed parser knows only `c.addi4spn`, `c.addi`, `c.li`, `c.nop` and the eight load/store forms. `c.slli`, `c.srli`, `c.srai`, `c.andi`, `c.and`, `c.mv`, `c.add`, `c.jr`, `c.jalr`, `c.j`, `c.jal`, `c.beqz` and `c.bnez` are `Unsupported` at parse time, as in the source, so the corrected routing of the last finding prints an error for them too.
- **Example lines of the assembler tests.** The expected words of `tests/asm_encode.rs` are stated at encoder level (`RoundTrip32.KnownWords32`, `RoundTrip64.KnownWords64`), and the parsing of such lines by the general theorems `Listing.OpImmLine` and `Parse.RvILine`. The concrete lines are not evaluated end to end, because evaluating the parser on a literal line costs more than the per-proof resource limit.
- Encode32.EncodeRv32i: its own contract says only that the word is a 32-bit encoding. What the word decodes to is stated by `RoundTrip32.RoundTripRv32i` (and `RoundTrip64.RoundTripRv64i` and `RoundTripZicsr.RoundTripCsr` for the other two encoders).

## Findings

| source | as written | input that shows it | evidently intended | confidence | as-written member | corrected member |
|---|---|---|---|---|---|---|
| wasm-riscv-online/src/encode/process16.rs:240 | `encode_clw` writes imm[5:3] at bits 13:11, over the funct3 written at bits 15:13 | `c.lw x8, 32(x8)`: funct3 becomes 011 (`c.ld`) and the ISA layout reads offset 0 | imm[5:3] at bits 12:10, funct3 010 kept | high, not executed | Encode16.ClwOffset32Misencoded | Encode16.ClwIsaRoundTrip |
| wasm-riscv-online/src/encode/process16.rs:265 | `encode_csw` writes imm[5:3] at bits 13:11, over funct3 | `c.sw x8, 32(x8)`: funct3 becomes 111 (`c.sd`) and the ISA layout reads offset 0 | imm[5:3] at bits 12:10, funct3 110 kept | high, not executed | Encode16.CswOffset32Misencoded | Encode16.CswIsaRoundTrip |
| wasm-riscv-online/src/encode/process16.rs:312 | `encode_cswsp` puts imm[6:3] in bits 12:9 | `c.swsp x8, 4(sp)`: imm[2] is lost and the ISA layout reads offset 0 | imm[5:2] in bits 12:9 | high, not executed | Encode16.CswspOffset4Misencoded | Encode16.CswspIsaRoundTrip |
| wasm-riscv-online/src/encode/process16.rs:382-384 | `encode_cldsp` puts imm[7:6] in bits 6:5 and imm[4:3] in bits 4:3 | `c.ldsp x8, 8(sp)`: the ISA layout reads offset 128 | imm[4:3] in bits 6:5 and imm[8:6] in bits 4:2 | high, not executed | Encode16.CldspOffset8Misencoded | Encode16.CldspIsaRoundTrip |
| wasm-riscv-online/src/lib.rs:51-58 | `assemble_with_xlen` (and `try_one` in `assemble_auto`) hands every parsed instruction to `encode_u32`, which refuses every compressed one (`encode/process32.rs:87`) | `c.addi a0, -1` at 32 bits: it parses, and the output is `Error: ` and the refusal, where `tests/asm_rvc_encode.rs:15-17` expects a `0x` word | a compressed instruction goes to `encode_u16` and its word is printed in the `0x` form | high, not executed | Listing.CompressedLineRefused | Listing.CompressedLineEncoded |

The corrected words are `Encode16.ClwWordIsa`, `Encode16.CswWordIsa`, `Encode16.CswspWordIsa` and `Encode16.CldspWordIsa`.

- `Encode16.ClwIsaKeepsAcceptedOffset`, `Encode16.CswIsaKeepsAcceptedOffset`, `Encode16.CswspIsaKeepsAcceptedOffset` and `Encode16.CldspIsaKeepsAcceptedOffset` prove that every offset the encoder accepts survives the corrected layout whole.
- `Encode16.RvcClwOffset32Misencoded` shows that `encode_rvc` itself returns the misencoded `c.lw` word.
- The corrected line output for compressed instructions is `Lib.LineOutputRvc` (with `Lib.AssembleLineRvc` for one line). `Lib.AssembleWithXlen` and `Lib.AssembleAuto` keep the behaviour as written, because that is what the program computes.
- The encoders `Encode16.EncodeClw`, `EncodeCsw`, `EncodeCswsp` and `EncodeCldsp` keep the layout as written, because that is what the program computes. No library entry point calls `encode_u16`, so these layouts never reach the assembler's output: `assemble_with_xlen` and `assemble_auto` refuse every compressed line outright (last row of the table).
