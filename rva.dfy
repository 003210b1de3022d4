/**
 * The A (atomic) extension: the word, double-word and quad-word forms and
 * the text each prints. `lr` prints rd and rs1; `sc` prints rs2 and rs1;
 * the word AMOs print rs2 and rs1 only, while the double- and quad-word
 * AMOs print rd, rs2 and rs1 with " ," after rd.
 */
module Rva {
  import opened Asm
  import opened Text

  datatype RV32A =
    | Lrw(r: RType) | Scw(r: RType)
    | Amoswapw(r: RType) | Amoaddw(r: RType) | Amoxorw(r: RType) | Amoandw(r: RType) | Amoorw(r: RType)
    | Amominw(r: RType) | Amomaxw(r: RType) | Amominuw(r: RType) | Amomaxuw(r: RType)

  datatype RV64A =
    | Lrd(r: RType) | Scd(r: RType)
    | Amoswapd(r: RType) | Amoaddd(r: RType) | Amoxord(r: RType) | Amoandd(r: RType) | Amoord(r: RType)
    | Amomind(r: RType) | Amomaxd(r: RType) | Amominud(r: RType) | Amomaxud(r: RType)

  datatype RV128A =
    | Lrq(r: RType) | Scq(r: RType)
    | Amoswapq(r: RType) | Amoaddq(r: RType) | Amoxorq(r: RType) | Amoandq(r: RType) | Amoorq(r: RType)
    | Amominq(r: RType) | Amomaxq(r: RType) | Amominuq(r: RType) | Amomaxuq(r: RType)

  /** The eleven operations an A-extension instruction can name, independent of its width. */
  datatype AmoOp = Lr | Sc | Swap | AddOp | XorOp | AndOp | OrOp | MinOp | MaxOp | MinuOp | MaxuOp

  /** The mnemonic stem of an operation: "lr", "sc" or "amo<op>". */
  function Stem(op: AmoOp): string {
    match op
    case Lr => "lr"
    case Sc => "sc"
    case Swap => "amoswap"
    case AddOp => "amoadd"
    case XorOp => "amoxor"
    case AndOp => "amoand"
    case OrOp => "amoor"
    case MinOp => "amomin"
    case MaxOp => "amomax"
    case MinuOp => "amominu"
    case MaxuOp => "amomaxu"
  }

  function OpOf32(a: RV32A): AmoOp {
    match a
    case Lrw(_) => Lr case Scw(_) => Sc case Amoswapw(_) => Swap case Amoaddw(_) => AddOp
    case Amoxorw(_) => XorOp case Amoandw(_) => AndOp case Amoorw(_) => OrOp case Amominw(_) => MinOp
    case Amomaxw(_) => MaxOp case Amominuw(_) => MinuOp case Amomaxuw(_) => MaxuOp
  }

  function OpOf64(a: RV64A): AmoOp {
    match a
    case Lrd(_) => Lr case Scd(_) => Sc case Amoswapd(_) => Swap case Amoaddd(_) => AddOp
    case Amoxord(_) => XorOp case Amoandd(_) => AndOp case Amoord(_) => OrOp case Amomind(_) => MinOp
    case Amomaxd(_) => MaxOp case Amominud(_) => MinuOp case Amomaxud(_) => MaxuOp
  }

  function OpOf128(a: RV128A): AmoOp {
    match a
    case Lrq(_) => Lr case Scq(_) => Sc case Amoswapq(_) => Swap case Amoaddq(_) => AddOp
    case Amoxorq(_) => XorOp case Amoandq(_) => AndOp case Amoorq(_) => OrOp case Amominq(_) => MinOp
    case Amomaxq(_) => MaxOp case Amominuq(_) => MinuOp case Amomaxuq(_) => MaxuOp
  }

  /** The mnemonic and the space after it: the stem, '.', the width letter `w` ('w', 'd' or 'q'). */
  function Head(op: AmoOp, w: char): string {
    Stem(op) + ['.', w, ' ']
  }

  /**
   * What an instruction prints, stated once for all widths: `lr` prints rd
   * and rs1, `sc` and (when not `wide`) an AMO print rs2 and rs1, a `wide`
   * AMO prints rd, " ,", rs2, ", ", rs1.
   */
  function Printed(op: AmoOp, w: char, r: RType, wide: bool): string {
    if op == Lr then Head(op, w) + ToRegister(r.rd) + ", " + ToRegister(r.rs1)
    else if op == Sc || !wide then Head(op, w) + ToRegister(r.rs2) + ", " + ToRegister(r.rs1)
    else Head(op, w) + ToRegister(r.rd) + " ," + ToRegister(r.rs2) + ", " + ToRegister(r.rs1)
  }

  /** `RV32A::to_string`. */
  function ToString32(a: RV32A): string
  {
    match a
    case Lrw(r) => "lr.w " + ToRegister(r.rd) + ", " + ToRegister(r.rs1)
    case Scw(r) => "sc.w " + ToRegister(r.rs2) + ", " + ToRegister(r.rs1)
    case Amoswapw(r) => "amoswap.w " + ToRegister(r.rs2) + ", " + ToRegister(r.rs1)
    case Amoaddw(r) => "amoadd.w " + ToRegister(r.rs2) + ", " + ToRegister(r.rs1)
    case Amoxorw(r) => "amoxor.w " + ToRegister(r.rs2) + ", " + ToRegister(r.rs1)
    case Amoandw(r) => "amoand.w " + ToRegister(r.rs2) + ", " + ToRegister(r.rs1)
    case Amoorw(r) => "amoor.w " + ToRegister(r.rs2) + ", " + ToRegister(r.rs1)
    case Amominw(r) => "amomin.w " + ToRegister(r.rs2) + ", " + ToRegister(r.rs1)
    case Amomaxw(r) => "amomax.w " + ToRegister(r.rs2) + ", " + ToRegister(r.rs1)
    case Amominuw(r) => "amominu.w " + ToRegister(r.rs2) + ", " + ToRegister(r.rs1)
    case Amomaxuw(r) => "amomaxu.w " + ToRegister(r.rs2) + ", " + ToRegister(r.rs1)
  }

  /** `RV64A::to_string`. */
  function ToString64(a: RV64A): string
  {
    match a
    case Lrd(r) => "lr.d " + ToRegister(r.rd) + ", " + ToRegister(r.rs1)
    case Scd(r) => "sc.d " + ToRegister(r.rs2) + ", " + ToRegister(r.rs1)
    case Amoswapd(r) => "amoswap.d " + ToRegister(r.rd) + " ," + ToRegister(r.rs2) + ", " + ToRegister(r.rs1)
    case Amoaddd(r) => "amoadd.d " + ToRegister(r.rd) + " ," + ToRegister(r.rs2) + ", " + ToRegister(r.rs1)
    case Amoxord(r) => "amoxor.d " + ToRegister(r.rd) + " ," + ToRegister(r.rs2) + ", " + ToRegister(r.rs1)
    case Amoandd(r) => "amoand.d " + ToRegister(r.rd) + " ," + ToRegister(r.rs2) + ", " + ToRegister(r.rs1)
    case Amoord(r) => "amoor.d " + ToRegister(r.rd) + " ," + ToRegister(r.rs2) + ", " + ToRegister(r.rs1)
    case Amomind(r) => "amomin.d " + ToRegister(r.rd) + " ," + ToRegister(r.rs2) + ", " + ToRegister(r.rs1)
    case Amomaxd(r) => "amomax.d " + ToRegister(r.rd) + " ," + ToRegister(r.rs2) + ", " + ToRegister(r.rs1)
    case Amominud(r) => "amominu.d " + ToRegister(r.rd) + " ," + ToRegister(r.rs2) + ", " + ToRegister(r.rs1)
    case Amomaxud(r) => "amomaxu.d " + ToRegister(r.rd) + " ," + ToRegister(r.rs2) + ", " + ToRegister(r.rs1)
  }

  /** `RV128A::to_string`. */
  function ToString128(a: RV128A): string
  {
    match a
    case Lrq(r) => "lr.q " + ToRegister(r.rd) + ", " + ToRegister(r.rs1)
    case Scq(r) => "sc.q " + ToRegister(r.rs2) + ", " + ToRegister(r.rs1)
    case Amoswapq(r) => "amoswap.q " + ToRegister(r.rd) + " ," + ToRegister(r.rs2) + ", " + ToRegister(r.rs1)
    case Amoaddq(r) => "amoadd.q " + ToRegister(r.rd) + " ," + ToRegister(r.rs2) + ", " + ToRegister(r.rs1)
    case Amoxorq(r) => "amoxor.q " + ToRegister(r.rd) + " ," + ToRegister(r.rs2) + ", " + ToRegister(r.rs1)
    case Amoandq(r) => "amoand.q " + ToRegister(r.rd) + " ," + ToRegister(r.rs2) + ", " + ToRegister(r.rs1)
    case Amoorq(r) => "amoor.q " + ToRegister(r.rd) + " ," + ToRegister(r.rs2) + ", " + ToRegister(r.rs1)
    case Amominq(r) => "amomin.q " + ToRegister(r.rd) + " ," + ToRegister(r.rs2) + ", " + ToRegister(r.rs1)
    case Amomaxq(r) => "amomax.q " + ToRegister(r.rd) + " ," + ToRegister(r.rs2) + ", " + ToRegister(r.rs1)
    case Amominuq(r) => "amominu.q " + ToRegister(r.rd) + " ," + ToRegister(r.rs2) + ", " + ToRegister(r.rs1)
    case Amomaxuq(r) => "amomaxu.q " + ToRegister(r.rd) + " ," + ToRegister(r.rs2) + ", " + ToRegister(r.rs1)
  }

  /** Every word form prints as its operation's stem, ".w", and rd,rs1 (lr) or rs2,rs1 (all others). */
  lemma ToString32Printed(a: RV32A)
    ensures ToString32(a) == Printed(OpOf32(a), 'w', a.r, false)
  {
    match a
    case Lrw(_) => assert Head(Lr, 'w') == "lr.w ";
    case Scw(_) => assert Head(Sc, 'w') == "sc.w ";
    case Amoswapw(_) => assert Head(Swap, 'w') == "amoswap.w ";
    case Amoaddw(_) => assert Head(AddOp, 'w') == "amoadd.w ";
    case Amoxorw(_) => assert Head(XorOp, 'w') == "amoxor.w ";
    case Amoandw(_) => assert Head(AndOp, 'w') == "amoand.w ";
    case Amoorw(_) => assert Head(OrOp, 'w') == "amoor.w ";
    case Amominw(_) => assert Head(MinOp, 'w') == "amomin.w ";
    case Amomaxw(_) => assert Head(MaxOp, 'w') == "amomax.w ";
    case Amominuw(_) => assert Head(MinuOp, 'w') == "amominu.w ";
    case Amomaxuw(_) => assert Head(MaxuOp, 'w') == "amomaxu.w ";
  }

  /** Every double-word form prints as its operation's stem, ".d", and its operands, rd first for an AMO. */
  lemma ToString64Printed(a: RV64A)
    ensures ToString64(a) == Printed(OpOf64(a), 'd', a.r, true)
  {
    if a.Lrd? || a.Scd? || a.Amoswapd? || a.Amoaddd? || a.Amoxord? || a.Amoandd? {
      ToString64PrintedFirst(a);
    } else {
      ToString64PrintedRest(a);
    }
  }

  lemma ToString64PrintedFirst(a: RV64A)
    requires a.Lrd? || a.Scd? || a.Amoswapd? || a.Amoaddd? || a.Amoxord? || a.Amoandd?
    ensures ToString64(a) == Printed(OpOf64(a), 'd', a.r, true)
  {
    match a
    case Lrd(_) => assert Head(Lr, 'd') == "lr.d ";
    case Scd(_) => assert Head(Sc, 'd') == "sc.d ";
    case Amoswapd(_) => assert Head(Swap, 'd') == "amoswap.d ";
    case Amoaddd(_) => assert Head(AddOp, 'd') == "amoadd.d ";
    case Amoxord(_) => assert Head(XorOp, 'd') == "amoxor.d ";
    case Amoandd(_) => assert Head(AndOp, 'd') == "amoand.d ";
  }

  lemma ToString64PrintedRest(a: RV64A)
    requires !(a.Lrd? || a.Scd? || a.Amoswapd? || a.Amoaddd? || a.Amoxord? || a.Amoandd?)
    ensures ToString64(a) == Printed(OpOf64(a), 'd', a.r, true)
  {
    match a
    case Amoord(_) => assert Head(OrOp, 'd') == "amoor.d ";
    case Amomind(_) => assert Head(MinOp, 'd') == "amomin.d ";
    case Amomaxd(_) => assert Head(MaxOp, 'd') == "amomax.d ";
    case Amominud(_) => assert Head(MinuOp, 'd') == "amominu.d ";
    case Amomaxud(_) => assert Head(MaxuOp, 'd') == "amomaxu.d ";
  }

  /** Every quad-word form prints as its operation's stem, ".q", and its operands, rd first for an AMO. */
  lemma ToString128Printed(a: RV128A)
    ensures ToString128(a) == Printed(OpOf128(a), 'q', a.r, true)
  {
    if a.Lrq? || a.Scq? || a.Amoswapq? || a.Amoaddq? || a.Amoxorq? || a.Amoandq? {
      ToString128PrintedFirst(a);
    } else {
      ToString128PrintedRest(a);
    }
  }

  lemma ToString128PrintedFirst(a: RV128A)
    requires a.Lrq? || a.Scq? || a.Amoswapq? || a.Amoaddq? || a.Amoxorq? || a.Amoandq?
    ensures ToString128(a) == Printed(OpOf128(a), 'q', a.r, true)
  {
    match a
    case Lrq(_) => assert Head(Lr, 'q') == "lr.q ";
    case Scq(_) => assert Head(Sc, 'q') == "sc.q ";
    case Amoswapq(_) => assert Head(Swap, 'q') == "amoswap.q ";
    case Amoaddq(_) => assert Head(AddOp, 'q') == "amoadd.q ";
    case Amoxorq(_) => assert Head(XorOp, 'q') == "amoxor.q ";
    case Amoandq(_) => assert Head(AndOp, 'q') == "amoand.q ";
  }

  lemma ToString128PrintedRest(a: RV128A)
    requires !(a.Lrq? || a.Scq? || a.Amoswapq? || a.Amoaddq? || a.Amoxorq? || a.Amoandq?)
    ensures ToString128(a) == Printed(OpOf128(a), 'q', a.r, true)
  {
    match a
    case Amoorq(_) => assert Head(OrOp, 'q') == "amoor.q ";
    case Amominq(_) => assert Head(MinOp, 'q') == "amomin.q ";
    case Amomaxq(_) => assert Head(MaxOp, 'q') == "amomax.q ";
    case Amominuq(_) => assert Head(MinuOp, 'q') == "amominu.q ";
    case Amomaxuq(_) => assert Head(MaxuOp, 'q') == "amomaxu.q ";
  }

  /** Every printed A-extension instruction begins with its mnemonic and a space. */
  lemma PrintedStartsWithHead(op: AmoOp, w: char, r: RType, wide: bool)
    ensures StartsWith(Printed(op, w, r, wide), Head(op, w))
  {
    var h := Head(op, w);
    var p := Printed(op, w, r, wide);
    assert p[..|h|] == h;
  }

  /** A store-conditional never prints its rd: two operands differing only in rd print alike, at every width. */
  lemma ScIgnoresRd(r: RType, r': RType)
    requires r.rs1 == r'.rs1 && r.rs2 == r'.rs2
    ensures ToString32(Scw(r)) == ToString32(Scw(r'))
    ensures ToString64(Scd(r)) == ToString64(Scd(r'))
    ensures ToString128(Scq(r)) == ToString128(Scq(r'))
  {
  }

  /** A word AMO prints neither rd nor funct fields; the double- and quad-word forms do print rd. */
  lemma WordAmoIgnoresRd(a: RV32A, r': RType)
    requires !a.Lrw? && a.r.rs1 == r'.rs1 && a.r.rs2 == r'.rs2
    ensures ToString32(a) == ToString32(a.(r := r'))
  {
  }
}
