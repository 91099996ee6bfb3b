/** Machine words and the instruction set of the handler interpreter
    (constable/language/language.h:74-137). */
module Words {
  import opened Lists

  const WORD_LIMIT: int := 0x1_0000_0000_0000_0000

  // Number of addressable words: uintptr_t pointers step by eight bytes.
  const ADDRESS_LIMIT: int := 0x2000_0000_0000_0000

  // uintptr_t / unsigned long
  type Word = w: int | 0 <= w < WORD_LIMIT witness 0

  // The label reference stored in the word at position pos: the unsigned
  // difference between the label and the word after the reference.
  function Offset(target: int, pos: int): (w: Word) {
    (target - (pos + 1)) % WORD_LIMIT
  }

  // p += *p + 1, in words.
  function Jump(p: int, w: Word): nat {
    (p + w + 1) % ADDRESS_LIMIT
  }

  // The reference the back-patcher stores and the jump of the interpreter are inverse.
  lemma JumpLands(target: int, pos: int)
    requires 0 <= target < ADDRESS_LIMIT
    ensures Jump(pos, Offset(target, pos)) == target
  {
    var d := target - (pos + 1);
    var w := Offset(target, pos);
    var k := (d - w) / WORD_LIMIT;
    assert d == k * WORD_LIMIT + w;
    assert pos + w + 1 == target - (8 * k) * ADDRESS_LIMIT;
    ModCancel(target, -(8 * k), ADDRESS_LIMIT);
  }

  lemma ModCancel(x: int, k: int, m: int)
    requires m > 0 && 0 <= x < m
    ensures (x + k * m) % m == x
  {
    var q, r := (x + k * m) / m, (x + k * m) % m;
    assert (q - k) * m == x - r;
    if q - k >= 1 || q - k <= -1 {
      assert false;
    }
  }

  // Binary operators, in the order the interpreter relies on (oADD .. oXOR).
  datatype BinOp =
    | Add | Sub | Mul | Div | Mod | Shl | Shr
    | Lt | Gt | Le | Ge | Eq | Ne | Or | And | Xor

  datatype Op =
    | NOP | LD0 | LD1 | LDI | LTI | LTS | LTP | STO | SWP | DEL | DEn | IMM
    | LDC | LDV | LDS | ATR | NEW | ALI | VRL | VRT | TOF | COF | S2C | SCS | SCD
    | ARG | DUP | Alu(op: BinOp) | NOT | NEG | JR | JIZ | JNZ | JSR | RET
    | BIN | FET | UPD

  function BinIndex(b: BinOp): nat {
    match b
    case Add => 0 case Sub => 1 case Mul => 2 case Div => 3 case Mod => 4
    case Shl => 5 case Shr => 6 case Lt => 7 case Gt => 8 case Le => 9
    case Ge => 10 case Eq => 11 case Ne => 12 case Or => 13 case And => 14
    case Xor => 15
  }

  const FIRST_OPCODE: Word := 0x2100

  function OpIndex(op: Op): nat {
    match op
    case NOP => 0 case LD0 => 1 case LD1 => 2 case LDI => 3 case LTI => 4
    case LTS => 5 case LTP => 6 case STO => 7 case SWP => 8 case DEL => 9
    case DEn => 10 case IMM => 11 case LDC => 12 case LDV => 13 case LDS => 14
    case ATR => 15 case NEW => 16 case ALI => 17 case VRL => 18 case VRT => 19
    case TOF => 20 case COF => 21 case S2C => 22 case SCS => 23 case SCD => 24
    case ARG => 25 case DUP => 26 case Alu(b) => 27 + BinIndex(b)
    case NOT => 43 case NEG => 44 case JR => 45 case JIZ => 46 case JNZ => 47
    case JSR => 48 case RET => 49 case BIN => 50 case FET => 51 case UPD => 52
  }

  function Opcode(op: Op): Word {
    FIRST_OPCODE + OpIndex(op)
  }

  // The instruction a word names, if any.
  function Decode(w: Word): Option<Op> {
    if w == FIRST_OPCODE + 0 then Some(NOP)
    else if w == FIRST_OPCODE + 1 then Some(LD0)
    else if w == FIRST_OPCODE + 2 then Some(LD1)
    else if w == FIRST_OPCODE + 3 then Some(LDI)
    else if w == FIRST_OPCODE + 4 then Some(LTI)
    else if w == FIRST_OPCODE + 5 then Some(LTS)
    else if w == FIRST_OPCODE + 6 then Some(LTP)
    else if w == FIRST_OPCODE + 7 then Some(STO)
    else if w == FIRST_OPCODE + 8 then Some(SWP)
    else if w == FIRST_OPCODE + 9 then Some(DEL)
    else if w == FIRST_OPCODE + 10 then Some(DEn)
    else if w == FIRST_OPCODE + 11 then Some(IMM)
    else if w == FIRST_OPCODE + 12 then Some(LDC)
    else if w == FIRST_OPCODE + 13 then Some(LDV)
    else if w == FIRST_OPCODE + 14 then Some(LDS)
    else if w == FIRST_OPCODE + 15 then Some(ATR)
    else if w == FIRST_OPCODE + 16 then Some(NEW)
    else if w == FIRST_OPCODE + 17 then Some(ALI)
    else if w == FIRST_OPCODE + 18 then Some(VRL)
    else if w == FIRST_OPCODE + 19 then Some(VRT)
    else if w == FIRST_OPCODE + 20 then Some(TOF)
    else if w == FIRST_OPCODE + 21 then Some(COF)
    else if w == FIRST_OPCODE + 22 then Some(S2C)
    else if w == FIRST_OPCODE + 23 then Some(SCS)
    else if w == FIRST_OPCODE + 24 then Some(SCD)
    else if w == FIRST_OPCODE + 25 then Some(ARG)
    else if w == FIRST_OPCODE + 26 then Some(DUP)
    else if w == FIRST_OPCODE + 27 then Some(Alu(Add))
    else if w == FIRST_OPCODE + 28 then Some(Alu(Sub))
    else if w == FIRST_OPCODE + 29 then Some(Alu(Mul))
    else if w == FIRST_OPCODE + 30 then Some(Alu(Div))
    else if w == FIRST_OPCODE + 31 then Some(Alu(Mod))
    else if w == FIRST_OPCODE + 32 then Some(Alu(Shl))
    else if w == FIRST_OPCODE + 33 then Some(Alu(Shr))
    else if w == FIRST_OPCODE + 34 then Some(Alu(Lt))
    else if w == FIRST_OPCODE + 35 then Some(Alu(Gt))
    else if w == FIRST_OPCODE + 36 then Some(Alu(Le))
    else if w == FIRST_OPCODE + 37 then Some(Alu(Ge))
    else if w == FIRST_OPCODE + 38 then Some(Alu(Eq))
    else if w == FIRST_OPCODE + 39 then Some(Alu(Ne))
    else if w == FIRST_OPCODE + 40 then Some(Alu(Or))
    else if w == FIRST_OPCODE + 41 then Some(Alu(And))
    else if w == FIRST_OPCODE + 42 then Some(Alu(Xor))
    else if w == FIRST_OPCODE + 43 then Some(NOT)
    else if w == FIRST_OPCODE + 44 then Some(NEG)
    else if w == FIRST_OPCODE + 45 then Some(JR)
    else if w == FIRST_OPCODE + 46 then Some(JIZ)
    else if w == FIRST_OPCODE + 47 then Some(JNZ)
    else if w == FIRST_OPCODE + 48 then Some(JSR)
    else if w == FIRST_OPCODE + 49 then Some(RET)
    else if w == FIRST_OPCODE + 50 then Some(BIN)
    else if w == FIRST_OPCODE + 51 then Some(FET)
    else if w == FIRST_OPCODE + 52 then Some(UPD)
    else None
  }

  // Distinct instructions have distinct opcodes: a word names exactly the
  // instruction that was written into it.
  lemma DecodeOpcode(op: Op)
    ensures Decode(Opcode(op)) == Some(op)
  {
    match op {
      case Alu(b) => match b { case Add => case _ => }
      case _ =>
    }
  }
}
