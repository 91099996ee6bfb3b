/** The handler interpreter (constable/language/execute.c:331-684), one
    instruction at a time. */
module Machine {
  import opened Lists
  import opened Words
  import opened Registers

  // The words of all compiled handlers, the cells functions are called through
  // (0: declared but not defined), and the stack position the handler started at.
  datatype Program = Program(h: Host, mem: seq<Word>, cells: Word -> nat, start: nat)

  // p and return addresses count words.
  datatype VM = VM(p: nat, stack: seq<Cell>, base: nat, world: World, cont: nat)

  // Outside: an instruction the modelled part of the language does not compile to.
  datatype Next = Go(vm: VM) | Done(result: Reg, world: World, stack: seq<Cell>, base: nat) | Outside

  function At(mem: seq<Word>, p: int): Word {
    if 0 <= p < |mem| then mem[p] else 0
  }

  // The word behind the instruction.
  function Operand(c: Program, s: VM): Word { At(c.mem, s.p + 1) }

  // The next instruction, size words on.
  function Past(s: VM, size: nat): VM { s.(p := s.p + size, cont := 0) }

  function Pushed(c: Program, s: VM, r: Reg): VM { s.(stack := s.stack + Enc(c.h, r)) }

  // The register on top of the stack, and the state without it.
  function Popped(c: Program, s: VM): (VM, Reg) {
    var (r, t) := RPop(c.h, s.world, s.stack);
    (s.(stack := t), r)
  }

  function Jumped(c: Program, s: VM): VM {
    s.(p := Jump(s.p + 1, Operand(c, s)), cont := 0)
  }

  // DEn: the result, over a count and that many registers.
  function DropArgs(c: Program, w: World, s: seq<Cell>, n: nat): seq<Cell>
    decreases n
  {
    if n == 0 then s else DropArgs(c, w, RPop(c.h, w, s).1, n - 1)
  }

  function Locals(s: VM): Cell { if 0 < s.base < |s.stack| then s.stack[s.base] else 0 }

  // (int)x: the operand of oARG is passed as an int.
  function Int32(x: Word): int {
    var y := x % 0x1_0000_0000;
    if y >= 0x8000_0000 then y - 0x1_0000_0000 else y
  }

  function PopArg(c: Program, w: World, s: seq<Cell>, n: nat): Reg
    decreases n
  {
    var (r, t) := RPop(c.h, w, s);
    if n == 0 then r else PopArg(c, w, t, n - 1)
  }

  // fn_getargsval: the i-th argument of the frame, counted from the first. The
  // count stands below the base and the return address.
  function ArgBelow(c: Program, w: World, frame: seq<Cell>, i: int): Option<Reg> {
    if i <= 0 then None else
    var below := Below(Below(frame));
    var n := Top(below) - i;
    if n < 0 then None else Some(c.h.imm(w, PopArg(c, w, Below(below), n)))
  }

  function GetArg(c: Program, s: VM, i: int): Option<Reg>
    requires s.base <= |s.stack|
  {
    ArgBelow(c, s.world, s.stack[..s.base], i)
  }

  // oARG. For an argument that does not exist the register keeps what it held;
  // the model leaves open what that is.
  function LoadArg(c: Program, s: VM): Reg {
    var r := if s.base <= |s.stack| then GetArg(c, s, Int32(Operand(c, s))) else None;
    if r.Some? then r.value else c.h.stale(s.world)
  }

  // FET and UPD: an answer that is still to come suspends the handler at the
  // same instruction.
  function Transfer(c: Program, s: VM, fetch: bool): VM {
    var o := c.h.find(s.world, Locals(s), Operand(c, s));
    if o.None? then Past(Pushed(c, s, IntReg(0)), 2) else
    var (w, i) := c.h.transfer(s.world, fetch, s.cont, o.value);
    if i > 0 then s.(world := c.h.wake(w), cont := i)
    else Past(Pushed(c, s.(world := w), IntReg(if i < 0 then 0 else 1)), 2)
  }

  function Call(c: Program, s: VM): VM {
    var entry := c.cells(Operand(c, s));
    if entry == 0 then Past(Pushed(c, s, IntReg(0)), 2) else
    var pos := |s.stack| + 2;
    VM(entry, s.stack + [s.p + 2, s.base, 0], pos, s.world, 0)
  }

  // oRET with the result popped into r: back to the caller, or the end.
  function Leave(c: Program, s: VM, r: Reg): Next {
    var w := if Locals(s) == 0 then s.world else c.h.freeVars(s.world, Locals(s));
    var t := Below(s.stack);
    var u := Below(t);
    if |u| <= c.start then Done(r, w, u, Top(t))
    else Go(VM(Top(u), Below(u) + Enc(c.h, r), Top(t), w, 0))
  }

  function Return(c: Program, s: VM): Next {
    var (t, r) := Popped(c, s);
    Leave(c, t, c.h.imm(t.world, r))
  }

  // Two registers: the right one popped first.
  function Binary(c: Program, s: VM, op: BinOp): VM {
    var (a, right) := Popped(c, s);
    var (b, left) := Popped(c, a);
    var (w, r) := c.h.alu(s.world, op, left, right);
    Past(Pushed(c, b.(world := w), r), 1)
  }

  function Store(c: Program, s: VM): VM {
    var (a, right) := Popped(c, s);
    var (b, left) := Popped(c, a);
    Past(Pushed(c, b.(world := c.h.sto(s.world, left, right)), left), 1)
  }

  function Swap(c: Program, s: VM): VM {
    var (a, top) := Popped(c, s);
    var (b, second) := Popped(c, a);
    Past(Pushed(c, Pushed(c, b, top), second), 1)
  }

  function DeleteArgs(c: Program, s: VM): VM {
    var (a, r) := Popped(c, s);
    var n := Top(a.stack);
    Past(Pushed(c, a.(stack := DropArgs(c, s.world, Below(a.stack), n)), r), 1)
  }

  // What NOT, NEG and IMM make of a register.
  function Unary(h: Host, w: World, op: Op, r: Reg): (World, Reg) {
    if op.NOT? then h.not(w, r)
    else if op.NEG? then h.neg(w, h.imm(w, r))
    else (w, h.imm(w, r))
  }

  function Replace(c: Program, s: VM, op: Op): VM {
    var (a, r) := Popped(c, s);
    var (w, v) := Unary(c.h, s.world, op, r);
    Past(Pushed(c, a.(world := w), v), 1)
  }

  function Copy(c: Program, s: VM): VM {
    var (a, r) := Popped(c, s);
    Past(Pushed(c, Pushed(c, a, r), r), 1)
  }

  function Branch(c: Program, s: VM, onZero: bool): VM {
    var (a, r) := Popped(c, s);
    if NonZero(c.h, s.world, r) == onZero then Past(a, 2) else Jumped(c, a)
  }

  function Load(c: Program, s: VM, attr: Option<Word>, size: nat): VM {
    Past(Pushed(c, s, c.h.load(s.world, Locals(s), Operand(c, s), attr)), size)
  }

  function Select(c: Program, s: VM): VM {
    var (a, r) := Popped(c, s);
    Past(Pushed(c, a, AttrOf(c.h, s.world, r, Operand(c, s))), 2)
  }

  function Exec(c: Program, s: VM, op: Op): Next {
    match op
    case NOP => Go(Past(s, 1))
    case LD0 => Go(Past(Pushed(c, s, IntReg(0)), 1))
    case LD1 => Go(Past(Pushed(c, s, IntReg(1)), 1))
    case LDI => Go(Past(s.(stack := s.stack + [Operand(c, s)]), 2))
    case LTI => Go(Past(s.(stack := s.stack + [Registers.LTI]), 1))
    case LTS => Go(Past(s.(stack := s.stack + [Registers.LTS]), 1))
    case LTP => Go(Past(s.(stack := s.stack + [Registers.LTP]), 1))
    case DUP => Go(Copy(c, s))
    case SWP => Go(Swap(c, s))
    case DEL => Go(Past(Popped(c, s).0, 1))
    case DEn => Go(DeleteArgs(c, s))
    case IMM => Go(Replace(c, s, IMM))
    case NOT => Go(Replace(c, s, NOT))
    case NEG => Go(Replace(c, s, NEG))
    case STO => Go(Store(c, s))
    case FET => Go(Transfer(c, s, true))
    case UPD => Go(Transfer(c, s, false))
    case LDV => Go(Load(c, s, None, 2))
    case LDS => Go(Load(c, s, Some(At(c.mem, s.p + 2)), 3))
    case ARG => Go(Past(Pushed(c, s, LoadArg(c, s)), 2))
    case ATR => Go(Select(c, s))
    case Alu(b) => Go(Binary(c, s, b))
    case JR => Go(Jumped(c, s))
    case JIZ => Go(Branch(c, s, true))
    case JNZ => Go(Branch(c, s, false))
    case JSR => Go(Call(c, s))
    case RET => Return(c, s)
    case _ => Outside
  }

  function Step(c: Program, s: VM): Next {
    var op := Decode(At(c.mem, s.p));
    if op.None? then Go(Past(s, 1)) else Exec(c, s, op.value)
  }

  function Run(c: Program, s: VM, n: nat): Next
    decreases n
  {
    if n == 0 then Go(s) else
    match Step(c, s)
    case Go(t) => Run(c, t, n - 1)
    case Done(r, w, u, b) => Done(r, w, u, b)
    case Outside => Outside
  }

  lemma {:induction false} RunOn(c: Program, s: VM, n: nat, m: nat)
    requires Run(c, s, n).Go?
    ensures Run(c, s, n + m) == Run(c, Run(c, s, n).vm, m)
    decreases n
  {
    hide Step;
    if n > 0 { RunOn(c, Step(c, s).vm, n - 1, m); }
  }

  lemma Stepped(c: Program, s: VM, op: Op)
    requires At(c.mem, s.p) == Opcode(op)
    ensures Step(c, s) == Exec(c, s, op)
  {
    hide Decode, Opcode, Exec;
    DecodeOpcode(op);
  }
}
