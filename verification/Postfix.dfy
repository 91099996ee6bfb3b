/** The back-patcher actions of a tree: what the output symbols of the grammar
    rows spell for it. */
module Postfix {
  import opened Lists
  import opened Words
  import opened Engine
  import opened Source

  type Acts = List<Action>

  function Op1(op: Op, more: Acts): Acts { Cons(Put(Opcode(op)), more) }

  function Op2(op: Op, w: Word, more: Acts): Acts { Cons(Put(Opcode(op)), Cons(Put(w), more)) }

  function OpRef(op: Op, typ: nat, lab: nat, more: Acts): Acts {
    Cons(Put(Opcode(op)), Cons(PutRef(typ, lab), more))
  }

  function Incremented(op: BinOp, more: Acts): Acts {
    Op1(DUP, Op1(LD1, Op1(Alu(op), Op1(STO, more))))
  }

  // x++ leaves the old value: copy it, then update below the copy.
  function OldAndIncremented(op: BinOp, more: Acts): Acts {
    Op1(DUP, Op1(IMM, Op1(SWP, Incremented(op, Op1(DEL, more)))))
  }

  // The end of a chain of && (jump is JIZ, all is LD1) or || (JNZ, LD0).
  function ChainEnd(jump: Op, all: Op, some: Op, more: Acts): Acts {
    OpRef(jump, 0xf, 1, Op1(all, OpRef(JR, 0xf, 2, Cons(SetPos(1), Op1(some, Cons(SetPos(2), Cons(SectEnd, more)))))))
  }

  // The jumps and labels around the branches of ?: and if.
  function TestStart(typ: nat, more: Acts): Acts { Cons(SectStart(typ), OpRef(JIZ, typ, 1, more)) }

  function TestElse(typ: nat, more: Acts): Acts { OpRef(JR, typ, 2, Cons(SetPos(1), more)) }

  function TestEnd(lab: nat, more: Acts): Acts { Cons(SetPos(lab), Cons(SectEnd, more)) }

  function CallStart(f: Word, more: Acts): Acts { Cons(SectStart(4), Cons(SetData(1, f), more)) }

  function CallEnd(more: Acts): Acts {
    OpRef(LDI, 4, 0, OpRef(JSR, 4, 1, Op1(DEn, Cons(SectEnd, more))))
  }

  // The actions of e, in front of more actions.
  function Spell(e: Expr, more: Acts): Acts
    decreases e, 1
  {
    match e
    case Num(n) => Op2(LDI, n, Op1(LTI, more))
    case Str(s) => Op2(LDI, s, Op1(LTS, more))
    case Path(p) => Op2(LDI, p, Op1(LTP, more))
    case Var(x) => Op2(LDV, x, more)
    case Field(x, a) => Op2(LDS, x, Cons(Put(a), more))
    case Arg(i) => Op2(ARG, i, more)
    case ArgField(i, a) => Op2(ARG, i, Op2(ATR, a, more))
    case Fetch(x) => Op2(FET, x, more)
    case Update(x) => Op2(UPD, x, more)
    case Call(f, args) =>
      CallStart(f, SpellArgs(args, CallEnd(more)))
    case CallField(f, args, a) =>
      CallStart(f, SpellArgs(args, CallEnd(Op2(ATR, a, more))))
    case Paren(a) => Spell(a, more)
    case Not(a) => Spell(a, Op1(NOT, more))
    case Neg(a) => Spell(a, Op1(NEG, more))
    case Minus(a) => Op1(LD0, Spell(a, Op1(Alu(Sub), more)))
    case PreInc(a) => Spell(a, Incremented(Add, more))
    case PreDec(a) => Spell(a, Incremented(Sub, more))
    case PostInc(a) => Spell(a, OldAndIncremented(Add, more))
    case PostDec(a) => Spell(a, OldAndIncremented(Sub, more))
    case Bin(op, l, r) => Spell(l, Spell(r, Op1(Alu(op), more)))
    case AndE(_, _) => SpellAnd(e, ChainEnd(JIZ, LD1, LD0, more))
    case XorE(l, r) => Spell(l, Op1(NOT, Spell(r, Op1(NOT, Op1(Alu(Ne), more)))))
    case OrE(_, _) => SpellOr(e, ChainEnd(JNZ, LD0, LD1, more))
    case Cond(c, t, f) =>
      Spell(c, TestStart(0xe, Spell(t, TestElse(0xe, Spell(f, TestEnd(2, more))))))
    case Store(l, r) => Spell(l, Spell(r, Op1(STO, more)))
    case StoreOp(op, l, r) => Spell(l, Op1(DUP, Spell(r, Op1(Alu(op), Op1(STO, more)))))
    case Comma(l, r) => Spell(l, Op1(DEL, Spell(r, more)))
  }

  // a && b && ... up to the last operand: one section for the whole chain.
  function SpellAnd(e: Expr, more: Acts): Acts
    requires e.AndE?
    decreases e, 0
  {
    var last := OpRef(JIZ, 0xf, 1, Spell(e.r, more));
    if e.l.AndE? then SpellAnd(e.l, last) else Spell(e.l, Cons(SectStart(0xf), last))
  }

  function SpellOr(e: Expr, more: Acts): Acts
    requires e.OrE?
    decreases e, 0
  {
    var last := OpRef(JNZ, 0xf, 1, Spell(e.r, more));
    if e.l.OrE? then SpellOr(e.l, last) else Spell(e.l, Cons(SectStart(0xf), last))
  }

  // The arguments of a call: label 0 of the section counts them.
  function SpellArgs(args: Exprs, more: Acts): Acts {
    match args
    case NoExpr => Cons(Inc(0, 1), Cons(Inc(0, -1), more))
    case MoreExpr(e, NoExpr) => Spell(e, Cons(Inc(0, 1), more))
    case MoreExpr(e, rest) => Spell(e, Cons(Inc(0, 1), SpellArgs(rest, more)))
  }

  function LoopStart(more: Acts): Acts {
    Cons(SectStart(2), Cons(SectStart(3), Cons(SetPos(1), more)))
  }

  function LoopTest(e: Expr, more: Acts): Acts {
    Cons(SetPos(0xff), Spell(e, OpRef(JIZ, 3, 2, more)))
  }

  function LoopBack(more: Acts): Acts {
    OpRef(JR, 3, 1, Cons(SetPos(2), more))
  }

  function LoopEnd(more: Acts): Acts {
    Cons(SectEnd, Cons(SetPos(0xff), Cons(SectEnd, more)))
  }

  function SpellInit(i: Option<Expr>, more: Acts): Acts {
    match i
    case None => more
    case Some(e) => Spell(e, Op1(DEL, more))
  }

  function SpellCond(c: Option<Expr>, more: Acts): Acts {
    match c
    case None => more
    case Some(e) => Spell(e, OpRef(JIZ, 2, 0xff, more))
  }

  // The head of a for: label 4 tests, 0xff steps, 3 is the body.
  function ForStart(i: Option<Expr>, c: Option<Expr>, step: Expr, body: Acts): Acts {
    var stepped := Spell(step, Op1(DEL, OpRef(JR, 3, 4, Cons(SetPos(3), body))));
    var tested := SpellCond(c, OpRef(JR, 3, 3, Cons(SetPos(0xff), stepped)));
    Cons(SectStart(2), Cons(SectStart(3), SpellInit(i, Cons(SetPos(4), tested))))
  }

  // return 3, the result of a handler that ends without a return value.
  function ReturnAllow(more: Acts): Acts {
    Op2(LDI, 3, Op1(LTI, more))
  }

  function SpellCmd(c: Cmd, more: Acts): Acts
    decreases c, 0
  {
    match c
    case Skip => more
    case Eval(e) => Spell(e, Op1(DEL, more))
    case Block(cs) => SpellCmds(cs, more)
    case If(e, t) => Spell(e, TestStart(1, SpellCmd(t, TestEnd(1, more))))
    case IfElse(e, t, f) => Spell(e, TestStart(1, SpellCmd(t, TestElse(1, SpellCmd(f, TestEnd(2, more))))))
    case While(e, b) => LoopStart(LoopTest(e, SpellCmd(b, LoopBack(LoopEnd(more)))))
    case WhileElse(e, b, f) => LoopStart(LoopTest(e, SpellCmd(b, LoopBack(SpellCmd(f, LoopEnd(more))))))
    case DoWhile(a, e, b) => LoopStart(SpellCmd(a, LoopTest(e, SpellCmd(b, LoopBack(LoopEnd(more))))))
    case DoWhileElse(a, e, b, f) =>
      LoopStart(SpellCmd(a, LoopTest(e, SpellCmd(b, LoopBack(SpellCmd(f, LoopEnd(more)))))))
    case For(i, e, s, b) => ForStart(i, e, s, SpellCmd(b, OpRef(JR, 3, 0xff, LoopEnd(more))))
    case Break => OpRef(JR, 2, 0xff, more)
    case Continue => OpRef(JR, 3, 0xff, more)
    case Return => ReturnAllow(Op1(RET, more))
    case ReturnE(e) => Spell(e, Op1(RET, more))
  }

  function SpellCmds(cs: Cmds, more: Acts): Acts
    decreases cs, 0
  {
    match cs
    case NoCmd => more
    case MoreCmd(c, rest) => SpellCmd(c, SpellCmds(rest, more))
  }

  // A handler: its commands, then return the default result.
  function SpellHandler(cs: Cmds): Acts {
    SpellCmds(cs, ReturnAllow(Op1(RET, Nil)))
  }
}
