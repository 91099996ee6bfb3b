/** The words of a tree: position independent, every jump as a distance. */
module Codegen {
  import opened Lists
  import opened Words
  import opened Source

  type Code = seq<Word>

  // The word after which the interpreter moves on by n words.
  function Rel(n: int): Word { n % WORD_LIMIT }

  function W(op: Op): Word { Opcode(op) }

  function Count(args: Exprs): nat {
    match args
    case NoExpr => 0
    case MoreExpr(_, rest) => 1 + Count(rest)
  }

  function IncCode(op: BinOp): Code { [W(DUP), W(LD1), W(Alu(op)), W(STO)] }

  function OldCode(op: BinOp): Code { [W(DUP), W(IMM), W(SWP)] + IncCode(op) + [W(DEL)] }

  function ChainCode(jump: Op, all: Op, some: Op): Code {
    [W(jump), Rel(3), W(all), W(JR), Rel(1), W(some)]
  }

  function TestCode(c: Code, t: Code, f: Code): (code: Code)
    ensures |code| == |c| + 2 + |t| + 2 + |f|
  {
    c + [W(JIZ), Rel(|t| + 2)] + t + [W(JR), Rel(|f|)] + f
  }

  function CallCode(f: Word, n: nat): Code { [W(LDI), n % WORD_LIMIT, W(JSR), f, W(DEn)] }

  function CodeE(e: Expr): Code
    decreases e, 1
  {
    match e
    case Num(n) => [W(LDI), n, W(LTI)]
    case Str(s) => [W(LDI), s, W(LTS)]
    case Path(p) => [W(LDI), p, W(LTP)]
    case Var(x) => [W(LDV), x]
    case Field(x, a) => [W(LDS), x, a]
    case Arg(i) => [W(ARG), i]
    case ArgField(i, a) => [W(ARG), i] + [W(ATR), a]
    case Fetch(x) => [W(FET), x]
    case Update(x) => [W(UPD), x]
    case Call(f, args) => CodeArgs(args) + CallCode(f, Count(args))
    case CallField(f, args, a) => CodeArgs(args) + CallCode(f, Count(args)) + [W(ATR), a]
    case Paren(a) => CodeE(a)
    case Not(a) => CodeE(a) + [W(NOT)]
    case Neg(a) => CodeE(a) + [W(NEG)]
    case Minus(a) => [W(LD0)] + CodeE(a) + [W(Alu(Sub))]
    case PreInc(a) => CodeE(a) + IncCode(Add)
    case PreDec(a) => CodeE(a) + IncCode(Sub)
    case PostInc(a) => CodeE(a) + OldCode(Add)
    case PostDec(a) => CodeE(a) + OldCode(Sub)
    case Bin(op, l, r) => CodeE(l) + CodeE(r) + [W(Alu(op))]
    case AndE(_, _) => CodeAnd(e, 5) + ChainCode(JIZ, LD1, LD0)
    case XorE(l, r) => CodeE(l) + [W(NOT)] + CodeE(r) + [W(NOT), W(Alu(Ne))]
    case OrE(_, _) => CodeOr(e, 5) + ChainCode(JNZ, LD0, LD1)
    case Cond(c, t, f) => TestCode(CodeE(c), CodeE(t), CodeE(f))
    case Store(l, r) => CodeE(l) + CodeE(r) + [W(STO)]
    case StoreOp(op, l, r) => CodeE(l) + [W(DUP)] + CodeE(r) + [W(Alu(op)), W(STO)]
    case Comma(l, r) => CodeE(l) + [W(DEL)] + CodeE(r)
  }

  // All operands of a chain of &&; the short-circuit exit lies d words behind them.
  function CodeAnd(e: Expr, d: nat): Code
    requires e.AndE?
    decreases e, 0
  {
    var r := CodeE(e.r);
    var l := if e.l.AndE? then CodeAnd(e.l, 2 + |r| + d) else CodeE(e.l);
    l + [W(JIZ), Rel(|r| + d)] + r
  }

  function CodeOr(e: Expr, d: nat): Code
    requires e.OrE?
    decreases e, 0
  {
    var r := CodeE(e.r);
    var l := if e.l.OrE? then CodeOr(e.l, 2 + |r| + d) else CodeE(e.l);
    l + [W(JNZ), Rel(|r| + d)] + r
  }

  function CodeArgs(args: Exprs): Code {
    match args
    case NoExpr => []
    case MoreExpr(e, rest) => CodeE(e) + CodeArgs(rest)
  }

  function CodeInit(i: Option<Expr>): Code {
    match i
    case None => []
    case Some(e) => CodeE(e) + [W(DEL)]
  }

  function CodeCond(c: Option<Expr>, d: int): Code {
    match c
    case None => []
    case Some(e) => CodeE(e) + [W(JIZ), Rel(d)]
  }

  function SizeC(c: Cmd): nat {
    match c
    case Skip => 0
    case Eval(e) => |CodeE(e)| + 1
    case Block(cs) => SizeCs(cs)
    case If(e, t) => |CodeE(e)| + 2 + SizeC(t)
    case IfElse(e, t, f) => |CodeE(e)| + 2 + SizeC(t) + 2 + SizeC(f)
    case While(e, b) => SizeLoop(|CodeE(e)|, SizeC(b))
    case WhileElse(e, b, f) => SizeLoop(|CodeE(e)|, SizeC(b)) + SizeC(f)
    case DoWhile(a, e, b) => SizeC(a) + SizeLoop(|CodeE(e)|, SizeC(b))
    case DoWhileElse(a, e, b, f) => SizeC(a) + SizeLoop(|CodeE(e)|, SizeC(b)) + SizeC(f)
    case For(i, e, s, b) => |CodeInit(i)| + |CodeCond(e, 0)| + 2 + |CodeE(s)| + 3 + SizeC(b) + 2
    case Break => 2
    case Continue => 2
    case Return => 4
    case ReturnE(e) => |CodeE(e)| + 1
  }

  function SizeLoop(test: nat, body: nat): nat { test + 2 + body + 2 }

  function SizeCs(cs: Cmds): nat {
    match cs
    case NoCmd => 0
    case MoreCmd(c, rest) => SizeC(c) + SizeCs(rest)
  }

  // A loop: first is run once more before every test, last when the test fails.
  // The targets of break and continue are given relative to the end of a part.
  function LoopCode(first: Code, test: Code, body: Code, last: Code): (code: Code)
    ensures |code| == |first| + SizeLoop(|test|, |body|) + |last|
  {
    first + test + [W(JIZ), Rel(|body| + 2)] + body + [W(JR), Rel(-(|first| + |test| + 2 + |body| + 2))] + last
  }

  function ForCode(init: Code, test: Code, step: Code, body: Code): (code: Code)
    ensures |code| == |init| + |test| + 2 + |step| + 2 + |body| + 2
  {
    init + test + [W(JR), Rel(|step| + 2)] + step + [W(JR), Rel(-(|step| + 4 + |test|))]
      + body + [W(JR), Rel(-(|body| + |step| + 4))]
  }

  // Commands: break leads brk words behind the end of c, continue cont words.
  function CodeC(c: Cmd, brk: int, cont: int): Code {
    match c
    case Skip => []
    case Eval(e) => CodeE(e) + [W(DEL)]
    case Block(cs) => CodeCs(cs, brk, cont)
    case If(e, t) => CodeE(e) + [W(JIZ), Rel(SizeC(t))] + CodeC(t, brk, cont)
    case IfElse(e, t, f) =>
      var n := SizeC(f);
      TestCode(CodeE(e), CodeC(t, 2 + n + brk, 2 + n + cont), CodeC(f, brk, cont))
    case While(e, b) => LoopCode([], CodeE(e), CodeC(b, 2, -(SizeC(b) + 2 + |CodeE(e)|)), [])
    case WhileElse(e, b, f) =>
      var n := SizeC(f);
      var body := CodeC(b, 2 + n, -(SizeC(b) + 2 + |CodeE(e)|));
      LoopCode([], CodeE(e), body, CodeC(f, 0, -(n + SizeLoop(|CodeE(e)|, SizeC(b)))))
    case DoWhile(a, e, b) =>
      var body := CodeC(b, 2, -(SizeC(b) + 2 + |CodeE(e)|));
      LoopCode(CodeC(a, SizeLoop(|CodeE(e)|, SizeC(b)), 0), CodeE(e), body, [])
    case DoWhileElse(a, e, b, f) =>
      var n := SizeC(f);
      var body := CodeC(b, 2 + n, -(SizeC(b) + 2 + |CodeE(e)|));
      LoopCode(CodeC(a, SizeLoop(|CodeE(e)|, SizeC(b)) + n, 0), CodeE(e), body,
        CodeC(f, 0, -(n + SizeLoop(|CodeE(e)|, SizeC(b)))))
    case For(i, e, s, b) =>
      var step := CodeE(s) + [W(DEL)];
      var body := CodeC(b, 2, -(SizeC(b) + 2 + |step|));
      ForCode(CodeInit(i), CodeCond(e, 2 + |step| + 2 + |body| + 2), step, body)
    case Break => [W(JR), Rel(brk)]
    case Continue => [W(JR), Rel(cont)]
    case Return => [W(LDI), 3, W(LTI), W(RET)]
    case ReturnE(e) => CodeE(e) + [W(RET)]
  }

  function CodeCs(cs: Cmds, brk: int, cont: int): Code {
    match cs
    case NoCmd => []
    case MoreCmd(c, rest) => CodeC(c, SizeCs(rest) + brk, SizeCs(rest) + cont) + CodeCs(rest, brk, cont)
  }

  lemma {:induction false} CodeSize(c: Cmd, brk: int, cont: int)
    ensures |CodeC(c, brk, cont)| == SizeC(c)
    decreases c, 1
  {
    hide Rel, W, CodeE, TestCode, LoopCode, ForCode;
    match c
    case Block(cs) => CodesSize(cs, brk, cont);
    case If(_, t) => CodeSize(t, brk, cont);
    case IfElse(_, t, f) =>
      CodeSize(t, 2 + SizeC(f) + brk, 2 + SizeC(f) + cont);
      CodeSize(f, brk, cont);
    case While(e, b) => CodeSize(b, 2, -(SizeC(b) + 2 + |CodeE(e)|));
    case WhileElse(e, b, f) =>
      CodeSize(b, 2 + SizeC(f), -(SizeC(b) + 2 + |CodeE(e)|));
      CodeSize(f, 0, -(SizeC(f) + SizeLoop(|CodeE(e)|, SizeC(b))));
    case DoWhile(_, _, _) => DoSize(c, brk, cont);
    case DoWhileElse(_, _, _, _) => DoSize(c, brk, cont);
    case For(i, e, s, b) => CodeSize(b, 2, -(SizeC(b) + 3 + |CodeE(s)|));
    case _ =>
  }

  lemma {:induction false} DoSize(c: Cmd, brk: int, cont: int)
    requires c.DoWhile? || c.DoWhileElse?
    ensures |CodeC(c, brk, cont)| == SizeC(c)
    decreases c, 0
  {
    hide Rel, W, CodeE, TestCode, LoopCode, ForCode;
    match c
    case DoWhile(a, e, b) =>
      CodeSize(a, SizeLoop(|CodeE(e)|, SizeC(b)), 0);
      CodeSize(b, 2, -(SizeC(b) + 2 + |CodeE(e)|));
    case DoWhileElse(a, e, b, f) =>
      CodeSize(a, SizeLoop(|CodeE(e)|, SizeC(b)) + SizeC(f), 0);
      CodeSize(b, 2 + SizeC(f), -(SizeC(b) + 2 + |CodeE(e)|));
      CodeSize(f, 0, -(SizeC(f) + SizeLoop(|CodeE(e)|, SizeC(b))));
  }

  lemma {:induction false} CodesSize(cs: Cmds, brk: int, cont: int)
    ensures |CodeCs(cs, brk, cont)| == SizeCs(cs)
  {
    if cs.MoreCmd? {
      CodeSize(cs.c, SizeCs(cs.rest) + brk, SizeCs(cs.rest) + cont);
      CodesSize(cs.rest, brk, cont);
    }
  }

  // A handler or function body: its commands, then return RESULT_ALLOW.
  function CodeH(cs: Cmds): Code { CodeCs(cs, 0, 0) + [W(LDI), 3, W(LTI), W(RET)] }

  // break and continue stand inside loops.
  predicate Placed(c: Cmd, inLoop: bool) {
    match c
    case Block(cs) => PlacedAll(cs, inLoop)
    case If(_, t) => Placed(t, inLoop)
    case IfElse(_, t, f) => Placed(t, inLoop) && Placed(f, inLoop)
    case While(_, b) => Placed(b, true)
    case WhileElse(_, b, f) => Placed(b, true) && Placed(f, true)
    case DoWhile(a, _, b) => Placed(a, true) && Placed(b, true)
    case DoWhileElse(a, _, b, f) => Placed(a, true) && Placed(b, true) && Placed(f, true)
    case For(_, _, _, b) => Placed(b, true)
    case Break => inLoop
    case Continue => inLoop
    case _ => true
  }

  predicate PlacedAll(cs: Cmds, inLoop: bool) {
    match cs
    case NoCmd => true
    case MoreCmd(c, rest) => Placed(c, inLoop) && PlacedAll(rest, inLoop)
  }
}
