/** Abstract syntax of handlers, and the tokens it is written with. */
module Source {
  import opened Lists
  import opened Words
  import opened Grammar

  // The operators with a compound assignment: the lexer has op= for no other.
  predicate Compound(op: BinOp) {
    op.Add? || op.Sub? || op.Mul? || op.Div? || op.Mod? || op.And? || op.Or? || op.Xor? || op.Shl? || op.Shr?
  }

  type CompoundOp = op: BinOp | Compound(op) witness Add

  datatype Expr =
    | Num(n: Word) | Str(s: Word) | Path(p: Word)
    | Var(name: Word) | Field(name: Word, attr: Word)
    | Arg(i: Word) | ArgField(i: Word, attr: Word)      // $i and $i.attr
    | Fetch(name: Word) | Update(name: Word)
    | Call(fn: Word, args: Exprs) | CallField(fn: Word, args: Exprs, attr: Word)
    | Paren(e: Expr)                                    // parentheses that need not be there
    | Not(e: Expr) | Neg(e: Expr) | Minus(e: Expr)      // ! ~ -
    | PreInc(e: Expr) | PreDec(e: Expr)
    | PostInc(e: Expr) | PostDec(e: Expr)
    | Bin(op: BinOp, l: Expr, r: Expr)
    | AndE(l: Expr, r: Expr) | XorE(l: Expr, r: Expr) | OrE(l: Expr, r: Expr)
    | Cond(c: Expr, t: Expr, f: Expr)
    | Store(l: Expr, r: Expr)
    | StoreOp(asop: CompoundOp, l: Expr, r: Expr)
    | Comma(l: Expr, r: Expr)

  datatype Exprs = NoExpr | MoreExpr(e: Expr, rest: Exprs)

  datatype Cmd =
    | Skip
    | Eval(e: Expr)
    | Block(cs: Cmds)
    | If(e: Expr, t: Cmd)
    | IfElse(e: Expr, t: Cmd, f: Cmd)
    | While(e: Expr, body: Cmd)
    | WhileElse(e: Expr, body: Cmd, f: Cmd)
    | DoWhile(first: Cmd, e: Expr, body: Cmd)
    | DoWhileElse(first: Cmd, e: Expr, body: Cmd, f: Cmd)
    | For(init: Option<Expr>, cond: Option<Expr>, step: Expr, body: Cmd)
    | Break | Continue
    | Return | ReturnE(e: Expr)

  datatype Cmds = NoCmd | MoreCmd(c: Cmd, rest: Cmds)

  /* Precedence: 1 values, 2 unary, 3-10 binary, 11 &&, 12 ^^, 13 ||, 14 ?:,
     15 assignment, 16 comma. */

  function Prec(e: Expr): nat {
    match e
    case Not(_) | Neg(_) | Minus(_) | PreInc(_) | PreDec(_) | PostInc(_) | PostDec(_) => 2
    case Bin(op, _, _) => OpLevel(op)
    case AndE(_, _) => 11
    case XorE(_, _) => 12
    case OrE(_, _) => 13
    case Cond(_, _, _) => 14
    case Store(_, _) | StoreOp(_, _, _) => 15
    case Comma(_, _) => 16
    case _ => 1
  }

  type Tokens = List<Token>

  function Sym(t: Term, more: Tokens): Tokens { Cons(Token(t, 0), more) }

  function Lit(t: Term, w: Word, more: Tokens): Tokens { Cons(Token(t, w), more) }

  function Dotted(a: Word, more: Tokens): Tokens { Sym(P(DotT), Lit(V(TId), a, more)) }

  // The tokens of e where the grammar accepts level p, in front of more tokens:
  // parentheses stand exactly where the precedence of e is above p.
  function Write(e: Expr, p: nat, more: Tokens): Tokens
    decreases e, 1
  {
    if Prec(e) <= p then Bare(e, more) else Sym(P(LParen), Bare(e, Sym(P(RParen), more)))
  }

  // Binary operators associate to the left, ?: and assignment to the right.
  function Bare(e: Expr, more: Tokens): Tokens
    decreases e, 0
  {
    match e
    case Num(n) => Lit(V(TNum), n, more)
    case Str(s) => Lit(V(TStr), s, more)
    case Path(p) => Lit(V(TPath), p, more)
    case Var(x) => Lit(V(TId), x, more)
    case Field(x, a) => Lit(V(TId), x, Dotted(a, more))
    case Arg(i) => Lit(V(TArg), i, more)
    case ArgField(i, a) => Lit(V(TArg), i, Dotted(a, more))
    case Fetch(x) => Sym(K(FetchK), Lit(V(TId), x, more))
    case Update(x) => Sym(K(UpdateK), Lit(V(TId), x, more))
    case Call(f, args) => Lit(V(TCall), f, Sym(P(LParen), WriteArgs(args, Sym(P(RParen), more))))
    case CallField(f, args, a) =>
      Lit(V(TCall), f, Sym(P(LParen), WriteArgs(args, Sym(P(RParen), Dotted(a, more)))))
    case Paren(a) => Sym(P(LParen), Write(a, 16, Sym(P(RParen), more)))
    case Not(a) => Sym(P(Bang), Write(a, 2, more))
    case Neg(a) => Sym(P(Tilde), Write(a, 2, more))
    case Minus(a) => Sym(OpT(Sub), Write(a, 2, more))
    case PreInc(a) => Sym(P(PlusPlus), Write(a, 2, more))
    case PreDec(a) => Sym(P(MinusMinus), Write(a, 2, more))
    case PostInc(a) => Write(a, 1, Sym(P(PlusPlus), more))
    case PostDec(a) => Write(a, 1, Sym(P(MinusMinus), more))
    case Bin(op, l, r) => Write(l, OpLevel(op), Sym(OpT(op), Write(r, OpLevel(op) - 1, more)))
    case AndE(l, r) => Write(l, 11, Sym(P(AndAnd), Write(r, 10, more)))
    case XorE(l, r) => Write(l, 12, Sym(P(XorXor), Write(r, 11, more)))
    case OrE(l, r) => Write(l, 13, Sym(P(OrOr), Write(r, 12, more)))
    case Cond(c, t, f) => Write(c, 13, Sym(P(Question), Write(t, 14, Sym(P(Colon), Write(f, 14, more)))))
    case Store(l, r) => Write(l, 14, Sym(P(Assign), Write(r, 15, more)))
    case StoreOp(op, l, r) => Write(l, 14, Sym(OpAs(op), Write(r, 15, more)))
    case Comma(l, r) => Write(l, 16, Sym(P(CommaT), Write(r, 15, more)))
  }

  function WriteArgs(args: Exprs, more: Tokens): Tokens {
    match args
    case NoExpr => more
    case MoreExpr(e, NoExpr) => Write(e, 15, more)
    case MoreExpr(e, rest) => Write(e, 15, Sym(P(CommaT), WriteArgs(rest, more)))
  }

  // Bodies are written in braces, so that a condition does not run into its
  // body and an else belongs to the construct it is written for. The step of a
  // for is always present: the table has no row that lets it be empty.
  function WriteCmd(c: Cmd, more: Tokens): Tokens
    decreases c, 0
  {
    match c
    case Skip => Sym(P(Semi), more)
    case Eval(e) => Write(e, 16, Sym(P(Semi), more))
    case Block(cs) => Sym(P(LBrace), WriteCmds(cs, Sym(P(RBrace), more)))
    case If(e, t) => Sym(K(IfK), Write(e, 16, Braced(t, more)))
    case IfElse(e, t, f) => Sym(K(IfK), Write(e, 16, Braced(t, Sym(K(ElseK), Braced(f, more)))))
    case While(e, b) => Sym(K(WhileK), Write(e, 16, Braced(b, more)))
    case WhileElse(e, b, f) => Sym(K(WhileK), Write(e, 16, Braced(b, Sym(K(ElseK), Braced(f, more)))))
    case DoWhile(a, e, b) => Sym(K(DoK), Braced(a, Sym(K(WhileK), Write(e, 16, Braced(b, more)))))
    case DoWhileElse(a, e, b, f) =>
      var loop := Write(e, 16, Braced(b, Sym(K(ElseK), Braced(f, more))));
      Sym(K(DoK), Braced(a, Sym(K(WhileK), loop)))
    case For(i, e, s, b) =>
      var head := Optional(e, Sym(P(Semi), Write(s, 16, Sym(P(RParen), Braced(b, more)))));
      Sym(K(ForK), Sym(P(LParen), Optional(i, Sym(P(Semi), head))))
    case Break => Sym(K(BreakK), Sym(P(Semi), more))
    case Continue => Sym(K(ContinueK), Sym(P(Semi), more))
    case Return => Sym(K(ReturnK), Sym(P(Semi), more))
    case ReturnE(e) => Sym(K(ReturnK), Write(e, 16, Sym(P(Semi), more)))
  }

  function Braced(c: Cmd, more: Tokens): Tokens
    decreases c, 1
  {
    Sym(P(LBrace), WriteCmd(c, Sym(P(RBrace), more)))
  }

  function Optional(e: Option<Expr>, more: Tokens): Tokens {
    match e
    case None => more
    case Some(a) => Write(a, 16, more)
  }

  function WriteCmds(cs: Cmds, more: Tokens): Tokens
    decreases cs
  {
    match cs
    case NoCmd => more
    case MoreCmd(c, rest) => WriteCmd(c, WriteCmds(rest, more))
  }
}
