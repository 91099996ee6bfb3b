/** The engine, run on the tokens of a tree, hands the back-patcher exactly the
    actions of that tree. */
module Parsing {
  import opened Lists
  import opened Words
  import opened Grammar
  import opened Engine
  import opened Source
  import opened Postfix

  // The state that accepts level p, and the state after a first operand.
  function Accepts(p: nat): NT {
    match p
    case 1 => Value
    case 2 => Prefix
    case 11 => AndL
    case 12 => XorL
    case 13 => OrL
    case 14 => CondL
    case 15 => AssignL
    case 16 => Exp2
    case _ => Level(p)
  }

  function TailOf(p: nat): NT {
    match p
    case 2 => Postfix
    case 11 => AndTail
    case 12 => XorTail
    case 13 => OrTail
    case 14 => CondTail
    case 15 => AssignTail
    case 16 => Exp2Tail
    case _ => LevelTail(p)
  }

  // The lowest level at which a token continues an expression.
  function Continues(t: Term): nat {
    match t
    case P(DotT) => 1
    case P(PlusPlus) | P(MinusMinus) => 2
    case OpT(op) => OpLevel(op)
    case P(AndAnd) => 11
    case P(XorXor) => 12
    case P(OrOr) => 13
    case P(Question) => 14
    case P(Assign) | OpAs(_) => 15
    case P(CommaT) => 16
    case _ => 17
  }

  function Found(nt: NT, t: Term): Option<Syms> { FindRow(Table(nt), t) }

  /* Rows of the table. */

  lemma {:induction false} DescendRow(p: nat, t: Term)
    requires 3 <= p <= 16
    ensures Found(Accepts(p), t) == Some(N(Accepts(p - 1), N(TailOf(p), Eps)))
  {
  }

  lemma {:induction false} FactorTailRow(n: nat, t: Term)
    requires n == 3 && (t.OpT? ==> OpLevel(t.op) != n)
    ensures FindRow(LevelTailRows(n), t) == Some(Eps)
  {
  }

  lemma {:induction false} SumTailRow(n: nat, t: Term)
    requires 4 <= n <= 5 && (t.OpT? ==> OpLevel(t.op) != n)
    ensures FindRow(LevelTailRows(n), t) == Some(Eps)
  {
  }

  lemma {:induction false} CompareTailRow(n: nat, t: Term)
    requires n == 6 && (t.OpT? ==> OpLevel(t.op) != n)
    ensures FindRow(LevelTailRows(n), t) == Some(Eps)
  {
  }

  lemma {:induction false} BitTailRow(n: nat, t: Term)
    requires 7 <= n <= 10 && (t.OpT? ==> OpLevel(t.op) != n)
    ensures FindRow(LevelTailRows(n), t) == Some(Eps)
  {
  }

  lemma {:induction false} LogicTailRow(p: nat, t: Term)
    requires 11 <= p <= 13 && Continues(t) != p
    ensures FindRow(LogicRows(TailOf(p)), t) == Some(Eps)
  {
  }

  lemma {:induction false} AssignTailRow(t: Term)
    requires t != P(Assign) && !t.OpAs?
    ensures FindRow(TopRows(AssignTail), t) == Some(Eps)
  {
  }

  lemma {:induction false} TopTailRow(p: nat, t: Term)
    requires p == 14 || p == 16
    requires Continues(t) != p
    ensures FindRow(TopRows(TailOf(p)), t) == Some(Eps)
  {
  }

  lemma {:induction false} TailRow(p: nat, t: Term)
    requires 2 <= p <= 16 && Continues(t) != p
    ensures Found(TailOf(p), t) == Some(Eps)
  {
    hide DataRows, LogicRows, TopRows, CommandRows, ControlRows, BlockRows, LevelTailRows;
    if p == 3 {
      FactorTailRow(p, t);
    } else if 4 <= p <= 5 {
      SumTailRow(p, t);
    } else if p == 6 {
      CompareTailRow(p, t);
    } else if 7 <= p <= 10 {
      BitTailRow(p, t);
    } else if 11 <= p <= 13 {
      LogicTailRow(p, t);
    } else if p == 15 {
      AssignTailRow(t);
    } else if p >= 14 {
      TopTailRow(p, t);
    }
  }

  function OperatorBody(op: BinOp): Syms {
    T(OpT(op), N(Operand(OpLevel(op)), Do(O(Alu(op), Done), N(LevelTail(OpLevel(op)), Eps))))
  }

  lemma {:induction false} LowOperatorRow(op: BinOp)
    requires OpLevel(op) <= 5
    ensures FindRow(LevelTailRows(OpLevel(op)), OpT(op)) == Some(OperatorBody(op))
  {
    match op { case Add => case Sub => case Mul => case Div => case Mod => case Shl => case Shr => }
  }

  lemma {:induction false} HighOperatorRow(op: BinOp)
    requires OpLevel(op) >= 6
    ensures FindRow(LevelTailRows(OpLevel(op)), OpT(op)) == Some(OperatorBody(op))
  {
    match op { case Lt => case Gt => case Le => case Ge => case Eq => case Ne => case Or => case And => case Xor => }
  }

  lemma {:induction false} OperatorRow(op: BinOp)
    ensures Found(LevelTail(OpLevel(op)), OpT(op)) == Some(OperatorBody(op))
  {
    hide DataRows, LogicRows, TopRows, CommandRows, ControlRows, BlockRows, LevelTailRows, OperatorBody;
    if OpLevel(op) <= 5 {
      LowOperatorRow(op);
    } else {
      HighOperatorRow(op);
    }
  }

  /* The right-hand sides of the rows an expression uses. */

  function AndFirst(): Syms {
    T(P(AndAnd), Do(Start(0xf, O(JIZ, OutRef(0xf, 1, Done))), N(Level(10), N(AndMore, Eps))))
  }
  function AndNext(): Syms { T(P(AndAnd), Do(O(JIZ, OutRef(0xf, 1, Done)), N(Level(10), N(AndMore, Eps)))) }
  function OrFirst(): Syms { T(P(OrOr), Do(Start(0xf, O(JNZ, OutRef(0xf, 1, Done))), N(XorL, N(OrMore, Eps)))) }
  function OrNext(): Syms { T(P(OrOr), Do(O(JNZ, OutRef(0xf, 1, Done)), N(XorL, N(OrMore, Eps)))) }
  function XorNext(): Syms { T(P(XorXor), Do(O(NOT, Done), N(AndL, Do(O(NOT, O(Alu(Ne), Done)), N(XorTail, Eps))))) }
  function CommaNext(): Syms { T(P(CommaT), Do(O(DEL, Done), N(AssignL, N(Exp2Tail, Eps)))) }

  function AndEnd(): Outs {
    O(JIZ, OutRef(0xf, 1, O(LD1, O(JR, OutRef(0xf, 2, Here(1, O(LD0, Here(2, End(Done)))))))))
  }
  function OrEnd(): Outs {
    O(JNZ, OutRef(0xf, 1, O(LD0, O(JR, OutRef(0xf, 2, Here(1, O(LD1, Here(2, End(Done)))))))))
  }

  function ElseBody(): Syms { T(P(Colon), Do(Here(1, Done), N(CondL, Do(Here(2, End(Done)), Eps)))) }
  function CondBody(): Syms {
    T(P(Question), Do(Start(0xe, O(JIZ, OutRef(0xe, 1, Done))), N(CondL, Do(O(JR, OutRef(0xe, 2, Done)), ElseBody()))))
  }

  function StoreBody(): Syms { T(P(Assign), N(AssignL, Do(O(STO, Done), Eps))) }
  function StoreOpBody(op: BinOp, wanted: BinOp): Syms {
    T(OpAs(wanted), Do(O(DUP, Done), N(AssignL, Do(O(Alu(op), O(STO, Done)), Eps))))
  }

  function UnaryBody(t: Term, outs: Outs): Syms { T(t, N(Prefix, Do(outs, Eps))) }
  function MinusBody(): Syms { Do(O(LD0, Done), T(OpT(Sub), N(Prefix, Do(O(Alu(Sub), Done), Eps)))) }
  function IncOuts(op: BinOp): Outs { O(DUP, O(LD1, O(Alu(op), O(STO, Done)))) }
  function PostOuts(op: BinOp): Outs {
    O(DUP, O(IMM, O(SWP, O(DUP, O(LD1, O(Alu(op), O(STO, O(DEL, Done))))))))
  }

  function NumBody(): Syms { Do(O(LDI, Done), T(V(TNum), Do(OutVal(O(LTI, Done)), Eps))) }
  function ConstBody(t: Term, tag: Op): Syms { T(t, Do(O(LDI, OutVal(O(tag, Done))), Eps)) }
  function SelectBody(): Syms { Do(O(ATR, Done), T(P(DotT), T(V(TId), Do(OutVal(Done), Eps)))) }

  function ArgBody(): Syms { Do(O(ARG, Done), T(V(TArg), Do(OutVal(Done), N(AttrTail, Eps)))) }
  function IdBody(): Syms { T(V(TId), N(IdTail, Eps)) }
  function FieldBody(): Syms { Do(O(LDS, OutVal(Done)), T(P(DotT), T(V(TId), Do(OutVal(Done), Eps)))) }
  function AccessBody(k: Keyword, op: Op): Syms { T(K(k), T(V(TId), Do(O(op, OutVal(Done)), Eps))) }
  function ParenBody(): Syms { T(P(LParen), N(Exp2, T(P(RParen), Eps))) }
  function JumpOuts(): Outs { O(JSR, OutRef(4, 1, O(DEn, End(Done)))) }
  function CallBody(): Syms {
    Do(Start(4, Done), T(V(TCall), Do(SetVal(1, Done), N(Args, Do(JumpOuts(), N(AttrTail, Eps))))))
  }
  function CountOuts(): Outs { O(LDI, OutRef(4, 0, Done)) }
  function ArgsBody(): Syms { T(P(LParen), N(Args1, T(P(RParen), Do(CountOuts(), Eps)))) }

  lemma {:induction false} ChainRows()
    ensures Found(AndTail, P(AndAnd)) == Some(AndFirst())
    ensures Found(AndMore, P(AndAnd)) == Some(AndNext())
    ensures Found(OrTail, P(OrOr)) == Some(OrFirst())
    ensures Found(OrMore, P(OrOr)) == Some(OrNext())
    ensures Found(XorTail, P(XorXor)) == Some(XorNext())
  {
    hide Found;
    AndRows();
    OrRows();
  }

  lemma {:induction false} AndRows()
    ensures Found(AndTail, P(AndAnd)) == Some(AndFirst())
    ensures Found(AndMore, P(AndAnd)) == Some(AndNext())
  {
  }

  lemma {:induction false} OrRows()
    ensures Found(OrTail, P(OrOr)) == Some(OrFirst())
    ensures Found(OrMore, P(OrOr)) == Some(OrNext())
    ensures Found(XorTail, P(XorXor)) == Some(XorNext())
  {
  }

  lemma {:induction false} ChainEndRows(t: Term)
    ensures t == P(AndAnd) || Found(AndMore, t) == Some(Do(AndEnd(), Eps))
    ensures t == P(OrOr) || Found(OrMore, t) == Some(Do(OrEnd(), Eps))
  {
  }

  lemma {:induction false} TopOperatorRows()
    ensures Found(CondTail, P(Question)) == Some(CondBody())
    ensures Found(AssignTail, P(Assign)) == Some(StoreBody())
    ensures Found(Exp2Tail, P(CommaT)) == Some(CommaNext())
  {
    hide Found;
    CondRow();
    StoreFirstRow();
    CommaRow();
  }

  lemma {:induction false} CondRow()
    ensures Found(CondTail, P(Question)) == Some(CondBody())
  {
  }

  lemma {:induction false} StoreFirstRow()
    ensures Found(AssignTail, P(Assign)) == Some(StoreBody())
  {
    hide StoreRows;
  }

  lemma {:induction false} CommaRow()
    ensures Found(Exp2Tail, P(CommaT)) == Some(CommaNext())
  {
  }

  // The token the row of op= asks for.
  function Wanted(op: CompoundOp): BinOp { if op.Shl? || op.Shr? then Mod else op }

  lemma {:induction false} OneStoreRow(row: BinOp, wanted: BinOp, next: Rows, op: BinOp)
    ensures FindRow(StoreRow(row, wanted, next), OpAs(op)) ==
      if op == row then Some(StoreOpBody(row, wanted)) else FindRow(next, OpAs(op))
  {
    hide Opcode;
  }

  lemma {:induction false} StoreOpInRows(op: CompoundOp)
    ensures FindRow(StoreRows(), OpAs(op)) == Some(StoreOpBody(op, Wanted(op)))
  {
    hide FindRow, StoreRow, StoreOpBody;
    var r := StoreRow(Shr, Mod, Row(Any, Eps, NoRow));
    OneStoreRow(Shr, Mod, Row(Any, Eps, NoRow), op);
    OneStoreRow(Shl, Mod, r, op);
    r := StoreRow(Shl, Mod, r);
    OneStoreRow(Xor, Xor, r, op);
    r := StoreRow(Xor, Xor, r);
    OneStoreRow(Or, Or, r, op);
    r := StoreRow(Or, Or, r);
    OneStoreRow(And, And, r, op);
    r := StoreRow(And, And, r);
    OneStoreRow(Mod, Mod, r, op);
    r := StoreRow(Mod, Mod, r);
    OneStoreRow(Div, Div, r, op);
    r := StoreRow(Div, Div, r);
    OneStoreRow(Mul, Mul, r, op);
    r := StoreRow(Mul, Mul, r);
    OneStoreRow(Sub, Sub, r, op);
    r := StoreRow(Sub, Sub, r);
    OneStoreRow(Add, Add, r, op);
  }

  lemma StoreOpsFollow(op: BinOp)
    ensures FindRow(TopRows(AssignTail), OpAs(op)) == FindRow(StoreRows(), OpAs(op))
  {
    hide StoreRows;
  }

  lemma {:induction false} StoreOpRow(op: CompoundOp)
    ensures Found(AssignTail, OpAs(op)) == Some(StoreOpBody(op, Wanted(op)))
  {
    hide TopRows, DataRows, LogicRows, CommandRows, ControlRows, BlockRows, ArithmeticRows, FindRow, StoreRows;
    StoreOpInRows(op);
    StoreOpsFollow(op);
  }

  lemma {:induction false} PrefixRows(t: Term)
    ensures Found(Prefix, P(Bang)) == Some(UnaryBody(P(Bang), O(NOT, Done)))
    ensures Found(Prefix, P(Tilde)) == Some(UnaryBody(P(Tilde), O(NEG, Done)))
    ensures Found(Prefix, OpT(Sub)) == Some(MinusBody())
    ensures Found(Prefix, P(PlusPlus)) == Some(UnaryBody(P(PlusPlus), IncOuts(Add)))
    ensures Found(Prefix, P(MinusMinus)) == Some(UnaryBody(P(MinusMinus), IncOuts(Sub)))
    ensures Begins(t, 1) ==> Found(Prefix, t) == Some(N(Value, N(Postfix, Eps)))
  {
    ValueRow(t);
    hide Begins;
  }

  lemma {:induction false} ValueRow(t: Term)
    ensures Begins(t, 1) ==> Found(Prefix, t) == Some(N(Value, N(Postfix, Eps)))
  {
  }

  lemma {:induction false} PostfixRows()
    ensures Found(Postfix, P(PlusPlus)) == Some(T(P(PlusPlus), Do(PostOuts(Add), Eps)))
    ensures Found(Postfix, P(MinusMinus)) == Some(T(P(MinusMinus), Do(PostOuts(Sub), Eps)))
  {
  }

  lemma {:induction false} ConstantRows()
    ensures Found(Value, V(TNum)) == Some(NumBody())
    ensures Found(Value, V(TStr)) == Some(ConstBody(V(TStr), LTS))
    ensures Found(Value, V(TPath)) == Some(ConstBody(V(TPath), LTP))
    ensures Found(Value, V(TArg)) == Some(ArgBody())
    ensures Found(Value, V(TId)) == Some(IdBody())
  {
  }

  lemma {:induction false} AccessRows()
    ensures Found(Value, K(FetchK)) == Some(AccessBody(FetchK, FET))
    ensures Found(Value, K(UpdateK)) == Some(AccessBody(UpdateK, UPD))
    ensures Found(Value, P(LParen)) == Some(ParenBody())
    ensures Found(Value, V(TCall)) == Some(CallBody())
  {
  }

  lemma {:induction false} NameRows(t: Term)
    ensures Found(IdTail, P(DotT)) == Some(FieldBody())
    ensures t == P(DotT) || Found(IdTail, t) == Some(Do(O(LDV, OutVal(Done)), Eps))
    ensures t == P(DotT) || Found(AttrTail, t) == Some(Eps)
    ensures Found(AttrTail, P(DotT)) == Some(SelectBody())
  {
  }

  lemma {:induction false} ArgRows(t: Term)
    ensures Found(Args, P(LParen)) == Some(ArgsBody())
    ensures Found(Args1, P(RParen)) == Some(Do(IncVal(0, DecVal(0, Done)), Eps))
    ensures t == P(RParen) || Found(Args1, t) == Some(N(Args2, Eps))
    ensures Found(Args2, t) == Some(N(Exp, Do(IncVal(0, Done), N(ArgNext, Eps))))
    ensures Found(ArgNext, P(CommaT)) == Some(T(P(CommaT), N(Args2, Eps)))
    ensures Found(ArgNext, P(RParen)) == Some(Eps)
    ensures Found(Exp, t) == Some(N(AssignL, Eps))
  {
    ArgNextRows(t);
    ExpRow(t);
  }

  lemma {:induction false} ArgNextRows(t: Term)
    ensures Found(Args2, t) == Some(N(Exp, Do(IncVal(0, Done), N(ArgNext, Eps))))
    ensures Found(ArgNext, P(CommaT)) == Some(T(P(CommaT), N(Args2, Eps)))
    ensures Found(ArgNext, P(RParen)) == Some(Eps)
  {
  }

  lemma {:induction false} ExpRow(t: Term)
    ensures Found(Exp, t) == Some(N(AssignL, Eps))
  {
  }

  // The tokens an expression of level p may begin with.
  predicate Begins(t: Term, p: nat) {
    t.V? || t == P(LParen) || t == K(FetchK) || t == K(UpdateK)
    || (p >= 2 && (t == P(Bang) || t == P(Tilde) || t == OpT(Sub) || t == P(PlusPlus) || t == P(MinusMinus)))
  }

  lemma {:induction false} WriteBegins(e: Expr, p: nat, more: Tokens)
    ensures Begins(Look(Write(e, p, more)), p)
    decreases e, 1
  {
    hide Opcode, Begins, Bare;
    if Prec(e) <= p {
      if OperandFirst(e) {
        InfixBegins(e, p, more);
      } else {
        PlainBegins(e, p, more);
      }
    } else {
      assert Begins(P(LParen), p) by { ParenBegins(p); }
    }
  }

  lemma ParenBegins(p: nat)
    ensures Begins(P(LParen), p)
  {
  }

  // Expressions that begin with an operand.
  predicate OperandFirst(e: Expr) { Prec(e) > 2 || e.PostInc? || e.PostDec? }

  lemma {:induction false} PlainBegins(e: Expr, p: nat, more: Tokens)
    requires Prec(e) <= p && !OperandFirst(e)
    ensures Begins(Look(Bare(e, more)), p)
    decreases e, 0
  {
    hide Opcode, Write, WriteArgs;
  }

  lemma {:induction false} InfixBegins(e: Expr, p: nat, more: Tokens)
    requires Prec(e) <= p && OperandFirst(e)
    ensures Begins(Look(Bare(e, more)), p)
    decreases e, 0
  {
    hide Opcode, Write;
    match e
    case PostInc(a) => WriteBegins(a, 1, Sym(P(PlusPlus), more));
    case PostDec(a) => WriteBegins(a, 1, Sym(P(MinusMinus), more));
    case Bin(op, l, r) => WriteBegins(l, OpLevel(op), Sym(OpT(op), Write(r, OpLevel(op) - 1, more)));
    case AndE(l, r) => WriteBegins(l, 11, Sym(P(AndAnd), Write(r, 10, more)));
    case XorE(l, r) => WriteBegins(l, 12, Sym(P(XorXor), Write(r, 11, more)));
    case OrE(l, r) => WriteBegins(l, 13, Sym(P(OrOr), Write(r, 12, more)));
    case Cond(c, t, f) => WriteBegins(c, 13, Sym(P(Question), Write(t, 14, Sym(P(Colon), Write(f, 14, more)))));
    case Store(l, r) => WriteBegins(l, 14, Sym(P(Assign), Write(r, 15, more)));
    case StoreOp(op, l, r) => WriteBegins(l, 14, Sym(OpAs(op), Write(r, 15, more)));
    case Comma(l, r) => WriteBegins(l, 16, Sym(P(CommaT), Write(r, 15, more)));
  }

  // Every compound assignment has a row that reads it: all but <<= and >>=.
  predicate Assignable(e: Expr) {
    match e
    case Call(_, args) => AssignableArgs(args)
    case CallField(_, args, _) => AssignableArgs(args)
    case Paren(a) => Assignable(a)
    case Not(a) => Assignable(a)
    case Neg(a) => Assignable(a)
    case Minus(a) => Assignable(a)
    case PreInc(a) => Assignable(a)
    case PreDec(a) => Assignable(a)
    case PostInc(a) => Assignable(a)
    case PostDec(a) => Assignable(a)
    case Bin(_, l, r) => Assignable(l) && Assignable(r)
    case AndE(l, r) => Assignable(l) && Assignable(r)
    case XorE(l, r) => Assignable(l) && Assignable(r)
    case OrE(l, r) => Assignable(l) && Assignable(r)
    case Cond(c, t, f) => Assignable(c) && Assignable(t) && Assignable(f)
    case Store(l, r) => Assignable(l) && Assignable(r)
    case StoreOp(op, l, r) => Wanted(op) == op && Assignable(l) && Assignable(r)
    case Comma(l, r) => Assignable(l) && Assignable(r)
    case _ => true
  }

  predicate AssignableArgs(args: Exprs) {
    match args
    case NoExpr => true
    case MoreExpr(e, rest) => Assignable(e) && AssignableArgs(rest)
  }

  /* One step of the engine. */

  lemma {:induction false} Expand(nt: NT, body: Syms, st: Syms, toks: Tokens, last: Word)
    requires Found(nt, Look(toks)) == Some(body)
    ensures Run(N(nt, st), toks, last) == Run(Push(body, st), toks, last)
  {
    hide Table, FindRow;
  }

  lemma {:induction false} Match(t: Term, w: Word, st: Syms, toks: Tokens, last: Word)
    ensures Run(T(t, st), Cons(Token(t, w), toks), last) == Run(st, toks, w)
  {
    hide Table, FindRow;
  }

  lemma {:induction false} Mismatch(t: Term, st: Syms, toks: Tokens, last: Word)
    requires Look(toks) != t
    ensures Run(T(t, st), toks, last).Rejected?
  {
    hide Table, FindRow;
  }

  function Emits(outs: Outs, last: Word, r: Parse): Parse {
    if r.Rejected? then Rejected else Emitted(Actions(outs, last, r.acts))
  }

  lemma {:induction false} Output(outs: Outs, st: Syms, toks: Tokens, last: Word)
    ensures Run(Do(outs, st), toks, last) == Emits(outs, last, Run(st, toks, LastAfter(outs, last)))
  {
    hide Table, FindRow;
  }

  function Acted(r: Parse): Acts { if r.Rejected? then Nil else r.acts }

  /* The run of the engine on a tree. */

  // The actions of e, in front of the actions of a run.
  function After(e: Expr, r: Parse): Parse {
    if r.Rejected? || !Assignable(e) then Rejected else Emitted(Spell(e, r.acts))
  }

  function AfterArgs(args: Exprs, r: Parse): Parse {
    if r.Rejected? || !AssignableArgs(args) then Rejected else Emitted(SpellArgs(args, r.acts))
  }

  // The state the engine is in after e, when e is the first operand of level p.
  function Left(e: Expr, p: nat): NT {
    if p == 11 && e.AndE? then AndMore else if p == 13 && e.OrE? then OrMore else TailOf(p)
  }

  function AfterLeft(e: Expr, p: nat, r: Parse): Parse {
    if r.Rejected? || !Assignable(e) then Rejected
    else if p == 11 && e.AndE? then Emitted(SpellAnd(e, r.acts))
    else if p == 13 && e.OrE? then Emitted(SpellOr(e, r.acts))
    else Emitted(Spell(e, r.acts))
  }

  lemma {:induction false} Parsed(e: Expr, p: nat, more: Tokens, st: Syms, last: Word) returns (l: Word)
    requires 1 <= p <= 16 && Continues(Look(more)) > p
    ensures Run(N(Accepts(p), st), Write(e, p, more), last) == After(e, Run(st, more, l))
    decreases e, if Prec(e) > p then 1 else 0, p, 2
  {
    hide Opcode, Table, FindRow, Found, Run, Bare, Spell;
    if p == 1 && Prec(e) > 1 {
      l := ParsedParen(e, more, st, last);
    } else if p == 1 {
      l := ParsedValue(e, more, st, last);
    } else if p == 2 && Prec(e) == 2 {
      l := ParsedUnary(e, more, st, last);
    } else if p == 14 && e.Cond? {
      l := ParsedCond(e, more, st, last);
    } else if p == 15 && (e.Store? || e.StoreOp?) {
      l := ParsedStore(e, more, st, last);
    } else {
      l := ParsedLeft(e, p, more, st, last);
      LeftEnds(e, p, more, st, l);
    }
  }

  lemma {:induction false} LeftEnds(e: Expr, p: nat, more: Tokens, st: Syms, l: Word)
    requires 2 <= p <= 16 && Continues(Look(more)) > p
    ensures AfterLeft(e, p, Run(N(Left(e, p), st), more, l)) == After(e, Run(st, more, l))
  {
    hide Opcode, Table, FindRow, Found, Run, Spell, SpellAnd, SpellOr;
    if p == 11 && e.AndE? {
      AndEnds(e, more, st, l);
    } else if p == 13 && e.OrE? {
      OrEnds(e, more, st, l);
    } else {
      Expand(TailOf(p), Eps, st, more, l) by { TailRow(p, Look(more)); }
    }
  }

  lemma {:induction false} AndEndShape(e: Expr, l: Word, acts: Acts)
    requires e.AndE?
    ensures Spell(e, acts) == SpellAnd(e, Actions(AndEnd(), l, acts))
  {
    AndSpelled(e, acts);
    EndActions(l, acts);
    hide Opcode, Spell, SpellAnd, SpellOr, Actions, ChainEnd;
  }

  lemma {:induction false} EndActions(l: Word, acts: Acts)
    ensures Actions(AndEnd(), l, acts) == ChainEnd(JIZ, LD1, LD0, acts)
    ensures Actions(OrEnd(), l, acts) == ChainEnd(JNZ, LD0, LD1, acts)
  {
    EndOuts(JIZ, LD1, LD0, l, acts);
    EndOuts(JNZ, LD0, LD1, l, acts);
    hide Opcode, Actions, ChainEnd;
  }

  lemma {:induction false} EndOuts(jump: Op, all: Op, some: Op, l: Word, acts: Acts)
    ensures Actions(O(jump, OutRef(0xf, 1, O(all, O(JR, OutRef(0xf, 2, Here(1, O(some, Here(2, End(Done))))))))), l,
        acts)
      == ChainEnd(jump, all, some, acts)
  {
    hide Opcode;
    var exit := Here(1, O(some, Here(2, End(Done))));
    var exitActs := Cons(SetPos(1), Op1(some, Cons(SetPos(2), Cons(SectEnd, acts))));
    assert Actions(Here(2, End(Done)), l, acts) == Cons(SetPos(2), Cons(SectEnd, acts));
    assert Actions(O(some, Here(2, End(Done))), l, acts) == Op1(some, Cons(SetPos(2), Cons(SectEnd, acts)));
    assert Actions(exit, l, acts) == exitActs;
    var skip := O(JR, OutRef(0xf, 2, exit));
    assert Actions(skip, l, acts) == OpRef(JR, 0xf, 2, exitActs);
    assert Actions(O(all, skip), l, acts) == Op1(all, OpRef(JR, 0xf, 2, exitActs));
  }

  lemma AndSpelled(e: Expr, acts: Acts)
    requires e.AndE?
    ensures Spell(e, acts) == SpellAnd(e, ChainEnd(JIZ, LD1, LD0, acts))
  {
    hide Opcode, SpellOr, SpellAnd, SpellArgs, ChainEnd;
    var AndE(l, r) := e;
    assert e == AndE(l, r);
  }

  lemma {:induction false} AndEnds(e: Expr, more: Tokens, st: Syms, l: Word)
    requires e.AndE? && Look(more) != P(AndAnd)
    ensures AfterLeft(e, 11, Run(N(AndMore, st), more, l)) == After(e, Run(st, more, l))
  {
    hide Opcode, Table, FindRow, Found, Run, Spell, SpellAnd, SpellOr, Actions;
    Expand(AndMore, Do(AndEnd(), Eps), st, more, l) by { ChainEndRows(Look(more)); }
    Output(AndEnd(), st, more, l);
    AndEndShape(e, l, Acted(Run(st, more, l)));
  }

  lemma {:induction false} OrEndShape(e: Expr, l: Word, acts: Acts)
    requires e.OrE?
    ensures Spell(e, acts) == SpellOr(e, Actions(OrEnd(), l, acts))
  {
    OrSpelled(e, acts);
    EndActions(l, acts);
    hide Opcode, Spell, SpellAnd, SpellOr, Actions, ChainEnd;
  }

  lemma OrSpelled(e: Expr, acts: Acts)
    requires e.OrE?
    ensures Spell(e, acts) == SpellOr(e, ChainEnd(JNZ, LD0, LD1, acts))
  {
    hide Opcode, SpellOr, SpellAnd, SpellArgs, ChainEnd;
    var OrE(l, r) := e;
    assert e == OrE(l, r);
  }

  lemma {:induction false} OrEnds(e: Expr, more: Tokens, st: Syms, l: Word)
    requires e.OrE? && Look(more) != P(OrOr)
    ensures AfterLeft(e, 13, Run(N(OrMore, st), more, l)) == After(e, Run(st, more, l))
  {
    hide Opcode, Table, FindRow, Found, Run, Spell, SpellAnd, SpellOr, Actions;
    Expand(OrMore, Do(OrEnd(), Eps), st, more, l) by { ChainEndRows(Look(more)); }
    Output(OrEnd(), st, more, l);
    OrEndShape(e, l, Acted(Run(st, more, l)));
  }

  lemma {:induction false} ParsedParen(e: Expr, more: Tokens, st: Syms, last: Word) returns (l: Word)
    ensures Run(N(Value, st), Sym(P(LParen), Write(e, 16, Sym(P(RParen), more))), last) == After(e, Run(st, more, l))
    decreases e, 1, 0, 0
  {
    hide Opcode, Table, FindRow, Found, Run, Write, Spell;
    var rest := Sym(P(RParen), more);
    Expand(Value, ParenBody(), st, Sym(P(LParen), Write(e, 16, rest)), last) by { AccessRows(); }
    Match(P(LParen), 0, N(Exp2, T(P(RParen), st)), Write(e, 16, rest), last);
    l := Parsed(e, 16, rest, T(P(RParen), st), 0);
    Match(P(RParen), 0, st, more, l);
    l := 0;
  }

  // Binary operators: e is read up to the point where another operator of
  // level p may follow.
  lemma {:induction false} ParsedLeft(e: Expr, p: nat, more: Tokens, st: Syms, last: Word) returns (l: Word)
    requires 2 <= p <= 16 && Continues(Look(more)) >= p
    requires !(p == 2 && Prec(e) == 2) && !(p == 14 && e.Cond?) && !(p == 15 && (e.Store? || e.StoreOp?))
    ensures Run(N(Accepts(p), st), Write(e, p, more), last) == AfterLeft(e, p, Run(N(Left(e, p), st), more, l))
    decreases e, if Prec(e) > p then 1 else 0, p, 1
  {
    hide Opcode, Table, FindRow, Found, Run, Bare, Spell, SpellAnd, SpellOr;
    if Prec(e) == p {
      match e
      case Bin(_, _, _) => l := ParsedBin(e, more, st, last);
      case AndE(_, _) => l := ParsedAnd(e, more, st, last);
      case XorE(_, _) => l := ParsedXor(e, more, st, last);
      case OrE(_, _) => l := ParsedOr(e, more, st, last);
      case Comma(_, _) => l := ParsedComma(e, more, st, last);
    } else {
      Descend(e, p, more, st, last);
      l := Parsed(e, p - 1, more, N(TailOf(p), st), last);
    }
  }

  lemma {:induction false} Descend(e: Expr, p: nat, more: Tokens, st: Syms, last: Word)
    requires 2 <= p <= 16 && Prec(e) != p
    ensures Run(N(Accepts(p), st), Write(e, p, more), last)
         == Run(N(Accepts(p - 1), N(TailOf(p), st)), Write(e, p - 1, more), last)
  {
    hide Opcode, Table, FindRow, Found, Run, Bare;
    var toks := Write(e, p, more);
    Expand(Accepts(p), N(Accepts(p - 1), N(TailOf(p), Eps)), st, toks, last) by {
      if p >= 3 {
        DescendRow(p, Look(toks));
      } else {
        WriteBegins(e, 1, more);
        PrefixRows(Look(toks));
      }
    }
    assert Push(N(TailOf(p), Eps), st) == N(TailOf(p), st);
  }

  lemma {:induction false} BinShape(e: Expr, more: Tokens, acts: Acts)
    requires e.Bin?
    ensures Bare(e, more) == Write(e.l, OpLevel(e.op), Sym(OpT(e.op), Write(e.r, OpLevel(e.op) - 1, more)))
    ensures Spell(e, acts) == Spell(e.l, Spell(e.r, Op1(Alu(e.op), acts)))
    ensures Assignable(e) == (Assignable(e.l) && Assignable(e.r))
  {
  }

  lemma {:induction false} ParsedBin(e: Expr, more: Tokens, st: Syms, last: Word) returns (l: Word)
    requires e.Bin? && Continues(Look(more)) >= OpLevel(e.op)
    ensures Run(N(Accepts(OpLevel(e.op)), st), Bare(e, more), last)
         == After(e, Run(N(TailOf(OpLevel(e.op)), st), more, l))
    decreases e, 0, OpLevel(e.op), 0
  {
    hide Opcode, Table, FindRow, Found, Run, Bare, Write, Spell, Assignable;
    var p := OpLevel(e.op);
    var rest := Write(e.r, p - 1, more);
    var l1 := ParsedLeft(e.l, p, Sym(OpT(e.op), rest), st, last);
    Expand(LevelTail(p), OperatorBody(e.op), st, Sym(OpT(e.op), rest), l1) by { OperatorRow(e.op); }
    var out := Do(O(Alu(e.op), Done), N(LevelTail(p), st));
    Match(OpT(e.op), 0, N(Operand(p), out), rest, l1);
    l := Parsed(e.r, p - 1, more, out, 0);
    Output(O(Alu(e.op), Done), N(LevelTail(p), st), more, l);
    BinShape(e, more, Acted(Run(N(LevelTail(p), st), more, l)));
  }

  lemma {:induction false} AndShape(e: Expr, more: Tokens, acts: Acts)
    requires e.AndE?
    ensures Bare(e, more) == Write(e.l, 11, Sym(P(AndAnd), Write(e.r, 10, more)))
    ensures var last := OpRef(JIZ, 0xf, 1, Spell(e.r, acts));
      SpellAnd(e, acts) == if e.l.AndE? then SpellAnd(e.l, last) else Spell(e.l, Cons(SectStart(0xf), last))
    ensures Assignable(e) == (Assignable(e.l) && Assignable(e.r))
  {
  }

  lemma {:induction false} ParsedAnd(e: Expr, more: Tokens, st: Syms, last: Word) returns (l: Word)
    requires e.AndE? && Continues(Look(more)) >= 11
    ensures Run(N(AndL, st), Bare(e, more), last) == AfterLeft(e, 11, Run(N(AndMore, st), more, l))
    decreases e, 0, 11, 0
  {
    hide Opcode, Table, FindRow, Found, Run, Bare, Write, Spell, SpellAnd, SpellOr, Assignable;
    var rest := Write(e.r, 10, more);
    var toks := Sym(P(AndAnd), rest);
    var below := N(Level(10), N(AndMore, st));
    var l1 := ParsedLeft(e.l, 11, toks, st, last);
    if e.l.AndE? {
      Expand(AndMore, AndNext(), st, toks, l1) by { ChainRows(); }
      Match(P(AndAnd), 0, Do(O(JIZ, OutRef(0xf, 1, Done)), below), rest, l1);
      Output(O(JIZ, OutRef(0xf, 1, Done)), below, rest, 0);
    } else {
      Expand(AndTail, AndFirst(), st, toks, l1) by { ChainRows(); }
      Match(P(AndAnd), 0, Do(Start(0xf, O(JIZ, OutRef(0xf, 1, Done))), below), rest, l1);
      Output(Start(0xf, O(JIZ, OutRef(0xf, 1, Done))), below, rest, 0);
    }
    l := Parsed(e.r, 10, more, N(AndMore, st), 0);
    AndShape(e, more, Acted(Run(N(AndMore, st), more, l)));
  }

  lemma {:induction false} OrShape(e: Expr, more: Tokens, acts: Acts)
    requires e.OrE?
    ensures Bare(e, more) == Write(e.l, 13, Sym(P(OrOr), Write(e.r, 12, more)))
    ensures var last := OpRef(JNZ, 0xf, 1, Spell(e.r, acts));
      SpellOr(e, acts) == if e.l.OrE? then SpellOr(e.l, last) else Spell(e.l, Cons(SectStart(0xf), last))
    ensures Assignable(e) == (Assignable(e.l) && Assignable(e.r))
  {
  }

  lemma {:induction false} ParsedOr(e: Expr, more: Tokens, st: Syms, last: Word) returns (l: Word)
    requires e.OrE? && Continues(Look(more)) >= 13
    ensures Run(N(OrL, st), Bare(e, more), last) == AfterLeft(e, 13, Run(N(OrMore, st), more, l))
    decreases e, 0, 13, 0
  {
    hide Opcode, Table, FindRow, Found, Run, Bare, Write, Spell, SpellAnd, SpellOr, Assignable;
    var rest := Write(e.r, 12, more);
    var toks := Sym(P(OrOr), rest);
    var below := N(XorL, N(OrMore, st));
    var l1 := ParsedLeft(e.l, 13, toks, st, last);
    if e.l.OrE? {
      Expand(OrMore, OrNext(), st, toks, l1) by { ChainRows(); }
      Match(P(OrOr), 0, Do(O(JNZ, OutRef(0xf, 1, Done)), below), rest, l1);
      Output(O(JNZ, OutRef(0xf, 1, Done)), below, rest, 0);
    } else {
      Expand(OrTail, OrFirst(), st, toks, l1) by { ChainRows(); }
      Match(P(OrOr), 0, Do(Start(0xf, O(JNZ, OutRef(0xf, 1, Done))), below), rest, l1);
      Output(Start(0xf, O(JNZ, OutRef(0xf, 1, Done))), below, rest, 0);
    }
    l := Parsed(e.r, 12, more, N(OrMore, st), 0);
    OrShape(e, more, Acted(Run(N(OrMore, st), more, l)));
  }

  lemma {:induction false} XorShape(e: Expr, more: Tokens, acts: Acts)
    requires e.XorE?
    ensures Bare(e, more) == Write(e.l, 12, Sym(P(XorXor), Write(e.r, 11, more)))
    ensures Spell(e, acts) == Spell(e.l, Op1(NOT, Spell(e.r, Op1(NOT, Op1(Alu(Ne), acts)))))
    ensures Assignable(e) == (Assignable(e.l) && Assignable(e.r))
  {
  }

  lemma {:induction false} ParsedXor(e: Expr, more: Tokens, st: Syms, last: Word) returns (l: Word)
    requires e.XorE? && Continues(Look(more)) >= 12
    ensures Run(N(XorL, st), Bare(e, more), last) == After(e, Run(N(XorTail, st), more, l))
    decreases e, 0, 12, 0
  {
    hide Opcode, Table, FindRow, Found, Run, Bare, Write, Spell, SpellAnd, SpellOr, Assignable;
    var rest := Write(e.r, 11, more);
    var l1 := ParsedLeft(e.l, 12, Sym(P(XorXor), rest), st, last);
    var out := Do(O(NOT, O(Alu(Ne), Done)), N(XorTail, st));
    Expand(XorTail, XorNext(), st, Sym(P(XorXor), rest), l1) by { ChainRows(); }
    Match(P(XorXor), 0, Do(O(NOT, Done), N(AndL, out)), rest, l1);
    Output(O(NOT, Done), N(AndL, out), rest, 0);
    l := Parsed(e.r, 11, more, out, 0);
    Output(O(NOT, O(Alu(Ne), Done)), N(XorTail, st), more, l);
    XorShape(e, more, Acted(Run(N(XorTail, st), more, l)));
  }

  lemma {:induction false} CommaShape(e: Expr, more: Tokens, acts: Acts)
    requires e.Comma?
    ensures Bare(e, more) == Write(e.l, 16, Sym(P(CommaT), Write(e.r, 15, more)))
    ensures Spell(e, acts) == Spell(e.l, Op1(DEL, Spell(e.r, acts)))
    ensures Assignable(e) == (Assignable(e.l) && Assignable(e.r))
  {
  }

  lemma {:induction false} ParsedComma(e: Expr, more: Tokens, st: Syms, last: Word) returns (l: Word)
    requires e.Comma? && Continues(Look(more)) >= 16
    ensures Run(N(Exp2, st), Bare(e, more), last) == After(e, Run(N(Exp2Tail, st), more, l))
    decreases e, 0, 16, 0
  {
    hide Opcode, Table, FindRow, Found, Run, Bare, Write, Spell, SpellAnd, SpellOr, Assignable;
    var rest := Write(e.r, 15, more);
    var below := N(AssignL, N(Exp2Tail, st));
    var l1 := ParsedLeft(e.l, 16, Sym(P(CommaT), rest), st, last);
    Expand(Exp2Tail, CommaNext(), st, Sym(P(CommaT), rest), l1) by { TopOperatorRows(); }
    Match(P(CommaT), 0, Do(O(DEL, Done), below), rest, l1);
    Output(O(DEL, Done), below, rest, 0);
    l := Parsed(e.r, 15, more, N(Exp2Tail, st), 0);
    CommaShape(e, more, Acted(Run(N(Exp2Tail, st), more, l)));
  }

  lemma {:induction false} CondShape(e: Expr, more: Tokens, acts: Acts)
    requires e.Cond?
    ensures Bare(e, more)
         == Write(e.c, 13, Sym(P(Question), Write(e.t, 14, Sym(P(Colon), Write(e.f, 14, more)))))
    ensures Spell(e, acts) == Spell(e.c, TestStart(0xe, Spell(e.t, TestElse(0xe, Spell(e.f, TestEnd(2, acts))))))
    ensures Assignable(e) == (Assignable(e.c) && Assignable(e.t) && Assignable(e.f))
  {
  }

  lemma {:induction false} ParsedCond(e: Expr, more: Tokens, st: Syms, last: Word) returns (l: Word)
    requires e.Cond? && Continues(Look(more)) > 14
    ensures Run(N(CondL, st), Bare(e, more), last) == After(e, Run(st, more, l))
    decreases e, 0, 14, 0
  {
    hide Opcode, Table, FindRow, Found, Run, Bare, Write, Spell, SpellAnd, SpellOr, Assignable;
    var rest2 := Write(e.f, 14, more);
    var rest1 := Write(e.t, 14, Sym(P(Colon), rest2));
    var start := Start(0xe, O(JIZ, OutRef(0xe, 1, Done)));
    var jump := O(JR, OutRef(0xe, 2, Done));
    var below := Push(ElseBody(), st);
    CondShape(e, more, Nil);
    Expand(CondL, N(OrL, N(CondTail, Eps)), st, Bare(e, more), last) by { DescendRow(14, Look(Bare(e, more))); }
    var l1 := Parsed(e.c, 13, Sym(P(Question), rest1), N(CondTail, st), last);
    Expand(CondTail, CondBody(), st, Sym(P(Question), rest1), l1) by { TopOperatorRows(); }
    Match(P(Question), 0, Do(start, N(CondL, Do(jump, below))), rest1, l1);
    Output(start, N(CondL, Do(jump, below)), rest1, 0);
    var l2 := Parsed(e.t, 14, Sym(P(Colon), rest2), Do(jump, below), 0);
    l := ParsedOtherwise(e, more, st, l2);
    hide TestElse, TestEnd;
    CondShape(e, more, Acted(Run(st, more, l)));
  }

  // What follows the first choice.
  lemma {:induction false} ParsedOtherwise(e: Expr, more: Tokens, st: Syms, last: Word) returns (l: Word)
    requires e.Cond? && Continues(Look(more)) > 14
    ensures Run(Do(O(JR, OutRef(0xe, 2, Done)), Push(ElseBody(), st)), Sym(P(Colon), Write(e.f, 14, more)), last)
         == (var r := Run(st, more, l);
             if r.Rejected? || !Assignable(e.f) then Rejected
               else Emitted(TestElse(0xe, Spell(e.f, TestEnd(2, r.acts)))))
    decreases e, 0, 13, 0
  {
    hide Opcode, Table, FindRow, Found, Run, Bare, Write, Spell, SpellAnd, SpellOr, Assignable;
    var rest2 := Write(e.f, 14, more);
    var jump := O(JR, OutRef(0xe, 2, Done));
    var end := Here(2, End(Done));
    var last2 := N(CondL, Do(end, st));
    var below := Push(ElseBody(), st);
    Output(jump, below, Sym(P(Colon), rest2), last);
    Match(P(Colon), 0, Do(Here(1, Done), last2), rest2, last);
    Output(Here(1, Done), last2, rest2, 0);
    l := Parsed(e.f, 14, more, Do(end, st), 0);
    Output(end, st, more, l);
  }

  lemma {:induction false} StoreShape(e: Expr, more: Tokens, acts: Acts)
    requires e.Store? || e.StoreOp?
    ensures Bare(e, more) == Write(e.l, 14, Sym(if e.Store? then P(Assign) else OpAs(e.asop), Write(e.r, 15, more)))
    ensures e.Store? ==> Spell(e, acts) == Spell(e.l, Spell(e.r, Op1(STO, acts)))
    ensures e.StoreOp? ==> Spell(e, acts) == Spell(e.l, Op1(DUP, Spell(e.r, Op1(Alu(e.asop), Op1(STO, acts)))))
    ensures Assignable(e) == ((e.StoreOp? ==> Wanted(e.asop) == e.asop) && Assignable(e.l) && Assignable(e.r))
  {
  }

  lemma {:induction false} ParsedStore(e: Expr, more: Tokens, st: Syms, last: Word) returns (l: Word)
    requires (e.Store? || e.StoreOp?) && Continues(Look(more)) > 15
    ensures Run(N(AssignL, st), Bare(e, more), last) == After(e, Run(st, more, l))
    decreases e, 0, 15, 0
  {
    hide Opcode, Table, FindRow, Found, Run, Bare, Write, Spell, SpellAnd, SpellOr, Assignable, After;
    StoreShape(e, more, Nil);
    Expand(AssignL, N(CondL, N(AssignTail, Eps)), st, Bare(e, more), last) by { DescendRow(15, Look(Bare(e, more))); }
    if e.Store? {
      l := ParsedAssign(e, more, st, last);
    } else {
      l := ParsedCompound(e, more, st, last);
    }
  }

  lemma {:induction false} ParsedAssign(e: Expr, more: Tokens, st: Syms, last: Word) returns (l: Word)
    requires e.Store? && Continues(Look(more)) > 15
    ensures Run(N(CondL, N(AssignTail, st)), Write(e.l, 14, Sym(P(Assign), Write(e.r, 15, more))), last) ==
        After(e, Run(st, more, l))
    decreases e, 0, 14, 9
  {
    hide Opcode, Table, FindRow, Found, Run, Bare, Write, Spell, SpellAnd, SpellOr, Assignable;
    var rest := Write(e.r, 15, more);
    var l1 := Parsed(e.l, 14, Sym(P(Assign), rest), N(AssignTail, st), last);
    Expand(AssignTail, StoreBody(), st, Sym(P(Assign), rest), l1) by { StoreFirstRow(); }
    Match(P(Assign), 0, N(AssignL, Do(O(STO, Done), st)), rest, l1);
    l := Parsed(e.r, 15, more, Do(O(STO, Done), st), 0);
    Output(O(STO, Done), st, more, l);
    StoreShape(e, more, Acted(Run(st, more, l)));
  }

  lemma {:induction false} ParsedCompound(e: Expr, more: Tokens, st: Syms, last: Word) returns (l: Word)
    requires e.StoreOp? && Continues(Look(more)) > 15
    ensures Run(N(CondL, N(AssignTail, st)), Write(e.l, 14, Sym(OpAs(e.asop), Write(e.r, 15, more))), last) ==
        After(e, Run(st, more, l))
    decreases e, 0, 14, 9
  {
    hide Opcode, Table, FindRow, Found, Run, Bare, Write, Spell, SpellAnd, SpellOr, Assignable;
    var rest := Write(e.r, 15, more);
    var out := O(Alu(e.asop), O(STO, Done));
    StoreShape(e, more, Nil);
    var l1 := Parsed(e.l, 14, Sym(OpAs(e.asop), rest), N(AssignTail, st), last);
    Expand(AssignTail, StoreOpBody(e.asop, Wanted(e.asop)), st, Sym(OpAs(e.asop), rest), l1) by { StoreOpRow(e.asop); }
    if Wanted(e.asop) != e.asop {
      Mismatch(OpAs(Wanted(e.asop)), Do(O(DUP, Done), N(AssignL, Do(out, st))), Sym(OpAs(e.asop), rest), l1);
      return last;
    }
    Match(OpAs(e.asop), 0, Do(O(DUP, Done), N(AssignL, Do(out, st))), rest, l1);
    Output(O(DUP, Done), N(AssignL, Do(out, st)), rest, 0);
    l := Parsed(e.r, 15, more, Do(out, st), 0);
    Output(out, st, more, l);
    StoreShape(e, more, Acted(Run(st, more, l)));
  }

  lemma {:induction false} UnaryShape(e: Expr, more: Tokens, l: Word, acts: Acts)
    requires e.Not? || e.Neg? || e.Minus? || e.PreInc? || e.PreDec?
    ensures Bare(e, more) == Sym(Sign(e), Write(e.e, 2, more))
    ensures LastAfter(SignOuts(e), l) == l
    ensures var signed := Spell(e.e, Actions(SignOuts(e), l, acts));
      Spell(e, acts) == if e.Minus? then Op1(LD0, signed) else signed
    ensures Assignable(e) == Assignable(e.e)
  {
    SignSpelled(e, l, acts);
    SignWritten(e, more);
    hide Opcode, Spell, Actions, Bare, Write, Assignable, Sign;
  }

  lemma SignWritten(e: Expr, more: Tokens)
    requires e.Not? || e.Neg? || e.Minus? || e.PreInc? || e.PreDec?
    ensures Bare(e, more) == Sym(Sign(e), Write(e.e, 2, more)) && Assignable(e) == Assignable(e.e)
  {
    hide Write;
  }

  lemma {:induction false} SignSpelled(e: Expr, l: Word, acts: Acts)
    requires e.Not? || e.Neg? || e.Minus? || e.PreInc? || e.PreDec?
    ensures var signed := Spell(e.e, Actions(SignOuts(e), l, acts));
      Spell(e, acts) == if e.Minus? then Op1(LD0, signed) else signed
  {
    hide Opcode, SpellOr, SpellAnd, SpellArgs;
  }

  function Sign(e: Expr): Term
    requires e.Not? || e.Neg? || e.Minus? || e.PreInc? || e.PreDec?
  {
    if e.Not? then P(Bang) else if e.Neg? then P(Tilde) else if e.Minus? then OpT(Sub)
    else if e.PreInc? then P(PlusPlus) else P(MinusMinus)
  }

  function SignOuts(e: Expr): Outs
    requires e.Not? || e.Neg? || e.Minus? || e.PreInc? || e.PreDec?
  {
    if e.Not? then O(NOT, Done) else if e.Neg? then O(NEG, Done) else if e.Minus? then O(Alu(Sub), Done)
    else IncOuts(if e.PreInc? then Add else Sub)
  }

  lemma {:induction false} OneOut(op: Op, last: Word)
    ensures LastAfter(O(op, Done), last) == last
    ensures forall acts :: Actions(O(op, Done), last, acts) == Op1(op, acts)
  {
    hide Opcode;
  }

  lemma {:induction false} ParsedUnary(e: Expr, more: Tokens, st: Syms, last: Word) returns (l: Word)
    requires Prec(e) == 2 && Continues(Look(more)) > 2
    ensures Run(N(Prefix, st), Bare(e, more), last) == After(e, Run(st, more, l))
    decreases e, 0, 2, 0
  {
    hide Opcode, Table, FindRow, Found, Run, Bare, Write, Spell, Actions, IncOuts, Assignable;
    if e.PostInc? {
      l := ParsedPostfix(e, PlusPlus, Add, more, st, last);
    } else if e.PostDec? {
      l := ParsedPostfix(e, MinusMinus, Sub, more, st, last);
    } else {
      var rest := Write(e.e, 2, more);
      var outs := SignOuts(e);
      UnaryShape(e, more, last, Nil);
      PrefixRows(Sign(e));
      if e.Minus? {
        Expand(Prefix, MinusBody(), st, Bare(e, more), last);
        Output(O(LD0, Done), T(OpT(Sub), N(Prefix, Do(outs, st))), Bare(e, more), last);
        OneOut(LD0, last);
      } else {
        Expand(Prefix, UnaryBody(Sign(e), outs), st, Bare(e, more), last);
      }
      Match(Sign(e), 0, N(Prefix, Do(outs, st)), rest, last);
      l := Parsed(e.e, 2, more, Do(outs, st), 0);
      Output(outs, st, more, l);
      UnaryShape(e, more, l, Acted(Run(st, more, l)));
    }
  }

  lemma {:induction false} PostShape(e: Expr, more: Tokens, l: Word, acts: Acts)
    requires e.PostInc? || e.PostDec?
    ensures Bare(e, more) == Write(e.e, 1, Sym(P(if e.PostInc? then PlusPlus else MinusMinus), more))
    ensures Spell(e, acts) == Spell(e.e, Actions(PostOuts(if e.PostInc? then Add else Sub), l, acts))
    ensures Assignable(e) == Assignable(e.e)
  {
    PostSpelled(e, l, acts);
    hide Opcode, Spell, Actions;
  }

  lemma {:induction false} PostSpelled(e: Expr, l: Word, acts: Acts)
    requires e.PostInc? || e.PostDec?
    ensures Spell(e, acts) == Spell(e.e, Actions(PostOuts(if e.PostInc? then Add else Sub), l, acts))
  {
    hide Opcode, SpellOr, SpellAnd, SpellArgs;
  }

  lemma {:induction false} ParsedPostfix(e: Expr, sign: Punctuator, op: BinOp, more: Tokens, st: Syms, last: Word)
    returns (l: Word)
    requires (e.PostInc? && sign == PlusPlus && op == Add) || (e.PostDec? && sign == MinusMinus && op == Sub)
    requires Continues(Look(more)) > 2
    ensures Run(N(Prefix, st), Bare(e, more), last) == After(e, Run(st, more, l))
    decreases e.e, 2
  {
    hide Opcode, Table, FindRow, Found, Run, Bare, Write, Spell, Actions, Assignable;
    var rest := Sym(P(sign), more);
    var toks := Write(e.e, 1, rest);
    Expand(Prefix, N(Value, N(Postfix, Eps)), st, toks, last) by { WriteBegins(e.e, 1, rest); PrefixRows(Look(toks)); }
    var l1 := Parsed(e.e, 1, rest, N(Postfix, st), last);
    Expand(Postfix, T(P(sign), Do(PostOuts(op), Eps)), st, rest, l1) by { PostfixRows(); }
    Match(P(sign), 0, Do(PostOuts(op), st), more, l1);
    l := 0;
    Output(PostOuts(op), st, more, l);
    PostShape(e, more, l, Acted(Run(st, more, l)));
  }

  lemma {:induction false} ParsedValue(e: Expr, more: Tokens, st: Syms, last: Word) returns (l: Word)
    requires Prec(e) == 1 && Continues(Look(more)) > 1
    ensures Run(N(Value, st), Bare(e, more), last) == After(e, Run(st, more, l))
    decreases e, 0, 1, 0
  {
    hide Opcode, Table, FindRow, Found, Run, Write, Spell, SpellAnd, SpellOr;
    if e.Call? {
      l := ParsedCall(e, more, st, last);
    } else if e.CallField? {
      l := ParsedCallField(e, more, st, last);
    } else if e.ArgField? {
      l := ParsedArgField(e, more, st, last);
    } else if e.Paren? {
      ParenShape(e.e, more, Nil);
      l := ParsedParen(e.e, more, st, last);
      ParenShape(e.e, more, Acted(Run(st, more, l)));
    } else if e.Num? || e.Str? || e.Path? || e.Arg? {
      l := ParsedConstant(e, more, st, last);
    } else {
      l := ParsedName(e, more, st, last);
    }
  }

  lemma ParenShape(a: Expr, more: Tokens, acts: Acts)
    ensures Bare(Paren(a), more) == Sym(P(LParen), Write(a, 16, Sym(P(RParen), more)))
    ensures Spell(Paren(a), acts) == Spell(a, acts) && Assignable(Paren(a)) == Assignable(a)
  {
    ParenSpelled(a, acts);
    hide Spell, Assignable, Write, Opcode;
  }

  lemma ParenSpelled(a: Expr, acts: Acts)
    ensures Spell(Paren(a), acts) == Spell(a, acts) && Assignable(Paren(a)) == Assignable(a)
  {
    hide Opcode, SpellAnd, SpellOr, SpellArgs;
  }

  lemma {:induction false} ParsedConstant(e: Expr, more: Tokens, st: Syms, last: Word) returns (l: Word)
    requires e.Num? || e.Str? || e.Path? || e.Arg?
    requires Continues(Look(more)) > 1
    ensures Run(N(Value, st), Bare(e, more), last) == After(e, Run(st, more, l))
  {
    hide Opcode, Table, FindRow, Found, Run;
    var toks := Bare(e, more);
    ConstantRows();
    l := toks.head.data;
    if e.Num? {
      Expand(Value, NumBody(), st, toks, last);
      Output(O(LDI, Done), T(V(TNum), Do(OutVal(O(LTI, Done)), st)), toks, last);
      Match(V(TNum), l, Do(OutVal(O(LTI, Done)), st), more, last);
      Output(OutVal(O(LTI, Done)), st, more, l);
    } else if e.Arg? {
      Expand(Value, ArgBody(), st, toks, last);
      Output(O(ARG, Done), T(V(TArg), Do(OutVal(Done), N(AttrTail, st))), toks, last);
      Match(V(TArg), l, Do(OutVal(Done), N(AttrTail, st)), more, last);
      Output(OutVal(Done), N(AttrTail, st), more, l);
      Expand(AttrTail, Eps, st, more, l) by { NameRows(Look(more)); }
    } else {
      var tag := if e.Str? then LTS else LTP;
      Expand(Value, ConstBody(toks.head.sym, tag), st, toks, last);
      Match(toks.head.sym, l, Do(O(LDI, OutVal(O(tag, Done))), st), more, last);
      Output(O(LDI, OutVal(O(tag, Done))), st, more, l);
    }
  }

  // The attribute behind an argument or a call.
  lemma {:induction false} ParsedSelect(a: Word, more: Tokens, st: Syms, last: Word)
    ensures Run(N(AttrTail, st), Dotted(a, more), last)
      == (var r := Run(st, more, a); if r.Rejected? then Rejected else Emitted(Op2(ATR, a, r.acts)))
  {
    hide Opcode, Table, FindRow, Found, Run;
    var below := T(P(DotT), T(V(TId), Do(OutVal(Done), st)));
    Expand(AttrTail, SelectBody(), st, Dotted(a, more), last) by { NameRows(P(DotT)); }
    Output(O(ATR, Done), below, Dotted(a, more), last);
    Match(P(DotT), 0, T(V(TId), Do(OutVal(Done), st)), Lit(V(TId), a, more), last);
    Match(V(TId), a, Do(OutVal(Done), st), more, 0);
    Output(OutVal(Done), st, more, a);
  }

  lemma {:induction false} ParsedArgField(e: Expr, more: Tokens, st: Syms, last: Word) returns (l: Word)
    requires e.ArgField?
    ensures Run(N(Value, st), Bare(e, more), last) == After(e, Run(st, more, l))
  {
    hide Opcode, Table, FindRow, Found, Run;
    var toks := Bare(e, more);
    var rest := Dotted(e.attr, more);
    Expand(Value, ArgBody(), st, toks, last) by { ConstantRows(); }
    Output(O(ARG, Done), T(V(TArg), Do(OutVal(Done), N(AttrTail, st))), toks, last);
    Match(V(TArg), e.i, Do(OutVal(Done), N(AttrTail, st)), rest, last);
    Output(OutVal(Done), N(AttrTail, st), rest, e.i);
    ParsedSelect(e.attr, more, st, e.i);
    l := e.attr;
  }

  lemma {:induction false} ParsedName(e: Expr, more: Tokens, st: Syms, last: Word) returns (l: Word)
    requires e.Var? || e.Field? || e.Fetch? || e.Update?
    requires Continues(Look(more)) > 1
    ensures Run(N(Value, st), Bare(e, more), last) == After(e, Run(st, more, l))
  {
    hide Opcode, Table, FindRow, Found, Run;
    var toks := Bare(e, more);
    var x := e.name;
    if e.Var? {
      Expand(Value, IdBody(), st, toks, last) by { ConstantRows(); }
      Match(V(TId), x, N(IdTail, st), more, last);
      Expand(IdTail, Do(O(LDV, OutVal(Done)), Eps), st, more, x) by { NameRows(Look(more)); }
      Output(O(LDV, OutVal(Done)), st, more, x);
      l := x;
    } else if e.Field? {
      var rest := Lit(V(TId), e.attr, more);
      var below := T(V(TId), Do(OutVal(Done), st));
      Expand(Value, IdBody(), st, toks, last) by { ConstantRows(); }
      Match(V(TId), x, N(IdTail, st), Sym(P(DotT), rest), last);
      Expand(IdTail, FieldBody(), st, Sym(P(DotT), rest), x) by { NameRows(P(DotT)); }
      Output(O(LDS, OutVal(Done)), T(P(DotT), below), Sym(P(DotT), rest), x);
      Match(P(DotT), 0, below, rest, x);
      l := e.attr;
      Match(V(TId), l, Do(OutVal(Done), st), more, 0);
      Output(OutVal(Done), st, more, l);
    } else {
      var k, op := if e.Fetch? then FetchK else UpdateK, if e.Fetch? then FET else UPD;
      Expand(Value, AccessBody(k, op), st, toks, last) by { AccessRows(); }
      Match(K(k), 0, T(V(TId), Do(O(op, OutVal(Done)), st)), Lit(V(TId), x, more), last);
      Match(V(TId), x, Do(O(op, OutVal(Done)), st), more, 0);
      l := x;
      Output(O(op, OutVal(Done)), st, more, l);
    }
  }

  lemma {:induction false} CallShape(e: Expr, more: Tokens, acts: Acts)
    requires e.Call? || e.CallField?
    ensures var rest := if e.Call? then more else Dotted(e.attr, more);
      Bare(e, more) == Lit(V(TCall), e.fn, Sym(P(LParen), WriteArgs(e.args, Sym(P(RParen), rest))))
    ensures var rest := if e.Call? then acts else Op2(ATR, e.attr, acts);
      Spell(e, acts) == CallStart(e.fn, SpellArgs(e.args, CallEnd(rest)))
    ensures Assignable(e) == AssignableArgs(e.args)
  {
  }

  // A call up to its closing parenthesis.
  lemma {:induction false} ParsedApply(fn: Word, args: Exprs, more: Tokens, st: Syms, last: Word) returns (l: Word)
    ensures Run(N(Value, st), Lit(V(TCall), fn, Sym(P(LParen), WriteArgs(args, Sym(P(RParen), more)))), last)
      == (var r := Run(N(AttrTail, st), more, l);
          if r.Rejected? || !AssignableArgs(args) then Rejected
          else Emitted(CallStart(fn, SpellArgs(args, CallEnd(r.acts)))))
    decreases args, 1
  {
    hide Opcode, Table, FindRow, Found, Run, Write, WriteArgs, Spell, SpellArgs, Assignable;
    var rest := Sym(P(RParen), more);
    var inner := Sym(P(LParen), WriteArgs(args, rest));
    var call := Do(JumpOuts(), N(AttrTail, st));
    var toks := Lit(V(TCall), fn, inner);
    Expand(Value, CallBody(), st, toks, last) by { AccessRows(); }
    Output(Start(4, Done), T(V(TCall), Do(SetVal(1, Done), N(Args, call))), toks, last);
    Match(V(TCall), fn, Do(SetVal(1, Done), N(Args, call)), inner, last);
    Output(SetVal(1, Done), N(Args, call), inner, fn);
    l := ParsedArgList(args, rest, call, fn);
    Output(JumpOuts(), N(AttrTail, st), more, l);
  }

  lemma {:induction false} ParsedCall(e: Expr, more: Tokens, st: Syms, last: Word) returns (l: Word)
    requires e.Call? && Continues(Look(more)) > 1
    ensures Run(N(Value, st), Bare(e, more), last) == After(e, Run(st, more, l))
    decreases e.args, 2
  {
    hide Opcode, Table, FindRow, Found, Run, Bare, Write, WriteArgs, Spell, SpellArgs, Assignable;
    CallShape(e, more, Nil);
    l := ParsedApply(e.fn, e.args, more, st, last);
    Expand(AttrTail, Eps, st, more, l) by { NameRows(Look(more)); }
    CallShape(e, more, Acted(Run(st, more, l)));
  }

  lemma {:induction false} ParsedCallField(e: Expr, more: Tokens, st: Syms, last: Word) returns (l: Word)
    requires e.CallField?
    ensures Run(N(Value, st), Bare(e, more), last) == After(e, Run(st, more, l))
    decreases e.args, 2
  {
    hide Opcode, Table, FindRow, Found, Run, Bare, Write, WriteArgs, Spell, SpellArgs, Assignable;
    CallShape(e, more, Nil);
    var l1 := ParsedApply(e.fn, e.args, Dotted(e.attr, more), st, last);
    ParsedSelect(e.attr, more, st, l1);
    l := e.attr;
    CallShape(e, more, Acted(Run(st, more, l)));
  }

  lemma {:induction false} ParsedArgList(args: Exprs, rest: Tokens, st: Syms, last: Word) returns (l: Word)
    requires rest.Cons? && rest.head == Token(P(RParen), 0)
    ensures Run(N(Args, st), Sym(P(LParen), WriteArgs(args, rest)), last)
         == AfterArgs(args, Emits(CountOuts(), l, Run(st, rest.tail, l)))
    decreases args, 0, 1
  {
    hide Opcode, Table, FindRow, Found, Run, Bare, Write, Spell;
    var inner := WriteArgs(args, rest);
    var close := T(P(RParen), Do(CountOuts(), st));
    Expand(Args, ArgsBody(), st, Sym(P(LParen), inner), last) by { ArgRows(P(LParen)); }
    Match(P(LParen), 0, N(Args1, close), inner, last);
    if args.NoExpr? {
      Expand(Args1, Do(IncVal(0, DecVal(0, Done)), Eps), close, inner, 0) by { ArgRows(P(RParen)); }
      Output(IncVal(0, DecVal(0, Done)), close, inner, 0);
      l := 0;
    } else {
      Expand(Args1, N(Args2, Eps), close, inner, 0) by {
        ArgRows(Look(inner));
        ArgsBegin(args, rest);
      }
      l := ParsedArgs(args, rest, close, 0);
    }
    Match(P(RParen), 0, Do(CountOuts(), st), rest.tail, l);
    l := 0;
    Output(CountOuts(), st, rest.tail, l);
  }

  lemma ArgsBegin(args: Exprs, more: Tokens)
    requires args.MoreExpr?
    ensures Begins(Look(WriteArgs(args, more)), 15)
  {
    if args.rest.NoExpr? {
      WriteBegins(args.e, 15, more);
    } else {
      WriteBegins(args.e, 15, Sym(P(CommaT), WriteArgs(args.rest, more)));
    }
  }

  lemma {:induction false} ParsedArgs(args: Exprs, more: Tokens, st: Syms, last: Word) returns (l: Word)
    requires args.MoreExpr? && Look(more) == P(RParen)
    ensures Run(N(Args2, st), WriteArgs(args, more), last) == AfterArgs(args, Run(st, more, l))
    decreases args, 0, 0
  {
    hide Opcode, Table, FindRow, Found, Run, Bare, Write, Spell;
    var toks := WriteArgs(args, more);
    var next := N(ArgNext, st);
    assert AssignableArgs(args) == (Assignable(args.e) && AssignableArgs(args.rest));
    assert AssignableArgs(NoExpr);
    Expand(Args2, N(Exp, Do(IncVal(0, Done), N(ArgNext, Eps))), st, toks, last) by { ArgRows(Look(toks)); }
    Expand(Exp, N(AssignL, Eps), Do(IncVal(0, Done), next), toks, last) by { ArgRows(Look(toks)); }
    if args.rest.NoExpr? {
      l := Parsed(args.e, 15, more, Do(IncVal(0, Done), next), last);
      Output(IncVal(0, Done), next, more, l);
      Expand(ArgNext, Eps, st, more, l) by { ArgRows(Look(more)); }
    } else {
      var rest := WriteArgs(args.rest, more);
      var l1 := Parsed(args.e, 15, Sym(P(CommaT), rest), Do(IncVal(0, Done), next), last);
      Output(IncVal(0, Done), next, Sym(P(CommaT), rest), l1);
      Expand(ArgNext, T(P(CommaT), N(Args2, Eps)), st, Sym(P(CommaT), rest), l1) by { ArgRows(P(CommaT)); }
      Match(P(CommaT), 0, N(Args2, st), rest, l1);
      l := ParsedArgs(args.rest, more, st, 0);
    }
  }
}
