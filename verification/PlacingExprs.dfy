/** Every expression lays out as its code, by induction over the tree. */
module PlacingExprs {
  import opened Lists
  import opened Words
  import opened Engine
  import opened Source
  import opened Postfix
  import opened Layout
  import opened Codegen
  import opened Placing

  lemma {:induction false} Join3(a: Acts, b: Acts, c: Acts, d: Acts, u: Code, v: Code, w: Code)
    requires Emits(a, b, u) && Emits(b, c, v) && Emits(c, d, w)
    ensures Emits(a, d, u + v + w)
  {
    hide Emits;
    EmitsThen(a, b, c, u, v);
    EmitsThen(a, c, d, u + v, w);
  }

  lemma {:induction false} Join4(a: Acts, b: Acts, c: Acts, d: Acts, e: Acts, u: Code, v: Code, w: Code, x: Code)
    requires Emits(a, b, u) && Emits(b, c, v) && Emits(c, d, w) && Emits(d, e, x)
    ensures Emits(a, e, u + v + w + x)
  {
    hide Emits;
    Join3(a, b, c, d, u, v, w);
    EmitsThen(a, d, e, u + v + w, x);
  }

  lemma {:induction false} Spelled(e: Expr, more: Acts)
    ensures Emits(Spell(e, more), more, CodeE(e))
    decreases e, 3
  {
    hide Emits, Opcode, IncCode, OldCode, TestCode, ChainCode, TestStart, TestElse, TestEnd, CodeAnd, CodeOr, SpellAnd,
      SpellOr, CallCode, CallStart, CallEnd, SpellArgs, CodeArgs, Count;
    match e
    case Num(n) => EmitsPut3(W(LDI), n, W(LTI), more);
    case Str(n) => EmitsPut3(W(LDI), n, W(LTS), more);
    case Path(n) => EmitsPut3(W(LDI), n, W(LTP), more);
    case Var(x) => EmitsPut2(W(LDV), x, more);
    case Field(x, a) => EmitsPut3(W(LDS), x, a, more);
    case Arg(i) => EmitsPut2(W(ARG), i, more);
    case ArgField(_, _) => SpelledField(e, more);
    case Fetch(x) => EmitsPut2(W(FET), x, more);
    case Update(x) => EmitsPut2(W(UPD), x, more);
    case Call(f, args) => SpelledCall(f, args, more);
    case CallField(_, _, _) => SpelledField(e, more);
    case Paren(a) => Spelled(a, more);
    case Not(_) => SpelledSign(e, more);
    case Neg(_) => SpelledSign(e, more);
    case Minus(_) => SpelledSign(e, more);
    case PreInc(a) => SpelledInc(e, Add, a, more);
    case PreDec(a) => SpelledInc(e, Sub, a, more);
    case PostInc(a) => SpelledInc(e, Add, a, more);
    case PostDec(a) => SpelledInc(e, Sub, a, more);
    case AndE(_, _) => SpelledAnd(e, more);
    case OrE(_, _) => SpelledOr(e, more);
    case Cond(_, _, _) => SpelledCond(e, more);
    case _ => SpelledPair(e, more);
  }

  lemma {:induction false} SpelledSign(e: Expr, more: Acts)
    requires e.Not? || e.Neg? || e.Minus?
    ensures Emits(Spell(e, more), more, CodeE(e))
    decreases e, 0
  {
    hide Emits, Opcode;
    match e
    case Not(a) =>
      Spelled(a, Op1(NOT, more));
      EmitsPut(W(NOT), more);
      EmitsThen(Spell(e, more), Op1(NOT, more), more, CodeE(a), [W(NOT)]);
    case Neg(a) =>
      Spelled(a, Op1(NEG, more));
      EmitsPut(W(NEG), more);
      EmitsThen(Spell(e, more), Op1(NEG, more), more, CodeE(a), [W(NEG)]);
    case Minus(a) =>
      var rest := Op1(Alu(Sub), more);
      EmitsPut(W(LD0), Spell(a, rest));
      Spelled(a, rest);
      EmitsPut(W(Alu(Sub)), more);
      Join3(Spell(e, more), Spell(a, rest), rest, more, [W(LD0)], CodeE(a), [W(Alu(Sub))]);
  }

  lemma {:induction false} SpelledField(e: Expr, more: Acts)
    requires e.ArgField? || e.CallField?
    ensures Emits(Spell(e, more), more, CodeE(e))
    decreases e, 0
  {
    hide Emits, Opcode, CallCode, CallStart, CallEnd, SpellArgs, CodeArgs, Count;
    var rest := Op2(ATR, e.attr, more);
    EmitsPut2(W(ATR), e.attr, more);
    if e.ArgField? {
      EmitsPut2(W(ARG), e.i, rest);
      EmitsThen(Spell(e, more), rest, more, [W(ARG), e.i], [W(ATR), e.attr]);
    } else {
      SpelledCall(e.fn, e.args, rest);
      EmitsThen(Spell(e, more), rest, more, CodeArgs(e.args) + CallCode(e.fn, Count(e.args)), [W(ATR), e.attr]);
    }
  }

  lemma {:induction false} SpelledInc(e: Expr, op: BinOp, a: Expr, more: Acts)
    requires (op == Add && (e == PreInc(a) || e == PostInc(a))) || (op == Sub && (e == PreDec(a) || e == PostDec(a)))
    ensures Emits(Spell(e, more), more, CodeE(e))
    decreases e, 0
  {
    hide Emits, Opcode, IncCode, OldCode, Incremented, OldAndIncremented;
    if e.PreInc? || e.PreDec? {
      Spelled(a, Incremented(op, more));
      EmitsIncremented(op, more);
      EmitsThen(Spell(e, more), Incremented(op, more), more, CodeE(a), IncCode(op));
    } else {
      Spelled(a, OldAndIncremented(op, more));
      EmitsOld(op, more);
      EmitsThen(Spell(e, more), OldAndIncremented(op, more), more, CodeE(a), OldCode(op));
    }
  }

  // Operators with two operands that are always evaluated.
  lemma {:induction false} SpelledPair(e: Expr, more: Acts)
    requires e.Bin? || e.XorE? || e.Store? || e.StoreOp? || e.Comma?
    ensures Emits(Spell(e, more), more, CodeE(e))
    decreases e, 1
  {
    hide Emits, Opcode;
    match e
    case Bin(op, l, r) =>
      var rest := Op1(Alu(op), more);
      Spelled(l, Spell(r, rest));
      Spelled(r, rest);
      EmitsPut(W(Alu(op)), more);
      Join3(Spell(e, more), Spell(r, rest), rest, more, CodeE(l), CodeE(r), [W(Alu(op))]);
    case Store(l, r) =>
      var rest := Op1(STO, more);
      Spelled(l, Spell(r, rest));
      Spelled(r, rest);
      EmitsPut(W(STO), more);
      Join3(Spell(e, more), Spell(r, rest), rest, more, CodeE(l), CodeE(r), [W(STO)]);
    case XorE(_, _) => SpelledTriple(e, more);
    case StoreOp(_, _, _) => SpelledTriple(e, more);
    case Comma(l, r) =>
      Spelled(l, Op1(DEL, Spell(r, more)));
      EmitsPut(W(DEL), Spell(r, more));
      Spelled(r, more);
      Join3(Spell(e, more), Op1(DEL, Spell(r, more)), Spell(r, more), more, CodeE(l), [W(DEL)], CodeE(r));
  }

  // An instruction between the operands.
  lemma {:induction false} SpelledTriple(e: Expr, more: Acts)
    requires e.XorE? || e.StoreOp?
    ensures Emits(Spell(e, more), more, CodeE(e))
    decreases e, 0
  {
    hide Emits, Opcode;
    match e
    case XorE(l, r) =>
      var rest := Op1(NOT, Op1(Alu(Ne), more));
      Spelled(l, Op1(NOT, Spell(r, rest)));
      EmitsPut(W(NOT), Spell(r, rest));
      Spelled(r, rest);
      EmitsPut2(W(NOT), W(Alu(Ne)), more);
      Join4(Spell(e, more), Op1(NOT, Spell(r, rest)), Spell(r, rest), rest, more, CodeE(l), [W(NOT)], CodeE(r),
        [W(NOT), W(Alu(Ne))]);
    case StoreOp(op, l, r) =>
      var rest := Op1(Alu(op), Op1(STO, more));
      Spelled(l, Op1(DUP, Spell(r, rest)));
      EmitsPut(W(DUP), Spell(r, rest));
      Spelled(r, rest);
      EmitsPut2(W(Alu(op)), W(STO), more);
      Join4(Spell(e, more), Op1(DUP, Spell(r, rest)), Spell(r, rest), rest, more, CodeE(l), [W(DUP)], CodeE(r),
        [W(Alu(op)), W(STO)]);
  }

  lemma {:induction false} SpelledCond(e: Expr, more: Acts)
    requires e.Cond?
    ensures Emits(Spell(e, more), more, CodeE(e))
    decreases e, 0
  {
    hide Emits, Opcode, TestStart, TestElse, TestEnd, Spell, CodeE, TestCode;
    CondShape(e, more);
    var f := Spell(e.f, TestEnd(2, more));
    var t := Spell(e.t, TestElse(0xe, f));
    Spelled(e.c, TestStart(0xe, t));
    Spelled(e.t, TestElse(0xe, f));
    Spelled(e.f, TestEnd(2, more));
    EmitsBranches(0xe, t, f, more, CodeE(e.t), CodeE(e.f));
    EmitsThen(Spell(e, more), TestStart(0xe, t), more, CodeE(e.c), TestCode([], CodeE(e.t), CodeE(e.f)));
  }

  lemma CondShape(e: Expr, more: Acts)
    requires e.Cond?
    ensures Spell(e, more) == Spell(e.c, TestStart(0xe, Spell(e.t, TestElse(0xe, Spell(e.f, TestEnd(2, more))))))
    ensures CodeE(e) == CodeE(e.c) + TestCode([], CodeE(e.t), CodeE(e.f))
  {
    hide Spell, CodeE, TestStart, TestElse, TestEnd, TestCode;
    CondActs(e, more);
    CondCode(e);
  }

  lemma CondActs(e: Expr, more: Acts)
    requires e.Cond?
    ensures Spell(e, more) == Spell(e.c, TestStart(0xe, Spell(e.t, TestElse(0xe, Spell(e.f, TestEnd(2, more))))))
  {
    hide TestStart, TestElse, TestEnd, CodeE;
  }

  lemma CondCode(e: Expr)
    requires e.Cond?
    ensures CodeE(e) == CodeE(e.c) + TestCode([], CodeE(e.t), CodeE(e.f))
  {
    hide Spell;
    assert TestCode(CodeE(e.c), CodeE(e.t), CodeE(e.f)) == CodeE(e.c) + TestCode([], CodeE(e.t), CodeE(e.f));
  }

  /* && */

  lemma AndActs(e: Expr, more: Acts)
    requires e.AndE?
    ensures var last := OpRef(JIZ, 0xf, 1, Spell(e.r, more));
      SpellAnd(e, more) == if e.l.AndE? then SpellAnd(e.l, last) else Spell(e.l, Cons(SectStart(0xf), last))
  {
    hide OpRef, Opcode, CodeE, CodeAnd, Spell;
  }

  lemma AndCode(e: Expr, d: nat)
    requires e.AndE?
    ensures var r := CodeE(e.r);
      CodeAnd(e, d) == (if e.l.AndE? then CodeAnd(e.l, 2 + |r| + d) else CodeE(e.l)) + ([W(JIZ), Rel(|r| + d)] + r)
  {
    hide OpRef, Opcode, Spell, SpellAnd, CodeE;
  }

  lemma AndShape(e: Expr, more: Acts, d: nat)
    requires e.AndE?
    ensures var last := OpRef(JIZ, 0xf, 1, Spell(e.r, more));
      SpellAnd(e, more) == if e.l.AndE? then SpellAnd(e.l, last) else Spell(e.l, Cons(SectStart(0xf), last))
    ensures var r := CodeE(e.r);
      CodeAnd(e, d) == (if e.l.AndE? then CodeAnd(e.l, 2 + |r| + d) else CodeE(e.l)) + ([W(JIZ), Rel(|r| + d)] + r)
  {
    hide OpRef, Opcode, Spell, SpellAnd, CodeE, CodeAnd, Rel;
    AndActs(e, more);
    AndCode(e, d);
  }

  lemma {:induction false} NextAnd(e: Expr, more: Acts, d: nat, pos: nat, depth: nat, lab: nat, at: nat)
    requires e.AndE?
    ensures Next(SpellAnd(e, more), pos, depth, lab, at) == Next(more, pos + |CodeAnd(e, d)|, depth + 1, lab, at)
    decreases e, 1
  {
    hide Opcode, Next, Lay, OpRef, Spell, CodeE, SpellAnd, CodeAnd, Rel;
    AndShape(e, more, d);
    var right := Spell(e.r, more);
    var last := OpRef(JIZ, 0xf, 1, right);
    Spelled(e.r, more);
    var n := if e.l.AndE? then |CodeAnd(e.l, 2 + |CodeE(e.r)| + d)| else |CodeE(e.l)|;
    NextOperand(JIZ, right, more, CodeE(e.r), pos + n, depth + 1, lab, at);
    if e.l.AndE? {
      NextAnd(e.l, last, 2 + |CodeE(e.r)| + d, pos, depth, lab, at);
    } else {
      Spelled(e.l, Cons(SectStart(0xf), last));
      assert SkipsAs(Spell(e.l, Cons(SectStart(0xf), last)), Cons(SectStart(0xf), last), n, pos, depth, lab, at);
      NextStart(0xf, last, pos + n, depth, lab, at);
    }
  }

  // The section of the chain opens behind the first operand and stays open.
  lemma {:induction false} LayAnd(e: Expr, more: Acts, d: nat, pos: nat, sects: seq<Section>)
    requires e.AndE?
    requires var n := |CodeAnd(e, d)|; Leads(more, pos + n, 1, pos + n + d)
    ensures var n := |CodeAnd(e, d)|;
      Lay(SpellAnd(e, more), pos, sects) == Before(CodeAnd(e, d), Lay(more, pos + n, sects + [ChainSect()]))
    decreases e, 1
  {
    hide Opcode, Next, Lay, OpRef, Before, Offset, Spell, CodeE, SpellAnd, CodeAnd, Rel;
    AndShape(e, more, d);
    var right := Spell(e.r, more);
    var last := OpRef(JIZ, 0xf, 1, right);
    var code := CodeE(e.r);
    var s := Section(0xf, map[], {});
    Spelled(e.r, more);
    var end := Lay(more, pos + |CodeAnd(e, d)|, sects + [ChainSect()]);
    var tail := [W(JIZ), Rel(|code| + d)] + code;
    if e.l.AndE? {
      var left := CodeAnd(e.l, 2 + |code| + d);
      LayOperand(JIZ, right, more, code, d, pos + |left|, sects, ChainSect());
      LayAnd(e.l, last, 2 + |code| + d, pos, sects);
      BeforeBefore(left, tail, end);
      assert CodeAnd(e, d) == left + tail;
    } else {
      var left := CodeE(e.l);
      LayOperand(JIZ, right, more, code, d, pos + |left|, sects, s);
      Spelled(e.l, Cons(SectStart(0xf), last));
      assert LaysAs(Spell(e.l, Cons(SectStart(0xf), last)), Cons(SectStart(0xf), last), left, pos, sects);
      LayStart(0xf, last, pos + |left|, sects);
      BeforeBefore(left, tail, end);
      assert CodeAnd(e, d) == left + tail;
    }
  }

  lemma {:induction false} SpelledAnd(e: Expr, more: Acts)
    requires e.AndE?
    ensures Emits(Spell(e, more), more, CodeE(e))
    decreases e, 2
  {
    hide Opcode, Next, Lay, ChainEnd, ChainCode, Before, Offset, SpellAnd, CodeAnd;
    var end := ChainEnd(JIZ, LD1, LD0, more);
    var code := CodeAnd(e, 5);
    forall pos: nat, sects: seq<Section> ensures LaysAs(Spell(e, more), more, CodeE(e), pos, sects) {
      LayChainEnd(JIZ, LD1, LD0, more, pos + |code|, sects);
      LayAnd(e, end, 5, pos, sects);
      BeforeBefore(code, ChainCode(JIZ, LD1, LD0), Lay(more, pos + |code| + 6, sects));
      ChainSize(JIZ, LD1, LD0);
    }
    forall pos: nat, depth: nat, lab: nat, at: nat ensures SkipsAs(Spell(e, more), more, |CodeE(e)|, pos, depth, lab,
      at) {
      NextAnd(e, end, 5, pos, depth, lab, at);
      NextChainEnd(JIZ, LD1, LD0, more, pos + |code|, depth + 1, lab, at);
      NextExit(LD0, more, pos + |code| + 5, depth + 1, lab, at);
      ChainSize(JIZ, LD1, LD0);
    }
  }

  lemma ChainSize(jump: Op, all: Op, some: Op)
    ensures |ChainCode(jump, all, some)| == 6
  {
  }

  /* || */

  lemma OrActs(e: Expr, more: Acts)
    requires e.OrE?
    ensures var last := OpRef(JNZ, 0xf, 1, Spell(e.r, more));
      SpellOr(e, more) == if e.l.OrE? then SpellOr(e.l, last) else Spell(e.l, Cons(SectStart(0xf), last))
  {
    hide OpRef, Opcode, CodeE, CodeOr, Spell;
  }

  lemma OrCode(e: Expr, d: nat)
    requires e.OrE?
    ensures var r := CodeE(e.r);
      CodeOr(e, d) == (if e.l.OrE? then CodeOr(e.l, 2 + |r| + d) else CodeE(e.l)) + ([W(JNZ), Rel(|r| + d)] + r)
  {
    hide OpRef, Opcode, Spell, SpellOr, CodeE;
  }

  lemma OrShape(e: Expr, more: Acts, d: nat)
    requires e.OrE?
    ensures var last := OpRef(JNZ, 0xf, 1, Spell(e.r, more));
      SpellOr(e, more) == if e.l.OrE? then SpellOr(e.l, last) else Spell(e.l, Cons(SectStart(0xf), last))
    ensures var r := CodeE(e.r);
      CodeOr(e, d) == (if e.l.OrE? then CodeOr(e.l, 2 + |r| + d) else CodeE(e.l)) + ([W(JNZ), Rel(|r| + d)] + r)
  {
    hide OpRef, Opcode, Spell, SpellOr, CodeE, CodeOr, Rel;
    OrActs(e, more);
    OrCode(e, d);
  }

  lemma {:induction false} NextOr(e: Expr, more: Acts, d: nat, pos: nat, depth: nat, lab: nat, at: nat)
    requires e.OrE?
    ensures Next(SpellOr(e, more), pos, depth, lab, at) == Next(more, pos + |CodeOr(e, d)|, depth + 1, lab, at)
    decreases e, 1
  {
    hide Opcode, Next, Lay, OpRef, Spell, CodeE, SpellOr, CodeOr, Rel;
    OrShape(e, more, d);
    var right := Spell(e.r, more);
    var last := OpRef(JNZ, 0xf, 1, right);
    Spelled(e.r, more);
    var n := if e.l.OrE? then |CodeOr(e.l, 2 + |CodeE(e.r)| + d)| else |CodeE(e.l)|;
    NextOperand(JNZ, right, more, CodeE(e.r), pos + n, depth + 1, lab, at);
    if e.l.OrE? {
      NextOr(e.l, last, 2 + |CodeE(e.r)| + d, pos, depth, lab, at);
    } else {
      Spelled(e.l, Cons(SectStart(0xf), last));
      assert SkipsAs(Spell(e.l, Cons(SectStart(0xf), last)), Cons(SectStart(0xf), last), n, pos, depth, lab, at);
      NextStart(0xf, last, pos + n, depth, lab, at);
    }
  }

  lemma {:induction false} LayOr(e: Expr, more: Acts, d: nat, pos: nat, sects: seq<Section>)
    requires e.OrE?
    requires var n := |CodeOr(e, d)|; Leads(more, pos + n, 1, pos + n + d)
    ensures var n := |CodeOr(e, d)|;
      Lay(SpellOr(e, more), pos, sects) == Before(CodeOr(e, d), Lay(more, pos + n, sects + [ChainSect()]))
    decreases e, 1
  {
    hide Opcode, Next, Lay, OpRef, Before, Offset, Spell, CodeE, SpellOr, CodeOr, Rel;
    OrShape(e, more, d);
    var right := Spell(e.r, more);
    var last := OpRef(JNZ, 0xf, 1, right);
    var code := CodeE(e.r);
    var s := Section(0xf, map[], {});
    Spelled(e.r, more);
    var end := Lay(more, pos + |CodeOr(e, d)|, sects + [ChainSect()]);
    var tail := [W(JNZ), Rel(|code| + d)] + code;
    if e.l.OrE? {
      var left := CodeOr(e.l, 2 + |code| + d);
      LayOperand(JNZ, right, more, code, d, pos + |left|, sects, ChainSect());
      LayOr(e.l, last, 2 + |code| + d, pos, sects);
      BeforeBefore(left, tail, end);
      assert CodeOr(e, d) == left + tail;
    } else {
      var left := CodeE(e.l);
      LayOperand(JNZ, right, more, code, d, pos + |left|, sects, s);
      Spelled(e.l, Cons(SectStart(0xf), last));
      assert LaysAs(Spell(e.l, Cons(SectStart(0xf), last)), Cons(SectStart(0xf), last), left, pos, sects);
      LayStart(0xf, last, pos + |left|, sects);
      BeforeBefore(left, tail, end);
      assert CodeOr(e, d) == left + tail;
    }
  }

  lemma {:induction false} SpelledOr(e: Expr, more: Acts)
    requires e.OrE?
    ensures Emits(Spell(e, more), more, CodeE(e))
    decreases e, 2
  {
    hide Opcode, Next, Lay, ChainEnd, ChainCode, Before, Offset, SpellOr, CodeOr;
    var end := ChainEnd(JNZ, LD0, LD1, more);
    var code := CodeOr(e, 5);
    forall pos: nat, sects: seq<Section> ensures LaysAs(Spell(e, more), more, CodeE(e), pos, sects) {
      LayChainEnd(JNZ, LD0, LD1, more, pos + |code|, sects);
      LayOr(e, end, 5, pos, sects);
      BeforeBefore(code, ChainCode(JNZ, LD0, LD1), Lay(more, pos + |code| + 6, sects));
      ChainSize(JNZ, LD0, LD1);
    }
    forall pos: nat, depth: nat, lab: nat, at: nat ensures SkipsAs(Spell(e, more), more, |CodeE(e)|, pos, depth, lab,
      at) {
      NextOr(e, end, 5, pos, depth, lab, at);
      NextChainEnd(JNZ, LD0, LD1, more, pos + |code|, depth + 1, lab, at);
      NextExit(LD1, more, pos + |code| + 5, depth + 1, lab, at);
      ChainSize(JNZ, LD0, LD1);
    }
  }

  /* Calls. */

  lemma ArgsShape(args: Exprs, more: Acts)
    ensures args.NoExpr? ==> SpellArgs(args, more) == Cons(Inc(0, 1), Cons(Inc(0, -1), more)) && CodeArgs(args) == []
    ensures args.MoreExpr? && args.rest.NoExpr? ==>
      SpellArgs(args, more) == Spell(args.e, Cons(Inc(0, 1), more)) && CodeArgs(args) == CodeE(args.e)
    ensures args.MoreExpr? && args.rest.MoreExpr? ==>
      SpellArgs(args, more) == Spell(args.e, Cons(Inc(0, 1), SpellArgs(args.rest, more)))
    ensures args.MoreExpr? ==> CodeArgs(args) == CodeE(args.e) + CodeArgs(args.rest)
  {
    hide Spell, CodeE;
    if args.MoreExpr? && args.rest.NoExpr? {
      assert CodeE(args.e) + [] == CodeE(args.e);
    }
  }

  lemma {:induction false} LayArgs(args: Exprs, more: Acts, pos: nat, sects: seq<Section>, f: Word, counted: bool,
      n: nat)
    requires counted || n == 0
    ensures Lay(SpellArgs(args, more), pos, sects + [CallSect(f, counted, n)])
         == Before(CodeArgs(args), Lay(more, pos + |CodeArgs(args)|, sects + [CallSect(f, true, n + Count(args))]))
    decreases args, 0
  {
    hide Lay, Next, CallSect, SpellArgs, CodeArgs, Spell, CodeE;
    ArgsShape(args, more);
    if args.NoExpr? {
      LayCount(1, Cons(Inc(0, -1), more), pos, sects, f, counted, n);
      LayCount(-1, more, pos, sects, f, true, n + 1);
      var r := Lay(more, pos, sects + [CallSect(f, true, n)]);
      assert [] + r.words == r.words;
    } else {
      var later := if args.rest.NoExpr? then more else SpellArgs(args.rest, more);
      var rest := Cons(Inc(0, 1), later);
      Spelled(args.e, rest);
      assert LaysAs(Spell(args.e, rest), rest, CodeE(args.e), pos, sects + [CallSect(f, counted, n)]);
      LayCount(1, later, pos + |CodeE(args.e)|, sects, f, counted, n);
      if args.rest.MoreExpr? {
        LayArgs(args.rest, more, pos + |CodeE(args.e)|, sects, f, true, n + 1);
        BeforeBefore(CodeE(args.e), CodeArgs(args.rest),
          Lay(more, pos + |CodeArgs(args)|, sects + [CallSect(f, true, n + Count(args))]));
      }
    }
  }

  lemma {:induction false} NextArgs(args: Exprs, more: Acts, pos: nat, depth: nat, lab: nat, at: nat)
    requires depth > 0
    ensures Next(SpellArgs(args, more), pos, depth, lab, at) == Next(more, pos + |CodeArgs(args)|, depth, lab, at)
    decreases args, 0
  {
    hide Lay, Next, SpellArgs, CodeArgs, Spell, CodeE;
    ArgsShape(args, more);
    if args.NoExpr? {
      NextCount(1, Cons(Inc(0, -1), more), pos, depth, lab, at);
      NextCount(-1, more, pos, depth, lab, at);
    } else {
      var later := if args.rest.NoExpr? then more else SpellArgs(args.rest, more);
      var rest := Cons(Inc(0, 1), later);
      Spelled(args.e, rest);
      assert SkipsAs(Spell(args.e, rest), rest, |CodeE(args.e)|, pos, depth, lab, at);
      NextCount(1, later, pos + |CodeE(args.e)|, depth, lab, at);
      if args.rest.MoreExpr? {
        NextArgs(args.rest, more, pos + |CodeE(args.e)|, depth, lab, at);
      }
    }
  }

  lemma {:induction false} SpelledCall(f: Word, args: Exprs, more: Acts)
    ensures Emits(CallStart(f, SpellArgs(args, CallEnd(more))), more, CodeArgs(args) + CallCode(f, Count(args)))
    decreases args, 1
  {
    hide Lay, Next, CallStart, CallEnd, SpellArgs, CodeArgs, Opcode, Before;
    var n := Count(args);
    var code := CodeArgs(args);
    var acts := CallStart(f, SpellArgs(args, CallEnd(more)));
    forall pos: nat, sects: seq<Section> ensures LaysAs(acts, more, code + CallCode(f, n), pos, sects) {
      LayCallStart(f, SpellArgs(args, CallEnd(more)), pos, sects);
      LayArgs(args, CallEnd(more), pos, sects, f, false, 0);
      LayCallEnd(f, n, more, pos + |code|, sects);
      BeforeBefore(code, CallCode(f, n), Lay(more, pos + |code| + 5, sects));
    }
    forall pos: nat, depth: nat, lab: nat, at: nat
      ensures SkipsAs(acts, more, |code + CallCode(f, n)|, pos, depth, lab, at)
    {
      NextCallStart(f, SpellArgs(args, CallEnd(more)), pos, depth, lab, at);
      NextArgs(args, CallEnd(more), pos, depth + 1, lab, at);
      NextCallEnd(more, pos + |code|, depth + 1, lab, at);
    }
  }
}
