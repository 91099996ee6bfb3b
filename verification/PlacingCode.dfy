/** The output of the back-patcher for a handler is its code. */
module PlacingCode {
  import opened Lists
  import opened Words
  import opened Engine
  import opened Source
  import opened Postfix
  import opened Layout
  import opened Codegen
  import opened Placing
  import opened PlacingExprs
  import opened PlacingCmds

  // A measure under which the parts of every loop are smaller than the loop.
  function Rank(c: Cmd): nat {
    match c
    case Block(cs) => 1 + RankAll(cs)
    case If(_, t) => 1 + Rank(t)
    case IfElse(_, t, f) => 1 + Rank(t) + Rank(f)
    case While(_, b) => 1 + Rank(b)
    case WhileElse(_, b, f) => 1 + Rank(b) + Rank(f)
    case DoWhile(a, _, b) => 1 + Rank(a) + Rank(b)
    case DoWhileElse(a, _, b, f) => 1 + Rank(a) + Rank(b) + Rank(f)
    case For(_, _, _, b) => 1 + Rank(b)
    case _ => 0
  }

  function RankAll(cs: Cmds): nat {
    match cs
    case NoCmd => 0
    case MoreCmd(c, rest) => 1 + Rank(c) + RankAll(rest)
  }

  // Every while loop is a do-while-else, perhaps with empty parts.
  function LoopActs(a: Cmd, e: Expr, b: Cmd, f: Cmd, more: Acts): Acts {
    LoopStart(SpellCmd(a, LoopTest(e, SpellCmd(b, LoopBack(SpellCmd(f, LoopEnd(more)))))))
  }

  function LoopWords(a: Cmd, e: Expr, b: Cmd, f: Cmd): Code {
    var n := SizeC(f);
    var body := CodeC(b, 2 + n, -(SizeC(b) + 2 + |CodeE(e)|));
    LoopCode(CodeC(a, SizeLoop(|CodeE(e)|, SizeC(b)) + n, 0), CodeE(e), body,
      CodeC(f, 0, -(n + SizeLoop(|CodeE(e)|, SizeC(b)))))
  }

  function LoopSize(a: Cmd, e: Expr, b: Cmd, f: Cmd): nat { SizeC(a) + SizeLoop(|CodeE(e)|, SizeC(b)) + SizeC(f) }

  function First(c: Cmd): Cmd
    requires c.While? || c.WhileElse? || c.DoWhile? || c.DoWhileElse?
  {
    if c.DoWhile? || c.DoWhileElse? then c.first else Skip
  }

  function Else(c: Cmd): Cmd
    requires c.While? || c.WhileElse? || c.DoWhile? || c.DoWhileElse?
  {
    if c.WhileElse? || c.DoWhileElse? then c.f else Skip
  }

  lemma LoopSpelled(c: Cmd, more: Acts)
    requires c.While? || c.WhileElse? || c.DoWhile? || c.DoWhileElse?
    ensures SpellCmd(c, more) == LoopActs(First(c), c.e, c.body, Else(c), more)
  {
    hide CodeE, CodeC, Spell, LoopCode, LoopStart, LoopTest, LoopBack, LoopEnd, SizeC, Rank, Placed;
    match c
    case While(_, _) =>
    case WhileElse(_, _, _) =>
    case DoWhile(_, _, _) =>
    case DoWhileElse(_, _, _, _) =>
  }

  lemma LoopCoded(c: Cmd, brk: int, cont: int)
    requires c.While? || c.WhileElse? || c.DoWhile? || c.DoWhileElse?
    ensures CodeC(c, brk, cont) == LoopWords(First(c), c.e, c.body, Else(c))
  {
    hide CodeE, Spell, SpellCmd, LoopCode, LoopStart, LoopTest, LoopBack, LoopEnd, Rank, Placed;
    match c
    case While(_, _) =>
    case WhileElse(_, _, _) =>
    case DoWhile(_, _, _) =>
    case DoWhileElse(_, _, _, _) =>
  }

  lemma LoopSized(c: Cmd)
    requires c.While? || c.WhileElse? || c.DoWhile? || c.DoWhileElse?
    ensures SizeC(c) == LoopSize(First(c), c.e, c.body, Else(c))
  {
    hide CodeE, CodeC, Spell, SpellCmd, LoopCode, LoopStart, LoopTest, LoopBack, LoopEnd, Rank, Placed;
  }

  lemma LoopRank(c: Cmd)
    requires c.While? || c.WhileElse? || c.DoWhile? || c.DoWhileElse?
    ensures Rank(First(c)) + Rank(c.body) + Rank(Else(c)) < Rank(c)
  {
    hide CodeE, CodeC, SpellCmd, SizeC, Placed;
  }

  lemma LoopShape(c: Cmd, more: Acts, brk: int, cont: int)
    requires c.While? || c.WhileElse? || c.DoWhile? || c.DoWhileElse?
    ensures SpellCmd(c, more) == LoopActs(First(c), c.e, c.body, Else(c), more)
    ensures CodeC(c, brk, cont) == LoopWords(First(c), c.e, c.body, Else(c))
    ensures SizeC(c) == LoopSize(First(c), c.e, c.body, Else(c))
    ensures Rank(First(c)) + Rank(c.body) + Rank(Else(c)) < Rank(c)
    ensures Placed(c, true) ==> Placed(First(c), true) && Placed(c.body, true) && Placed(Else(c), true)
    ensures Placed(c, false) ==> Placed(c, true)
  {
    hide CodeE, CodeC, SpellCmd, SizeC, Rank, LoopActs, LoopWords, LoopSize;
    LoopSpelled(c, more);
    LoopCoded(c, brk, cont);
    LoopSized(c);
    LoopRank(c);
    match c
    case While(_, _) =>
    case WhileElse(_, _, _) =>
    case DoWhile(_, _, _) =>
    case DoWhileElse(_, _, _, _) =>
  }

  /* A value given behind a command is not hidden by the command. */

  lemma {:induction false} NextCmd(c: Cmd, more: Acts, pos: nat, depth: nat, lab: nat, at: nat)
    ensures Next(SpellCmd(c, more), pos, depth, lab, at) == Next(more, pos + SizeC(c), depth, lab, at)
    decreases Rank(c), 9
  {
    hide Next, Spell, CodeE, TestStart, TestElse, TestEnd, Opcode, OpRef;
    match c
    case Skip =>
    case Eval(e) =>
      NextExpr(e, Op1(DEL, more), pos, depth, lab, at);
      NextPut(W(DEL), more, pos + |CodeE(e)|, depth, lab, at);
    case Block(cs) => NextCmds(cs, more, pos, depth, lab, at);
    case If(e, t) =>
      var q := pos + |CodeE(e)|;
      NextExpr(e, TestStart(1, SpellCmd(t, TestEnd(1, more))), pos, depth, lab, at);
      NextTestStart(1, SpellCmd(t, TestEnd(1, more)), q, depth, lab, at);
      NextCmd(t, TestEnd(1, more), q + 2, depth + 1, lab, at);
      NextTestEnd(1, more, q + 2 + SizeC(t), depth + 1, lab, at);
    case IfElse(e, t, f) => NextIfElse(c, more, pos, depth, lab, at);
    case For(_, _, _, _) => NextFor(c, more, pos, depth, lab, at);
    case Break => NextOpRef(JR, 2, 0xff, more, pos, depth, lab, at);
    case Continue => NextOpRef(JR, 3, 0xff, more, pos, depth, lab, at);
    case Return => NextReturn(more, pos, depth, lab, at);
    case ReturnE(e) =>
      NextExpr(e, Op1(RET, more), pos, depth, lab, at);
      NextPut(W(RET), more, pos + |CodeE(e)|, depth, lab, at);
    case _ => NextLoop(c, more, pos, depth, lab, at);
  }

  lemma {:induction false} NextReturn(more: Acts, pos: nat, depth: nat, lab: nat, at: nat)
    ensures Next(ReturnAllow(Op1(RET, more)), pos, depth, lab, at) == Next(more, pos + 4, depth, lab, at)
  {
    hide Next, Opcode;
    EmitsPut3(W(LDI), 3, W(LTI), Op1(RET, more));
    assert SkipsAs(ReturnAllow(Op1(RET, more)), Op1(RET, more), 3, pos, depth, lab, at);
    NextPut(W(RET), more, pos + 3, depth, lab, at);
  }

  lemma {:induction false} NextIfElse(c: Cmd, more: Acts, pos: nat, depth: nat, lab: nat, at: nat)
    requires c.IfElse?
    ensures Next(SpellCmd(c, more), pos, depth, lab, at) == Next(more, pos + SizeC(c), depth, lab, at)
    decreases Rank(c), 1
  {
    hide Next, Spell, CodeE, TestStart, TestElse, TestEnd, Opcode, OpRef;
    var right := SpellCmd(c.f, TestEnd(2, more));
    var left := SpellCmd(c.t, TestElse(1, right));
    var q := pos + |CodeE(c.e)|;
    NextExpr(c.e, TestStart(1, left), pos, depth, lab, at);
    NextTestStart(1, left, q, depth, lab, at);
    NextCmd(c.t, TestElse(1, right), q + 2, depth + 1, lab, at);
    NextTestElse(1, right, q + 2 + SizeC(c.t), depth + 1, lab, at);
    NextCmd(c.f, TestEnd(2, more), q + 4 + SizeC(c.t), depth + 1, lab, at);
    NextTestEnd(2, more, pos + SizeC(c), depth + 1, lab, at);
  }

  lemma {:induction false} NextCmds(cs: Cmds, more: Acts, pos: nat, depth: nat, lab: nat, at: nat)
    ensures Next(SpellCmds(cs, more), pos, depth, lab, at) == Next(more, pos + SizeCs(cs), depth, lab, at)
    decreases RankAll(cs), 9
  {
    hide Next;
    if cs.MoreCmd? {
      NextCmd(cs.c, SpellCmds(cs.rest, more), pos, depth, lab, at);
      NextCmds(cs.rest, more, pos + SizeC(cs.c), depth, lab, at);
    }
  }

  // The actions of a loop behind its test.
  function AfterTest(b: Cmd, f: Cmd, more: Acts): Acts { SpellCmd(b, LoopBack(SpellCmd(f, LoopEnd(more)))) }

  lemma {:induction false} NextAfterTestAt(c: Cmd, more: Acts, pos: nat, depth: nat, lab: nat, at: nat)
    requires c.While? || c.WhileElse? || c.DoWhile? || c.DoWhileElse?
    ensures var back := pos + SizeC(c.body) + 2;
      var end := back + SizeC(Else(c));
      Next(AfterTest(c.body, Else(c), more), pos, depth, lab, at)
        == if depth == 0 && lab == 2 then Offset(back, at)
           else if depth == 0 then 0
           else if depth == 1 then (if lab == 0xff then Offset(end, at) else 0)
           else Next(more, end, depth - 2, lab, at)
    decreases Rank(c), 0
  {
    hide Next, SpellCmd, LoopBack, LoopEnd, SizeC, Rank;
    LoopRank(c);
    var b, f := c.body, Else(c);
    var tail := SpellCmd(f, LoopEnd(more));
    var back := pos + SizeC(b) + 2;
    NextCmd(b, LoopBack(tail), pos, depth, lab, at);
    NextLoopBack(tail, back - 2, depth, lab, at);
    NextCmd(f, LoopEnd(more), back, depth, lab, at);
    NextLoopEnd(more, back + SizeC(f), depth, lab, at);
  }

  // What the labels of a loop come to, seen from behind its test.
  lemma {:induction false} NextAfterTest(c: Cmd, more: Acts, pos: nat, depth: nat, lab: nat, at: nat)
    requires c.While? || c.WhileElse? || c.DoWhile? || c.DoWhileElse?
    ensures var acts := AfterTest(c.body, Else(c), more);
      var back := pos + SizeC(c.body) + 2;
      var end := back + SizeC(Else(c));
      && Next(acts, pos, 0, 2, at) == Offset(back, at)
      && Next(acts, pos, 1, 0xff, at) == Offset(end, at)
      && Next(acts, pos, depth + 2, lab, at) == Next(more, end, depth, lab, at)
    decreases Rank(c), 1
  {
    hide Next, SpellCmd, AfterTest, SizeC, Offset;
    NextAfterTestAt(c, more, pos, 0, 2, at);
    NextAfterTestAt(c, more, pos, 1, 0xff, at);
    NextAfterTestAt(c, more, pos, depth + 2, lab, at);
  }

  lemma {:induction false} NextLoop(c: Cmd, more: Acts, pos: nat, depth: nat, lab: nat, at: nat)
    requires c.While? || c.WhileElse? || c.DoWhile? || c.DoWhileElse?
    ensures Next(SpellCmd(c, more), pos, depth, lab, at) == Next(more, pos + SizeC(c), depth, lab, at)
    decreases Rank(c), 2
  {
    hide Next, SpellCmd, LoopBack, LoopEnd, LoopStart, LoopTest, SizeC, CodeE, AfterTest;
    LoopShape(c, more, 0, 0);
    var a := First(c);
    var rest := AfterTest(c.body, Else(c), more);
    assert SpellCmd(c, more) == LoopStart(SpellCmd(a, LoopTest(c.e, rest))) by { AfterTestIs(c, more); }
    NextLoopStart(SpellCmd(a, LoopTest(c.e, rest)), pos, depth, lab, at);
    NextCmd(a, LoopTest(c.e, rest), pos, depth + 2, lab, at);
    NextLoopTest(c.e, rest, pos + SizeC(a), depth + 2, lab, at);
    NextAfterTest(c, more, pos + SizeC(a) + |CodeE(c.e)| + 2, depth, lab, at);
  }

  lemma AfterTestIs(c: Cmd, more: Acts)
    requires c.While? || c.WhileElse? || c.DoWhile? || c.DoWhileElse?
    ensures SpellCmd(c, more) == LoopStart(SpellCmd(First(c), LoopTest(c.e, AfterTest(c.body, Else(c), more))))
  {
    hide SpellCmd;
    LoopShape(c, more, 0, 0);
  }

  /* for */

  // The actions of a for from its step on, and from its test on.
  function StepActs(c: Cmd, more: Acts): Acts
    requires c.For?
  {
    Spell(c.step, Op1(DEL, OpRef(JR, 3, 4, Cons(SetPos(3), SpellCmd(c.body, OpRef(JR, 3, 0xff, LoopEnd(more)))))))
  }

  function BodyJump(c: Cmd, more: Acts): Acts
    requires c.For?
  {
    OpRef(JR, 3, 3, Cons(SetPos(0xff), StepActs(c, more)))
  }

  lemma ForActs(c: Cmd, more: Acts)
    requires c.For?
    ensures SpellCmd(c, more)
         == Cons(SectStart(2), Cons(SectStart(3), SpellInit(c.init,
           Cons(SetPos(4), SpellCond(c.cond, BodyJump(c, more))))))
  {
    hide Spell, OpRef, SpellInit, SpellCond, LoopEnd;
  }

  lemma {:induction false} NextStep(c: Cmd, more: Acts, pos: nat, depth: nat, lab: nat, at: nat)
    requires c.For?
    ensures var b := pos + |CodeE(c.step)| + 3;
      var end := b + SizeC(c.body) + 2;
      && Next(StepActs(c, more), pos, 0, 3, at) == Offset(b, at)
      && Next(StepActs(c, more), pos, 1, 0xff, at) == Offset(end, at)
      && Next(StepActs(c, more), pos, depth + 2, lab, at) == Next(more, end, depth, lab, at)
    decreases Rank(c), 1
  {
    hide Next, SpellCmd, Spell, CodeE, LoopEnd, OpRef, Opcode, SizeC;
    NextStepAt(c, more, pos, 0, 3, at);
    NextStepAt(c, more, pos, 1, 0xff, at);
    NextStepAt(c, more, pos, depth + 2, lab, at);
  }

  lemma {:induction false} NextStepAt(c: Cmd, more: Acts, pos: nat, depth: nat, lab: nat, at: nat)
    requires c.For?
    ensures var b := pos + |CodeE(c.step)| + 3;
      var end := b + SizeC(c.body) + 2;
      Next(StepActs(c, more), pos, depth, lab, at)
        == if depth == 0 && lab == 3 then Offset(b, at) else Next(LoopEnd(more), end, depth, lab, at)
    ensures var end := pos + |CodeE(c.step)| + 3 + SizeC(c.body) + 2;
      Next(LoopEnd(more), end, depth, lab, at)
        == if depth == 0 then 0 else if depth == 1 then (if lab == 0xff then Offset(end, at) else 0)
           else Next(more, end, depth - 2, lab, at)
    decreases Rank(c), 0
  {
    hide Next, SpellCmd, Spell, CodeE, LoopEnd, OpRef, Opcode, SizeC;
    var again := OpRef(JR, 3, 0xff, LoopEnd(more));
    var body := Cons(SetPos(3), SpellCmd(c.body, again));
    var q := pos + |CodeE(c.step)|;
    var end := q + 3 + SizeC(c.body) + 2;
    NextExpr(c.step, Op1(DEL, OpRef(JR, 3, 4, body)), pos, depth, lab, at);
    NextPut(W(DEL), OpRef(JR, 3, 4, body), q, depth, lab, at);
    NextOpRef(JR, 3, 4, body, q + 1, depth, lab, at);
    NextSetPos(3, SpellCmd(c.body, again), q + 3, depth, lab, at);
    NextCmd(c.body, again, q + 3, depth, lab, at) by { RankFor(c); }
    NextOpRef(JR, 3, 0xff, LoopEnd(more), end - 2, depth, lab, at);
    NextLoopEnd(more, end, depth, lab, at);
  }

  lemma RankFor(c: Cmd)
    requires c.For?
    ensures Rank(c.body) < Rank(c)
  {
  }

  lemma {:induction false} NextBodyJump(c: Cmd, more: Acts, pos: nat, depth: nat, lab: nat, at: nat)
    requires c.For?
    ensures Next(BodyJump(c, more), pos, depth, lab, at)
         == if depth == 0 && lab == 0xff then Offset(pos + 2, at) else Next(StepActs(c, more), pos + 2, depth, lab, at)
  {
    hide Next, OpRef, StepActs;
    NextOpRef(JR, 3, 3, Cons(SetPos(0xff), StepActs(c, more)), pos, depth, lab, at);
    NextSetPos(0xff, StepActs(c, more), pos + 2, depth, lab, at);
  }

  lemma {:induction false} NextInit(i: Option<Expr>, rest: Acts, pos: nat, depth: nat, lab: nat, at: nat)
    ensures Next(SpellInit(i, rest), pos, depth, lab, at) == Next(rest, pos + |CodeInit(i)|, depth, lab, at)
  {
    hide Next, Spell, CodeE, Opcode;
    if i.Some? {
      NextExpr(i.value, Op1(DEL, rest), pos, depth, lab, at);
      NextPut(W(DEL), rest, pos + |CodeE(i.value)|, depth, lab, at);
    }
  }

  lemma {:induction false} NextForCond(c: Option<Expr>, rest: Acts, pos: nat, depth: nat, lab: nat, at: nat)
    ensures Next(SpellCond(c, rest), pos, depth, lab, at) == Next(rest, pos + |CodeCond(c, 0)|, depth, lab, at)
  {
    hide Next, Spell, CodeE, Opcode, OpRef;
    if c.Some? {
      NextExpr(c.value, OpRef(JIZ, 2, 0xff, rest), pos, depth, lab, at);
      NextOpRef(JIZ, 2, 0xff, rest, pos + |CodeE(c.value)|, depth, lab, at);
    }
  }

  lemma {:induction false} NextFor(c: Cmd, more: Acts, pos: nat, depth: nat, lab: nat, at: nat)
    requires c.For?
    ensures Next(SpellCmd(c, more), pos, depth, lab, at) == Next(more, pos + SizeC(c), depth, lab, at)
    decreases Rank(c), 2
  {
    hide Next, Spell, CodeE, Opcode, OpRef, SpellCmd, BodyJump, StepActs, SpellInit, SpellCond, CodeInit, CodeCond;
    ForActs(c, more);
    var p4 := pos + |CodeInit(c.init)|;
    var j := p4 + |CodeCond(c.cond, 0)|;
    var tested := SpellCond(c.cond, BodyJump(c, more));
    var inner := SpellInit(c.init, Cons(SetPos(4), tested));
    NextStart(2, Cons(SectStart(3), inner), pos, depth, lab, at);
    NextStart(3, inner, pos, depth + 1, lab, at);
    NextInit(c.init, Cons(SetPos(4), tested), pos, depth + 2, lab, at);
    NextSetPos(4, tested, p4, depth + 2, lab, at);
    NextForCond(c.cond, BodyJump(c, more), p4, depth + 2, lab, at);
    NextBodyJump(c, more, j, depth + 2, lab, at);
    NextStep(c, more, j + 2, depth, lab, at);
  }

  /* Commands lay out as their code. */

  lemma {:induction false} PassCmds(cs: Cmds, more: Acts, pos: nat)
    ensures Passes(SpellCmds(cs, more), pos, more, SizeCs(cs), 0)
  {
    hide Next, SpellCmds;
    forall depth: nat, at: nat ensures PassesAt(SpellCmds(cs, more), pos, more, SizeCs(cs), 0, depth, at) {
      NextCmds(cs, more, pos, depth, 0xff, at);
    }
  }

  lemma {:induction false} PassTestEnd(lab: nat, more: Acts, pos: nat)
    ensures Passes(TestEnd(lab, more), pos, more, 0, 1)
  {
    hide Next, TestEnd;
    forall depth: nat, at: nat ensures PassesAt(TestEnd(lab, more), pos, more, 0, 1, depth, at) {
      NextTestEnd(lab, more, pos, depth + 1, 0xff, at);
    }
  }

  // c lays out as its code, wherever break and continue lead.
  ghost predicate Placeable(c: Cmd, more: Acts, pos: nat, sects: Sects, brk: int, cont: int) {
    Placed(c, false) || (Placed(c, true) && Loops(sects, more, pos + SizeC(c), brk, cont))
  }

  ghost predicate PlaceableAll(cs: Cmds, more: Acts, pos: nat, sects: Sects, brk: int, cont: int) {
    PlacedAll(cs, false) || (PlacedAll(cs, true) && Loops(sects, more, pos + SizeCs(cs), brk, cont))
  }

  ghost predicate Lays(c: Cmd, more: Acts, pos: nat, sects: Sects, brk: int, cont: int) {
    Lay(SpellCmd(c, more), pos, sects)
      == Before(CodeC(c, brk, cont), Lay(more, pos + SizeC(c), Marked(sects, HasBreak(c), HasContinue(c))))
  }

  lemma {:induction false} LayCmd(c: Cmd, more: Acts, pos: nat, sects: Sects, brk: int, cont: int)
    requires Placeable(c, more, pos, sects, brk, cont)
    ensures Lays(c, more, pos, sects, brk, cont)
    decreases Rank(c), 9
  {
    hide Lay, Next, Spell, CodeE, Before, Loops, OpRef, Opcode, TestStart, TestElse, TestEnd, Mark;
    match c
    case Skip =>
      var r := Lay(more, pos, sects);
      MarkedNone(sects);
      BeforeNone(r);
    case Eval(e) =>
      LayExprThen(e, DEL, more, pos, sects);
      MarkedNone(sects);
    case Block(cs) => LayCmds(cs, more, pos, sects, brk, cont);
    case If(e, t) => LayIf(c, more, pos, sects, brk, cont);
    case IfElse(e, t, f) => LayIfElse(c, more, pos, sects, brk, cont);
    case For(_, _, _, _) =>
      LayFor(c, more, pos, sects, brk, cont);
      MarkedNone(sects);
    case Break => LayLeave(c, more, pos, sects, brk, cont);
    case Continue => LayLeave(c, more, pos, sects, brk, cont);
    case Return =>
      LayReturn(more, pos, sects);
      MarkedNone(sects);
    case ReturnE(e) =>
      LayExprThen(e, RET, more, pos, sects);
      MarkedNone(sects);
    case _ =>
      LayLoop(c, more, pos, sects, brk, cont);
      MarkedNone(sects);
  }

  lemma MarkedNone(sects: Sects)
    ensures Marked(sects, false, false) == sects
  {
  }

  lemma BeforeNone(r: Laid)
    ensures Before([], r) == r
  {
    assert [] + r.words == r.words;
  }

  lemma {:induction false} LayExprThen(e: Expr, op: Op, more: Acts, pos: nat, sects: Sects)
    ensures Lay(Spell(e, Op1(op, more)), pos, sects) ==
        Before(CodeE(e) + [W(op)], Lay(more, pos + |CodeE(e)| + 1, sects))
  {
    hide Lay, Spell, CodeE, Before, Opcode;
    LayExpr(e, Op1(op, more), pos, sects);
    LayPut(W(op), more, pos + |CodeE(e)|, sects);
    BeforeBefore(CodeE(e), [W(op)], Lay(more, pos + |CodeE(e)| + 1, sects));
  }

  lemma {:induction false} LayReturn(more: Acts, pos: nat, sects: Sects)
    ensures Lay(ReturnAllow(Op1(RET, more)), pos, sects) ==
        Before([W(LDI), 3, W(LTI), W(RET)], Lay(more, pos + 4, sects))
  {
    hide Lay, Before, Opcode;
    EmitsPut3(W(LDI), 3, W(LTI), Op1(RET, more));
    assert LaysAs(ReturnAllow(Op1(RET, more)), Op1(RET, more), [W(LDI), 3, W(LTI)], pos, sects);
    LayPut(W(RET), more, pos + 3, sects);
    BeforeBefore([W(LDI), 3, W(LTI)], [W(RET)], Lay(more, pos + 4, sects));
    assert [W(LDI), 3, W(LTI)] + [W(RET)] == [W(LDI), 3, W(LTI), W(RET)];
  }

  lemma {:induction false} LayLeave(c: Cmd, more: Acts, pos: nat, sects: Sects, brk: int, cont: int)
    requires c.Break? || c.Continue?
    requires Placeable(c, more, pos, sects, brk, cont)
    ensures Lays(c, more, pos, sects, brk, cont)
  {
    hide Lay, Next, Opcode, Nearest, RefAt, Offset, Rel;
    var typ := if c.Break? then 2 else 3;
    var d := if c.Break? then brk else cont;
    LayOpRef(JR, typ, 0xff, more, pos, sects);
    assert RefAt(more, pos + 2, sects, Nearest(sects, typ).value, 0xff, pos + 1) == Offset(pos + 2 + d, pos + 1);
    OffsetRel(pos + 2 + d, pos + 1);
  }

  lemma {:induction false} PlaceInside(t: Cmd, c: Cmd, s: Section, acts: Acts, pos: nat, more: Acts, n: nat,
      sects: Sects, brk: int, cont: int)
    requires Placed(c, false) || (Placed(c, true) && Loops(sects, more, pos + SizeC(t) + n, brk, cont))
    requires (Placed(c, false) ==> Placed(t, false)) && (Placed(c, true) ==> Placed(t, true))
    requires s.typ != 2 && s.typ != 3 && Passes(acts, pos + SizeC(t), more, n, 1)
    ensures Placeable(t, acts, pos, sects + [s], n + brk, n + cont)
  {
    hide Loops, Passes, Placed, SizeC;
    if !Placed(c, false) {
      LoopsInside(sects, s, acts, pos + SizeC(t), more, n, brk, cont);
    }
  }

  lemma {:induction false} LayIf(c: Cmd, more: Acts, pos: nat, sects: Sects, brk: int, cont: int)
    requires c.If? && Placeable(c, more, pos, sects, brk, cont)
    ensures Lays(c, more, pos, sects, brk, cont)
    decreases Rank(c), 0
  {
    hide Lay, Next, Spell, CodeE, Before, Loops, Opcode, TestStart, TestEnd, Marked, Offset, Rel, Passes;
    var t := c.t;
    var q := pos + |CodeE(c.e)|;
    var left := SpellCmd(t, TestEnd(1, more));
    var m := Marked(sects, HasBreak(c), HasContinue(c));
    LayExpr(c.e, TestStart(1, left), pos, sects);
    LayTestStart(1, left, q, sects);
    NextCmd(t, TestEnd(1, more), q + 2, 0, 1, q + 1);
    NextTestEnd(1, more, q + 2 + SizeC(t), 0, 1, q + 1);
    OffsetRel(q + 2 + SizeC(t), q + 1);
    PassTestEnd(1, more, q + 2 + SizeC(t));
    PlaceInside(t, c, Tested(1), TestEnd(1, more), q + 2, more, 0, sects, brk, cont);
    LayCmd(t, TestEnd(1, more), q + 2, sects + [Tested(1)], brk, cont);
    MarkedBelow(sects, Tested(1), HasBreak(t), HasContinue(t));
    LayTestEnd(1, more, q + 2 + SizeC(t), m, Tested(1));
    var r := Lay(more, pos + SizeC(c), m);
    var jump := [W(JIZ), Rel(SizeC(t))];
    BeforeBefore(jump, CodeC(t, brk, cont), r);
    BeforeBefore(CodeE(c.e), jump + CodeC(t, brk, cont), r);
    assert CodeE(c.e) + (jump + CodeC(t, brk, cont)) == CodeC(c, brk, cont);
  }

  lemma {:induction false} PassElse(f: Cmd, more: Acts, pos: nat)
    ensures Passes(TestElse(1, SpellCmd(f, TestEnd(2, more))), pos, more, 2 + SizeC(f), 1)
  {
    hide Next, TestEnd, TestElse, SpellCmd;
    var acts := TestElse(1, SpellCmd(f, TestEnd(2, more)));
    var n := 2 + SizeC(f);
    forall depth: nat, at: nat ensures PassesAt(acts, pos, more, n, 1, depth, at) {
      NextTestElse(1, SpellCmd(f, TestEnd(2, more)), pos, depth + 1, 0xff, at);
      NextCmd(f, TestEnd(2, more), pos + 2, depth + 1, 0xff, at);
      NextTestEnd(2, more, pos + 2 + SizeC(f), depth + 1, 0xff, at);
    }
  }

  // The else branch, behind the jump over it.
  lemma {:induction false} LayElse(c: Cmd, more: Acts, pos: nat, p: nat, sects: Sects, brk: int, cont: int)
    requires c.IfElse? && (Placed(c, false) || (Placed(c, true) && Loops(sects, more, pos + SizeC(c.f), brk, cont)))
    ensures Lay(SpellCmd(c.f, TestEnd(2, more)), pos, sects + [Split(1, p)])
         == Before(CodeC(c.f, brk, cont), Lay(more, pos + SizeC(c.f), Marked(sects, HasBreak(c.f), HasContinue(c.f))))
    decreases Rank(c), 0
  {
    hide Lay, Next, Before, Loops, TestEnd, Marked, Passes, SpellCmd, SizeC;
    var f := c.f;
    PassTestEnd(2, more, pos + SizeC(f));
    PlaceInside(f, c, Split(1, p), TestEnd(2, more), pos, more, 0, sects, brk, cont);
    LayCmd(f, TestEnd(2, more), pos, sects + [Split(1, p)], brk, cont);
    MarkedBelow(sects, Split(1, p), HasBreak(f), HasContinue(f));
    LayTestEnd(2, more, pos + SizeC(f), Marked(sects, HasBreak(f), HasContinue(f)), Split(1, p));
  }

  // The first branch, and the jump over the second.
  lemma {:induction false} LayThen(c: Cmd, more: Acts, pos: nat, sects: Sects, brk: int, cont: int)
    requires c.IfElse?
    requires Placed(c, false) || (Placed(c, true) && Loops(sects, more, pos + SizeC(c.t) + 2 + SizeC(c.f), brk, cont))
    ensures var n, q := SizeC(c.f), pos + SizeC(c.t);
      var right := SpellCmd(c.f, TestEnd(2, more));
      Lay(SpellCmd(c.t, TestElse(1, right)), pos, sects + [Tested(1)])
        == Before(CodeC(c.t, 2 + n + brk, 2 + n + cont), Before([W(JR), Rel(n)],
             Lay(right, q + 2, Marked(sects, HasBreak(c.t), HasContinue(c.t)) + [Split(1, q + 2)])))
    ensures var right := SpellCmd(c.f, TestEnd(2, more));
      pos > 0 ==> Next(SpellCmd(c.t, TestElse(1, right)), pos, 0, 1, pos - 1) == Offset(pos + SizeC(c.t) + 2, pos - 1)
    decreases Rank(c), 0
  {
    hide Lay, Next, Before, Loops, Opcode, TestEnd, TestElse, Marked, Offset, Rel, Passes, CodeC, SpellCmd, SizeC;
    var t, f := c.t, c.f;
    var n := SizeC(f);
    var q := pos + SizeC(t);
    var right := SpellCmd(f, TestEnd(2, more));
    if pos > 0 {
      NextCmd(t, TestElse(1, right), pos, 0, 1, pos - 1);
      NextTestElse(1, right, q, 0, 1, pos - 1);
    }
    PassElse(f, more, q);
    PlaceInside(t, c, Tested(1), TestElse(1, right), pos, more, 2 + n, sects, brk, cont);
    LayCmd(t, TestElse(1, right), pos, sects + [Tested(1)], 2 + n + brk, 2 + n + cont);
    MarkedBelow(sects, Tested(1), HasBreak(t), HasContinue(t));
    LayTestElse(1, right, q, Marked(sects, HasBreak(t), HasContinue(t)));
    NextCmd(f, TestEnd(2, more), q + 2, 0, 2, q + 1);
    NextTestEnd(2, more, q + 2 + n, 0, 2, q + 1);
    OffsetRel(q + 2 + n, q + 1);
  }

  lemma {:induction false} LayIfElse(c: Cmd, more: Acts, pos: nat, sects: Sects, brk: int, cont: int)
    requires c.IfElse? && Placeable(c, more, pos, sects, brk, cont)
    ensures Lays(c, more, pos, sects, brk, cont)
    decreases Rank(c), 1
  {
    hide Lay, Next, Spell, CodeE, Before, Loops, Opcode, TestStart, TestEnd, TestElse, Marked, Offset, Rel, TestCode,
      Nearest, Tested, Split;
    var t, f := c.t, c.f;
    var n := SizeC(f);
    var q := pos + |CodeE(c.e)| + 2;
    var q2 := q + SizeC(t);
    var right := SpellCmd(f, TestEnd(2, more));
    var left := SpellCmd(t, TestElse(1, right));
    var m := Marked(sects, HasBreak(t), HasContinue(t));
    LayExpr(c.e, TestStart(1, left), pos, sects);
    LayTestStart(1, left, q - 2, sects);
    OffsetRel(q2 + 2, q - 1);
    LayThen(c, more, q, sects, brk, cont);
    if !Placed(c, false) { LoopsMarked(sects, more, pos + SizeC(c), brk, cont, HasBreak(t), HasContinue(t)); }
    LayElse(c, more, q2 + 2, q2 + 2, m, brk, cont);
    MarkedTwice(sects, HasBreak(t), HasContinue(t), HasBreak(f), HasContinue(f));
    var tc, fc := CodeC(t, 2 + n + brk, 2 + n + cont), CodeC(f, brk, cont);
    CodeSize(t, 2 + n + brk, 2 + n + cont);
    CodeSize(f, brk, cont);
    var r := Lay(more, pos + SizeC(c), Marked(sects, HasBreak(c), HasContinue(c)));
    BeforeTest(tc, fc, r);
    BeforeBefore(CodeE(c.e), TestCode([], tc, fc), r);
    TestCodeOf(CodeE(c.e), tc, fc);
  }

  lemma TestCodeOf(e: Code, t: Code, f: Code)
    ensures e + TestCode([], t, f) == TestCode(e, t, f)
  {
  }

  lemma {:induction false} LayCmds(cs: Cmds, more: Acts, pos: nat, sects: Sects, brk: int, cont: int)
    requires PlaceableAll(cs, more, pos, sects, brk, cont)
    ensures Lay(SpellCmds(cs, more), pos, sects)
         == Before(CodeCs(cs, brk, cont), Lay(more, pos + SizeCs(cs), Marked(sects, HasBreaks(cs), HasContinues(cs))))
    decreases RankAll(cs), 9
  {
    hide Lay, Next, Before, Loops, Marked, Passes, SpellCmd, CodeC, SizeC, Placed, HasBreak, HasContinue;
    if cs.NoCmd? {
      MarkedNone(sects);
      BeforeNone(Lay(more, pos, sects));
    } else {
      var c, rest := cs.c, cs.rest;
      var q := pos + SizeC(c);
      var later := SpellCmds(rest, more);
      var m := Marked(sects, HasBreak(c), HasContinue(c));
      if !PlacedAll(cs, false) {
        PassCmds(rest, more, q);
        LoopsPass(sects, later, q, more, SizeCs(rest), brk, cont);
        LoopsMarked(sects, more, pos + SizeCs(cs), brk, cont, HasBreak(c), HasContinue(c));
        PlacedInLoop(c);
        PlacedAllInLoop(rest);
      }
      LayCmd(c, later, pos, sects, SizeCs(rest) + brk, SizeCs(rest) + cont);
      LayCmds(rest, more, q, m, brk, cont);
      MarkedTwice(sects, HasBreak(c), HasContinue(c), HasBreaks(rest), HasContinues(rest));
      BeforeBefore(CodeC(c, SizeCs(rest) + brk, SizeCs(rest) + cont), CodeCs(rest, brk, cont),
        Lay(more, pos + SizeCs(cs), Marked(sects, HasBreaks(cs), HasContinues(cs))));
    }
  }

  lemma {:induction false} PlacedInLoop(c: Cmd)
    ensures Placed(c, false) ==> Placed(c, true)
  {
    match c
    case Block(cs) => PlacedAllInLoop(cs);
    case If(_, t) => PlacedInLoop(t);
    case IfElse(_, t, f) => PlacedInLoop(t); PlacedInLoop(f);
    case _ =>
  }

  lemma {:induction false} PlacedAllInLoop(cs: Cmds)
    ensures PlacedAll(cs, false) ==> PlacedAll(cs, true)
  {
    if cs.MoreCmd? {
      PlacedInLoop(cs.c);
      PlacedAllInLoop(cs.rest);
    }
  }

  /* while and do */

  predicate Loop(c: Cmd) { c.While? || c.WhileElse? || c.DoWhile? || c.DoWhileElse? }

  // The else part of a loop, t is the position of its test.
  lemma {:induction false} LayLast(c: Cmd, more: Acts, pos: nat, sects: Sects, x: bool, y: Section, t: nat)
    requires Loop(c) && Placed(c, true)
    requires y.typ == 3 && LabelOf(y, 0xff) == Pos(t) && AllDefined(y)
    ensures var f := Else(c);
      Lay(SpellCmd(f, LoopEnd(more)), pos, sects + [Exit(x)] + [y])
        == Before(CodeC(f, 0, t - (pos + SizeC(f))), Lay(more, pos + SizeC(f), sects))
    decreases Rank(c), 0
  {
    hide Lay, Next, Before, Loops, Marked, SpellCmd, CodeC, SizeC, LoopEnd, Offset, Rank, Placed, Exit;
    LoopShape(c, more, 0, 0);
    var f := Else(c);
    var end := pos + SizeC(f);
    forall at: nat ensures Next(LoopEnd(more), end, 1, 0xff, at) ==
      Offset(end, at) { NextLoopEnd(more, end, 1, 0xff, at); }
    LoopsKnown(sects, x, y, LoopEnd(more), end, t, end);
    LayCmd(f, LoopEnd(more), pos, sects + [Exit(x)] + [y], 0, t - end);
    MarkedKnown(sects, x, y, HasBreak(f), HasContinue(f));
    LayLoopEnd(more, end, sects, x || HasBreak(f), y);
  }

  // The body of a loop and what follows it.
  lemma {:induction false} LayAfterTest(c: Cmd, more: Acts, pos: nat, sects: Sects, x: bool, p: nat, t: nat,
      awaited: set<nat>)
    requires Loop(c) && Placed(c, true)
    ensures var b, f := c.body, Else(c);
      var back := pos + SizeC(b) + 2;
      var end := back + SizeC(f);
      Lay(AfterTest(b, f, more), pos, sects + [Exit(x)] + [Body(p, t, awaited)])
        == Before(CodeC(b, 2 + SizeC(f), t - (back - 2)) + ([W(JR), Rel(p - back)] + CodeC(f, 0, t - end)),
          Lay(more, end, sects))
    decreases Rank(c), 1
  {
    hide Lay, Next, Before, Loops, Marked, SpellCmd, CodeC, SizeC, LoopEnd, LoopBack, Offset, Rank, Placed, Exit, Rel,
      Opcode;
    LoopShape(c, more, 0, 0);
    var b, f := c.body, Else(c);
    var q := pos + SizeC(b);
    var end := q + 2 + SizeC(f);
    var tail := SpellCmd(f, LoopEnd(more));
    var y := Body(p, t, awaited);
    forall at: nat ensures Next(LoopBack(tail), q, 1, 0xff, at) == Offset(end, at) {
      NextLoopBack(tail, q, 1, 0xff, at);
      NextCmd(f, LoopEnd(more), q + 2, 1, 0xff, at);
      NextLoopEnd(more, end, 1, 0xff, at);
    }
    LoopsKnown(sects, x, y, LoopBack(tail), q, t, end);
    LayCmd(b, LoopBack(tail), pos, sects + [Exit(x)] + [y], end - q, t - q);
    MarkedKnown(sects, x, y, HasBreak(b), HasContinue(b));
    LayLoopBack(tail, q, sects + [Exit(x || HasBreak(b))], p, t, awaited);
    LayLast(c, more, q + 2, sects, x || HasBreak(b), Last(p, t, q + 2, awaited), t);
    var r := Lay(more, end, sects);
    var jump := [W(JR), Rel(p - (q + 2))];
    BeforeBefore(jump, CodeC(f, 0, t - end), r);
    BeforeBefore(CodeC(b, end - q, t - q), jump + CodeC(f, 0, t - end), r);
  }

  lemma {:induction false} LayLoop(c: Cmd, more: Acts, pos: nat, sects: Sects, brk: int, cont: int)
    requires Loop(c) && (Placed(c, true) || Placed(c, false))
    ensures Lay(SpellCmd(c, more), pos, sects) == Before(CodeC(c, brk, cont), Lay(more, pos + SizeC(c), sects))
    decreases Rank(c), 2
  {
    hide Lay, Next, Before, Loops, Marked, SpellCmd, CodeC, CodeE, LoopCode, AfterTest, SizeC, LoopStart, LoopTest,
      Offset, Rank,
      Placed, Exit, Start, Body, Rel, Opcode, Nearest;
    LoopShape(c, more, brk, cont);
    AfterTestIs(c, more);
    var a, e, b, f := First(c), c.e, c.body, Else(c);
    var rest := AfterTest(b, f, more);
    var test := pos + SizeC(a);
    var q := test + |CodeE(e)| + 2;
    var back := q + SizeC(b) + 2;
    var end := back + SizeC(f);
    LayLoopStart(SpellCmd(a, LoopTest(e, rest)), pos, sects);
    LoopTestLeads(c, more, test);
    LoopsStart(sects, pos, LoopTest(e, rest), test, end);
    LayCmd(a, LoopTest(e, rest), pos, sects + [Exit(false)] + [Start(pos, false)], end - test, 0);
    MarkedStart(sects, pos, HasBreak(a), HasContinue(a));
    var awaited := LayLoopTest(e, rest, test, sects + [Exit(HasBreak(a))], pos, HasContinue(a));
    NextAfterTest(c, more, q, 0, 0, q - 1);
    OffsetRel(back, q - 1);
    LayAfterTest(c, more, q, sects, HasBreak(a), pos, test, awaited);
    var ac := CodeC(a, end - test, 0);
    var bc := CodeC(b, 2 + SizeC(f), test - (back - 2));
    var fc := CodeC(f, 0, test - end);
    CodeSize(a, end - test, 0);
    CodeSize(b, 2 + SizeC(f), test - (back - 2));
    BeforeLoop(ac, CodeE(e), bc, fc, Lay(more, end, sects));
    assert pos - back == -(|ac| + |CodeE(e)| + 2 + |bc| + 2);
    assert LoopWords(a, e, b, f) == LoopCode(ac, CodeE(e), bc, fc);
  }

  lemma {:induction false} LoopTestLeads(c: Cmd, more: Acts, test: nat)
    requires Loop(c)
    ensures var rest := LoopTest(c.e, AfterTest(c.body, Else(c), more));
      var end := test + |CodeE(c.e)| + 2 + SizeC(c.body) + 2 + SizeC(Else(c));
      forall at: nat :: Next(rest, test, 0, 0xff, at) == Offset(test, at) &&
        Next(rest, test, 1, 0xff, at) == Offset(end, at)
  {
    hide Next, AfterTest, LoopTest, CodeE, SizeC, Offset;
    var acts := AfterTest(c.body, Else(c), more);
    var q := test + |CodeE(c.e)| + 2;
    var end := q + SizeC(c.body) + 2 + SizeC(Else(c));
    forall at: nat
      ensures Next(LoopTest(c.e, acts), test, 0, 0xff, at) == Offset(test, at)
      ensures Next(LoopTest(c.e, acts), test, 1, 0xff, at) == Offset(end, at)
    {
      NextLoopTest(c.e, acts, test, 0, 0xff, at);
      NextLoopTest(c.e, acts, test, 1, 0xff, at);
      NextAfterTest(c, more, q, 0, 0, at);
    }
  }

  lemma BeforeLoop(a: Code, e: Code, b: Code, f: Code, r: Laid)
    ensures var jump, back := [W(JIZ), Rel(|b| + 2)], [W(JR), Rel(-(|a| + |e| + 2 + |b| + 2))];
      Before(a, Before(e + jump, Before(b + (back + f), r))) == Before(LoopCode(a, e, b, f), r)
  {
    var jump, back := [W(JIZ), Rel(|b| + 2)], [W(JR), Rel(-(|a| + |e| + 2 + |b| + 2))];
    BeforeBefore(e + jump, b + (back + f), r);
    BeforeBefore(a, (e + jump) + (b + (back + f)), r);
    assert a + ((e + jump) + (b + (back + f))) == LoopCode(a, e, b, f);
  }

  /* for: label 4 is the test, 0xff the step, 3 the body. */

  function Steps0(p: nat): Section { Section(3, map[4 := Pos(p)], {}) }

  function Steps1(p: nat, t: nat): Section { Section(3, map[4 := Pos(p), 3 := Undefined, 0xff := Pos(t)], {3}) }

  function Steps2(p: nat, t: nat, b: nat): Section { Section(3, map[4 := Pos(p), 3 := Pos(b), 0xff := Pos(t)], {3}) }

  lemma {:induction false} LayInit(i: Option<Expr>, rest: Acts, pos: nat, sects: Sects)
    ensures Lay(SpellInit(i, rest), pos, sects) == Before(CodeInit(i), Lay(rest, pos + |CodeInit(i)|, sects))
  {
    hide Lay, Spell, CodeE, Before, Opcode;
    if i.None? {
      BeforeNone(Lay(rest, pos, sects));
    } else {
      LayExprThen(i.value, DEL, rest, pos, sects);
    }
  }

  lemma {:induction false} LayForCond(c: Option<Expr>, rest: Acts, pos: nat, sects: Sects, y: Section, end: nat)
    requires y.typ == 3
    requires forall at: nat :: Next(rest, pos + |CodeCond(c, 0)|, 1, 0xff, at) == Offset(end, at)
    ensures var n := |CodeCond(c, 0)|;
      && |CodeCond(c, end - (pos + n))| == n
      && Lay(SpellCond(c, rest), pos, sects + [Exit(false)] + [y])
           == Before(CodeCond(c, end - (pos + n)), Lay(rest, pos + n, sects + [Exit(c.Some?)] + [y]))
  {
    hide Lay, Spell, CodeE, Before, Opcode, Next, Nearest, Refer, Rel, Offset;
    var s := sects + [Exit(false)] + [y];
    if c.None? {
      BeforeNone(Lay(rest, pos, s));
    } else {
      var q := pos + |CodeE(c.value)|;
      var n := |CodeCond(c, 0)|;
      LayExpr(c.value, OpRef(JIZ, 2, 0xff, rest), pos, s);
      NearestExit(sects, Exit(false), y);
      LayOpRef(JIZ, 2, 0xff, rest, q, s);
      ReferExit(sects, false, y);
      assert s[|sects|] == Exit(false);
      assert Next(rest, pos + n, 1, 0xff, q + 1) == Offset(end, q + 1);
      OffsetRel(end, q + 1);
      BeforeBefore(CodeE(c.value), [W(JIZ), Rel(end - (pos + n))], Lay(rest, pos + n, sects + [Exit(true)] + [y]));
    }
  }

  lemma {:induction false} LayBodyJump(c: Cmd, more: Acts, pos: nat, sects: Sects, p: nat)
    requires c.For?
    ensures Lay(BodyJump(c, more), pos, sects + [Steps0(p)])
         == Before([W(JR), Rel(|CodeE(c.step)| + 3)], Lay(StepActs(c, more), pos + 2, sects + [Steps1(p, pos + 2)]))
  {
    hide Lay, Opcode, Next, Refer, StepActs, CodeE, Rel, Offset;
    var y := Steps0(p);
    var rest := StepActs(c, more);
    NearestTop(sects, y);
    LayOpRef(JR, 3, 3, Cons(SetPos(0xff), rest), pos, sects + [y]);
    NextSetPos(0xff, rest, pos + 2, 0, 3, pos + 1);
    NextStep(c, more, pos + 2, 0, 0, pos + 1);
    OffsetRel(pos + 2 + |CodeE(c.step)| + 3, pos + 1);
    ReferTop(sects, y, 3);
    LaySetPos(0xff, rest, pos + 2, sects, Awaiting(y, 3));
    var m: map<nat, Label> := y.labels;
    assert m[3 := Undefined][0xff := Pos(pos + 2)] == Steps1(p, pos + 2).labels;
    assert Set(Awaiting(y, 3), 0xff, Pos(pos + 2)) == Steps1(p, pos + 2);
  }

  // The body of a for, and the jump back to its step.
  lemma {:induction false} LayForBody(c: Cmd, more: Acts, pos: nat, sects: Sects, x: bool, p: nat, t: nat)
    requires c.For? && Placed(c, true)
    ensures var b := c.body;
      var q := pos + SizeC(b);
      Lay(SpellCmd(b, OpRef(JR, 3, 0xff, LoopEnd(more))), pos, sects + [Exit(x)] + [Steps2(p, t, pos)])
        == Before(CodeC(b, 2, t - q) + [W(JR), Rel(t - (q + 2))], Lay(more, q + 2, sects))
    decreases Rank(c), 0
  {
    hide Lay, Next, Before, Loops, Marked, SpellCmd, CodeC, SizeC, LoopEnd, Offset, Exit, Rel, Opcode, OpRef, Nearest;
    var b := c.body;
    var y := Steps2(p, t, pos);
    var q := pos + SizeC(b);
    var acts := OpRef(JR, 3, 0xff, LoopEnd(more));
    forall at: nat ensures Next(acts, q, 1, 0xff, at) == Offset(q + 2, at) {
      NextOpRef(JR, 3, 0xff, LoopEnd(more), q, 1, 0xff, at);
      NextLoopEnd(more, q + 2, 1, 0xff, at);
    }
    LoopsKnown(sects, x, y, acts, q, t, q + 2);
    LayCmd(b, acts, pos, sects + [Exit(x)] + [y], 2, t - q);
    MarkedKnown(sects, x, y, HasBreak(b), HasContinue(b));
    var below := sects + [Exit(x || HasBreak(b))];
    NearestTop(below, y);
    LayOpRef(JR, 3, 0xff, LoopEnd(more), q, below + [y]);
    OffsetRel(t, q + 1);
    ReferKnown(below, y);
    LayLoopEnd(more, q + 2, sects, x || HasBreak(b), y);
    BeforeBefore(CodeC(b, 2, t - q), [W(JR), Rel(t - (q + 2))], Lay(more, q + 2, sects));
  }

  lemma {:induction false} LayStep(c: Cmd, more: Acts, pos: nat, sects: Sects, x: bool, p: nat)
    requires c.For? && Placed(c, true)
    ensures var b := pos + |CodeE(c.step)| + 3;
      var q := b + SizeC(c.body);
      Lay(StepActs(c, more), pos, sects + [Exit(x)] + [Steps1(p, pos)])
        == Before((CodeE(c.step) + [W(DEL)]) + ([W(JR),
          Rel(p - b)] + (CodeC(c.body, 2, pos - q) + [W(JR), Rel(pos - (q + 2))])),
             Lay(more, q + 2, sects))
    decreases Rank(c), 1
  {
    hide Lay, Next, Before, SpellCmd, CodeC, SizeC, LoopEnd, Offset, Exit, Rel, Opcode, Spell, CodeE, Nearest;
    var y := Steps1(p, pos);
    var below := sects + [Exit(x)];
    var b := pos + |CodeE(c.step)| + 3;
    var q := b + SizeC(c.body);
    var body := SpellCmd(c.body, OpRef(JR, 3, 0xff, LoopEnd(more)));
    LayExprThen(c.step, DEL, OpRef(JR, 3, 4, Cons(SetPos(3), body)), pos, below + [y]);
    NearestTop(below, y);
    LayOpRef(JR, 3, 4, Cons(SetPos(3), body), b - 2, below + [y]);
    OffsetRel(p, b - 1);
    LaySetPos(3, body, b, below, y);
    var m: map<nat, Label> := y.labels;
    assert m[3 := Pos(b)] == Steps2(p, pos, b).labels;
    LayForBody(c, more, b, sects, x, p, pos);
    var r := Lay(more, q + 2, sects);
    var rest := CodeC(c.body, 2, pos - q) + [W(JR), Rel(pos - (q + 2))];
    BeforeBefore([W(JR), Rel(p - b)], rest, r);
    BeforeBefore(CodeE(c.step) + [W(DEL)], [W(JR), Rel(p - b)] + rest, r);
  }

  lemma {:induction false} LayFor(c: Cmd, more: Acts, pos: nat, sects: Sects, brk: int, cont: int)
    requires c.For? && (Placed(c, true) || Placed(c, false))
    ensures Lay(SpellCmd(c, more), pos, sects) == Before(CodeC(c, brk, cont), Lay(more, pos + SizeC(c), sects))
    decreases Rank(c), 2
  {
    hide Lay, Next, Before, SpellCmd, CodeC, SizeC, CodeE, Offset, Exit, Rel, Opcode, SpellInit, SpellCond, BodyJump,
      StepActs, CodeInit, CodeCond, ForCode;
    ForActs(c, more);
    ForShape(c, brk, cont);
    var p4 := pos + |CodeInit(c.init)|;
    var j := p4 + |CodeCond(c.cond, 0)|;
    var t := j + 2;
    var b := t + |CodeE(c.step)| + 3;
    var q := b + SizeC(c.body);
    var end := q + 2;
    var tested := SpellCond(c.cond, BodyJump(c, more));
    var inner := SpellInit(c.init, Cons(SetPos(4), tested));
    var y := Section(3, map[], {});
    var below := sects + [Exit(false)];
    LayStart(2, Cons(SectStart(3), inner), pos, sects);
    assert Section(2, map[], {}) == Exit(false) by { ExitStart(); }
    LayStart(3, inner, pos, below);
    LayInit(c.init, Cons(SetPos(4), tested), pos, below + [y]);
    LaySetPos(4, tested, p4, below, y);
    assert Set(y, 4, Pos(p4)) == Steps0(p4) by { StepsStart(p4); }
    forall at: nat ensures Next(BodyJump(c, more), j, 1, 0xff, at) == Offset(end, at) {
      NextBodyJump(c, more, j, 1, 0xff, at);
      NextStep(c, more, t, 0, 0, at);
    }
    LayForCond(c.cond, BodyJump(c, more), p4, sects, Steps0(p4), end);
    LayBodyJump(c, more, j, sects + [Exit(c.cond.Some?)], p4);
    LayStep(c, more, t, sects, c.cond.Some?, p4);
    CodeSize(c.body, 2, t - q);
    BeforeFor(CodeInit(c.init), CodeCond(c.cond, end - j), CodeE(c.step) + [W(DEL)], CodeC(c.body, 2, t - q),
      Lay(more, end, sects));
  }

  lemma ExitStart()
    ensures Section(2, map[], {}) == Exit(false)
  {
  }

  lemma StepsStart(p: nat)
    ensures Set(Section(3, map[], {}), 4, Pos(p)) == Steps0(p)
  {
    var none: map<nat, Label> := map[];
    assert none[4 := Pos(p)] == map[4 := Pos(p)];
  }

  lemma ForShape(c: Cmd, brk: int, cont: int)
    requires c.For?
    ensures var step := CodeE(c.step) + [W(DEL)];
      var n := SizeC(c.body);
      && SizeC(c) == |CodeInit(c.init)| + |CodeCond(c.cond, 0)| + 2 + |step| + 2 + n + 2
      && CodeC(c, brk, cont) == ForCode(CodeInit(c.init), CodeCond(c.cond, 2 + |step| + 2 + n + 2), step,
        CodeC(c.body, 2, -(n + 2 + |step|)))
  {
    hide CodeE, ForCode, CodeInit, CodeCond;
    CodeSize(c.body, 2, -(SizeC(c.body) + 3 + |CodeE(c.step)|));
  }

  lemma BeforeFor(i: Code, e: Code, s: Code, b: Code, r: Laid)
    ensures var jump := [W(JR), Rel(|s| + 2)];
      var back := [W(JR), Rel(-(|s| + 4 + |e|))];
      var again := [W(JR), Rel(-(|b| + |s| + 4))];
      Before(i, Before(e, Before(jump, Before(s + (back + (b + again)), r)))) == Before(ForCode(i, e, s, b), r)
  {
    var jump := [W(JR), Rel(|s| + 2)];
    var rest := s + ([W(JR), Rel(-(|s| + 4 + |e|))] + (b + [W(JR), Rel(-(|b| + |s| + 4))]));
    BeforeBefore(jump, rest, r);
    BeforeBefore(e, jump + rest, r);
    BeforeBefore(i, e + (jump + rest), r);
    assert i + (e + (jump + rest)) == ForCode(i, e, s, b);
  }

  /* Whole handlers. */

  // The output for a handler is its code, and no error is reported.
  lemma {:induction false} HandlerPlaced(cs: Cmds)
    requires PlacedAll(cs, false)
    ensures Lay(SpellHandler(cs), 0, []) == Laid(CodeH(cs), true, false)
  {
    hide Lay, SpellCmds, CodeCs, Opcode, SizeCs;
    LayCmds(cs, ReturnAllow(Op1(RET, Nil)), 0, [], 0, 0);
    var m := Marked([], HasBreaks(cs), HasContinues(cs));
    assert m == [];
    LayReturn(Nil, SizeCs(cs), []);
    CodesSize(cs, 0, 0);
    assert Lay(Nil, SizeCs(cs) + 4, []) == Laid([], true, false) by { LayNil(SizeCs(cs) + 4); }
    BeforeBefore(CodeCs(cs, 0, 0), [W(LDI), 3, W(LTI), W(RET)], Laid([], true, false));
    assert CodeH(cs) + [] == CodeH(cs);
  }

  lemma LayNil(pos: nat)
    ensures Lay(Nil, pos, []) == Laid([], true, false)
  {
  }
}
