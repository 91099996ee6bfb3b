/** A break or continue outside of every loop refers to a section that is not
    open, which the back-patcher reports. */
module Misplaced {
  import opened Lists
  import opened Words
  import opened Engine
  import opened Source
  import opened Postfix
  import opened Layout
  import opened Codegen
  import opened Placing
  import opened PlacingExprs
  import opened PlacingCmds
  import opened PlacingCode

  // No loop is open.
  predicate Loopless(sects: Sects) { Nearest(sects, 2).None? && Nearest(sects, 3).None? }

  lemma LooplessBelow(sects: Sects, s: Section)
    requires Loopless(sects) && s.typ != 2 && s.typ != 3
    ensures Loopless(sects + [s])
  {
    NearestBelow(sects, s, 2);
    NearestBelow(sects, s, 3);
  }

  lemma LooplessMarked(sects: Sects, brk: bool, cont: bool)
    requires Loopless(sects)
    ensures Loopless(Marked(sects, brk, cont))
  {
    hide Nearest, Marked;
    MarkedAlike(sects, brk, cont);
  }

  lemma {:induction false} CmdMisplaced(c: Cmd, more: Acts, pos: nat, sects: Sects)
    requires !Placed(c, false) && Loopless(sects)
    ensures Lay(SpellCmd(c, more), pos, sects).errors
    decreases c, 1
  {
    if c.Break? || c.Continue? {
      LeaveMisplaced(JR, if c.Break? then 2 else 3, more, pos, sects);
    } else if c.Block? {
      CmdsMisplaced(c.cs, more, pos, sects);
    } else if c.If? {
      BranchMisplaced(c.e, c.t, TestEnd(1, more), pos, sects);
    } else if c.IfElse? {
      if !Placed(c.t, false) {
        BranchMisplaced(c.e, c.t, TestElse(1, SpellCmd(c.f, TestEnd(2, more))), pos, sects);
      } else {
        ElseMisplaced(c, more, pos, sects);
      }
    } else {
      InLoop(c);
    }
  }

  lemma LeaveMisplaced(op: Op, typ: nat, more: Acts, pos: nat, sects: Sects)
    requires Nearest(sects, typ).None?
    ensures Lay(OpRef(op, typ, 0xff, more), pos, sects).errors
  {
    hide Nearest, Opcode;
    assert Lay(Cons(PutRef(typ, 0xff), more), pos + 1, sects).errors;
  }

  lemma {:induction false} BranchMisplaced(e: Expr, t: Cmd, after: Acts, pos: nat, sects: Sects)
    requires !Placed(t, false) && Loopless(sects)
    ensures Lay(Spell(e, TestStart(1, SpellCmd(t, after))), pos, sects).errors
    decreases t, 2
  {
    hide Lay, Spell, CodeE, TestStart, Nearest, Placed, SpellCmd, Next;
    var q := pos + |CodeE(e)|;
    LayExpr(e, TestStart(1, SpellCmd(t, after)), pos, sects);
    LayTestStart(1, SpellCmd(t, after), q, sects);
    LooplessBelow(sects, Tested(1));
    CmdMisplaced(t, after, q + 2, sects + [Tested(1)]);
  }

  lemma {:induction false} ElseMisplaced(c: Cmd, more: Acts, pos: nat, sects: Sects)
    requires c.IfElse? && Placed(c.t, false) && !Placed(c.f, false) && Loopless(sects)
    ensures Lay(SpellCmd(c, more), pos, sects).errors
    decreases c, 0
  {
    hide Lay, Spell, CodeE, CodeC, TestStart, TestElse, TestEnd, Nearest, Placed, Next, Marked, Loops;
    var t := c.t;
    var right := SpellCmd(c.f, TestEnd(2, more));
    var left := SpellCmd(t, TestElse(1, right));
    var q := pos + |CodeE(c.e)| + 2;
    var p := q + SizeC(t);
    LayExpr(c.e, TestStart(1, left), pos, sects);
    LayTestStart(1, left, q - 2, sects);
    LayCmd(t, TestElse(1, right), q, sects + [Tested(1)], 0, 0);
    MarkedBelow(sects, Tested(1), HasBreak(t), HasContinue(t));
    var m := Marked(sects, HasBreak(t), HasContinue(t));
    LayTestElse(1, right, p, m);
    LooplessMarked(sects, HasBreak(t), HasContinue(t));
    LooplessBelow(m, Split(1, p + 2));
    CmdMisplaced(c.f, TestEnd(2, more), p + 2, m + [Split(1, p + 2)]);
  }

  lemma {:induction false} CmdsMisplaced(cs: Cmds, more: Acts, pos: nat, sects: Sects)
    requires !PlacedAll(cs, false) && Loopless(sects)
    ensures Lay(SpellCmds(cs, more), pos, sects).errors
    decreases cs, 1
  {
    hide Lay, Nearest, Placed, SpellCmd, CodeC, Next, Marked, Loops, SizeC;
    var c, later := cs.c, SpellCmds(cs.rest, more);
    if !Placed(c, false) {
      CmdMisplaced(c, later, pos, sects);
    } else {
      LayCmd(c, later, pos, sects, 0, 0);
      LooplessMarked(sects, HasBreak(c), HasContinue(c));
      CmdsMisplaced(cs.rest, more, pos + SizeC(c), Marked(sects, HasBreak(c), HasContinue(c)));
    }
  }

  // Inside a loop every break and continue is placed.
  lemma {:induction false} AllInLoop(c: Cmd)
    ensures Placed(c, true)
  {
    match c
    case Block(cs) => AllCmdsInLoop(cs);
    case If(_, t) => AllInLoop(t);
    case IfElse(_, t, f) => AllInLoop(t); AllInLoop(f);
    case While(_, b) => AllInLoop(b);
    case WhileElse(_, b, f) => AllInLoop(b); AllInLoop(f);
    case DoWhile(a, _, b) => AllInLoop(a); AllInLoop(b);
    case DoWhileElse(a, _, b, f) => AllInLoop(a); AllInLoop(b); AllInLoop(f);
    case For(_, _, _, b) => AllInLoop(b);
    case _ =>
  }

  lemma {:induction false} AllCmdsInLoop(cs: Cmds)
    ensures PlacedAll(cs, true)
  {
    if cs.MoreCmd? {
      AllInLoop(cs.c);
      AllCmdsInLoop(cs.rest);
    }
  }

  lemma InLoop(c: Cmd)
    requires !c.Break? && !c.Continue? && !c.Block? && !c.If? && !c.IfElse?
    ensures Placed(c, false)
  {
    AllInLoop(c);
  }

  lemma {:induction false} HandlerMisplaced(cs: Cmds)
    requires !PlacedAll(cs, false)
    ensures Lay(SpellHandler(cs), 0, []).errors
  {
    CmdsMisplaced(cs, ReturnAllow(Op1(RET, Nil)), 0, []);
  }
}
