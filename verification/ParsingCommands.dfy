/** The engine on commands and on whole handlers. */
module ParsingCommands {
  import opened Lists
  import opened Words
  import opened Grammar
  import opened Engine
  import opened Source
  import opened Postfix
  import opened Parsing

  /* The right-hand sides of the rows a command uses. */

  function IfOuts(): Outs { Start(1, O(JIZ, OutRef(1, 1, Done))) }
  function IfBody(): Syms { T(K(IfK), N(Exp2, Do(IfOuts(), N(Command, N(IfTail, Eps))))) }
  function ElseOuts(): Outs { O(JR, OutRef(1, 2, Here(1, Done))) }
  function ElsePart(): Syms { T(K(ElseK), Do(ElseOuts(), N(Command, Do(Here(2, End(Done)), Eps)))) }

  function LoopOuts(): Outs { Start(2, Start(3, Here(1, Done))) }
  function DoBody(): Syms { T(K(DoK), Do(LoopOuts(), N(Command, N(DoTail, Eps)))) }
  function WhileBody(): Syms { Do(LoopOuts(), N(WhileC, Eps)) }
  function TestOuts(): Outs { O(JIZ, OutRef(3, 2, Done)) }
  function TestBody(): Syms {
    T(K(WhileK), Do(Here(0xff, Done), N(Exp2, Do(TestOuts(), N(Command, N(WhileTail, Eps))))))
  }
  function BackOuts(): Outs { O(JR, OutRef(3, 1, Here(2, Done))) }
  function CloseOuts(): Outs { End(Here(0xff, End(Done))) }
  function LoopElse(): Syms { T(K(ElseK), Do(BackOuts(), N(Command, Do(CloseOuts(), Eps)))) }
  function LoopClose(): Outs { O(JR, OutRef(3, 1, Here(2, End(Here(0xff, End(Done)))))) }

  function ForHead(): Syms { T(P(LParen), N(ForExp, T(P(Semi), Do(Here(4, Done), N(ForCond, ForStep()))))) }
  function ForStep(): Syms { Do(O(JR, OutRef(3, 3, Done)), T(P(Semi), Do(Here(0xff, Done), N(ForExp, ForRest())))) }
  function ForRest(): Syms {
    Do(O(JR, OutRef(3, 4, Done)), T(P(RParen), Do(Here(3, Done), N(Command, Do(ForClose(), Eps)))))
  }
  function ForClose(): Outs { O(JR, OutRef(3, 0xff, End(Here(0xff, End(Done))))) }
  function ForBody(): Syms { T(K(ForK), Do(Start(2, Start(3, Done)), ForHead())) }

  function LeaveBody(k: Keyword, typ: nat): Syms { T(K(k), T(P(Semi), Do(O(JR, OutRef(typ, 0xff, Done)), Eps))) }
  function ReturnBody(): Syms { T(K(ReturnK), N(ReturnTail, Do(O(RET, Done), T(P(Semi), Eps)))) }
  function AllowOuts(): Outs { O(LDI, Val(3, OutVal(O(LTI, Done)))) }
  function BlockBody(): Syms { T(P(LBrace), N(Commands, T(P(RBrace), Eps))) }
  function EvalBody(): Syms { N(Exp2, Do(O(DEL, Done), T(P(Semi), Eps))) }

  lemma {:induction false} BranchRows()
    ensures FindRow(CommandRows(Command), K(IfK)) == Some(IfBody())
    ensures FindRow(CommandRows(Command), K(DoK)) == Some(DoBody())
    ensures FindRow(CommandRows(Command), K(WhileK)) == Some(WhileBody())
    ensures FindRow(CommandRows(Command), K(ForK)) == Some(ForBody())
  {
  }

  lemma {:induction false} LeaveRows()
    ensures FindRow(CommandRows(Command), K(BreakK)) == Some(LeaveBody(BreakK, 2))
    ensures FindRow(CommandRows(Command), K(ContinueK)) == Some(LeaveBody(ContinueK, 3))
    ensures FindRow(CommandRows(Command), K(ReturnK)) == Some(ReturnBody())
    ensures FindRow(CommandRows(Command), P(Semi)) == Some(T(P(Semi), Eps))
    ensures FindRow(CommandRows(Command), P(LBrace)) == Some(BlockBody())
  {
  }

  lemma {:induction false} EvalRow(t: Term)
    requires Begins(t, 16)
    ensures FindRow(CommandRows(Command), t) == Some(EvalBody())
  {
  }

  lemma {:induction false} TailRows(t: Term)
    ensures FindRow(ControlRows(IfTail), K(ElseK)) == Some(ElsePart())
    ensures t == K(ElseK) || FindRow(ControlRows(IfTail), t) == Some(Do(Here(1, End(Done)), Eps))
    ensures FindRow(ControlRows(WhileTail), K(ElseK)) == Some(LoopElse())
    ensures t == K(ElseK) || FindRow(ControlRows(WhileTail), t) == Some(Do(LoopClose(), Eps))
    ensures FindRow(ControlRows(WhileC), K(WhileK)) == Some(TestBody())
    ensures FindRow(ControlRows(DoTail), t) == Some(N(WhileC, Eps))
  {
  }

  lemma {:induction false} ForRows(t: Term)
    ensures FindRow(ControlRows(ForCond), P(Semi)) == Some(Eps)
    ensures FindRow(ControlRows(ForExp), P(Semi)) == Some(Eps)
    ensures t == P(Semi) || FindRow(ControlRows(ForCond), t) == Some(N(Exp2, Do(O(JIZ, OutRef(2, 0xff, Done)), Eps)))
    ensures t == P(Semi) || FindRow(ControlRows(ForExp), t) == Some(N(Exp2, Do(O(DEL, Done), Eps)))
  {
  }

  lemma {:induction false} BlockTailRows(t: Term)
    ensures FindRow(BlockRows(ReturnTail), P(Semi)) == Some(N(ReturnZero, Eps))
    ensures t == P(Semi) || FindRow(BlockRows(ReturnTail), t) == Some(N(Exp2, Eps))
    ensures FindRow(BlockRows(ReturnZero), t) == Some(Do(AllowOuts(), Eps))
    ensures FindRow(BlockRows(Commands), P(RBrace)) == Some(Eps)
    ensures t == P(RBrace) || FindRow(BlockRows(Commands), t) == Some(N(Command, N(Commands, Eps)))
    ensures FindRow(BlockRows(Program), t) == Some(N(Commands, N(ReturnZero, Do(O(RET, Done), Eps))))
  {
  }

  // Every compound assignment of a command can be read.
  predicate AssignableCmd(c: Cmd) {
    match c
    case Eval(e) => Assignable(e)
    case Block(cs) => AssignableCmds(cs)
    case If(e, t) => Assignable(e) && AssignableCmd(t)
    case IfElse(e, t, f) => Assignable(e) && AssignableCmd(t) && AssignableCmd(f)
    case While(e, b) => Assignable(e) && AssignableCmd(b)
    case WhileElse(e, b, f) => Assignable(e) && AssignableCmd(b) && AssignableCmd(f)
    case DoWhile(a, e, b) => AssignableCmd(a) && Assignable(e) && AssignableCmd(b)
    case DoWhileElse(a, e, b, f) => AssignableCmd(a) && Assignable(e) && AssignableCmd(b) && AssignableCmd(f)
    case For(i, e, s, b) => AssignableOpt(i) && AssignableOpt(e) && Assignable(s) && AssignableCmd(b)
    case ReturnE(e) => Assignable(e)
    case _ => true
  }

  predicate AssignableOpt(e: Option<Expr>) { e.Some? ==> Assignable(e.value) }

  predicate AssignableCmds(cs: Cmds) {
    match cs
    case NoCmd => true
    case MoreCmd(c, rest) => AssignableCmd(c) && AssignableCmds(rest)
  }

  function AfterCmd(c: Cmd, r: Parse): Parse {
    if r.Rejected? || !AssignableCmd(c) then Rejected else Emitted(SpellCmd(c, r.acts))
  }

  function AfterCmds(cs: Cmds, r: Parse): Parse {
    if r.Rejected? || !AssignableCmds(cs) then Rejected else Emitted(SpellCmds(cs, r.acts))
  }

  lemma {:induction false} ExpandCommand(body: Syms, st: Syms, toks: Tokens, last: Word)
    requires FindRow(CommandRows(Command), Look(toks)) == Some(body)
    ensures Run(N(Command, st), toks, last) == Run(Push(body, st), toks, last)
  {
    hide CommandRows, DataRows, ArithmeticRows, LogicRows, TopRows, ControlRows, BlockRows, Run, FindRow;
    Expand(Command, body, st, toks, last);
  }

  lemma {:induction false} ExpandControl(nt: NT, body: Syms, st: Syms, toks: Tokens, last: Word)
    requires nt.IfTail? || nt.WhileTail? || nt.WhileC? || nt.DoTail? || nt.ForCond? || nt.ForExp?
    requires FindRow(ControlRows(nt), Look(toks)) == Some(body)
    ensures Run(N(nt, st), toks, last) == Run(Push(body, st), toks, last)
  {
    hide CommandRows, DataRows, ArithmeticRows, LogicRows, TopRows, ControlRows, BlockRows, Run, FindRow;
    Expand(nt, body, st, toks, last);
  }

  lemma {:induction false} ExpandBlock(nt: NT, body: Syms, st: Syms, toks: Tokens, last: Word)
    requires nt.ReturnTail? || nt.ReturnZero? || nt.Commands? || nt.Program?
    requires FindRow(BlockRows(nt), Look(toks)) == Some(body)
    ensures Run(N(nt, st), toks, last) == Run(Push(body, st), toks, last)
  {
    hide CommandRows, DataRows, ArithmeticRows, LogicRows, TopRows, ControlRows, BlockRows, Run, FindRow;
    Expand(nt, body, st, toks, last);
  }

  // No command begins with a closing brace.
  lemma {:induction false} CmdBegins(c: Cmd, more: Tokens)
    ensures Look(WriteCmd(c, more)) != P(RBrace)
  {
    match c
    case Eval(e) =>
      WriteBegins(e, 16, Sym(P(Semi), more));
      assert !Begins(P(RBrace), 16);
    case _ =>
  }

  // break and continue: a jump to label 0xff of the nearest section of a type.
  lemma {:induction false} ParsedLeave(k: Keyword, typ: nat, toks: Tokens, more: Tokens, st: Syms, last: Word)
    requires FindRow(CommandRows(Command), K(k)) == Some(LeaveBody(k, typ))
    requires toks == Sym(K(k), Sym(P(Semi), more))
    ensures Run(N(Command, st), toks, last)
         == (var r := Run(st, more, 0);
             if r.Rejected? then Rejected else Emitted(OpRef(JR, typ, 0xff, r.acts)))
  {
    hide Opcode, Table, FindRow, Found, Run, CommandRows;
    var jump := O(JR, OutRef(typ, 0xff, Done));
    assert Push(LeaveBody(k, typ), st) == T(K(k), T(P(Semi), Do(jump, st))) by {
      assert Push(Do(jump, Eps), st) == Do(jump, st);
      assert Push(T(P(Semi), Do(jump, Eps)), st) == T(P(Semi), Do(jump, st));
    }
    ExpandCommand(LeaveBody(k, typ), st, toks, last);
    Match(K(k), 0, T(P(Semi), Do(jump, st)), Sym(P(Semi), more), last);
    Match(P(Semi), 0, Do(jump, st), more, 0);
    assert LastAfter(jump, 0) == LastAfter(jump.more, 0) == 0;
    Output(jump, st, more, 0);
    assert forall acts :: Actions(jump.more, 0, acts) == Cons(PutRef(typ, 0xff), acts);
  }

  lemma {:induction false} ParsedCmd(c: Cmd, more: Tokens, st: Syms, last: Word) returns (l: Word)
    requires Look(more) != K(ElseK)
    ensures Run(N(Command, st), WriteCmd(c, more), last) == AfterCmd(c, Run(st, more, l))
    decreases c, 3
  {
    hide Opcode, Table, FindRow, Found, Run, Write, Spell, Assignable, CommandRows, ControlRows, BlockRows;
    if c.Skip? {
      ExpandCommand(T(P(Semi), Eps), st, WriteCmd(c, more), last) by { LeaveRows(); }
      Match(P(Semi), 0, st, more, last);
      l := 0;
    } else if c.Break? {
      ParsedLeave(BreakK, 2, WriteCmd(c, more), more, st, last) by { LeaveRows(); }
      l := 0;
    } else if c.Continue? {
      ParsedLeave(ContinueK, 3, WriteCmd(c, more), more, st, last) by { LeaveRows(); }
      l := 0;
    } else if c.Eval? {
      l := ParsedEval(c, more, st, last);
    } else if c.Return? || c.ReturnE? {
      l := ParsedReturn(c, more, st, last);
    } else if c.Block? {
      l := ParsedBlock(c.cs, more, st, last);
    } else if c.If? || c.IfElse? {
      l := ParsedIf(c, more, st, last);
    } else if c.For? {
      l := ParsedFor(c, more, st, last);
    } else {
      l := ParsedLoop(c, more, st, last);
    }
  }

  lemma {:induction false} ParsedEval(c: Cmd, more: Tokens, st: Syms, last: Word) returns (l: Word)
    requires c.Eval?
    ensures Run(N(Command, st), WriteCmd(c, more), last) == AfterCmd(c, Run(st, more, l))
  {
    hide Opcode, Table, FindRow, Found, Run, Write, Spell, Assignable, CommandRows, ControlRows, BlockRows;
    var semi := Sym(P(Semi), more);
    ExpandCommand(EvalBody(), st, WriteCmd(c, more), last) by {
      WriteBegins(c.e, 16, semi);
      EvalRow(Look(Write(c.e, 16, semi)));
    }
    var l1 := Parsed(c.e, 16, semi, Do(O(DEL, Done), T(P(Semi), st)), last);
    Output(O(DEL, Done), T(P(Semi), st), semi, l1);
    Match(P(Semi), 0, st, more, l1);
    l := 0;
  }

  lemma {:induction false} ParsedReturn(c: Cmd, more: Tokens, st: Syms, last: Word) returns (l: Word)
    requires c.Return? || c.ReturnE?
    ensures Run(N(Command, st), WriteCmd(c, more), last) == AfterCmd(c, Run(st, more, l))
  {
    hide Opcode, Table, FindRow, Found, Run, Write, Spell, Assignable, CommandRows, ControlRows, BlockRows;
    var semi := Sym(P(Semi), more);
    var toks := if c.Return? then semi else Write(c.e, 16, semi);
    var out := Do(O(RET, Done), T(P(Semi), st));
    ExpandCommand(ReturnBody(), st, WriteCmd(c, more), last) by { LeaveRows(); }
    Match(K(ReturnK), 0, N(ReturnTail, out), toks, last);
    var l1: Word;
    if c.Return? {
      ExpandBlock(ReturnTail, N(ReturnZero, Eps), out, toks, 0) by { BlockTailRows(P(Semi)); }
      ExpandBlock(ReturnZero, Do(AllowOuts(), Eps), out, toks, 0) by { BlockTailRows(P(Semi)); }
      Output(AllowOuts(), out, toks, 0);
      l1 := 3;
    } else {
      ExpandBlock(ReturnTail, N(Exp2, Eps), out, toks, 0) by {
        WriteBegins(c.e, 16, semi);
        BlockTailRows(Look(toks));
      }
      l1 := Parsed(c.e, 16, semi, out, 0);
    }
    Output(O(RET, Done), T(P(Semi), st), semi, l1);
    Match(P(Semi), 0, st, more, l1);
    l := 0;
  }

  lemma {:induction false} ParsedBraced(c: Cmd, more: Tokens, st: Syms, last: Word)
    ensures Run(N(Command, st), Braced(c, more), last) == AfterCmd(c, Run(st, more, 0))
    decreases c, 4
  {
    hide Opcode, Table, FindRow, Found, Run, WriteCmd, SpellCmd, AssignableCmd, CommandRows, ControlRows, BlockRows;
    var close := Sym(P(RBrace), more);
    var below := T(P(RBrace), st);
    ExpandCommand(BlockBody(), st, Braced(c, more), last) by { LeaveRows(); }
    Match(P(LBrace), 0, N(Commands, below), WriteCmd(c, close), last);
    ExpandBlock(Commands, N(Command, N(Commands, Eps)), below, WriteCmd(c, close), 0) by {
      CmdBegins(c, close);
      BlockTailRows(Look(WriteCmd(c, close)));
    }
    var l := ParsedCmd(c, close, N(Commands, below), 0);
    ExpandBlock(Commands, Eps, below, close, l) by { BlockTailRows(P(RBrace)); }
    Match(P(RBrace), 0, st, more, l);
  }

  lemma {:induction false} ParsedBlock(cs: Cmds, more: Tokens, st: Syms, last: Word) returns (l: Word)
    ensures Run(N(Command, st), WriteCmd(Block(cs), more), last) == AfterCmd(Block(cs), Run(st, more, l))
    decreases cs, 1
  {
    hide Opcode, Table, FindRow, Found, Run, WriteCmds, SpellCmds, AssignableCmds, CommandRows, ControlRows, BlockRows;
    var close := Sym(P(RBrace), more);
    ExpandCommand(BlockBody(), st, WriteCmd(Block(cs), more), last) by { LeaveRows(); }
    Match(P(LBrace), 0, N(Commands, T(P(RBrace), st)), WriteCmds(cs, close), last);
    var l1 := ParsedCmds(cs, close, T(P(RBrace), st), 0);
    Match(P(RBrace), 0, st, more, l1);
    l := 0;
  }

  lemma {:induction false} ParsedCmds(cs: Cmds, more: Tokens, st: Syms, last: Word) returns (l: Word)
    requires Look(more) == P(RBrace)
    ensures Run(N(Commands, st), WriteCmds(cs, more), last) == AfterCmds(cs, Run(st, more, l))
    decreases cs, 0
  {
    hide Opcode, Table, FindRow, Found, Run, WriteCmd, SpellCmd, AssignableCmd, CommandRows, ControlRows, BlockRows;
    match cs
    case NoCmd =>
      ExpandBlock(Commands, Eps, st, more, last) by { BlockTailRows(P(RBrace)); }
      l := last;
    case MoreCmd(c, rest) =>
      var toks := WriteCmds(rest, more);
      ExpandBlock(Commands, N(Command, N(Commands, Eps)), st, WriteCmd(c, toks), last) by {
        CmdBegins(c, toks);
        BlockTailRows(Look(WriteCmd(c, toks)));
      }
      CmdsBegin(rest, more);
      var l1 := ParsedCmd(c, toks, N(Commands, st), last);
      l := ParsedCmds(rest, more, st, l1);
  }

  lemma {:induction false} CmdsBegin(cs: Cmds, more: Tokens)
    requires Look(more) == P(RBrace)
    ensures Look(WriteCmds(cs, more)) != K(ElseK)
  {
    if cs.MoreCmd? && cs.c.Eval? {
      WriteBegins(cs.c.e, 16, Sym(P(Semi), WriteCmds(cs.rest, more)));
    }
  }

  function ElseActs(c: Cmd, more: Acts): Acts
    requires c.If? || c.IfElse?
  {
    if c.If? then TestEnd(1, more) else TestElse(1, SpellCmd(c.f, TestEnd(2, more)))
  }

  // What follows the first branch of an if.
  lemma {:induction false} ParsedElse(c: Cmd, more: Tokens, st: Syms)
    requires (c.If? || c.IfElse?) && Look(more) != K(ElseK)
    ensures Run(N(IfTail, st), if c.If? then more else Sym(K(ElseK), Braced(c.f, more)), 0)
         == (var r := Run(st, more, 0);
             if r.Rejected? || (c.IfElse? && !AssignableCmd(c.f)) then Rejected else Emitted(ElseActs(c, r.acts)))
    decreases c, 1
  {
    hide Opcode, Table, FindRow, Found, Run, SpellCmd, AssignableCmd, Braced, CommandRows, ControlRows, BlockRows;
    if c.If? {
      ExpandControl(IfTail, Do(Here(1, End(Done)), Eps), st, more, 0) by { TailRows(Look(more)); }
      Output(Here(1, End(Done)), st, more, 0);
    } else {
      var out := Do(Here(2, End(Done)), st);
      ExpandControl(IfTail, ElsePart(), st, Sym(K(ElseK), Braced(c.f, more)), 0) by { TailRows(K(ElseK)); }
      Match(K(ElseK), 0, Do(ElseOuts(), N(Command, out)), Braced(c.f, more), 0);
      Output(ElseOuts(), N(Command, out), Braced(c.f, more), 0);
      ParsedBraced(c.f, more, out, 0);
      Output(Here(2, End(Done)), st, more, 0);
    }
  }

  lemma {:induction false} ParsedIf(c: Cmd, more: Tokens, st: Syms, last: Word) returns (l: Word)
    requires (c.If? || c.IfElse?) && Look(more) != K(ElseK)
    ensures Run(N(Command, st), WriteCmd(c, more), last) == AfterCmd(c, Run(st, more, l))
    decreases c, 2
  {
    hide Opcode, Table, FindRow, Found, Run, Write, Spell, Assignable, Braced, CommandRows, ControlRows, BlockRows;
    l := 0;
    var elseToks := if c.If? then more else Sym(K(ElseK), Braced(c.f, more));
    var body := Braced(c.t, elseToks);
    var below := N(Command, N(IfTail, st));
    ExpandCommand(IfBody(), st, WriteCmd(c, more), last) by { BranchRows(); }
    Match(K(IfK), 0, N(Exp2, Do(IfOuts(), below)), Write(c.e, 16, body), last);
    assert Look(body) == P(LBrace) by { BracedBegins(c.t, elseToks); }
    var l1 := Parsed(c.e, 16, body, Do(IfOuts(), below), 0);
    Output(IfOuts(), below, body, l1);
    ParsedBraced(c.t, elseToks, N(IfTail, st), l1);
    ParsedElse(c, more, st);
    hide TestElse, TestEnd;
  }

  lemma {:induction false} BracedBegins(c: Cmd, more: Tokens)
    ensures Look(Braced(c, more)) == P(LBrace)
  {
  }

  predicate IsLoop(c: Cmd) { c.While? || c.WhileElse? || c.DoWhile? || c.DoWhileElse? }

  predicate HasElse(c: Cmd) { c.WhileElse? || c.DoWhileElse? }

  // The tokens and the actions of a loop from its condition on.
  function LoopToks(c: Cmd, more: Tokens): Tokens
    requires IsLoop(c)
  {
    Write(c.e, 16, Braced(c.body, if HasElse(c) then Sym(K(ElseK), Braced(c.f, more)) else more))
  }

  function LoopActs(c: Cmd, more: Acts): Acts
    requires IsLoop(c)
  {
    LoopTest(c.e, SpellCmd(c.body, LoopBack(
      if HasElse(c) then SpellCmd(c.f, LoopEnd(more)) else LoopEnd(more))))
  }

  predicate LoopAssignable(c: Cmd)
    requires IsLoop(c)
  {
    Assignable(c.e) && AssignableCmd(c.body) && (HasElse(c) ==> AssignableCmd(c.f))
  }

  // What follows the body of a loop.
  lemma {:induction false} ParsedLoopTail(c: Cmd, more: Tokens, st: Syms)
    requires IsLoop(c) && Look(more) != K(ElseK)
    ensures Run(N(WhileTail, st), if HasElse(c) then Sym(K(ElseK), Braced(c.f, more)) else more, 0)
         == (var r := Run(st, more, 0);
             if r.Rejected? || (HasElse(c) && !AssignableCmd(c.f)) then Rejected
             else Emitted(LoopBack(if HasElse(c) then SpellCmd(c.f, LoopEnd(r.acts)) else LoopEnd(r.acts))))
    decreases c, 0
  {
    hide Opcode, Table, FindRow, Found, Run, SpellCmd, AssignableCmd, Braced, CommandRows, ControlRows, BlockRows;
    if HasElse(c) {
      var out := Do(CloseOuts(), st);
      ExpandControl(WhileTail, LoopElse(), st, Sym(K(ElseK), Braced(c.f, more)), 0) by { TailRows(K(ElseK)); }
      Match(K(ElseK), 0, Do(BackOuts(), N(Command, out)), Braced(c.f, more), 0);
      Output(BackOuts(), N(Command, out), Braced(c.f, more), 0);
      ParsedBraced(c.f, more, out, 0);
      Output(CloseOuts(), st, more, 0);
    } else {
      ExpandControl(WhileTail, Do(LoopClose(), Eps), st, more, 0) by { TailRows(Look(more)); }
      Output(LoopClose(), st, more, 0);
    }
  }

  lemma {:induction false} ParsedTest(c: Cmd, more: Tokens, st: Syms, last: Word) returns (l: Word)
    requires IsLoop(c) && Look(more) != K(ElseK)
    ensures Run(N(WhileC, st), Sym(K(WhileK), LoopToks(c, more)), last)
         == (var r := Run(st, more, l);
             if r.Rejected? || !LoopAssignable(c) then Rejected else Emitted(LoopActs(c, r.acts)))
    decreases c, 1
  {
    hide Opcode, Table, FindRow, Found, Run, Write, Spell, SpellCmd, Assignable, AssignableCmd, Braced, CommandRows,
      ControlRows, BlockRows;
    l := 0;
    var elseToks := if HasElse(c) then Sym(K(ElseK), Braced(c.f, more)) else more;
    var body := Braced(c.body, elseToks);
    var below := N(Command, N(WhileTail, st));
    var test := N(Exp2, Do(TestOuts(), below));
    ExpandControl(WhileC, TestBody(), st, Sym(K(WhileK), LoopToks(c, more)), last) by { TailRows(K(WhileK)); }
    Match(K(WhileK), 0, Do(Here(0xff, Done), test), LoopToks(c, more), last);
    Output(Here(0xff, Done), test, LoopToks(c, more), 0);
    assert Look(body) == P(LBrace) by { BracedBegins(c.body, elseToks); }
    var l1 := Parsed(c.e, 16, body, Do(TestOuts(), below), 0);
    Output(TestOuts(), below, body, l1);
    ParsedBraced(c.body, elseToks, N(WhileTail, st), l1);
    ParsedLoopTail(c, more, st);
    hide LoopBack, LoopEnd;
  }

  lemma {:induction false} LoopShape(c: Cmd, more: Tokens, acts: Acts)
    requires IsLoop(c)
    ensures var loop := Sym(K(WhileK), LoopToks(c, more));
      WriteCmd(c, more) == if c.While? || c.WhileElse? then loop else Sym(K(DoK), Braced(c.first, loop))
    ensures var loop := LoopActs(c, acts);
      SpellCmd(c, acts) == LoopStart(if c.While? || c.WhileElse? then loop else SpellCmd(c.first, loop))
    ensures AssignableCmd(c) == (LoopAssignable(c) && (c.While? || c.WhileElse? || AssignableCmd(c.first)))
  {
  }

  lemma {:induction false} ParsedLoop(c: Cmd, more: Tokens, st: Syms, last: Word) returns (l: Word)
    requires IsLoop(c) && Look(more) != K(ElseK)
    ensures Run(N(Command, st), WriteCmd(c, more), last) == AfterCmd(c, Run(st, more, l))
    decreases c, 2
  {
    hide Opcode, Table, FindRow, Found, Run, WriteCmd, LoopToks, LoopActs, SpellCmd, AssignableCmd, LoopAssignable,
      Braced,
      CommandRows, ControlRows, BlockRows;
    LoopShape(c, more, Nil);
    var loop := Sym(K(WhileK), LoopToks(c, more));
    if c.While? || c.WhileElse? {
      ExpandCommand(WhileBody(), st, loop, last) by { BranchRows(); }
      Output(LoopOuts(), N(WhileC, st), loop, last);
      l := ParsedTest(c, more, st, last);
    } else {
      var body := Braced(c.first, loop);
      var below := N(Command, N(DoTail, st));
      ExpandCommand(DoBody(), st, Sym(K(DoK), body), last) by { BranchRows(); }
      Match(K(DoK), 0, Do(LoopOuts(), below), body, last);
      Output(LoopOuts(), below, body, 0);
      ParsedBraced(c.first, loop, N(DoTail, st), 0);
      ExpandControl(DoTail, N(WhileC, Eps), st, loop, 0) by { TailRows(K(WhileK)); }
      l := ParsedTest(c, more, st, 0);
    }
    LoopShape(c, more, Acted(Run(st, more, l)));
  }

  function AfterInit(i: Option<Expr>, r: Parse): Parse {
    if r.Rejected? || !AssignableOpt(i) then Rejected else Emitted(SpellInit(i, r.acts))
  }

  function AfterCond(c: Option<Expr>, r: Parse): Parse {
    if r.Rejected? || !AssignableOpt(c) then Rejected else Emitted(SpellCond(c, r.acts))
  }

  lemma {:induction false} ParsedInit(i: Option<Expr>, more: Tokens, st: Syms, last: Word) returns (l: Word)
    requires Look(more) == P(Semi)
    ensures Run(N(ForExp, st), Optional(i, more), last) == AfterInit(i, Run(st, more, l))
  {
    hide Opcode, Table, FindRow, Found, Run, Write, Spell, Assignable, CommandRows, ControlRows, BlockRows;
    if i.None? {
      ExpandControl(ForExp, Eps, st, more, last) by { ForRows(P(Semi)); }
      l := last;
    } else {
      l := ParsedStep(i.value, more, st, last);
    }
  }

  lemma {:induction false} ParsedStep(e: Expr, more: Tokens, st: Syms, last: Word) returns (l: Word)
    requires Look(more) == P(Semi) || Look(more) == P(RParen)
    ensures Run(N(ForExp, st), Write(e, 16, more), last) == After(e, Emits(O(DEL, Done), l, Run(st, more, l)))
  {
    hide Opcode, Table, FindRow, Found, Run, Write, Spell, Assignable, CommandRows, ControlRows, BlockRows;
    ExpandControl(ForExp, N(Exp2, Do(O(DEL, Done), Eps)), st, Write(e, 16, more), last) by {
      WriteBegins(e, 16, more);
      ForRows(Look(Write(e, 16, more)));
    }
    l := Parsed(e, 16, more, Do(O(DEL, Done), st), last);
    Output(O(DEL, Done), st, more, l);
  }

  lemma {:induction false} ParsedForCond(c: Option<Expr>, more: Tokens, st: Syms, last: Word) returns (l: Word)
    requires Look(more) == P(Semi)
    ensures Run(N(ForCond, st), Optional(c, more), last) == AfterCond(c, Run(st, more, l))
  {
    hide Opcode, Table, FindRow, Found, Run, Write, Spell, Assignable, CommandRows, ControlRows, BlockRows;
    if c.None? {
      ExpandControl(ForCond, Eps, st, more, last) by { ForRows(P(Semi)); }
      l := last;
    } else {
      var e := c.value;
      var jump := O(JIZ, OutRef(2, 0xff, Done));
      ExpandControl(ForCond, N(Exp2, Do(jump, Eps)), st, Write(e, 16, more), last) by {
        WriteBegins(e, 16, more);
        ForRows(Look(Write(e, 16, more)));
      }
      l := Parsed(e, 16, more, Do(jump, st), last);
      Output(jump, st, more, l);
    }
  }

  lemma {:induction false} ForShape(c: Cmd, more: Tokens, acts: Acts)
    requires c.For?
    ensures var stepToks := Write(c.step, 16, Sym(P(RParen), Braced(c.body, more)));
      var condToks := Optional(c.cond, Sym(P(Semi), stepToks));
      WriteCmd(c, more) == Sym(K(ForK), Sym(P(LParen), Optional(c.init, Sym(P(Semi), condToks))))
    ensures SpellCmd(c, acts) == ForStart(c.init, c.cond, c.step, SpellCmd(c.body, OpRef(JR, 3, 0xff, LoopEnd(acts))))
    ensures AssignableCmd(c)
         == (AssignableOpt(c.init) && AssignableOpt(c.cond) && Assignable(c.step) && AssignableCmd(c.body))
  {
  }

  // The actions of the rest of a for, from its step on.
  function ForActs(c: Cmd, acts: Acts): Acts
    requires c.For?
  {
    Cons(SetPos(0xff), Spell(c.step, Op1(DEL, OpRef(JR, 3, 4, Cons(SetPos(3),
      SpellCmd(c.body, OpRef(JR, 3, 0xff, LoopEnd(acts))))))))
  }

  lemma {:induction false} ParsedForRest(c: Cmd, more: Tokens, st: Syms, last: Word)
    requires c.For?
    ensures var stepToks := Write(c.step, 16, Sym(P(RParen), Braced(c.body, more)));
      Run(Push(ForStep(), st), Sym(P(Semi), stepToks), last)
        == (var r := Run(st, more, 0);
            if r.Rejected? || !Assignable(c.step) || !AssignableCmd(c.body) then Rejected
            else Emitted(OpRef(JR, 3, 3, ForActs(c, r.acts))))
    decreases c, 1
  {
    hide Opcode, Table, FindRow, Found, Run, Write, Spell, SpellCmd, Assignable, AssignableCmd, Braced, CommandRows,
      ControlRows, BlockRows;
    var close := Sym(P(RParen), Braced(c.body, more));
    var toks := Write(c.step, 16, close);
    var rest := Push(ForRest(), st);
    var back := Do(ForClose(), st);
    Output(O(JR, OutRef(3, 3, Done)), T(P(Semi), Do(Here(0xff, Done), N(ForExp, rest))), Sym(P(Semi), toks), last);
    Match(P(Semi), 0, Do(Here(0xff, Done), N(ForExp, rest)), toks, last);
    Output(Here(0xff, Done), N(ForExp, rest), toks, 0);
    var l1 := ParsedStep(c.step, close, rest, 0);
    Output(O(JR, OutRef(3, 4, Done)), T(P(RParen), Do(Here(3, Done), N(Command, back))), close, l1);
    Match(P(RParen), 0, Do(Here(3, Done), N(Command, back)), Braced(c.body, more), l1);
    Output(Here(3, Done), N(Command, back), Braced(c.body, more), 0);
    ParsedBraced(c.body, more, back, 0);
    Output(ForClose(), st, more, 0);
  }

  lemma {:induction false} ParsedFor(c: Cmd, more: Tokens, st: Syms, last: Word) returns (l: Word)
    requires c.For?
    ensures Run(N(Command, st), WriteCmd(c, more), last) == AfterCmd(c, Run(st, more, l))
    decreases c, 2
  {
    hide Opcode, Table, FindRow, Found, Run, Write, WriteCmd, Spell, SpellCmd, Assignable, AssignableCmd,
      AssignableOpt, Braced,
      Optional, SpellInit, SpellCond, CommandRows, ControlRows, BlockRows;
    l := 0;
    ForShape(c, more, Nil);
    var stepToks := Sym(P(Semi), Write(c.step, 16, Sym(P(RParen), Braced(c.body, more))));
    var condToks := Optional(c.cond, stepToks);
    var initToks := Optional(c.init, Sym(P(Semi), condToks));
    var step := Push(ForStep(), st);
    var tail := T(P(Semi), Do(Here(4, Done), N(ForCond, step)));
    ExpandCommand(ForBody(), st, WriteCmd(c, more), last) by { BranchRows(); }
    Match(K(ForK), 0, Do(Start(2, Start(3, Done)), T(P(LParen), N(ForExp, tail))), Sym(P(LParen), initToks), last);
    Output(Start(2, Start(3, Done)), T(P(LParen), N(ForExp, tail)), Sym(P(LParen), initToks), 0);
    Match(P(LParen), 0, N(ForExp, tail), initToks, 0);
    var l1 := ParsedInit(c.init, Sym(P(Semi), condToks), tail, 0);
    Match(P(Semi), 0, Do(Here(4, Done), N(ForCond, step)), condToks, l1);
    Output(Here(4, Done), N(ForCond, step), condToks, 0);
    var l2 := ParsedForCond(c.cond, stepToks, step, 0);
    ParsedForRest(c, more, st, l2);
    ForShape(c, more, Acted(Run(st, more, 0)));
  }

  // The engine accepts the tokens of a handler exactly when it holds no <<= and
  // no >>=, and then it has sent the actions of the handler to the back-patcher.
  lemma {:induction false} ParsedHandler(cs: Cmds, last: Word)
    ensures Run(N(Program, T(P(RBrace), Eps)), WriteCmds(cs, Sym(P(RBrace), Nil)), last)
         == if AssignableCmds(cs) then Emitted(SpellHandler(cs)) else Rejected
  {
    hide Opcode, Table, FindRow, Found, Run, WriteCmds, SpellCmds, AssignableCmds, CommandRows, ControlRows, BlockRows;
    var close := Sym(P(RBrace), Nil);
    var toks := WriteCmds(cs, close);
    var out := Do(O(RET, Done), T(P(RBrace), Eps));
    ExpandBlock(Program, N(Commands, N(ReturnZero, Do(O(RET, Done), Eps))), T(P(RBrace), Eps), toks, last) by {
      BlockTailRows(Look(toks));
    }
    var l := ParsedCmds(cs, close, N(ReturnZero, out), last);
    ExpandBlock(ReturnZero, Do(AllowOuts(), Eps), out, close, l) by { BlockTailRows(P(RBrace)); }
    Output(AllowOuts(), out, close, l);
    Output(O(RET, Done), T(P(RBrace), Eps), close, 3);
    Match(P(RBrace), 0, Eps, Nil, 3);
    assert Run(Eps, Nil, 0) == Emitted(Nil) by { Finished(); }
  }

  lemma Finished()
    ensures Run(Eps, Nil, 0) == Emitted(Nil)
  {
  }
}
