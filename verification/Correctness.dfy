/** The interpreter, run on the code of a tree, does what the tree means. */
module Correctness {
  import opened Lists
  import opened Words
  import opened Registers
  import opened Source
  import opened Codegen
  import opened Machine
  import opened Execution
  import opened PlacingCode
  import Sem = Semantics

  type Value = Sem.Value
  type Outcome = Sem.Outcome

  // Every function that is defined is loaded behind its cell; break and
  // continue stand inside loops.
  ghost predicate Linked(c: Program, m: Sem.Sem) {
    && c.h == m.h && |c.mem| < ADDRESS_LIMIT
    && forall f: Word :: LinkedAt(c, m, f)
  }

  ghost predicate LinkedAt(c: Program, m: Sem.Sem, f: Word) {
    if f in m.funcs then c.cells(f) > 0 && PlacedAll(m.funcs[f], false) && Loaded(c.mem, c.cells(f), CodeH(m.funcs[f]))
    else c.cells(f) == 0
  }

  // From s the machine comes to p with the value on top of the stack t; when
  // the fuel ran out, it runs at least that long.
  ghost predicate Yields(c: Program, v: Value, s: VM, t: seq<Cell>, p: nat, fuel: nat) {
    match v
    case Val(r, w) => Reaches(c, s, VM(p, t + Enc(c.h, r), s.base, w, 0))
    case Stuck => true
    case Tired => Lasts(c, s, fuel)
  }

  lemma {:induction false} YieldsThen(c: Program, v: Value, s: VM, s': VM, t: seq<Cell>, p: nat, fuel: nat)
    requires Reaches(c, s, s') && s.base == s'.base && Yields(c, v, s', t, p, fuel)
    ensures Yields(c, v, s, t, p, fuel)
  {
    hide Run, Enc, Lasts, Reaches;
    match v
    case Val(r, w) => ReachesThen(c, s, s', VM(p, t + Enc(c.h, r), s.base, w, 0));
    case Stuck =>
    case Tired => LastsThen(c, s, s', fuel);
  }

  // The state in which code runs.
  ghost predicate Ready(c: Program, m: Sem.Sem, args: seq<Reg>, s: VM, code: Code) {
    Linked(c, m) && Framed(c, s.stack, s.base, args) && s.cont == 0 && Loaded(c.mem, s.p, code)
  }

  // Behind a value on the stack, the code that follows is ready.
  lemma {:induction false} ReadyNext(c: Program, m: Sem.Sem, args: seq<Reg>, s: VM, a: Code, b: Code, more: seq<Cell>,
      w: World)
    requires Ready(c, m, args, s, a + b)
    ensures Ready(c, m, args, VM(s.p + |a|, s.stack + more, s.base, w, 0), b)
    ensures Ready(c, m, args, VM(s.p + |a|, s.stack, s.base, w, 0), b)
    ensures Ready(c, m, args, s, a)
    ensures Loaded(c.mem, s.p + |a|, b)
  {
    hide Linked, Framed;
    LoadedSplit(c.mem, s.p, a, b);
    FramedPush(c, s.stack, s.base, args, more);
  }

  /* Sequences of instructions. */

  lemma {:induction false} DoStep(c: Program, op: BinOp, r: Reg, p: nat, s: seq<Cell>, b: nat, w: World)
    requires Loaded(c.mem, p, IncCode(op))
    ensures var v := Sem.Step(c.h, op, Sem.Val(r, w));
      Reaches(c, VM(p, s + Enc(c.h, r), b, w, 0), VM(p + 4, s + Enc(c.h, v.r), b, v.w, 0))
  {
    hide Opcode, Enc, Norm, Reaches;
    LoadedAt(c.mem, p, IncCode(op), 0);
    LoadedAt(c.mem, p, IncCode(op), 1);
    LoadedAt(c.mem, p, IncCode(op), 2);
    LoadedAt(c.mem, p, IncCode(op), 3);
    var t := Norm(c.h, w, r);
    var two := s + Enc(c.h, t) + Enc(c.h, t);
    var one: Reg := IntReg(1);
    assert Norm(c.h, w, one) == one by { NormInt(c.h, w, 1); }
    var sum := Sem.AluOp(c.h, w, op, t, Sem.ONE);
    var v := Sem.Assign(c.h, sum.w, t, sum.r);
    var s0 := VM(p, s + Enc(c.h, r), b, w, 0);
    var s1 := VM(p + 1, two, b, w, 0);
    var s2 := VM(p + 2, two + Enc(c.h, one), b, w, 0);
    var s3 := VM(p + 3, s + Enc(c.h, t) + Enc(c.h, sum.r), b, sum.w, 0);
    var s4 := VM(p + 4, s + Enc(c.h, v.r), b, v.w, 0);
    DoDup(c, r, p, s, b, w);
    DoLoad(c, LD1, p + 1, two, b, w);
    DoAlu(c, op, t, one, p + 2, s + Enc(c.h, t), b, w);
    DoStore(c, t, sum.r, p + 3, s, b, sum.w);
    ReachesThen(c, s0, s1, s2);
    ReachesThen(c, s0, s2, s3);
    ReachesThen(c, s0, s3, s4);
  }

  lemma NormInt(h: Host, w: World, n: nat)
    ensures Norm(h, w, IntReg(n)) == IntReg(n)
  {
  }

  lemma {:induction false} DoStepAfter(c: Program, op: BinOp, r: Reg, p: nat, s: seq<Cell>, b: nat, w: World)
    requires Loaded(c.mem, p, OldCode(op))
    ensures var v := Sem.StepAfter(c.h, op, Sem.Val(r, w));
      Reaches(c, VM(p, s + Enc(c.h, r), b, w, 0), VM(p + 8, s + Enc(c.h, v.r), b, v.w, 0))
  {
    hide Opcode, Enc, Norm, Reaches, IncCode, Sem.Step;
    var copy := [W(DUP), W(IMM), W(SWP)];
    LoadedSplit(c.mem, p, copy + IncCode(op), [W(DEL)]);
    LoadedSplit(c.mem, p, copy, IncCode(op));
    Loaded3(c.mem, p, W(DUP), W(IMM), W(SWP));
    assert |IncCode(op)| == 4 by { IncSize(op); }
    Loaded1(c.mem, p + 7, W(DEL));
    var t := Norm(c.h, w, r);
    var u := Norm(c.h, w, t);
    var i := c.h.imm(w, u);
    var x := Norm(c.h, w, i);
    var below := s + Enc(c.h, x);
    var v := Sem.Step(c.h, op, Sem.Val(u, w));
    var s0 := VM(p, s + Enc(c.h, r), b, w, 0);
    var s1 := VM(p + 1, s + Enc(c.h, t) + Enc(c.h, t), b, w, 0);
    var s2 := VM(p + 2, s + Enc(c.h, t) + Enc(c.h, i), b, w, 0);
    var s3 := VM(p + 3, below + Enc(c.h, u), b, w, 0);
    var s4 := VM(p + 7, below + Enc(c.h, v.r), b, v.w, 0);
    var s5 := VM(p + 8, below, b, v.w, 0);
    DoDup(c, r, p, s, b, w);
    DoUnary(c, IMM, t, p + 1, s + Enc(c.h, t), b, w);
    DoSwap(c, t, i, p + 2, s, b, w);
    DoStep(c, op, u, p + 3, below, b, w);
    DoDel(c, v.r, p + 7, below, b, v.w);
    ReachesThen(c, s0, s1, s2);
    ReachesThen(c, s0, s2, s3);
    ReachesThen(c, s0, s3, s4);
    ReachesThen(c, s0, s4, s5);
  }

  lemma IncSize(op: BinOp)
    ensures |IncCode(op)| == 4 && |OldCode(op)| == 8
  {
  }

  // Waiting for an answer runs the same instruction again until it is there.
  // One pass of a fetch or update.
  lemma {:induction false} WaitStep(c: Program, fetch: bool, x: Word, s: VM)
    requires Loaded(c.mem, s.p, [W(if fetch then FET else UPD), x]) && s.base < |s.stack| && s.stack[s.base] == 0
    ensures Machine.Step(c, s) == Go(Transfer(c, s, fetch)) && Locals(s) == 0 && Operand(c, s) == x
  {
    hide Opcode, Decode, Transfer;
    var op := if fetch then FET else UPD;
    Loaded2(c.mem, s.p, W(op), x);
    Stepped(c, s, op);
  }

  lemma {:induction false} DoWait(c: Program, fetch: bool, x: Word, s: VM, fuel: nat)
    requires Loaded(c.mem, s.p, [W(if fetch then FET else UPD), x]) && s.base < |s.stack| && s.stack[s.base] == 0
    ensures Yields(c, Sem.Wait(c.h, s.world, fetch, s.cont, x, fuel), s, s.stack, s.p + 2, fuel)
    decreases fuel
  {
    hide Opcode, Loaded, Enc, Reaches, Machine.Step, Locals, Operand;
    WaitStep(c, fetch, x, s);
    var o := c.h.find(s.world, 0, x);
    if o.None? {
      StepReaches(c, s, VM(s.p + 2, s.stack + Enc(c.h, IntReg(0)), s.base, s.world, 0));
    } else {
      var a := c.h.transfer(s.world, fetch, s.cont, o.value);
      if a.1 <= 0 {
        StepReaches(c, s, VM(s.p + 2, s.stack + Enc(c.h, Sem.Truth(a.1 == 0)), s.base, a.0, 0));
      } else {
        var t := s.(world := c.h.wake(a.0), cont := a.1);
        if fuel == 0 {
          LastsNone(c, s);
        } else {
          DoWait(c, fetch, x, t, fuel - 1);
          StepReaches(c, s, t);
          WaitLonger(c, Sem.Wait(c.h, t.world, fetch, t.cont, x, fuel - 1), s, t, s.p + 2, fuel - 1);
        }
      }
    }
  }

  lemma {:induction false} WaitLonger(c: Program, v: Value, s: VM, t: VM, p: nat, fuel: nat)
    requires Machine.Step(c, s) == Go(t) && s.base == t.base && Yields(c, v, t, t.stack, p, fuel)
    ensures Yields(c, v, s, t.stack, p, fuel + 1)
  {
    hide Run, Enc, Reaches, Machine.Step;
    StepReaches(c, s, t);
    match v
    case Val(r, w) => ReachesThen(c, s, t, VM(p, t.stack + Enc(c.h, r), s.base, w, 0));
    case Stuck =>
    case Tired =>
      ReachesSelf(c, s);
      ReachesMoves(c, s, s, t);
      LastsMoves(c, s, t, fuel);
  }

  /* Expressions. */

  lemma {:induction false} EvalRuns(c: Program, m: Sem.Sem, e: Expr, args: seq<Reg>, s: VM, fuel: nat)
    requires Ready(c, m, args, s, CodeE(e))
    ensures Yields(c, Sem.Eval(m, e, args, s.world, fuel), s, s.stack, s.p + |CodeE(e)|, fuel)
    decreases fuel, e, 9
  {
    hide Opcode, Enc, Norm, Reaches, Lasts, Linked, Framed, IncCode, OldCode, TestCode, ChainCode, CodeAnd, CodeOr,
      CodeArgs,
      Sem.Step, Sem.StepAfter, Sem.AluOp, Sem.Assign, Sem.UnaryOp, Sem.Wait, Sem.EvalLogic, Sem.EvalPair, Sem.EvalCall,
      CallCode;
    SameHost(c, m);
    match e
    case Num(n) => DoConst(c, n, LTI, IntReg(n), s.p, s.stack, s.base, s.world);
    case Str(n) => if n > 0 { DoConst(c, n, LTS, StrReg(n), s.p, s.stack, s.base, s.world); }
    case Path(n) => DoConst(c, n, LTP, PtrReg(n), s.p, s.stack, s.base, s.world);
    case Var(x) => FramedBase(c, args, s); DoVar(c, x, s.p, s.stack, s.base, s.world);
    case Field(x, a) => FramedBase(c, args, s); DoField(c, x, a, s.p, s.stack, s.base, s.world);
    case Arg(i) =>
      if 1 <= Int32(i) <= |args| { DoArg(c, i, args, s.p, s.stack, s.base, s.world); }
    case Fetch(x) => FramedBase(c, args, s); DoWait(c, true, x, s, fuel);
    case Update(x) => FramedBase(c, args, s); DoWait(c, false, x, s, fuel);
    case ArgField(i, a) => ArgFieldRuns(c, m, e, args, s, fuel);
    case Call(f, es) =>
      CallParts(f, Count(es));
      CallRuns(c, m, f, es, args, s, fuel);
    case CallField(_, _, _) => FieldRuns(c, m, e, args, s, fuel);
    case Paren(a) => EvalRuns(c, m, a, args, s, fuel);
    case AndE(_, _) => LogicRuns(c, m, e, args, s, fuel);
    case OrE(_, _) => LogicRuns(c, m, e, args, s, fuel);
    case Cond(_, _, _) => CondRuns(c, m, e, args, s, fuel);
    case Bin(_, _, _) => PairRuns(c, m, e, args, s, fuel);
    case XorE(_, _) => PairRuns(c, m, e, args, s, fuel);
    case Store(_, _) => PairRuns(c, m, e, args, s, fuel);
    case StoreOp(_, _, _) => PairRuns(c, m, e, args, s, fuel);
    case Comma(_, _) => PairRuns(c, m, e, args, s, fuel);
    case Minus(_) => MinusRuns(c, m, e, args, s, fuel);
    case _ => UnaryRuns(c, m, e, args, s, fuel);
  }

  lemma {:induction false} ArgFieldRuns(c: Program, m: Sem.Sem, e: Expr, args: seq<Reg>, s: VM, fuel: nat)
    requires e.ArgField? && Ready(c, m, args, s, CodeE(e))
    ensures Yields(c, Sem.Eval(m, e, args, s.world, fuel), s, s.stack, s.p + |CodeE(e)|, fuel)
  {
    hide Loaded, Opcode, Enc, Norm, Reaches, Lasts, Framed, Linked, Sem.Selected;
    SameHost(c, m);
    ReadyPart(c, m, args, s, [W(ARG), e.i], [W(ATR), e.attr], s.world);
    if 1 <= Int32(e.i) <= |args| {
      DoArg(c, e.i, args, s.p, s.stack, s.base, s.world);
    }
    SelectRuns(c, Sem.GetArg(m.h, s.world, args, Int32(e.i)), e.attr, s, s.p + 2, fuel);
  }

  lemma FramedBase(c: Program, args: seq<Reg>, s: VM)
    requires Framed(c, s.stack, s.base, args)
    ensures c.start < s.base < |s.stack| && s.stack[s.base] == 0
  {
  }

  function Tail(e: Expr): Code
    requires e.Not? || e.Neg? || e.PreInc? || e.PreDec? || e.PostInc? || e.PostDec?
  {
    match e
    case Not(_) => [W(NOT)]
    case Neg(_) => [W(NEG)]
    case PreInc(_) => IncCode(Add)
    case PreDec(_) => IncCode(Sub)
    case PostInc(_) => OldCode(Add)
    case PostDec(_) => OldCode(Sub)
  }

  function Applied(h: Host, e: Expr, v: Value): (u: Value)
    requires e.Not? || e.Neg? || e.PreInc? || e.PreDec? || e.PostInc? || e.PostDec?
    requires v.Val?
    ensures u.Val?
  {
    match e
    case Not(_) => Sem.UnaryOp(h, NOT, v)
    case Neg(_) => Sem.UnaryOp(h, NEG, v)
    case PreInc(_) => Sem.Step(h, Add, v)
    case PreDec(_) => Sem.Step(h, Sub, v)
    case PostInc(_) => Sem.StepAfter(h, Add, v)
    case PostDec(_) => Sem.StepAfter(h, Sub, v)
  }

  lemma UnaryMeans(m: Sem.Sem, e: Expr, args: seq<Reg>, w: World, fuel: nat)
    requires e.Not? || e.Neg? || e.PreInc? || e.PreDec? || e.PostInc? || e.PostDec?
    ensures CodeE(e) == CodeE(e.e) + Tail(e)
    ensures var v := Sem.Eval(m, e.e, args, w, fuel);
      Sem.Eval(m, e, args, w, fuel) == if v.Val? then Applied(m.h, e, v) else v
  {
    hide IncCode, OldCode, Opcode, Sem.Step, Sem.StepAfter, Sem.UnaryOp;
  }

  lemma {:induction false} TailRuns(c: Program, e: Expr, v: Value, p: nat, s: seq<Cell>, b: nat)
    requires e.Not? || e.Neg? || e.PreInc? || e.PreDec? || e.PostInc? || e.PostDec?
    requires v.Val? && Loaded(c.mem, p, Tail(e))
    ensures var u := Applied(c.h, e, v);
      Reaches(c, VM(p, s + Enc(c.h, v.r), b, v.w, 0), VM(p + |Tail(e)|, s + Enc(c.h, u.r), b, u.w, 0))
  {
    hide Loaded, Opcode, Enc, Norm, Reaches, IncCode, OldCode, Sem.Step, Sem.StepAfter;
    IncSize(Add);
    IncSize(Sub);
    match e
    case Not(_) => Loaded1(c.mem, p, W(NOT)); DoUnary(c, NOT, v.r, p, s, b, v.w);
    case Neg(_) => Loaded1(c.mem, p, W(NEG)); DoUnary(c, NEG, v.r, p, s, b, v.w);
    case PreInc(_) => DoStep(c, Add, v.r, p, s, b, v.w);
    case PreDec(_) => DoStep(c, Sub, v.r, p, s, b, v.w);
    case PostInc(_) => DoStepAfter(c, Add, v.r, p, s, b, v.w);
    case PostDec(_) => DoStepAfter(c, Sub, v.r, p, s, b, v.w);
  }

  lemma {:induction false} UnaryRuns(c: Program, m: Sem.Sem, e: Expr, args: seq<Reg>, s: VM, fuel: nat)
    requires e.Not? || e.Neg? || e.PreInc? || e.PreDec? || e.PostInc? || e.PostDec?
    requires Ready(c, m, args, s, CodeE(e))
    ensures Yields(c, Sem.Eval(m, e, args, s.world, fuel), s, s.stack, s.p + |CodeE(e)|, fuel)
    decreases fuel, e, 0
  {
    hide Loaded, Opcode, Enc, Norm, Reaches, Lasts, Framed, Linked, CodeE, Sem.Eval, Tail, Applied;
    UnaryMeans(m, e, args, s.world, fuel);
    SameHost(c, m);
    var v := Sem.Eval(m, e.e, args, s.world, fuel);
    LoadedSplit(c.mem, s.p, CodeE(e.e), Tail(e));
    EvalRuns(c, m, e.e, args, s, fuel);
    if v.Val? {
      var p := s.p + |CodeE(e.e)|;
      var u := Applied(c.h, e, v);
      TailRuns(c, e, v, p, s.stack, s.base);
      ReachesThen(c, s, VM(p, s.stack + Enc(c.h, v.r), s.base, v.w, 0),
        VM(p + |Tail(e)|, s.stack + Enc(c.h, u.r), s.base, u.w, 0));
    }
  }

  lemma MinusShape(m: Sem.Sem, e: Expr, args: seq<Reg>, w: World, fuel: nat)
    requires e.Minus?
    ensures CodeE(e) == [W(LD0)] + (CodeE(e.e) + [W(Alu(Sub))])
    ensures Sem.Eval(m, e, args, w, fuel)
      == (var v := Sem.Eval(m, e.e, args, w, fuel); if v.Val? then Sem.AluOp(m.h, v.w, Sub, IntReg(0), v.r) else v)
  {
    hide Opcode;
  }

  lemma {:induction false} MinusRuns(c: Program, m: Sem.Sem, e: Expr, args: seq<Reg>, s: VM, fuel: nat)
    requires e.Minus? && Ready(c, m, args, s, CodeE(e))
    ensures Yields(c, Sem.Eval(m, e, args, s.world, fuel), s, s.stack, s.p + |CodeE(e)|, fuel)
    decreases fuel, e, 0
  {
    hide Loaded, Opcode, Enc, Norm, Reaches, Lasts, Framed, Linked, CodeE, Sem.Eval;
    MinusShape(m, e, args, s.world, fuel);
    LoadedFits(c.mem, s.p, CodeE(e));
    var rest := CodeE(e.e) + [W(Alu(Sub))];
    var zero: Reg := IntReg(0);
    var s1 := VM(s.p + 1, s.stack + Enc(c.h, zero), s.base, s.world, 0);
    ReadyNext(c, m, args, s, [W(LD0)], rest, Enc(c.h, zero), s.world);
    Loaded1(c.mem, s.p, W(LD0));
    DoLoad(c, LD0, s.p, s.stack, s.base, s.world);
    LoadedSplit(c.mem, s1.p, CodeE(e.e), [W(Alu(Sub))]);
    EvalRuns(c, m, e.e, args, s1, fuel);
    var v := Sem.Eval(m, e.e, args, s.world, fuel);
    YieldsThen(c, v, s, s1, s1.stack, s1.p + |CodeE(e.e)|, fuel);
    if v.Val? {
      var p := s1.p + |CodeE(e.e)|;
      var s2 := VM(p, s1.stack + Enc(c.h, v.r), s.base, v.w, 0);
      var u := Sem.AluOp(m.h, v.w, Sub, zero, v.r);
      Loaded1(c.mem, p, W(Alu(Sub)));
      DoAlu(c, Sub, zero, v.r, p, s.stack, s.base, v.w);
      assert Linked(c, m) ==> c.h == m.h by { SameHost(c, m); }
      ReachesThen(c, s, s2, VM(p + 1, s.stack + Enc(c.h, u.r), s.base, u.w, 0));
    }
  }

  lemma SameHost(c: Program, m: Sem.Sem)
    ensures Linked(c, m) ==> c.h == m.h && |c.mem| < ADDRESS_LIMIT
  {
  }

  // Two operands, then code that combines them.
  lemma {:induction false} PairRuns(c: Program, m: Sem.Sem, e: Expr, args: seq<Reg>, s: VM, fuel: nat)
    requires e.Bin? || e.XorE? || e.Store? || e.StoreOp? || e.Comma?
    requires Ready(c, m, args, s, CodeE(e))
    ensures Yields(c, Sem.EvalPair(m, e, args, s.world, fuel), s, s.stack, s.p + |CodeE(e)|, fuel)
    decreases fuel, e, 0
  {
    hide Loaded, Opcode, Enc, Norm, Reaches, Lasts, Framed, Linked, CodeE, Sem.Eval, Sem.EvalPair, Sem.UnaryOp;
    LoadedFits(c.mem, s.p, CodeE(e));
    var mid := Middle(e);
    var rest := mid + (CodeE(e.r) + Ending(e));
    PairShape(m, e, args, s.world, fuel);
    ReadyNext(c, m, args, s, CodeE(e.l), rest, [], s.world);
    EvalRuns(c, m, e.l, args, s, fuel);
    var l := Sem.Eval(m, e.l, args, s.world, fuel);
    if l.Val? {
      var p := s.p + |CodeE(e.l)|;
      var s1 := VM(p, s.stack + Enc(c.h, l.r), s.base, l.w, 0);
      ReadyNext(c, m, args, s, CodeE(e.l), rest, [], l.w);
      assert s.stack + [] == s.stack;
      LoadedSplit(c.mem, p, mid, CodeE(e.r) + Ending(e));
      SameHost(c, m);
      MiddleRuns(c, e, l, p, s.stack, s.base);
      var l' := Left(c.h, e, l);
      var s2 := VM(p + |mid|, Under(c.h, e, l, s.stack), s.base, l'.w, 0);
      ReachesThen(c, s, s1, s2);
      UnderFramed(c, args, e, l, s);
      LoadedSplit(c.mem, s2.p, CodeE(e.r), Ending(e));
      EvalRuns(c, m, e.r, args, s2, fuel);
      var r := Sem.Eval(m, e.r, args, l'.w, fuel);
      YieldsThen(c, r, s, s2, s2.stack, s2.p + |CodeE(e.r)|, fuel);
      if r.Val? {
        var q := s2.p + |CodeE(e.r)|;
        var s3 := VM(q, s2.stack + Enc(c.h, r.r), s.base, r.w, 0);
        EndingRuns(c, e, l, r, q, s.stack, s.base);
        var u := Combined(c.h, e, l, r);
        ReachesThen(c, s, s3, VM(q + |Ending(e)|, s.stack + Enc(c.h, u.r), s.base, u.w, 0));
      }
    }
  }

  function Middle(e: Expr): Code
    requires e.Bin? || e.XorE? || e.Store? || e.StoreOp? || e.Comma?
  {
    if e.XorE? then [W(NOT)] else if e.StoreOp? then [W(DUP)] else if e.Comma? then [W(DEL)] else []
  }

  function Ending(e: Expr): Code
    requires e.Bin? || e.XorE? || e.Store? || e.StoreOp? || e.Comma?
  {
    match e
    case Bin(op, _, _) => [W(Alu(op))]
    case XorE(_, _) => [W(NOT), W(Alu(Ne))]
    case Store(_, _) => [W(STO)]
    case StoreOp(op, _, _) => [W(Alu(op)), W(STO)]
    case Comma(_, _) => []
  }

  // The left operand after the code in the middle, and the stack below the right one.
  function Left(h: Host, e: Expr, l: Value): (v: Value)
    requires l.Val?
    ensures v.Val?
  {
    if e.XorE? then Sem.UnaryOp(h, NOT, l) else l
  }

  function Under(h: Host, e: Expr, l: Value, s: seq<Cell>): seq<Cell>
    requires l.Val?
  {
    if e.StoreOp? then
      var t := Norm(h, l.w, l.r);
      s + Enc(h, t) + Enc(h, t)
    else if e.Comma? then s
    else s + Enc(h, Left(h, e, l).r)
  }

  function Combined(h: Host, e: Expr, l: Value, r: Value): (v: Value)
    requires e.Bin? || e.XorE? || e.Store? || e.StoreOp? || e.Comma?
    requires l.Val? && r.Val?
    ensures v.Val?
  {
    match e
    case Bin(op, _, _) => Sem.AluOp(h, r.w, op, l.r, r.r)
    case XorE(_, _) =>
      var r' := Sem.UnaryOp(h, NOT, r);
      Sem.AluOp(h, r'.w, Ne, Left(h, e, l).r, r'.r)
    case Store(_, _) => Sem.Assign(h, r.w, l.r, r.r)
    case StoreOp(op, _, _) =>
      var t := Norm(h, l.w, l.r);
      var v := Sem.AluOp(h, r.w, op, t, r.r);
      Sem.Assign(h, v.w, t, v.r)
    case Comma(_, _) => r
  }

  lemma PairShape(m: Sem.Sem, e: Expr, args: seq<Reg>, w: World, fuel: nat)
    requires e.Bin? || e.XorE? || e.Store? || e.StoreOp? || e.Comma?
    ensures CodeE(e) == CodeE(e.l) + (Middle(e) + (CodeE(e.r) + Ending(e)))
    ensures var l := Sem.Eval(m, e.l, args, w, fuel);
      Sem.EvalPair(m, e, args, w, fuel) == if !l.Val? then l else
        var r := Sem.Eval(m, e.r, args, Left(m.h, e, l).w, fuel);
        if !r.Val? then r else Combined(m.h, e, l, r)
  {
    hide Opcode, Norm, Sem.Eval, Sem.AluOp, Sem.Assign, Sem.UnaryOp;
    var l, r := CodeE(e.l), CodeE(e.r);
    assert l + (Middle(e) + (r + Ending(e))) == l + Middle(e) + r + Ending(e);
    match e
    case Bin(_, _, _) => assert l + [] == l;
    case Store(_, _) => assert l + [] == l;
    case Comma(_, _) => assert l + Middle(e) + r + [] == l + Middle(e) + r;
    case _ =>
  }

  lemma {:induction false} MiddleRuns(c: Program, e: Expr, l: Value, p: nat, s: seq<Cell>, b: nat)
    requires e.Bin? || e.XorE? || e.Store? || e.StoreOp? || e.Comma?
    requires l.Val? && Loaded(c.mem, p, Middle(e))
    ensures Reaches(c, VM(p, s + Enc(c.h, l.r), b, l.w, 0),
        VM(p + |Middle(e)|, Under(c.h, e, l, s), b, Left(c.h, e, l).w, 0))
  {
    hide Opcode, Enc, Norm, Reaches;
    if e.XorE? {
      Loaded1(c.mem, p, W(NOT));
      DoUnary(c, NOT, l.r, p, s, b, l.w);
    } else if e.StoreOp? {
      Loaded1(c.mem, p, W(DUP));
      DoDup(c, l.r, p, s, b, l.w);
    } else if e.Comma? {
      Loaded1(c.mem, p, W(DEL));
      DoDel(c, l.r, p, s, b, l.w);
    } else {
      ReachesSelf(c, VM(p, s + Enc(c.h, l.r), b, l.w, 0));
    }
  }

  lemma {:induction false} UnderFramed(c: Program, args: seq<Reg>, e: Expr, l: Value, s: VM)
    requires l.Val? && Framed(c, s.stack, s.base, args)
    ensures Framed(c, Under(c.h, e, l, s.stack), s.base, args)
  {
    hide Enc, Norm, Framed, Sem.UnaryOp;
    if e.StoreOp? {
      var t := Norm(c.h, l.w, l.r);
      FramedPush(c, s.stack, s.base, args, Enc(c.h, t));
      FramedPush(c, s.stack + Enc(c.h, t), s.base, args, Enc(c.h, t));
    } else if !e.Comma? {
      FramedPush(c, s.stack, s.base, args, Enc(c.h, Left(c.h, e, l).r));
    }
  }

  lemma {:induction false} EndingRuns(c: Program, e: Expr, l: Value, r: Value, p: nat, s: seq<Cell>, b: nat)
    requires e.Bin? || e.XorE? || e.Store? || e.StoreOp? || e.Comma?
    requires l.Val? && r.Val? && Loaded(c.mem, p, Ending(e))
    ensures var u := Combined(c.h, e, l, r);
      Reaches(c, VM(p, Under(c.h, e, l, s) + Enc(c.h, r.r), b, r.w, 0),
        VM(p + |Ending(e)|, s + Enc(c.h, u.r), b, u.w, 0))
  {
    hide Opcode, Enc, Norm, Reaches;
    var s0 := VM(p, Under(c.h, e, l, s) + Enc(c.h, r.r), b, r.w, 0);
    var u := Combined(c.h, e, l, r);
    var end := VM(p + |Ending(e)|, s + Enc(c.h, u.r), b, u.w, 0);
    match e
    case Bin(op, _, _) =>
      Loaded1(c.mem, p, W(Alu(op)));
      DoAlu(c, op, l.r, r.r, p, s, b, r.w);
    case Store(_, _) =>
      Loaded1(c.mem, p, W(STO));
      DoStore(c, l.r, r.r, p, s, b, r.w);
    case XorE(_, _) =>
      Loaded2(c.mem, p, W(NOT), W(Alu(Ne)));
      var l' := Left(c.h, e, l);
      var r' := Sem.UnaryOp(c.h, NOT, r);
      DoUnary(c, NOT, r.r, p, s + Enc(c.h, l'.r), b, r.w);
      DoAlu(c, Ne, l'.r, r'.r, p + 1, s, b, r'.w);
      ReachesThen(c, s0, VM(p + 1, s + Enc(c.h, l'.r) + Enc(c.h, r'.r), b, r'.w, 0), end);
    case StoreOp(op, _, _) =>
      Loaded2(c.mem, p, W(Alu(op)), W(STO));
      var t := Norm(c.h, l.w, l.r);
      var v := Sem.AluOp(c.h, r.w, op, t, r.r);
      DoAlu(c, op, t, r.r, p, s + Enc(c.h, t), b, r.w);
      DoStore(c, t, v.r, p + 1, s, b, v.w);
      ReachesThen(c, s0, VM(p + 1, s + Enc(c.h, t) + Enc(c.h, v.r), b, v.w, 0), end);
    case Comma(_, _) =>
      ReachesSelf(c, s0);
  }

  // A condition, and the jump that is taken when it is zero (JIZ) or not (JNZ).
  lemma {:induction false} TestRuns(c: Program, m: Sem.Sem, e: Expr, args: seq<Reg>, op: Op, n: int, s: VM, fuel: nat)
    requires op.JIZ? || op.JNZ?
    requires Ready(c, m, args, s, CodeE(e) + [W(op), Rel(n)])
    requires 0 <= s.p + |CodeE(e)| + 2 + n < ADDRESS_LIMIT
    ensures var q := s.p + |CodeE(e)|;
      match Sem.Eval(m, e, args, s.world, fuel)
      case Stuck => true
      case Tired => Lasts(c, s, fuel)
      case Val(r, w) =>
        var go := NonZero(c.h, w, Norm(c.h, w, r)) == op.JNZ?;
        var t := VM(if go then q + 2 + n else q + 2, s.stack, s.base, w, 0);
        Moves(c, s, t) && Reaches(c, s, t)
    decreases fuel, e, 10
  {
    hide Loaded, Opcode, Enc, Norm, Reaches, Moves, Lasts, Framed, Linked, CodeE, Sem.Eval, Rel, NonZero, Machine.Step;
    ReadyNext(c, m, args, s, CodeE(e), [W(op), Rel(n)], [], s.world);
    EvalRuns(c, m, e, args, s, fuel);
    var v := Sem.Eval(m, e, args, s.world, fuel);
    if v.Val? {
      var q := s.p + |CodeE(e)|;
      DoBranch(c, op, n, v.r, q, s.stack, s.base, v.w);
      var go := NonZero(c.h, v.w, Norm(c.h, v.w, v.r)) == op.JNZ?;
      ReachesMoves(c, s, VM(q, s.stack + Enc(c.h, v.r), s.base, v.w, 0),
        VM(if go then q + 2 + n else q + 2, s.stack, s.base, v.w, 0));
    }
  }

  lemma {:induction false} CondRuns(c: Program, m: Sem.Sem, e: Expr, args: seq<Reg>, s: VM, fuel: nat)
    requires e.Cond? && Ready(c, m, args, s, CodeE(e))
    ensures Yields(c, Sem.Eval(m, e, args, s.world, fuel), s, s.stack, s.p + |CodeE(e)|, fuel)
    decreases fuel, e, 1
  {
    hide Loaded, Opcode, Enc, Norm, Reaches, Moves, Lasts, Framed, Linked, CodeE, Sem.Eval, Rel, NonZero, Yields;
    CondMeans(m, e, args, s.world, fuel);
    SameHost(c, m);
    LoadedFits(c.mem, s.p, CodeE(e));
    var tc, fc := CodeE(e.t), CodeE(e.f);
    var jump := [W(JIZ), Rel(|tc| + 2)];
    var rest := tc + ([W(JR), Rel(|fc|)] + fc);
    var q := s.p + |CodeE(e.c)| + 2;
    var v := Sem.Eval(m, e.c, args, s.world, fuel);
    var u := Sem.Eval(m, e, args, s.world, fuel);
    var test := CodeE(e.c) + jump;
    assert CodeE(e.c) + (jump + rest) == test + rest;
    ReadyNext(c, m, args, s, test, rest, [], s.world);
    TestRuns(c, m, e.c, args, JIZ, |tc| + 2, s, fuel);
    if v.Val? {
      var yes := Sem.True(m.h, v);
      var s1 := VM(if yes then q else q + |tc| + 2, s.stack, s.base, v.w, 0);
      NoCode(c.mem, s1.p);
      BranchesRun(c, m, e, args, s1, yes, q, fuel);
      YieldsThen(c, u, s, s1, s.stack, s.p + |CodeE(e)|, fuel);
    } else {
      YieldsFailed(c, v, s, s.stack, s.p + |CodeE(e)|, fuel);
    }
  }

  lemma NoCode(mem: seq<Word>, p: nat)
    ensures p <= |mem| ==> Loaded(mem, p, [])
  {
  }

  lemma YieldsFailed(c: Program, v: Value, s: VM, t: seq<Cell>, p: nat, fuel: nat)
    requires v.Stuck? || (v.Tired? && Lasts(c, s, fuel))
    ensures Yields(c, v, s, t, p, fuel)
  {
  }

  lemma {:induction false} BranchesRun(c: Program, m: Sem.Sem, e: Expr, args: seq<Reg>, s: VM, yes: bool, q: nat,
      fuel: nat)
    requires e.Cond? && Ready(c, m, args, s, [])
    requires Loaded(c.mem, q, CodeE(e.t) + ([W(JR), Rel(|CodeE(e.f)|)] + CodeE(e.f)))
    requires s.p == if yes then q else q + |CodeE(e.t)| + 2
    ensures Yields(c, Sem.Eval(m, if yes then e.t else e.f, args, s.world, fuel), s, s.stack,
        q + |CodeE(e.t)| + 2 + |CodeE(e.f)|, fuel)
    decreases fuel, e, 0
  {
    hide Loaded, Opcode, Enc, Norm, Reaches, Lasts, Framed, Linked, CodeE, Sem.Eval, Rel, NonZero;
    LoadedFits(c.mem, q, CodeE(e.t) + ([W(JR), Rel(|CodeE(e.f)|)] + CodeE(e.f)));
    SameHost(c, m);
    var tc, fc := CodeE(e.t), CodeE(e.f);
    var skip := [W(JR), Rel(|fc|)];
    LoadedSplit(c.mem, q, tc, skip + fc);
    LoadedSplit(c.mem, q + |tc|, skip, fc);
    if yes {
      EvalRuns(c, m, e.t, args, s, fuel);
      var u := Sem.Eval(m, e.t, args, s.world, fuel);
      if u.Val? {
        var t := s.stack + Enc(c.h, u.r);
        DoJump(c, |fc|, q + |tc|, t, s.base, u.w);
        ReachesThen(c, s, VM(q + |tc|, t, s.base, u.w, 0), VM(q + |tc| + 2 + |fc|, t, s.base, u.w, 0));
      }
    } else {
      EvalRuns(c, m, e.f, args, s, fuel);
    }
  }

  lemma CondMeans(m: Sem.Sem, e: Expr, args: seq<Reg>, w: World, fuel: nat)
    requires e.Cond?
    ensures var t, f := CodeE(e.t), CodeE(e.f);
      CodeE(e) == CodeE(e.c) + ([W(JIZ), Rel(|t| + 2)] + (t + ([W(JR), Rel(|f|)] + f)))
    ensures var v := Sem.Eval(m, e.c, args, w, fuel);
      Sem.Eval(m, e, args, w, fuel)
        == if !v.Val? then v else if Sem.True(m.h, v) then Sem.Eval(m, e.t, args, v.w, fuel)
          else Sem.Eval(m, e.f, args, v.w, fuel)
  {
    CondCode(e);
    hide CodeE, Opcode, Rel, Sem.True;
  }

  lemma CondCode(e: Expr)
    requires e.Cond?
    ensures var t, f := CodeE(e.t), CodeE(e.f);
      CodeE(e) == CodeE(e.c) + ([W(JIZ), Rel(|t| + 2)] + (t + ([W(JR), Rel(|f|)] + f)))
  {
    CondTest(e);
    hide CodeE, Opcode, Rel;
    var c, t, f := CodeE(e.c), CodeE(e.t), CodeE(e.f);
    FiveParts(c, [W(JIZ), Rel(|t| + 2)], t, [W(JR), Rel(|f|)], f);
  }

  lemma FiveParts(a: Code, b: Code, c: Code, d: Code, e: Code)
    ensures a + b + c + d + e == a + (b + (c + (d + e)))
    ensures a + b + c + d + e == (a + b) + (c + (d + e))
  {
  }

  lemma CondTest(e: Expr)
    requires e.Cond?
    ensures CodeE(e) == TestCode(CodeE(e.c), CodeE(e.t), CodeE(e.f))
  {
    hide TestCode, Opcode, Rel, CodeAnd, CodeOr, ChainCode, CallCode, CodeArgs;
  }

  /* && and || */

  function ChainJump(e: Expr): Op { if e.OrE? then JNZ else JIZ }

  function ChainOf(e: Expr, d: nat): Code
    requires e.AndE? || e.OrE?
  {
    if e.OrE? then CodeOr(e, d) else CodeAnd(e, d)
  }

  predicate SameChain(e: Expr) { (e.AndE? && e.l.AndE?) || (e.OrE? && e.l.OrE?) }

  lemma ChainShape(e: Expr, d: nat)
    requires e.AndE? || e.OrE?
    ensures var r := CodeE(e.r);
      ChainOf(e, d) == (if SameChain(e) then ChainOf(e.l, 2 + |r| + d)
        else CodeE(e.l)) + ([W(ChainJump(e)), Rel(|r| + d)] + r)
  {
    hide Opcode, Rel, CodeE, CodeOr, CodeAnd;
    if e.OrE? {
      PlacingExprs.OrCode(e, d);
    } else {
      PlacingExprs.AndCode(e, d);
    }
  }

  // A chain leaves early when an operand decides, d words behind its end and
  // with nothing on the stack; otherwise its last operand r is on the stack.
  ghost predicate Chained(c: Program, v: Value, s: VM, or: bool, early: bool, r: Reg, p: nat, d: nat, fuel: nat) {
    match v
    case Stuck => true
    case Tired => Lasts(c, s, fuel)
    case Val(x, w) =>
      if early then x == Sem.Truth(or) && Reaches(c, s, VM(p + d, s.stack, s.base, w, 0))
      else x == Sem.Truth(NonZero(c.h, w, Norm(c.h, w, r))) && Reaches(c, s, VM(p, s.stack + Enc(c.h, r), s.base, w, 0))
  }

  lemma TruthDecides(h: Host, w: World, b: bool)
    ensures NonZero(h, w, Norm(h, w, Sem.Truth(b))) == b
  {
  }

  lemma {:induction false} ChainRuns(c: Program, m: Sem.Sem, e: Expr, args: seq<Reg>, s: VM, d: nat, fuel: nat)
    returns (early: bool, r: Reg)
    requires e.AndE? || e.OrE?
    requires Ready(c, m, args, s, ChainOf(e, d)) && s.p + |ChainOf(e, d)| + d < ADDRESS_LIMIT
    ensures Chained(c, Sem.EvalLogic(m, e, args, s.world, fuel), s, e.OrE?, early, r, s.p + |ChainOf(e, d)|, d, fuel)
    decreases fuel, e, 1
  {
    hide Loaded, Opcode, Enc, Norm, Reaches, Lasts, Framed, Linked, CodeE, Sem.Eval, Rel, NonZero, ChainOf, Ready;
    ChainShape(e, d);
    early, r := true, Sem.ZERO;
    var rc := CodeE(e.r);
    var jump := [W(ChainJump(e)), Rel(|rc| + d)];
    var lc := if SameChain(e) then ChainOf(e.l, 2 + |rc| + d) else CodeE(e.l);
    ReadyNext(c, m, args, s, lc, jump + rc, [], s.world);
    var l := Sem.Eval(m, e.l, args, s.world, fuel);
    var left, x := FirstRuns(c, m, e, args, s, 2 + |rc| + d, fuel);
    ReadyHost(c, m, args, s, lc);
    if l.Val? && !left {
      ReadyNext(c, m, args, s, lc, jump + rc, [], l.w);
      var s1 := VM(s.p + |lc|, s.stack, s.base, l.w, 0);
      early, r := LastRuns(c, m, e, args, s1, x, d, fuel);
      var v := Sem.Eval(m, e.r, args, l.w, fuel);
      var s0 := VM(s.p + |lc|, s.stack + Enc(c.h, x), s.base, l.w, 0);
      if Sem.True(m.h, l) == e.OrE? {
        ReachesThen(c, s, s0, VM(s1.p + 2 + |rc| + d, s.stack, s.base, l.w, 0));
      } else if v.Val? {
        ReachesThen(c, s, s0, VM(s1.p + 2 + |rc|, s.stack + Enc(c.h, v.r), s.base, v.w, 0));
      } else if v.Tired? {
        LastsThen(c, s, s0, fuel);
      }
    }
  }

  lemma ReadyHost(c: Program, m: Sem.Sem, args: seq<Reg>, s: VM, code: Code)
    requires Ready(c, m, args, s, code)
    ensures c.h == m.h && |c.mem| < ADDRESS_LIMIT && s.p + |code| <= |c.mem|
  {
  }

  lemma ReadyLoaded(c: Program, m: Sem.Sem, args: seq<Reg>, s: VM, code: Code)
    requires Ready(c, m, args, s, code)
    ensures Loaded(c.mem, s.p, code)
  {
  }

  // The jump behind the value x, and the last operand.
  lemma {:induction false} LastRuns(c: Program, m: Sem.Sem, e: Expr, args: seq<Reg>, s: VM, x: Reg, d: nat, fuel: nat)
    returns (early: bool, r: Reg)
    requires e.AndE? || e.OrE?
    requires Ready(c, m, args, s, [W(ChainJump(e)), Rel(|CodeE(e.r)| + d)] + CodeE(e.r))
    requires s.p + 2 + |CodeE(e.r)| + d < ADDRESS_LIMIT
    ensures var s0 := VM(s.p, s.stack + Enc(c.h, x), s.base, s.world, 0);
      var p := s.p + 2 + |CodeE(e.r)|;
      var v := Sem.Eval(m, e.r, args, s.world, fuel);
      if NonZero(c.h, s.world, Norm(c.h, s.world, x)) == e.OrE?
      then early && Reaches(c, s0, VM(p + d, s.stack, s.base, s.world, 0))
      else !early && Yields(c, v, s0, s.stack, p, fuel) && (v.Val? ==> r == v.r)
    decreases fuel, e, 0
  {
    hide Loaded, Opcode, Enc, Norm, Reaches, Lasts, Framed, Linked, CodeE, Sem.Eval, Rel, NonZero, Yields, W,
      Machine.Step, Ready;
    var rc := CodeE(e.r);
    var jump := [W(ChainJump(e)), Rel(|rc| + d)];
    early := NonZero(c.h, s.world, Norm(c.h, s.world, x)) == e.OrE?;
    r := Sem.ZERO;
    var s0 := VM(s.p, s.stack + Enc(c.h, x), s.base, s.world, 0);
    ReadyNext(c, m, args, s, jump, rc, [], s.world);
    ReadyLoaded(c, m, args, s, jump);
    DoBranch(c, ChainJump(e), |rc| + d, x, s.p, s.stack, s.base, s.world);
    if !early {
      var s2 := VM(s.p + 2, s.stack, s.base, s.world, 0);
      EvalRuns(c, m, e.r, args, s2, fuel);
      var v := Sem.Eval(m, e.r, args, s.world, fuel);
      YieldsThen(c, v, s0, s2, s.stack, s.p + 2 + |rc|, fuel);
      if v.Val? { r := v.r; }
    }
  }

  // The operands before the last one: they leave early, or decide by the value x.
  lemma {:induction false} FirstRuns(c: Program, m: Sem.Sem, e: Expr, args: seq<Reg>, s: VM, d: nat, fuel: nat)
    returns (early: bool, x: Reg)
    requires e.AndE? || e.OrE?
    requires var lc := if SameChain(e) then ChainOf(e.l, d) else CodeE(e.l);
      Ready(c, m, args, s, lc) && s.p + |lc| + d < ADDRESS_LIMIT
    ensures var lc := if SameChain(e) then ChainOf(e.l, d) else CodeE(e.l);
      var p := s.p + |lc|;
      match Sem.Eval(m, e.l, args, s.world, fuel)
      case Stuck => true
      case Tired => Lasts(c, s, fuel)
      case Val(y, w) =>
        if early then NonZero(c.h, w, Norm(c.h, w, y)) == e.OrE? && Reaches(c, s, VM(p + d, s.stack, s.base, w, 0))
        else
          && NonZero(c.h, w, Norm(c.h, w, y)) == NonZero(c.h, w, Norm(c.h, w, x))
          && Reaches(c, s, VM(p, s.stack + Enc(c.h, x), s.base, w, 0))
    decreases fuel, e, 0
  {
    hide Loaded, Opcode, Enc, Norm, Reaches, Lasts, Framed, Linked, CodeE, Sem.Eval, Sem.EvalLogic, Rel, NonZero,
      ChainOf;
    var l := Sem.Eval(m, e.l, args, s.world, fuel);
    if SameChain(e) {
      early, x := ChainRuns(c, m, e.l, args, s, d, fuel);
      LogicMeans(m, e.l, args, s.world, fuel);
      if l.Val? {
        TruthDecides(c.h, l.w, e.OrE?);
        TruthDecides(c.h, l.w, NonZero(c.h, l.w, Norm(c.h, l.w, x)));
      }
    } else {
      EvalRuns(c, m, e.l, args, s, fuel);
      early, x := false, if l.Val? then l.r else Sem.ZERO;
    }
  }

  lemma LogicMeans(m: Sem.Sem, e: Expr, args: seq<Reg>, w: World, fuel: nat)
    requires e.AndE? || e.OrE?
    ensures Sem.Eval(m, e, args, w, fuel) == Sem.EvalLogic(m, e, args, w, fuel)
    ensures CodeE(e) == ChainOf(e, 5) + if e.OrE? then ChainCode(JNZ, LD0, LD1) else ChainCode(JIZ, LD1, LD0)
  {
    hide Sem.EvalLogic, ChainCode, CodeAnd, CodeOr;
  }

  // Where the parts of the end of a chain stand.
  lemma {:induction false} ChainEndParts(c: Program, jump: Op, all: Op, some: Op, p: nat)
    requires Loaded(c.mem, p, ChainCode(jump, all, some))
    ensures Loaded(c.mem, p, [W(jump), Rel(3)]) && At(c.mem, p + 2) == W(all)
    ensures Loaded(c.mem, p + 3, [W(JR), Rel(1)]) && At(c.mem, p + 5) == W(some)
  {
    hide Loaded, Rel, W;
    assert ChainCode(jump, all, some) == [W(jump), Rel(3)] + ([W(all)] + ([W(JR), Rel(1)] + [W(some)]));
    LoadedSplit(c.mem, p, [W(jump), Rel(3)], [W(all)] + ([W(JR), Rel(1)] + [W(some)]));
    LoadedSplit(c.mem, p + 2, [W(all)], [W(JR), Rel(1)] + [W(some)]);
    LoadedSplit(c.mem, p + 3, [W(JR), Rel(1)], [W(some)]);
    Loaded1(c.mem, p + 2, W(all));
    Loaded1(c.mem, p + 5, W(some));
  }

  // The end of a chain turns the last operand into 0 or 1.
  lemma {:induction false} ChainEndRuns(c: Program, or: bool, early: bool, r: Reg, p: nat, s: seq<Cell>, b: nat,
      w: World)
    requires Loaded(c.mem, p, if or then ChainCode(JNZ, LD0, LD1) else ChainCode(JIZ, LD1, LD0)) &&
        p + 6 < ADDRESS_LIMIT
    ensures var x := if early then Sem.Truth(or) else Sem.Truth(NonZero(c.h, w, Norm(c.h, w, r)));
      Reaches(c, VM(if early then p + 5 else p, if early then s else s + Enc(c.h, r), b, w, 0),
        VM(p + 6, s + Enc(c.h, x), b, w, 0))
  {
    hide Loaded, Opcode, Enc, Norm, Reaches, NonZero, Rel, ChainCode, Machine.Step;
    var jump, all, some := if or then JNZ else JIZ, if or then LD0 else LD1, if or then LD1 else LD0;
    ChainEndParts(c, jump, all, some, p);
    var yes := Sem.Truth(or);
    var no := Sem.Truth(!or);
    DoLoad(c, some, p + 5, s, b, w);
    if !early {
      var s0 := VM(p, s + Enc(c.h, r), b, w, 0);
      DoBranch(c, jump, 3, r, p, s, b, w);
      if NonZero(c.h, w, Norm(c.h, w, r)) == or {
        ReachesThen(c, s0, VM(p + 5, s, b, w, 0), VM(p + 6, s + Enc(c.h, yes), b, w, 0));
      } else {
        DoLoad(c, all, p + 2, s, b, w);
        DoJump(c, 1, p + 3, s + Enc(c.h, no), b, w);
        ReachesThen(c, s0, VM(p + 2, s, b, w, 0), VM(p + 3, s + Enc(c.h, no), b, w, 0));
        ReachesThen(c, s0, VM(p + 3, s + Enc(c.h, no), b, w, 0), VM(p + 6, s + Enc(c.h, no), b, w, 0));
      }
    }
  }

  lemma {:induction false} LogicRuns(c: Program, m: Sem.Sem, e: Expr, args: seq<Reg>, s: VM, fuel: nat)
    requires e.AndE? || e.OrE?
    requires Ready(c, m, args, s, CodeE(e))
    ensures Yields(c, Sem.EvalLogic(m, e, args, s.world, fuel), s, s.stack, s.p + |CodeE(e)|, fuel)
    decreases fuel, e, 2
  {
    hide Loaded, Opcode, Enc, Norm, Reaches, Lasts, Framed, Linked, CodeE, Sem.Eval, Sem.EvalLogic, Rel, NonZero,
      ChainOf, ChainCode;
    LoadedFits(c.mem, s.p, CodeE(e));
    LogicMeans(m, e, args, s.world, fuel);
    SameHost(c, m);
    var end := if e.OrE? then ChainCode(JNZ, LD0, LD1) else ChainCode(JIZ, LD1, LD0);
    ChainCodeSize();
    var code := ChainOf(e, 5);
    var q := s.p + |code|;
    ReadyNext(c, m, args, s, code, end, [], s.world);
    var early, r := ChainRuns(c, m, e, args, s, 5, fuel);
    var v := Sem.EvalLogic(m, e, args, s.world, fuel);
    if v.Val? {
      ChainEndRuns(c, e.OrE?, early, r, q, s.stack, s.base, v.w);
      var s1 := VM(if early then q + 5 else q, if early then s.stack else s.stack + Enc(c.h, r), s.base, v.w, 0);
      ReachesThen(c, s, s1, VM(q + 6, s.stack + Enc(c.h, v.r), s.base, v.w, 0));
    }
  }

  lemma ChainCodeSize()
    ensures |ChainCode(JNZ, LD0, LD1)| == 6 && |ChainCode(JIZ, LD1, LD0)| == 6
  {
  }

  /* Calls. */

  lemma {:induction false} SomeCode(e: Expr)
    ensures |CodeE(e)| > 0
    decreases e
  {
    hide Opcode, Rel, CodeArgs, Count, CodeAnd, CodeOr;
    match e
    case Cond(_, _, _) =>
    case Comma(_, _) =>
    case Paren(a) => SomeCode(a);
    case _ =>
  }

  lemma {:induction false} CountFits(es: Exprs)
    ensures Count(es) <= |CodeArgs(es)|
  {
    hide CodeE;
    if es.MoreExpr? {
      SomeCode(es.e);
      CountFits(es.rest);
    }
  }

  lemma {:induction false} ArgsRun(c: Program, m: Sem.Sem, es: Exprs, args: seq<Reg>, s: VM, fuel: nat)
    requires Ready(c, m, args, s, CodeArgs(es))
    ensures match Sem.EvalArgs(m, es, args, s.world, fuel)
      case StuckV => true
      case TiredV => Lasts(c, s, fuel)
      case Vals(rs, w) =>
        && |rs| == Count(es)
        && Reaches(c, s, VM(s.p + |CodeArgs(es)|, s.stack + EncAll(c.h, rs), s.base, w, 0))
    decreases fuel, es, 0
  {
    hide Opcode, Enc, Norm, Reaches, Lasts, Framed, Linked, CodeE, Sem.Eval, EncAll;
    if es.NoExpr? {
      assert EncAll(c.h, []) == [] by { EncNone(c.h); }
      assert s.stack + [] == s.stack;
      ReachesSelf(c, s);
    } else {
      ReadyNext(c, m, args, s, CodeE(es.e), CodeArgs(es.rest), [], s.world);
      EvalRuns(c, m, es.e, args, s, fuel);
      var v := Sem.Eval(m, es.e, args, s.world, fuel);
      if v.Val? {
        var s1 := VM(s.p + |CodeE(es.e)|, s.stack + Enc(c.h, v.r), s.base, v.w, 0);
        ReadyNext(c, m, args, s, CodeE(es.e), CodeArgs(es.rest), Enc(c.h, v.r), v.w);
        ArgsRun(c, m, es.rest, args, s1, fuel);
        var rest := Sem.EvalArgs(m, es.rest, args, v.w, fuel);
        if rest.Vals? {
          EncAllFirst(c.h, v.r, rest.rs);
          assert s.stack + (Enc(c.h, v.r) + EncAll(c.h, rest.rs)) == s1.stack + EncAll(c.h, rest.rs);
          ReachesThen(c, s, s1, VM(s.p + |CodeArgs(es)|, s1.stack + EncAll(c.h, rest.rs), s.base, rest.w, 0));
        } else if rest.TiredV? {
          LastsThen(c, s, s1, fuel);
        }
      }
    }
  }

  lemma EncNone(h: Host)
    ensures EncAll(h, []) == []
  {
  }

  lemma {:induction false} CallRuns(c: Program, m: Sem.Sem, fn: Word, es: Exprs, args: seq<Reg>, s: VM, fuel: nat)
    requires Ready(c, m, args, s, CodeArgs(es) + CallCode(fn, Count(es)))
    ensures Yields(c, Sem.EvalCall(m, fn, es, args, s.world, fuel), s, s.stack, s.p + |CodeArgs(es)| + 5, fuel)
    decreases fuel, es, 2
  {
    hide Loaded, Opcode, Enc, Norm, Reaches, Lasts, Framed, Linked, CodeE, Sem.EvalArgs, EncAll, CodeArgs, Sem.RunBody,
      Run, CallCode;
    LoadedFits(c.mem, s.p, CodeArgs(es) + CallCode(fn, Count(es)));
    CallParts(fn, Count(es));
    SameHost(c, m);
    var code := CodeArgs(es);
    var n := Count(es);
    ReadyNext(c, m, args, s, code, CallCode(fn, n), [], s.world);
    ArgsRun(c, m, es, args, s, fuel);
    var vs := Sem.EvalArgs(m, es, args, s.world, fuel);
    if vs.Vals? {
      var q := s.p + |code|;
      CountFits(es);
      LoadedSplit(c.mem, q, [W(LDI), n % WORD_LIMIT], [W(JSR), fn] + [W(DEn)]);
      LoadedSplit(c.mem, q + 2, [W(JSR), fn], [W(DEn)]);
      Loaded1(c.mem, q + 4, W(DEn));
      var all := s.stack + EncAll(c.h, vs.rs);
      DoLDI(c, n, q, all, s.base, vs.w);
      var s1 := VM(q, all, s.base, vs.w, 0);
      var s2 := VM(q + 2, all + [n], s.base, vs.w, 0);
      ReachesThen(c, s, s1, s2);
      FramedBase(c, args, s);
      CalleeRuns(c, m, fn, es, vs.rs, vs.w, s, q + 2, fuel);
      YieldsThen(c, Sem.EvalCall(m, fn, es, args, s.world, fuel), s, s2, s.stack, q + 5, fuel);
    }
  }

  lemma CallParts(fn: Word, n: nat)
    ensures CallCode(fn, n) == [W(LDI), n % WORD_LIMIT] + ([W(JSR), fn] + [W(DEn)])
    ensures |CallCode(fn, n)| == 5
  {
    hide Opcode;
  }

  // An attribute of a value that code has yielded.
  lemma {:induction false} SelectRuns(c: Program, v: Value, a: Word, s: VM, p: nat, fuel: nat)
    requires Yields(c, v, s, s.stack, p, fuel) && Loaded(c.mem, p, [W(ATR), a])
    ensures Yields(c, Sem.Selected(c.h, v, a), s, s.stack, p + 2, fuel)
  {
    hide Loaded, Opcode, Enc, Norm, Reaches, Lasts;
    if v.Val? {
      DoSelect(c, a, v.r, p, s.stack, s.base, v.w);
      var u := Sem.Selected(c.h, v, a);
      ReachesThen(c, s, VM(p, s.stack + Enc(c.h, v.r), s.base, v.w, 0),
        VM(p + 2, s.stack + Enc(c.h, u.r), s.base, u.w, 0));
    }
  }

  lemma {:induction false} FieldRuns(c: Program, m: Sem.Sem, e: Expr, args: seq<Reg>, s: VM, fuel: nat)
    requires e.CallField? && Ready(c, m, args, s, CodeE(e))
    ensures Yields(c, Sem.Eval(m, e, args, s.world, fuel), s, s.stack, s.p + |CodeE(e)|, fuel)
    decreases fuel, e, 2
  {
    hide Loaded, Opcode, Enc, Norm, Reaches, Lasts, Framed, Linked, CodeArgs, CallCode, Sem.EvalCall, Sem.Selected;
    var code := CodeArgs(e.args) + CallCode(e.fn, Count(e.args));
    CallParts(e.fn, Count(e.args));
    SameHost(c, m);
    ReadyPart(c, m, args, s, code, [W(ATR), e.attr], s.world);
    CallRuns(c, m, e.fn, e.args, args, s, fuel);
    SelectRuns(c, Sem.EvalCall(m, e.fn, e.args, args, s.world, fuel), e.attr, s, s.p + |code|, fuel);
  }

  // From JSR with the arguments rs and their count on the stack, to behind DEn.
  lemma {:induction false} CalleeRuns(c: Program, m: Sem.Sem, fn: Word, es: Exprs, rs: seq<Reg>, w: World, s: VM,
      p: nat,
      fuel: nat)
    requires Linked(c, m) && c.start < |s.stack|
    requires Loaded(c.mem, p, [W(JSR), fn]) && At(c.mem, p + 2) == W(DEn)
    ensures var v := if fn !in m.funcs then Sem.Val(Sem.ZERO, w)
        else if fuel == 0 then Sem.Tired
        else var u := Sem.RunBody(m, m.funcs[fn], rs, w, fuel - 1);
          if u.Val? then Sem.Val(Norm(m.h, u.w, u.r), u.w) else u;
      Yields(c, v, VM(p, s.stack + EncAll(c.h, rs) + [|rs|], s.base, w, 0), s.stack, p + 3, fuel)
    decreases fuel, es, 1
  {
    hide Opcode, Enc, Reaches, Framed, EncAll, Sem.RunBody, Run, Leave, Machine.Step, CodeH;
    assert LinkedAt(c, m, fn);
    var t := s.stack + EncAll(c.h, rs) + [|rs|];
    var s2 := VM(p, t, s.base, w, 0);
    if fn !in m.funcs {
      DoCallNothing(c, fn, p, t, s.base, w);
      DoDropArgs(c, rs, Sem.ZERO, p + 2, s.stack, s.base, w);
      NormInt(c.h, w, 0);
      ReachesThen(c, s2, VM(p + 2, t + Enc(c.h, Sem.ZERO), s.base, w, 0),
        VM(p + 3, s.stack + Enc(c.h, Sem.ZERO), s.base, w, 0));
    } else if fuel == 0 {
      LastsNone(c, s2);
    } else {
      var body := m.funcs[fn];
      var s3 := VM(c.cells(fn), t + [p + 2, s.base, 0], |t| + 2, w, 0);
      DoCall(c, fn, rs, p, s.stack, s.base, w);
      BodyRuns(c, m, body, rs, s3, fuel - 1);
      var u := Sem.RunBody(m, body, rs, w, fuel - 1);
      if u.Val? {
        var s4 := VM(p + 2, t + Enc(c.h, u.r), s.base, u.w, 0);
        LeaveCall(c, t, p + 2, s.base, 0, u.r, u.w);
        StepReaches(c, s2, s3);
        EndsThen(c, s2, s3, Go(s4));
        EndsIsReaches(c, s2, s4);
        DoDropArgs(c, rs, u.r, p + 2, s.stack, s.base, u.w);
        ReachesThen(c, s2, s4, VM(p + 3, s.stack + Enc(c.h, Norm(c.h, u.w, u.r)), s.base, u.w, 0));
      } else if u.Tired? {
        ReachesSelf(c, s2);
        ReachesMoves(c, s2, s2, s3);
        LastsMoves(c, s2, s3, fuel - 1);
      }
    }
  }

  lemma EndsIsReaches(c: Program, s: VM, t: VM)
    requires Ends(c, s, Go(t))
    ensures Reaches(c, s, t)
  {
  }

  lemma LastsNone(c: Program, s: VM)
    ensures Lasts(c, s, 0)
  {
  }

  // Return from the frame s: what RET does with the result r.
  ghost predicate Leaves(c: Program, s: VM, r: Reg, w: World) {
    Ends(c, s, Leave(c, VM(0, s.stack, s.base, w, 0), r))
  }

  lemma {:induction false} BodyRuns(c: Program, m: Sem.Sem, cs: Cmds, args: seq<Reg>, s: VM, fuel: nat)
    requires Ready(c, m, args, s, CodeH(cs)) && |s.stack| == s.base + 1 && PlacedAll(cs, false)
    ensures match Sem.RunBody(m, cs, args, s.world, fuel)
      case Val(r, w) => Leaves(c, s, r, w)
      case Stuck => true
      case Tired => Lasts(c, s, fuel)
    decreases fuel, cs, 5
  {
    hide Loaded, Opcode, Enc, Norm, Reaches, Lasts, Framed, Linked, CodeCs, Sem.ExecAll, Leave, PlacedAll;
    var tail := [W(LDI), 3, W(LTI), W(RET)];
    ReadyHost(c, m, args, s, CodeH(cs));
    ReadyNext(c, m, args, s, CodeCs(cs, 0, 0), tail, [], s.world);
    LoadedFits(c.mem, s.p + |CodeCs(cs, 0, 0)|, tail);
    CodesSize(cs, 0, 0);
    CmdsRun(c, m, cs, args, s, 0, 0, fuel);
    NoEscapes(m, cs, args, s.world, fuel);
    var o := Sem.ExecAll(m, cs, args, s.world, fuel);
    if o.Normal? {
      var p := s.p + SizeCs(cs);
      ReturnAllowRuns(c, p, s.stack, s.base, o.w);
      var r := c.h.imm(o.w, Norm(c.h, o.w, IntReg(3)));
      EndsThen(c, s, VM(p, s.stack, s.base, o.w, 0), Leave(c, VM(0, s.stack, s.base, o.w, 0), r));
    }
  }

  lemma LeaveBlind(c: Program, p: nat, q: nat, s: seq<Cell>, b: nat, w: World, r: Reg)
    ensures Leave(c, VM(p, s, b, w, 0), r) == Leave(c, VM(q, s, b, w, 0), r)
  {
  }

  lemma {:induction false} ReturnAllowRuns(c: Program, p: nat, s: seq<Cell>, b: nat, w: World)
    requires Loaded(c.mem, p, [W(LDI), 3, W(LTI), W(RET)])
    ensures Leaves(c, VM(p, s, b, w, 0), c.h.imm(w, Norm(c.h, w, IntReg(3))), w)
  {
    hide Loaded, Opcode, Enc, Norm, Reaches, Leave;
    var three: Reg := IntReg(3);
    assert [W(LDI), 3, W(LTI), W(RET)] == [W(LDI), 3, W(LTI)] + [W(RET)];
    LoadedSplit(c.mem, p, [W(LDI), 3, W(LTI)], [W(RET)]);
    Loaded1(c.mem, p + 3, W(RET));
    DoConst(c, 3, LTI, three, p, s, b, w);
    DoReturn(c, three, p + 3, s, b, w);
    LeaveBlind(c, p + 3, 0, s, b, w, c.h.imm(w, Norm(c.h, w, three)));
    EndsThen(c, VM(p, s, b, w, 0), VM(p + 3, s + Enc(c.h, three), b, w, 0),
      Leave(c, VM(0, s, b, w, 0), c.h.imm(w, Norm(c.h, w, three))));
  }

  // break and continue do not leave code in which they are placed inside loops.
  lemma {:induction false} NoEscape(m: Sem.Sem, c: Cmd, args: seq<Reg>, w: World, fuel: nat)
    requires Placed(c, false)
    ensures var o := Sem.Exec(m, c, args, w, fuel); !o.Broke? && !o.Continued?
    decreases c
  {
    hide Sem.Eval, Sem.ExecLoop, Sem.ExecFor;
    match c
    case Block(cs) => NoEscapes(m, cs, args, w, fuel);
    case If(e, t) =>
      var v := Sem.Eval(m, e, args, w, fuel);
      if v.Val? { NoEscape(m, t, args, v.w, fuel); }
    case IfElse(e, t, f) =>
      var v := Sem.Eval(m, e, args, w, fuel);
      if v.Val? {
        NoEscape(m, t, args, v.w, fuel);
        NoEscape(m, f, args, v.w, fuel);
      }
    case For(i, _, _, _) =>
      var v := if i.Some? then Sem.Eval(m, i.value, args, w, fuel) else Sem.Val(Sem.ZERO, w);
      if v.Val? { ForStays(m, c, args, v.w, fuel); }
    case While(_, _) => LoopStays(m, c, args, w, fuel);
    case WhileElse(_, _, _) => LoopStays(m, c, args, w, fuel);
    case DoWhile(_, _, _) => LoopStays(m, c, args, w, fuel);
    case DoWhileElse(_, _, _, _) => LoopStays(m, c, args, w, fuel);
    case _ =>
  }

  lemma {:induction false} NoEscapes(m: Sem.Sem, cs: Cmds, args: seq<Reg>, w: World, fuel: nat)
    requires PlacedAll(cs, false)
    ensures var o := Sem.ExecAll(m, cs, args, w, fuel); !o.Broke? && !o.Continued?
    decreases cs
  {
    hide Sem.Exec;
    if cs.MoreCmd? {
      NoEscape(m, cs.c, args, w, fuel);
      var o := Sem.Exec(m, cs.c, args, w, fuel);
      if o.Normal? { NoEscapes(m, cs.rest, args, o.w, fuel); }
    }
  }

  // A loop ends normally, returns, gets stuck or runs out of fuel.
  lemma {:induction false} LoopStays(m: Sem.Sem, c: Cmd, args: seq<Reg>, w: World, fuel: nat)
    requires Loop(c)
    ensures var o := Sem.ExecLoop(m, c, args, w, fuel); !o.Broke? && !o.Continued?
    ensures var o := Sem.ExecTest(m, c, args, w, fuel); !o.Broke? && !o.Continued?
    decreases fuel, 1
  {
    hide Sem.Eval, Sem.Exec;
    TestStays(m, c, args, w, fuel);
    var o := if c.DoWhile? || c.DoWhileElse? then Sem.Exec(m, c.first, args, w, fuel) else Sem.Normal(w);
    if o.Normal? || o.Continued? { TestStays(m, c, args, o.w, fuel); }
  }

  lemma {:induction false} TestStays(m: Sem.Sem, c: Cmd, args: seq<Reg>, w: World, fuel: nat)
    requires Loop(c)
    ensures var o := Sem.ExecTest(m, c, args, w, fuel); !o.Broke? && !o.Continued?
    decreases fuel, 0
  {
    hide Sem.Eval, Sem.Exec, Sem.ExecLoop;
    var v := Sem.Eval(m, c.e, args, w, fuel);
    if v.Val? && fuel > 0 {
      var go := Sem.True(m.h, v);
      var o := if go then Sem.Exec(m, c.body, args, v.w, fuel)
        else if c.WhileElse? || c.DoWhileElse? then Sem.Exec(m, c.f, args, v.w, fuel)
        else Sem.Normal(v.w);
      if o.Normal? { LoopStays(m, c, args, o.w, fuel - 1); }
      if o.Continued? { LoopStays(m, c, args, o.w, fuel - 1); }
    }
  }

  lemma {:induction false} ForStays(m: Sem.Sem, c: Cmd, args: seq<Reg>, w: World, fuel: nat)
    requires c.For?
    ensures var o := Sem.ExecFor(m, c, args, w, fuel); !o.Broke? && !o.Continued?
    decreases fuel
  {
    hide Sem.Eval, Sem.Exec;
    var v := if c.cond.Some? then Sem.Eval(m, c.cond.value, args, w, fuel) else Sem.Val(Sem.ONE, w);
    if v.Val? {
      var o := Sem.Exec(m, c.body, args, v.w, fuel);
      if o.Normal? || o.Continued? {
        var u := Sem.Eval(m, c.step, args, o.w, fuel);
        if u.Val? && fuel > 0 { ForStays(m, c, args, u.w, fuel - 1); }
      }
    }
  }

  /* Commands: they start and end with the frame's stack as it is. */

  ghost predicate Completes(c: Program, o: Outcome, s: VM, p: nat, brk: int, cont: int, fuel: nat) {
    match o
    case Normal(w) => Reaches(c, s, VM(p, s.stack, s.base, w, 0))
    case Broke(w) => p + brk >= 0 && Reaches(c, s, VM(p + brk, s.stack, s.base, w, 0))
    case Continued(w) => p + cont >= 0 && Reaches(c, s, VM(p + cont, s.stack, s.base, w, 0))
    case Returned(r, w) => Leaves(c, s, r, w)
    case StuckC => true
    case TiredC => Lasts(c, s, fuel)
  }

  lemma {:induction false} CompletesThen(c: Program, o: Outcome, s: VM, s': VM, p: nat, brk: int, cont: int, fuel: nat)
    requires Reaches(c, s, s') && s.stack == s'.stack && s.base == s'.base && Completes(c, o, s', p, brk, cont, fuel)
    ensures Completes(c, o, s, p, brk, cont, fuel)
  {
    hide Reaches, Lasts, Leave, Ends;
    match o
    case Normal(w) => ReachesThen(c, s, s', VM(p, s.stack, s.base, w, 0));
    case Broke(w) => ReachesThen(c, s, s', VM(p + brk, s.stack, s.base, w, 0));
    case Continued(w) => ReachesThen(c, s, s', VM(p + cont, s.stack, s.base, w, 0));
    case Returned(r, w) => EndsThen(c, s, s', Leave(c, VM(0, s.stack, s.base, w, 0), r));
    case StuckC =>
    case TiredC => LastsThen(c, s, s', fuel);
  }

  // An iteration takes at least one step.
  lemma {:induction false} CompletesLonger(c: Program, o: Outcome, s: VM, s': VM, p: nat, brk: int, cont: int,
      fuel: nat)
    requires Moves(c, s, s') && Reaches(c, s, s') && s.stack == s'.stack && s.base == s'.base
    requires Completes(c, o, s', p, brk, cont, fuel)
    ensures Completes(c, o, s, p, brk, cont, fuel + 1)
  {
    hide Reaches, Moves, Lasts, Leaves;
    if o.TiredC? {
      LastsMoves(c, s, s', fuel);
    } else {
      CompletesThen(c, o, s, s', p, brk, cont, fuel);
    }
  }

  // Everything but a normal end is the same seen from further out.
  lemma CompletesOut(c: Program, o: Outcome, s: VM, p: nat, brk: int, cont: int, p': nat, brk': int, cont': int,
      fuel: nat)
    requires Completes(c, o, s, p, brk, cont, fuel) && !o.Normal?
    requires p + brk == p' + brk' && p + cont == p' + cont'
    ensures Completes(c, o, s, p', brk', cont', fuel)
  {
    hide Reaches, Lasts, Leaves;
  }

  lemma CompletesFailed(c: Program, v: Value, s: VM, p: nat, brk: int, cont: int, fuel: nat)
    requires v.Stuck? || (v.Tired? && Lasts(c, s, fuel))
    ensures Completes(c, Sem.Failed(v), s, p, brk, cont, fuel)
  {
  }

  ghost predicate ReadyC(c: Program, m: Sem.Sem, args: seq<Reg>, s: VM, code: Code, brk: int, cont: int) {
    && Ready(c, m, args, s, code) && |s.stack| == s.base + 1
    && 0 <= s.p + |code| + brk < ADDRESS_LIMIT && 0 <= s.p + |code| + cont < ADDRESS_LIMIT
  }

  // A part of the code of a command is ready where it stands.
  lemma {:induction false} ReadyPart(c: Program, m: Sem.Sem, args: seq<Reg>, s: VM, a: Code, b: Code, w: World)
    requires Ready(c, m, args, s, a + b)
    ensures Ready(c, m, args, VM(s.p + |a|, s.stack, s.base, w, 0), b)
    ensures Ready(c, m, args, s, a)
    ensures Loaded(c.mem, s.p + |a|, b) && s.p + |a| + |b| < ADDRESS_LIMIT
  {
    hide Framed;
    ReadyNext(c, m, args, s, a, b, [], w);
  }

  lemma {:induction false} CmdRuns(c: Program, m: Sem.Sem, d: Cmd, args: seq<Reg>, s: VM, brk: int, cont: int,
      fuel: nat)
    requires ReadyC(c, m, args, s, CodeC(d, brk, cont), brk, cont)
    ensures Completes(c, Sem.Exec(m, d, args, s.world, fuel), s, s.p + SizeC(d), brk, cont, fuel)
    decreases fuel, d, 9
  {
    hide ReadyC, Completes, CodeC, SizeC, Sem.Exec;
    match d
    case Eval(e) => EvalCmdRuns(c, m, d, args, s, brk, cont, fuel);
    case Block(_) => BlockRuns(c, m, d, args, s, brk, cont, fuel);
    case If(_, _) => IfRuns(c, m, d, args, s, brk, cont, fuel);
    case IfElse(_, _, _) => IfElseRuns(c, m, d, args, s, brk, cont, fuel);
    case For(_, _, _, _) => ForRuns(c, m, d, args, s, brk, cont, fuel);
    case ReturnE(_) => ReturnRuns(c, m, d, args, s, brk, cont, fuel);
    case While(_, _) => LoopRuns(c, m, d, args, s, brk, cont, fuel);
    case WhileElse(_, _, _) => LoopRuns(c, m, d, args, s, brk, cont, fuel);
    case DoWhile(_, _, _) => LoopRuns(c, m, d, args, s, brk, cont, fuel);
    case DoWhileElse(_, _, _, _) => LoopRuns(c, m, d, args, s, brk, cont, fuel);
    case _ => LeafRuns(c, m, d, args, s, brk, cont, fuel);
  }

  lemma {:induction false} LeafRuns(c: Program, m: Sem.Sem, d: Cmd, args: seq<Reg>, s: VM, brk: int, cont: int,
      fuel: nat)
    requires d.Skip? || d.Break? || d.Continue? || d.Return?
    requires ReadyC(c, m, args, s, CodeC(d, brk, cont), brk, cont)
    ensures Completes(c, Sem.Exec(m, d, args, s.world, fuel), s, s.p + SizeC(d), brk, cont, fuel)
  {
    hide Loaded, Opcode, Enc, Norm, Reaches, Lasts, Framed, Rel, Leaves, Leave;
    match d
    case Skip => ReachesSelf(c, s);
    case Break => JumpRuns(c, m, d, args, s, brk, cont, fuel);
    case Continue => JumpRuns(c, m, d, args, s, brk, cont, fuel);
    case Return => ReturnAllowRuns(c, s.p, s.stack, s.base, s.world);
  }

  lemma {:induction false} JumpRuns(c: Program, m: Sem.Sem, d: Cmd, args: seq<Reg>, s: VM, brk: int, cont: int,
      fuel: nat)
    requires d.Break? || d.Continue?
    requires ReadyC(c, m, args, s, CodeC(d, brk, cont), brk, cont)
    ensures Completes(c, Sem.Exec(m, d, args, s.world, fuel), s, s.p + SizeC(d), brk, cont, fuel)
  {
    hide Loaded, Opcode, Enc, Norm, Reaches, Lasts, Framed, Rel, Leaves, Leave, Sem.Eval, CodeE;
    DoJump(c, if d.Break? then brk else cont, s.p, s.stack, s.base, s.world);
  }

  lemma {:induction false} BlockRuns(c: Program, m: Sem.Sem, d: Cmd, args: seq<Reg>, s: VM, brk: int, cont: int,
      fuel: nat)
    requires d.Block? && ReadyC(c, m, args, s, CodeC(d, brk, cont), brk, cont)
    ensures Completes(c, Sem.Exec(m, d, args, s.world, fuel), s, s.p + SizeC(d), brk, cont, fuel)
    decreases fuel, d, 0
  {
    hide ReadyC, Completes, Sem.ExecAll, CodeCs, SizeCs;
    CmdsRun(c, m, d.cs, args, s, brk, cont, fuel);
  }

  lemma {:induction false} EvalCmdRuns(c: Program, m: Sem.Sem, d: Cmd, args: seq<Reg>, s: VM, brk: int, cont: int,
      fuel: nat)
    requires d.Eval? && ReadyC(c, m, args, s, CodeC(d, brk, cont), brk, cont)
    ensures Completes(c, Sem.Exec(m, d, args, s.world, fuel), s, s.p + SizeC(d), brk, cont, fuel)
    decreases fuel, d, 0
  {
    hide Loaded, Opcode, Enc, Norm, Reaches, Lasts, Framed, Linked, CodeE, Sem.Eval, Leaves;
    var v := Sem.Eval(m, d.e, args, s.world, fuel);
    var p := s.p + |CodeE(d.e)|;
    ReadyNext(c, m, args, s, CodeE(d.e), [W(DEL)], [], s.world);
    Loaded1(c.mem, p, W(DEL));
    EvalRuns(c, m, d.e, args, s, fuel);
    if v.Val? {
      DoDel(c, v.r, p, s.stack, s.base, v.w);
      ReachesThen(c, s, VM(p, s.stack + Enc(c.h, v.r), s.base, v.w, 0), VM(p + 1, s.stack, s.base, v.w, 0));
    }
  }

  lemma {:induction false} ReturnRuns(c: Program, m: Sem.Sem, d: Cmd, args: seq<Reg>, s: VM, brk: int, cont: int,
      fuel: nat)
    requires d.ReturnE? && ReadyC(c, m, args, s, CodeC(d, brk, cont), brk, cont)
    ensures Completes(c, Sem.Exec(m, d, args, s.world, fuel), s, s.p + SizeC(d), brk, cont, fuel)
    decreases fuel, d, 0
  {
    hide Loaded, Opcode, Enc, Norm, Reaches, Lasts, Framed, Linked, CodeE, Sem.Eval, Leave;
    var v := Sem.Eval(m, d.e, args, s.world, fuel);
    var p := s.p + |CodeE(d.e)|;
    ReadyHost(c, m, args, s, CodeC(d, brk, cont));
    ReadyNext(c, m, args, s, CodeE(d.e), [W(RET)], [], s.world);
    Loaded1(c.mem, p, W(RET));
    EvalRuns(c, m, d.e, args, s, fuel);
    if v.Val? {
      var r := c.h.imm(v.w, Norm(c.h, v.w, v.r));
      DoReturn(c, v.r, p, s.stack, s.base, v.w);
      LeaveBlind(c, p, 0, s.stack, s.base, v.w, r);
      EndsThen(c, s, VM(p, s.stack + Enc(c.h, v.r), s.base, v.w, 0), Leave(c, VM(0, s.stack, s.base, v.w, 0), r));
    }
  }

  lemma {:induction false} CmdsRun(c: Program, m: Sem.Sem, cs: Cmds, args: seq<Reg>, s: VM, brk: int, cont: int,
      fuel: nat)
    requires ReadyC(c, m, args, s, CodeCs(cs, brk, cont), brk, cont)
    ensures Completes(c, Sem.ExecAll(m, cs, args, s.world, fuel), s, s.p + SizeCs(cs), brk, cont, fuel)
    decreases fuel, cs, 4
  {
    hide Loaded, Opcode, Enc, Norm, Reaches, Lasts, Framed, Linked, Sem.Exec, CodeC, SizeC, Leaves;
    if cs.NoCmd? {
      ReachesSelf(c, s);
    } else {
      var n := SizeCs(cs.rest);
      var p := s.p + SizeC(cs.c);
      var first := CodeC(cs.c, n + brk, n + cont);
      CodeSize(cs.c, n + brk, n + cont);
      CodesSize(cs.rest, brk, cont);
      ReadyPart(c, m, args, s, first, CodeCs(cs.rest, brk, cont), s.world);
      CmdRuns(c, m, cs.c, args, s, n + brk, n + cont, fuel);
      var o := Sem.Exec(m, cs.c, args, s.world, fuel);
      if o.Normal? {
        var s1 := VM(p, s.stack, s.base, o.w, 0);
        ReadyPart(c, m, args, s, first, CodeCs(cs.rest, brk, cont), o.w);
        CmdsRun(c, m, cs.rest, args, s1, brk, cont, fuel);
        CompletesThen(c, Sem.ExecAll(m, cs.rest, args, o.w, fuel), s, s1, p + n, brk, cont, fuel);
      } else {
        CompletesOut(c, o, s, p, n + brk, n + cont, p + n, brk, cont, fuel);
      }
    }
  }

  lemma {:induction false} IfRuns(c: Program, m: Sem.Sem, d: Cmd, args: seq<Reg>, s: VM, brk: int, cont: int, fuel: nat)
    requires d.If? && ReadyC(c, m, args, s, CodeC(d, brk, cont), brk, cont)
    ensures Completes(c, Sem.Exec(m, d, args, s.world, fuel), s, s.p + SizeC(d), brk, cont, fuel)
    decreases fuel, d, 0
  {
    hide Loaded, Opcode, Enc, Norm, Reaches, Moves, Lasts, Framed, Linked, CodeE, Sem.Eval, Rel, NonZero, Leaves;
    var n := SizeC(d.t);
    var test := CodeE(d.e) + [W(JIZ), Rel(n)];
    var tc := CodeC(d.t, brk, cont);
    CodeSize(d.t, brk, cont);
    ReadyHost(c, m, args, s, CodeC(d, brk, cont));
    ReadyPart(c, m, args, s, test, tc, s.world);
    TestRuns(c, m, d.e, args, JIZ, n, s, fuel);
    var v := Sem.Eval(m, d.e, args, s.world, fuel);
    if !v.Val? {
      CompletesFailed(c, v, s, s.p + SizeC(d), brk, cont, fuel);
    } else if Sem.True(m.h, v) {
      var s1 := VM(s.p + |test|, s.stack, s.base, v.w, 0);
      ReadyPart(c, m, args, s, test, tc, v.w);
      CmdRuns(c, m, d.t, args, s1, brk, cont, fuel);
      CompletesThen(c, Sem.Exec(m, d.t, args, v.w, fuel), s, s1, s.p + SizeC(d), brk, cont, fuel);
    }
  }

  lemma {:induction false} IfElseRuns(c: Program, m: Sem.Sem, d: Cmd, args: seq<Reg>, s: VM, brk: int, cont: int,
      fuel: nat)
    requires d.IfElse? && ReadyC(c, m, args, s, CodeC(d, brk, cont), brk, cont)
    ensures Completes(c, Sem.Exec(m, d, args, s.world, fuel), s, s.p + SizeC(d), brk, cont, fuel)
    decreases fuel, d, 1
  {
    hide Loaded, Opcode, Enc, Norm, Reaches, Moves, Lasts, Framed, Linked, CodeE, CodeC, SizeC, Sem.Eval, Rel, NonZero,
      Leaves, Completes;
    IfElseMeans(m, d, args, s.world, fuel, brk, cont);
    var n, k := SizeC(d.t), SizeC(d.f);
    var test := CodeE(d.e) + [W(JIZ), Rel(n + 2)];
    var rest := CodeC(d.t, 2 + k + brk, 2 + k + cont) + ([W(JR), Rel(k)] + CodeC(d.f, brk, cont));
    ReadyHost(c, m, args, s, CodeC(d, brk, cont));
    ReadyPart(c, m, args, s, test, rest, s.world);
    CodeSize(d.t, 2 + k + brk, 2 + k + cont);
    CodeSize(d.f, brk, cont);
    TestRuns(c, m, d.e, args, JIZ, n + 2, s, fuel);
    var v := Sem.Eval(m, d.e, args, s.world, fuel);
    var end := s.p + SizeC(d);
    if !v.Val? {
      CompletesFailed(c, v, s, end, brk, cont, fuel);
    } else {
      var q := s.p + |test|;
      var yes := Sem.True(m.h, v);
      var s1 := VM(if yes then q else q + n + 2, s.stack, s.base, v.w, 0);
      ReadyPart(c, m, args, s, test, rest, v.w);
      ArmsRun(c, m, d, args, VM(q, s.stack, s.base, v.w, 0), yes, brk, cont, fuel);
      CompletesThen(c, Sem.Exec(m, if yes then d.t else d.f, args, v.w, fuel), s, s1, end, brk, cont, fuel);
    }
  }

  lemma IfElseMeans(m: Sem.Sem, d: Cmd, args: seq<Reg>, w: World, fuel: nat, brk: int, cont: int)
    requires d.IfElse?
    ensures var n, k := SizeC(d.t), SizeC(d.f);
      CodeC(d, brk, cont) == (CodeE(d.e) + [W(JIZ), Rel(n + 2)])
        + (CodeC(d.t, 2 + k + brk, 2 + k + cont) + ([W(JR), Rel(k)] + CodeC(d.f, brk, cont)))
    ensures SizeC(d) == |CodeE(d.e)| + 2 + SizeC(d.t) + 2 + SizeC(d.f)
    ensures var v := Sem.Eval(m, d.e, args, w, fuel);
      Sem.Exec(m, d, args, w, fuel) == if !v.Val? then Sem.Failed(v)
        else Sem.Exec(m, if Sem.True(m.h, v) then d.t else d.f, args, v.w, fuel)
  {
    IfElseCode(d, brk, cont);
    hide Opcode, CodeE, CodeC, Rel, Sem.Eval, Sem.True;
  }

  lemma IfElseCode(d: Cmd, brk: int, cont: int)
    requires d.IfElse?
    ensures var n, k := SizeC(d.t), SizeC(d.f);
      CodeC(d, brk, cont) == (CodeE(d.e) + [W(JIZ), Rel(n + 2)])
        + (CodeC(d.t, 2 + k + brk, 2 + k + cont) + ([W(JR), Rel(k)] + CodeC(d.f, brk, cont)))
  {
    hide Opcode, CodeE, Rel;
    var k := SizeC(d.f);
    var t, f := CodeC(d.t, 2 + k + brk, 2 + k + cont), CodeC(d.f, brk, cont);
    CodeSize(d.t, 2 + k + brk, 2 + k + cont);
    CodeSize(d.f, brk, cont);
    FiveParts(CodeE(d.e), [W(JIZ), Rel(|t| + 2)], t, [W(JR), Rel(|f|)], f);
  }

  // The branches of an if-else, from behind the test.
  lemma {:induction false} ArmsRun(c: Program, m: Sem.Sem, d: Cmd, args: seq<Reg>, s: VM, yes: bool, brk: int,
      cont: int, fuel: nat)
    requires d.IfElse?
    requires var k := SizeC(d.f);
      ReadyC(c, m, args, s, CodeC(d.t, 2 + k + brk, 2 + k + cont) + ([W(JR), Rel(k)] + CodeC(d.f, brk, cont)), brk,
        cont)
    ensures var n, k := SizeC(d.t), SizeC(d.f);
      Completes(c, Sem.Exec(m, if yes then d.t else d.f, args, s.world, fuel),
        VM(if yes then s.p else s.p + n + 2, s.stack, s.base, s.world, 0), s.p + n + 2 + k, brk, cont, fuel)
    decreases fuel, d, 0
  {
    hide Loaded, Opcode, Enc, Norm, Reaches, Moves, Lasts, Framed, Linked, CodeC, SizeC, Sem.Exec, Rel, Leaves,
      Completes;
    var n, k := SizeC(d.t), SizeC(d.f);
    var tc, fc := CodeC(d.t, 2 + k + brk, 2 + k + cont), CodeC(d.f, brk, cont);
    var skip := [W(JR), Rel(k)];
    CodeSize(d.t, 2 + k + brk, 2 + k + cont);
    CodeSize(d.f, brk, cont);
    ReadyPart(c, m, args, s, tc, skip + fc, s.world);
    var s1 := VM(s.p + n, s.stack, s.base, s.world, 0);
    ReadyPart(c, m, args, s1, skip, fc, s.world);
    LoadedSplit(c.mem, s1.p, skip, fc);
    if yes {
      CmdRuns(c, m, d.t, args, s, 2 + k + brk, 2 + k + cont, fuel);
      OverElse(c, Sem.Exec(m, d.t, args, s.world, fuel), s, n, k, brk, cont, fuel);
    } else {
      CmdRuns(c, m, d.f, args, VM(s.p + n + 2, s.stack, s.base, s.world, 0), brk, cont, fuel);
    }
  }

  // Behind the first branch the second one is jumped over.
  lemma {:induction false} OverElse(c: Program, o: Outcome, s: VM, n: nat, k: nat, brk: int, cont: int, fuel: nat)
    requires Completes(c, o, s, s.p + n, 2 + k + brk, 2 + k + cont, fuel)
    requires Loaded(c.mem, s.p + n, [W(JR), Rel(k)]) && s.p + n + 2 + k < ADDRESS_LIMIT
    ensures Completes(c, o, s, s.p + n + 2 + k, brk, cont, fuel)
  {
    hide Loaded, Opcode, Reaches, Lasts, Rel, Leaves;
    if o.Normal? {
      JumpOver(c, s, o.w, n, k);
    } else {
      hide Completes;
      CompletesOut(c, o, s, s.p + n, 2 + k + brk, 2 + k + cont, s.p + n + 2 + k, brk, cont, fuel);
    }
  }

  lemma {:induction false} JumpOver(c: Program, s: VM, w: World, n: nat, k: nat)
    requires Reaches(c, s, VM(s.p + n, s.stack, s.base, w, 0))
    requires Loaded(c.mem, s.p + n, [W(JR), Rel(k)]) && s.p + n + 2 + k < ADDRESS_LIMIT
    ensures Reaches(c, s, VM(s.p + n + 2 + k, s.stack, s.base, w, 0))
  {
    hide Loaded, Opcode, Reaches, Rel, Machine.Step;
    DoJump(c, k, s.p + n, s.stack, s.base, w);
    ReachesThen(c, s, VM(s.p + n, s.stack, s.base, w, 0), VM(s.p + n + 2 + k, s.stack, s.base, w, 0));
  }

  /* while and do. */

  function LoopFirst(d: Cmd): Code
    requires Loop(d)
  {
    CodeC(First(d), SizeLoop(|CodeE(d.e)|, SizeC(d.body)) + SizeC(Else(d)), 0)
  }

  function LoopTest(d: Cmd): Code
    requires Loop(d)
  {
    CodeE(d.e) + [W(JIZ), Rel(SizeC(d.body) + 2)]
  }

  function LoopBody(d: Cmd): Code
    requires Loop(d)
  {
    CodeC(d.body, 2 + SizeC(Else(d)), -(SizeC(d.body) + 2 + |CodeE(d.e)|))
  }

  // The jump back to the start.
  function LoopBack(d: Cmd): Code
    requires Loop(d)
  {
    [W(JR), Rel(-(SizeC(First(d)) + |CodeE(d.e)| + 2 + SizeC(d.body) + 2))]
  }

  function LoopElse(d: Cmd): Code
    requires Loop(d)
  {
    CodeC(Else(d), 0, -(SizeC(Else(d)) + SizeLoop(|CodeE(d.e)|, SizeC(d.body))))
  }

  // What stands behind the test.
  function LoopRest(d: Cmd): Code
    requires Loop(d)
  {
    LoopBody(d) + (LoopBack(d) + LoopElse(d))
  }

  function LoopLength(d: Cmd): nat
    requires Loop(d)
  {
    LoopSize(First(d), d.e, d.body, Else(d))
  }

  lemma LoopSizes(d: Cmd)
    requires Loop(d)
    ensures |LoopFirst(d)| == SizeC(First(d)) && |LoopTest(d)| == |CodeE(d.e)| + 2
    ensures |LoopBody(d)| == SizeC(d.body) && |LoopElse(d)| == SizeC(Else(d)) && |LoopBack(d)| == 2
    ensures |LoopRest(d)| == SizeC(d.body) + 2 + SizeC(Else(d))
  {
    hide W, Rel, CodeE, CodeC, SizeC, First, Else;
    CodeSize(First(d), SizeLoop(|CodeE(d.e)|, SizeC(d.body)) + SizeC(Else(d)), 0);
    CodeSize(d.body, 2 + SizeC(Else(d)), -(SizeC(d.body) + 2 + |CodeE(d.e)|));
    CodeSize(Else(d), 0, -(SizeC(Else(d)) + SizeLoop(|CodeE(d.e)|, SizeC(d.body))));
  }

  lemma LoopIs(d: Cmd, brk: int, cont: int)
    requires Loop(d)
    ensures CodeC(d, brk, cont) == LoopFirst(d) + (LoopTest(d) + LoopRest(d))
    ensures |LoopFirst(d)| == SizeC(First(d)) && |LoopTest(d)| == |CodeE(d.e)| + 2
    ensures |LoopBody(d)| == SizeC(d.body) && |LoopElse(d)| == SizeC(Else(d)) && |LoopBack(d)| == 2
    ensures |LoopRest(d)| == SizeC(d.body) + 2 + SizeC(Else(d))
    ensures SizeC(d) == LoopLength(d)
  {
    hide W, Rel, CodeE, CodeC, SizeC, First, Else, LoopCode, LoopFirst, LoopBody, LoopElse, LoopWords;
    LoopWordsOf(d, brk, cont);
    LoopSizes(d);
    LoopWordsAre(d);
    LoopCodeIs(LoopFirst(d), CodeE(d.e), LoopBody(d), LoopElse(d));
  }

  lemma LoopWordsOf(d: Cmd, brk: int, cont: int)
    requires Loop(d)
    ensures CodeC(d, brk, cont) == LoopWords(First(d), d.e, d.body, Else(d))
    ensures SizeC(d) == LoopLength(d)
  {
    hide W, Rel, CodeE, CodeC, SizeC, LoopWords;
    LoopShape(d, Lists.Nil, brk, cont);
  }

  lemma LoopWordsAre(d: Cmd)
    requires Loop(d)
    ensures LoopWords(First(d), d.e, d.body, Else(d)) == LoopCode(LoopFirst(d), CodeE(d.e), LoopBody(d), LoopElse(d))
  {
    hide CodeE, CodeC, SizeC, First, Else, LoopCode, SizeLoop;
  }

  lemma LoopCodeIs(a: Code, e: Code, b: Code, f: Code)
    ensures LoopCode(a, e, b, f)
         == a + ((e + [W(JIZ), Rel(|b| + 2)]) + (b + ([W(JR), Rel(-(|a| + |e| + 2 + |b| + 2))] + f)))
  {
  }

  lemma LoopMeans(m: Sem.Sem, d: Cmd, args: seq<Reg>, w: World, fuel: nat)
    requires Loop(d)
    ensures var o := Sem.Exec(m, First(d), args, w, fuel);
      Sem.ExecLoop(m, d, args, w, fuel) == if o.Broke? then Sem.Normal(o.w)
        else if o.Normal? || o.Continued? then Sem.ExecTest(m, d, args, o.w, fuel) else o
    ensures Sem.Exec(m, d, args, w, fuel) == Sem.ExecLoop(m, d, args, w, fuel)
    ensures var v := Sem.Eval(m, d.e, args, w, fuel);
      Sem.ExecTest(m, d, args, w, fuel) == if !v.Val? then Sem.Failed(v) else
        After(m, d, args, Sem.Exec(m, if Sem.True(m.h, v) then d.body else Else(d), args, v.w, fuel), Sem.True(m.h, v),
          fuel)
  {
    hide Sem.Eval, Sem.True;
    assert forall w': World :: Sem.Exec(m, Skip, args, w', fuel) == Sem.Normal(w');
  }

  // What follows the body (go) or the else part of a loop.
  function After(m: Sem.Sem, d: Cmd, args: seq<Reg>, o: Outcome, go: bool, fuel: nat): Outcome
    requires Loop(d)
  {
    if o.Broke? || (o.Normal? && !go) then Sem.Normal(o.w)
    else if !o.Normal? && !o.Continued? then o
    else if fuel == 0 then Sem.TiredC
    else if o.Normal? then Sem.ExecLoop(m, d, args, o.w, fuel - 1)
    else Sem.ExecTest(m, d, args, o.w, fuel - 1)
  }

  ghost predicate LoopReady(c: Program, m: Sem.Sem, d: Cmd, args: seq<Reg>, s: VM) {
    && Loop(d) && Ready(c, m, args, s, LoopFirst(d) + (LoopTest(d) + LoopRest(d)))
    && |s.stack| == s.base + 1
  }

  lemma {:induction false} LoopRuns(c: Program, m: Sem.Sem, d: Cmd, args: seq<Reg>, s: VM, brk: int, cont: int,
      fuel: nat)
    requires Loop(d) && ReadyC(c, m, args, s, CodeC(d, brk, cont), brk, cont)
    ensures Completes(c, Sem.Exec(m, d, args, s.world, fuel), s, s.p + SizeC(d), brk, cont, fuel)
    decreases fuel, d, 8
  {
    hide Loaded, Opcode, Reaches, Lasts, Framed, Linked, CodeC, SizeC, Sem.Exec, Sem.ExecLoop, LoopFirst, LoopTest,
      LoopRest, Leaves;
    LoopIs(d, brk, cont);
    LoopMeans(m, d, args, s.world, fuel);
    LoopStays(m, d, args, s.world, fuel);
    FromStart(c, m, d, args, s, fuel);
  }

  // The loop from its first command.
  lemma {:induction false} FromStart(c: Program, m: Sem.Sem, d: Cmd, args: seq<Reg>, s: VM, fuel: nat)
    requires LoopReady(c, m, d, args, s)
    ensures Completes(c, Sem.ExecLoop(m, d, args, s.world, fuel), s, s.p + LoopLength(d), 0, 0, fuel)
    decreases fuel, d, 7
  {
    hide Loaded, Opcode, Reaches, Lasts, Framed, Linked, CodeC, SizeC, CodeE, Sem.Exec, Sem.ExecLoop, Sem.ExecTest,
      LoopTest, LoopRest, Leaves;
    LoopIs(d, 0, 0);
    LoopMeans(m, d, args, s.world, fuel);
    var n := SizeLoop(|CodeE(d.e)|, SizeC(d.body)) + SizeC(Else(d));
    var p := s.p + SizeC(First(d));
    ReadyHost(c, m, args, s, LoopFirst(d) + (LoopTest(d) + LoopRest(d)));
    ReadyPart(c, m, args, s, LoopFirst(d), LoopTest(d) + LoopRest(d), s.world);
    assert Completes(c, Sem.Exec(m, First(d), args, s.world, fuel), s, p, n, 0, fuel) by {
      if First(d).Skip? {
        SkipRuns(c, m, args, s, n, fuel);
      } else {
        CmdRuns(c, m, d.first, args, s, n, 0, fuel);
      }
    }
    var o := Sem.Exec(m, First(d), args, s.world, fuel);
    if o.Normal? || o.Continued? {
      FromTest(c, m, d, args, s, o.w, fuel);
      CompletesThen(c, Sem.ExecTest(m, d, args, o.w, fuel), s, VM(p, s.stack, s.base, o.w, 0), s.p + LoopLength(d), 0,
        0, fuel);
    }
  }

  lemma SkipRuns(c: Program, m: Sem.Sem, args: seq<Reg>, s: VM, n: int, fuel: nat)
    requires s.cont == 0
    ensures Completes(c, Sem.Exec(m, Skip, args, s.world, fuel), s, s.p + SizeC(Skip), n, 0, fuel)
  {
    ReachesSelf(c, s);
  }

  // The loop that starts in s, from its test.
  lemma {:induction false} FromTest(c: Program, m: Sem.Sem, d: Cmd, args: seq<Reg>, s: VM, w: World, fuel: nat)
    requires LoopReady(c, m, d, args, s)
    ensures Completes(c, Sem.ExecTest(m, d, args, w, fuel), VM(s.p + SizeC(First(d)), s.stack, s.base, w, 0),
        s.p + LoopLength(d), 0, 0, fuel)
    decreases fuel, d, 6
  {
    hide Loaded, Opcode, Reaches, Moves, Lasts, Framed, Linked, CodeC, SizeC, CodeE, Rel, NonZero, Sem.Eval, Sem.Exec,
      Sem.ExecLoop, Sem.ExecTest,
      LoopFirst, LoopRest, Leaves, After, Completes;
    LoopIs(d, 0, 0);
    LoopMeans(m, d, args, w, fuel);
    var p := s.p + SizeC(First(d));
    var s1 := VM(p, s.stack, s.base, w, 0);
    var end := s.p + LoopLength(d);
    var n := SizeC(d.body) + 2;
    ReadyHost(c, m, args, s, LoopFirst(d) + (LoopTest(d) + LoopRest(d)));
    ReadyPart(c, m, args, s, LoopFirst(d), LoopTest(d) + LoopRest(d), w);
    ReadyPart(c, m, args, s1, LoopTest(d), LoopRest(d), w);
    TestRuns(c, m, d.e, args, JIZ, n, s1, fuel);
    var v := Sem.Eval(m, d.e, args, w, fuel);
    if !v.Val? {
      CompletesFailed(c, v, s1, end, 0, 0, fuel);
    } else {
      var go := Sem.True(m.h, v);
      var q := p + |CodeE(d.e)| + 2;
      var s2 := VM(if go then q else q + n, s.stack, s.base, v.w, 0);
      PartRuns(c, m, d, args, s, v.w, go, fuel);
      var o := Sem.Exec(m, if go then d.body else Else(d), args, v.w, fuel);
      AfterRuns(c, m, d, args, s, o, s1, s2, go, fuel);
    }
  }

  // Where the parts behind the test stand.
  lemma {:induction false} LoopParts(c: Program, m: Sem.Sem, d: Cmd, args: seq<Reg>, s: VM, w: World)
    requires LoopReady(c, m, d, args, s)
    ensures var q := s.p + SizeC(First(d)) + |CodeE(d.e)| + 2;
      var b := SizeC(d.body);
      && Ready(c, m, args, VM(q, s.stack, s.base, w, 0), LoopBody(d))
      && Loaded(c.mem, q + b, LoopBack(d))
      && Ready(c, m, args, VM(q + b + 2, s.stack, s.base, w, 0), LoopElse(d))
      && q + b + 2 + SizeC(Else(d)) < ADDRESS_LIMIT
  {
    hide Loaded, W, Framed, Linked, CodeC, SizeC, CodeE, Rel, LoopFirst, LoopTest, LoopBody, LoopElse, LoopBack, Ready,
      First, Else;
    LoopIs(d, 0, 0);
    var p := s.p + SizeC(First(d));
    var q := p + |CodeE(d.e)| + 2;
    var b := SizeC(d.body);
    ReadyPart(c, m, args, s, LoopFirst(d), LoopTest(d) + LoopRest(d), w);
    ReadyPart(c, m, args, VM(p, s.stack, s.base, w, 0), LoopTest(d), LoopRest(d), w);
    ReadyPart(c, m, args, VM(q, s.stack, s.base, w, 0), LoopBody(d), LoopBack(d) + LoopElse(d), w);
    ReadyPart(c, m, args, VM(q + b, s.stack, s.base, w, 0), LoopBack(d), LoopElse(d), w);
    ReadyLoaded(c, m, args, VM(q + b, s.stack, s.base, w, 0), LoopBack(d));
  }

  // The body (go) or the else part, from behind the test; break leads behind
  // the loop and continue to the test.
  lemma {:induction false} PartRuns(c: Program, m: Sem.Sem, d: Cmd, args: seq<Reg>, s: VM, w: World, go: bool,
      fuel: nat)
    requires LoopReady(c, m, d, args, s)
    ensures var q := s.p + SizeC(First(d)) + |CodeE(d.e)| + 2;
      var b, f := SizeC(d.body), SizeC(Else(d));
      var k := b + 2 + |CodeE(d.e)|;
      var o := Sem.Exec(m, if go then d.body else Else(d), args, w, fuel);
      Completes(c, o, VM(if go then q else q + b + 2, s.stack, s.base, w, 0), if go then q + b else q + b + 2 + f,
        if go then 2 + f else 0, if go then -k else -(f + k + 2), fuel)
    decreases fuel, d, 0
  {
    hide Loaded, Opcode, Reaches, Lasts, CodeC, SizeC, CodeE, Rel, Sem.Exec, Leaves, Ready, LoopRest, LoopBack,
      Completes;
    LoopSizes(d);
    LoopParts(c, m, d, args, s, w);
    var q := s.p + SizeC(First(d)) + |CodeE(d.e)| + 2;
    var b, f := SizeC(d.body), SizeC(Else(d));
    if go {
      CmdRuns(c, m, d.body, args, VM(q, s.stack, s.base, w, 0), 2 + f, -(b + 2 + |CodeE(d.e)|), fuel);
    } else {
      var s3 := VM(q + b + 2, s.stack, s.base, w, 0);
      var back := -(f + SizeLoop(|CodeE(d.e)|, b));
      if Else(d).Skip? {
        ElseSkipRuns(c, m, args, s3, back, fuel);
      } else {
        CmdRuns(c, m, d.f, args, s3, 0, back, fuel);
      }
    }
  }

  lemma ElseSkipRuns(c: Program, m: Sem.Sem, args: seq<Reg>, s: VM, cont: int, fuel: nat)
    requires s.cont == 0
    ensures Completes(c, Sem.Exec(m, Skip, args, s.world, fuel), s, s.p + SizeC(Skip), 0, cont, fuel)
  {
    ReachesSelf(c, s);
  }

  // The jump back to the start of the loop.
  lemma {:induction false} BackRuns(c: Program, m: Sem.Sem, d: Cmd, args: seq<Reg>, s: VM, w: World)
    requires LoopReady(c, m, d, args, s)
    ensures var q := s.p + SizeC(First(d)) + |CodeE(d.e)| + 2 + SizeC(d.body);
      Reaches(c, VM(q, s.stack, s.base, w, 0), VM(s.p, s.stack, s.base, w, 0))
  {
    hide Loaded, Opcode, Reaches, CodeC, SizeC, CodeE, Rel, LoopBody, LoopElse, Ready, Machine.Step;
    LoopParts(c, m, d, args, s, w);
    var q := s.p + SizeC(First(d)) + |CodeE(d.e)| + 2 + SizeC(d.body);
    DoJump(c, -(SizeC(First(d)) + |CodeE(d.e)| + 2 + SizeC(d.body) + 2), q, s.stack, s.base, w);
  }

  // One iteration is over with outcome o: s1 is the test, s2 behind it.
  lemma {:induction false} AfterRuns(c: Program, m: Sem.Sem, d: Cmd, args: seq<Reg>, s: VM, o: Outcome, s1: VM, s2: VM,
      go: bool, fuel: nat)
    requires LoopReady(c, m, d, args, s)
    requires s1.p == s.p + SizeC(First(d)) && s1.stack == s2.stack == s.stack && s1.base == s2.base == s.base
    requires Moves(c, s1, s2) && Reaches(c, s1, s2)
    requires var q := s1.p + |CodeE(d.e)| + 2;
      var b, f := SizeC(d.body), SizeC(Else(d));
      var k := b + 2 + |CodeE(d.e)|;
      Completes(c, o, s2, if go then q + b else q + b + 2 + f, if go then 2 + f else 0, if go then -k
        else -(f + k + 2), fuel)
    ensures Completes(c, After(m, d, args, o, go, fuel), s1, s.p + LoopLength(d), 0, 0, fuel)
    decreases fuel, d, 5
  {
    hide Loaded, Opcode, Reaches, Moves, Lasts, Framed, Linked, Ready, CodeC, SizeC, CodeE, Rel, Sem.Exec,
      Sem.ExecLoop, Sem.ExecTest,
      LoopFirst, LoopRest, LoopTest, Leaves;
    LoopIs(d, 0, 0);
    var end := s.p + LoopLength(d);
    if o.Broke? || (o.Normal? && !go) {
      ReachesThen(c, s1, s2, VM(end, s.stack, s.base, o.w, 0));
    } else if o.Returned? || o.TiredC? {
      CompletesThen(c, o, s1, s2, end, 0, 0, fuel);
    } else if o.Normal? || o.Continued? {
      if fuel == 0 {
        LastsNone(c, s1);
      } else if o.Normal? {
        var s4 := VM(s.p, s.stack, s.base, o.w, 0);
        BackRuns(c, m, d, args, s, o.w);
        ReachesThen(c, s2, VM(s1.p + |CodeE(d.e)| + 2 + SizeC(d.body), s.stack, s.base, o.w, 0), s4);
        MovesThen(c, s1, s2, s4);
        LoopReadyAgain(c, m, d, args, s, o.w);
        FromStart(c, m, d, args, s4, fuel - 1);
        CompletesLonger(c, Sem.ExecLoop(m, d, args, o.w, fuel - 1), s1, s4, end, 0, 0, fuel - 1);
      } else {
        var s4 := VM(s1.p, s.stack, s.base, o.w, 0);
        MovesThen(c, s1, s2, s4);
        FromTest(c, m, d, args, s, o.w, fuel - 1);
        CompletesLonger(c, Sem.ExecTest(m, d, args, o.w, fuel - 1), s1, s4, end, 0, 0, fuel - 1);
      }
    }
  }

  lemma LoopReadyAgain(c: Program, m: Sem.Sem, d: Cmd, args: seq<Reg>, s: VM, w: World)
    requires LoopReady(c, m, d, args, s)
    ensures LoopReady(c, m, d, args, VM(s.p, s.stack, s.base, w, 0))
  {
  }

  /* for */

  function StepCode(d: Cmd): Code
    requires d.For?
  {
    CodeE(d.step) + [W(DEL)]
  }

  function ForTest(d: Cmd): Code
    requires d.For?
  {
    CodeCond(d.cond, 2 + |StepCode(d)| + 2 + SizeC(d.body) + 2)
  }

  // From the jump to the body on.
  function ForRest(d: Cmd): Code
    requires d.For?
  {
    var n, k := SizeC(d.body), |StepCode(d)|;
    [W(JR), Rel(k + 2)] + (StepCode(d) + ([W(JR), Rel(-(k + 4 + |ForTest(d)|))]
      + (CodeC(d.body, 2, -(n + 2 + k)) + [W(JR), Rel(-(n + k + 4))])))
  }

  function ForLength(d: Cmd): nat
    requires d.For?
  {
    |ForTest(d)| + 2 + |StepCode(d)| + 2 + SizeC(d.body) + 2
  }

  lemma ForIs(d: Cmd, brk: int, cont: int)
    requires d.For?
    ensures CodeC(d, brk, cont) == CodeInit(d.init) + (ForTest(d) + ForRest(d))
    ensures SizeC(d) == |CodeInit(d.init)| + ForLength(d)
    ensures |ForRest(d)| == ForLength(d) - |ForTest(d)|
  {
    hide Opcode, Rel, CodeE, CodeC, SizeC, CodeInit, CodeCond;
    var n := SizeC(d.body);
    ForShape(d, brk, cont);
    CodeSize(d.body, 2, -(n + 2 + |StepCode(d)|));
    CondSize(d.cond, 0, 2 + |StepCode(d)| + 2 + n + 2);
    ForCodeIs(CodeInit(d.init), ForTest(d), StepCode(d), CodeC(d.body, 2, -(n + 2 + |StepCode(d)|)));
  }

  lemma CondSize(c: Lists.Option<Expr>, n: int, n': int)
    ensures |CodeCond(c, n)| == |CodeCond(c, n')|
  {
  }

  lemma ForCodeIs(i: Code, e: Code, s: Code, b: Code)
    ensures ForCode(i, e, s, b)
         == i + (e + ([W(JR), Rel(|s| + 2)] + (s + ([W(JR),
           Rel(-(|s| + 4 + |e|))] + (b + [W(JR), Rel(-(|b| + |s| + 4))])))))
  {
  }

  ghost predicate ForReady(c: Program, m: Sem.Sem, d: Cmd, args: seq<Reg>, s: VM) {
    && d.For? && Ready(c, m, args, s, ForTest(d) + ForRest(d)) && |s.stack| == s.base + 1
  }

  lemma {:induction false} ForRuns(c: Program, m: Sem.Sem, d: Cmd, args: seq<Reg>, s: VM, brk: int, cont: int,
      fuel: nat)
    requires d.For? && ReadyC(c, m, args, s, CodeC(d, brk, cont), brk, cont)
    ensures Completes(c, Sem.Exec(m, d, args, s.world, fuel), s, s.p + SizeC(d), brk, cont, fuel)
    decreases fuel, d, 8
  {
    hide Loaded, Opcode, Enc, Norm, Reaches, Lasts, Framed, Linked, CodeC, SizeC, CodeE, Sem.Eval, Sem.ExecFor,
      ForTest, ForRest, Leaves;
    ForIs(d, brk, cont);
    var rest := ForTest(d) + ForRest(d);
    ReadyPart(c, m, args, s, CodeInit(d.init), rest, s.world);
    var p := s.p + |CodeInit(d.init)|;
    var v := if d.init.Some? then Sem.Eval(m, d.init.value, args, s.world, fuel) else Sem.Val(Sem.ZERO, s.world);
    if d.init.Some? {
      ReadyNext(c, m, args, s, CodeE(d.init.value), [W(DEL)], [], s.world);
      Loaded1(c.mem, p - 1, W(DEL));
      EvalRuns(c, m, d.init.value, args, s, fuel);
      if v.Val? {
        DoDel(c, v.r, p - 1, s.stack, s.base, v.w);
        ReachesThen(c, s, VM(p - 1, s.stack + Enc(c.h, v.r), s.base, v.w, 0), VM(p, s.stack, s.base, v.w, 0));
      }
    } else {
      ReachesSelf(c, s);
    }
    if v.Val? {
      var s1 := VM(p, s.stack, s.base, v.w, 0);
      ReadyPart(c, m, args, s, CodeInit(d.init), rest, v.w);
      ForStays(m, d, args, v.w, fuel);
      FromForTest(c, m, d, args, s1, fuel);
      CompletesThen(c, Sem.ExecFor(m, d, args, v.w, fuel), s, s1, s.p + SizeC(d), 0, 0, fuel);
    }
  }

  // The test of a for and the jump to its body, or behind the loop.
  lemma {:induction false} ForTestRuns(c: Program, m: Sem.Sem, d: Cmd, args: seq<Reg>, s: VM, fuel: nat)
    requires ForReady(c, m, d, args, s)
    ensures var v := if d.cond.Some? then Sem.Eval(m, d.cond.value, args, s.world, fuel) else Sem.Val(Sem.ONE, s.world);
      match v
      case Stuck => true
      case Tired => Lasts(c, s, fuel)
      case Val(_, w) =>
        var go := d.cond.Some? ==> Sem.True(m.h, v);
        var body := s.p + |ForTest(d)| + 2 + |StepCode(d)| + 2;
        if go then Moves(c, s, VM(body, s.stack, s.base, w, 0)) && Reaches(c, s, VM(body, s.stack, s.base, w, 0))
        else Reaches(c, s, VM(s.p + ForLength(d), s.stack, s.base, w, 0))
    decreases fuel, d, 0
  {
    hide Loaded, Opcode, Enc, Norm, Reaches, Moves, Lasts, Framed, Linked, CodeC, SizeC, CodeE, Sem.Eval, Rel, NonZero,
      Machine.Step, StepCode;
    ForIs(d, 0, 0);
    ReadyHost(c, m, args, s, ForTest(d) + ForRest(d));
    ReadyPart(c, m, args, s, ForTest(d), ForRest(d), s.world);
    var n, k := SizeC(d.body), |StepCode(d)|;
    var j := s.p + |ForTest(d)|;
    var rest := StepCode(d) + ([W(JR), Rel(-(k + 4 + |ForTest(d)|))] + (CodeC(d.body, 2, -(n + 2 + k)) + [W(JR),
      Rel(-(n + k + 4))]));
    LoadedSplit(c.mem, j, [W(JR), Rel(k + 2)], rest);
    if d.cond.Some? {
      TestRuns(c, m, d.cond.value, args, JIZ, 2 + k + 2 + n + 2, s, fuel);
      var v := Sem.Eval(m, d.cond.value, args, s.world, fuel);
      if v.Val? && Sem.True(m.h, v) {
        DoJump(c, k + 2, j, s.stack, s.base, v.w);
        ReachesMoves(c, s, VM(j, s.stack, s.base, v.w, 0), VM(j + 4 + k, s.stack, s.base, v.w, 0));
      }
    } else {
      DoJump(c, k + 2, j, s.stack, s.base, s.world);
      ReachesSelf(c, s);
      ReachesMoves(c, s, s, VM(j + 4 + k, s.stack, s.base, s.world, 0));
    }
  }

  // Where the parts of a for stand.
  lemma {:induction false} ForParts(c: Program, m: Sem.Sem, d: Cmd, args: seq<Reg>, s: VM, w: World)
    requires ForReady(c, m, d, args, s)
    ensures var n, k := SizeC(d.body), |StepCode(d)|;
      var t := s.p + |ForTest(d)| + 2;
      var b := t + k + 2;
      && Ready(c, m, args, VM(t, s.stack, s.base, w, 0), StepCode(d))
      && Loaded(c.mem, t + k, [W(JR), Rel(-(k + 4 + |ForTest(d)|))])
      && Ready(c, m, args, VM(b, s.stack, s.base, w, 0), CodeC(d.body, 2, -(n + 2 + k)))
      && Loaded(c.mem, b + n, [W(JR), Rel(-(n + k + 4))])
      && b + n + 2 < ADDRESS_LIMIT
  {
    hide Loaded, W, Framed, Linked, CodeC, SizeC, Rel, StepCode, ForTest, Ready;
    var n, k := SizeC(d.body), |StepCode(d)|;
    var j := s.p + |ForTest(d)|;
    var bc, again := CodeC(d.body, 2, -(n + 2 + k)), [W(JR), Rel(-(n + k + 4))];
    var back := [W(JR), Rel(-(k + 4 + |ForTest(d)|))];
    CodeSize(d.body, 2, -(n + 2 + k));
    ReadyPart(c, m, args, s, ForTest(d), ForRest(d), w);
    ReadyPart(c, m, args, VM(j, s.stack, s.base, w, 0), [W(JR), Rel(k + 2)], StepCode(d) + (back + (bc + again)), w);
    ReadyPart(c, m, args, VM(j + 2, s.stack, s.base, w, 0), StepCode(d), back + (bc + again), w);
    ReadyPart(c, m, args, VM(j + 2 + k, s.stack, s.base, w, 0), back, bc + again, w);
    ReadyPart(c, m, args, VM(j + 4 + k, s.stack, s.base, w, 0), bc, again, w);
    ReadyLoaded(c, m, args, VM(j + 2 + k, s.stack, s.base, w, 0), back);
  }

  // The body of a for up to its step, or out of the loop.
  lemma {:induction false} ForBodyRuns(c: Program, m: Sem.Sem, d: Cmd, args: seq<Reg>, s: VM, w: World, fuel: nat)
    requires ForReady(c, m, d, args, s)
    ensures var t := s.p + |ForTest(d)| + 2;
      var s1 := VM(t + |StepCode(d)| + 2, s.stack, s.base, w, 0);
      var o := Sem.Exec(m, d.body, args, w, fuel);
      if o.Normal? || o.Continued? then Reaches(c, s1, VM(t, s.stack, s.base, o.w, 0))
      else Completes(c, if o.Broke? then Sem.Normal(o.w) else o, s1, s.p + ForLength(d), 0, 0, fuel)
    decreases fuel, d, 0
  {
    hide Loaded, W, Reaches, Lasts, Ready, CodeC, SizeC, Sem.Exec, Rel, StepCode, ForTest, ForRest, Leaves,
      Machine.Step;
    ForParts(c, m, d, args, s, w);
    var n, k := SizeC(d.body), |StepCode(d)|;
    var t := s.p + |ForTest(d)| + 2;
    var s1 := VM(t + k + 2, s.stack, s.base, w, 0);
    CodeSize(d.body, 2, -(n + 2 + k));
    CmdRuns(c, m, d.body, args, s1, 2, -(n + 2 + k), fuel);
    var o := Sem.Exec(m, d.body, args, w, fuel);
    if o.Normal? {
      DoJump(c, -(n + k + 4), s1.p + n, s.stack, s.base, o.w);
      ReachesThen(c, s1, VM(s1.p + n, s.stack, s.base, o.w, 0), VM(t, s.stack, s.base, o.w, 0));
    }
  }

  // The step of a for and the jump back to its test.
  lemma {:induction false} ForStepRuns(c: Program, m: Sem.Sem, d: Cmd, args: seq<Reg>, s: VM, w: World, fuel: nat)
    requires ForReady(c, m, d, args, s)
    ensures var s1 := VM(s.p + |ForTest(d)| + 2, s.stack, s.base, w, 0);
      match Sem.Eval(m, d.step, args, w, fuel)
      case Stuck => true
      case Tired => Lasts(c, s1, fuel)
      case Val(_, w') => Reaches(c, s1, VM(s.p, s.stack, s.base, w', 0))
    decreases fuel, d, 0
  {
    hide Loaded, Opcode, Enc, Norm, Reaches, Lasts, CodeC, SizeC, CodeE, Sem.Eval, Rel, ForTest, ForRest, Ready,
      Machine.Step;
    ForParts(c, m, d, args, s, w);
    var k := |StepCode(d)|;
    var t := s.p + |ForTest(d)| + 2;
    var s1 := VM(t, s.stack, s.base, w, 0);
    ReadyPart(c, m, args, s1, CodeE(d.step), [W(DEL)], w);
    Loaded1(c.mem, t + k - 1, W(DEL));
    EvalRuns(c, m, d.step, args, s1, fuel);
    var v := Sem.Eval(m, d.step, args, w, fuel);
    if v.Val? {
      DoDel(c, v.r, t + k - 1, s.stack, s.base, v.w);
      DoJump(c, -(k + 4 + |ForTest(d)|), t + k, s.stack, s.base, v.w);
      ReachesThen(c, s1, VM(t + k - 1, s.stack + Enc(c.h, v.r), s.base, v.w, 0), VM(t + k, s.stack, s.base, v.w, 0));
      ReachesThen(c, s1, VM(t + k, s.stack, s.base, v.w, 0), VM(s.p, s.stack, s.base, v.w, 0));
    }
  }

  lemma {:induction false} FromForTest(c: Program, m: Sem.Sem, d: Cmd, args: seq<Reg>, s: VM, fuel: nat)
    requires ForReady(c, m, d, args, s)
    ensures Completes(c, Sem.ExecFor(m, d, args, s.world, fuel), s, s.p + ForLength(d), 0, 0, fuel)
    decreases fuel, d, 6
  {
    hide Loaded, Opcode, Reaches, Moves, Lasts, Framed, Linked, Ready, CodeC, SizeC, CodeE, Sem.Eval, Sem.Exec,
      NonZero, Norm, ForTest, ForRest, StepCode, ForLength, Leaves;
    var end := s.p + ForLength(d);
    ForTestRuns(c, m, d, args, s, fuel);
    var v := if d.cond.Some? then Sem.Eval(m, d.cond.value, args, s.world, fuel) else Sem.Val(Sem.ONE, s.world);
    if v.Val? && (d.cond.Some? ==> Sem.True(m.h, v)) {
      var t := s.p + |ForTest(d)| + 2;
      var s1 := VM(t + |StepCode(d)| + 2, s.stack, s.base, v.w, 0);
      ForBodyRuns(c, m, d, args, s, v.w, fuel);
      var o := Sem.Exec(m, d.body, args, v.w, fuel);
      if o.Normal? || o.Continued? {
        var s2 := VM(t, s.stack, s.base, o.w, 0);
        MovesThen(c, s, s1, s2);
        ForStepRuns(c, m, d, args, s, o.w, fuel);
        var u := Sem.Eval(m, d.step, args, o.w, fuel);
        if u.Val? {
          var s3 := VM(s.p, s.stack, s.base, u.w, 0);
          MovesThen(c, s, s2, s3);
          if fuel > 0 {
            ForReadyAgain(c, m, d, args, s, u.w);
            FromForTest(c, m, d, args, s3, fuel - 1);
            CompletesLonger(c, Sem.ExecFor(m, d, args, u.w, fuel - 1), s, s3, end, 0, 0, fuel - 1);
          } else {
            LastsNone(c, s);
          }
        } else if u.Tired? {
          LastsThen(c, s, s2, fuel);
        }
      } else {
        CompletesThen(c, if o.Broke? then Sem.Normal(o.w) else o, s, s1, end, 0, 0, fuel);
      }
    }
  }

  lemma ForReadyAgain(c: Program, m: Sem.Sem, d: Cmd, args: seq<Reg>, s: VM, w: World)
    requires ForReady(c, m, d, args, s)
    ensures ForReady(c, m, d, args, VM(s.p, s.stack, s.base, w, 0))
  {
  }
}
