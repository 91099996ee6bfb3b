/** The meaning of handlers: evaluation of the tree, with no code, no stack and
    no labels. Fuel bounds loop iterations, calls and waiting for answers. */
module Semantics {
  import opened Lists
  import opened Words
  import opened Registers
  import opened Source

  // The functions that are defined, by the cell they are called through.
  datatype Sem = Sem(h: Host, funcs: map<Word, Cmds>)

  // Stuck: an argument that does not exist is read.
  datatype Value = Val(r: Reg, w: World) | Stuck | Tired

  datatype Values = Vals(rs: seq<Reg>, w: World) | StuckV | TiredV

  datatype Outcome = Normal(w: World) | Broke(w: World) | Continued(w: World) | Returned(r: Reg,
    w: World) | StuckC | TiredC

  const ZERO: Reg := IntReg(0)
  const ONE: Reg := IntReg(1)

  function Truth(b: bool): Reg { if b then ONE else ZERO }

  predicate True(h: Host, v: Value)
    requires v.Val?
  {
    NonZero(h, v.w, Norm(h, v.w, v.r))
  }

  function AluOp(h: Host, w: World, op: BinOp, l: Reg, r: Reg): (v: Value)
    ensures v.Val?
  {
    var p := h.alu(w, op, Norm(h, w, l), Norm(h, w, r));
    Val(p.1, p.0)
  }

  // The value of an assignment is the register assigned to.
  function Assign(h: Host, w: World, l: Reg, r: Reg): (v: Value)
    ensures v.Val?
  {
    var target := Norm(h, w, l);
    Val(target, h.sto(w, target, Norm(h, w, r)))
  }

  // ! is r_not of the operand; ~ is r_neg of its integer value.
  function UnaryOp(h: Host, op: Op, v: Value): (u: Value)
    requires v.Val? && (op.NOT? || op.NEG?)
    ensures u.Val?
  {
    var r := Norm(h, v.w, v.r);
    var p := if op.NOT? then h.not(v.w, r) else h.neg(v.w, h.imm(v.w, r));
    Val(p.1, p.0)
  }

  // v op= 1
  function Step(h: Host, op: BinOp, v: Value): (u: Value)
    requires v.Val?
    ensures u.Val?
  {
    var target := Norm(h, v.w, v.r);
    var sum := AluOp(h, v.w, op, target, ONE);
    Assign(h, sum.w, target, sum.r)
  }

  // The value before v op= 1.
  function StepAfter(h: Host, op: BinOp, v: Value): (u: Value)
    requires v.Val?
    ensures u.Val?
  {
    var target := Norm(h, v.w, v.r);
    var before := Norm(h, v.w, h.imm(v.w, Norm(h, v.w, target)));
    Val(before, Step(h, op, Val(Norm(h, v.w, target), v.w)).w)
  }

  function Wait(h: Host, w: World, fetch: bool, cont: nat, name: Word, fuel: nat): Value
    decreases fuel
  {
    var o := h.find(w, 0, name);
    if o.None? then Val(ZERO, w) else
    var p := h.transfer(w, fetch, cont, o.value);
    if p.1 <= 0 then Val(Truth(p.1 == 0), p.0)
    else if fuel == 0 then Tired
    else Wait(h, h.wake(p.0), fetch, p.1, name, fuel - 1)
  }

  function GetArg(h: Host, w: World, args: seq<Reg>, i: int): Value {
    if 1 <= i <= |args| then Val(h.imm(w, Norm(h, w, args[i - 1])), w) else Stuck
  }

  // $i takes the lower half of the word; from 2 to the 31 on it is negative.
  function ArgNumber(i: Word): nat {
    var n := i % 0x1_0000_0000;
    if n < 0x8000_0000 then n else 0
  }

  // An attribute of a value.
  function Selected(h: Host, v: Value, a: Word): Value {
    if !v.Val? then v
    else
      var r := Norm(h, v.w, v.r);
      Val(if r.ObjReg? && r.o > 0 then h.attrOf(v.w, r.o, a) else ZERO, v.w)
  }

  function Eval(s: Sem, e: Expr, args: seq<Reg>, w: World, fuel: nat): Value
    decreases fuel, e, 1
  {
    match e
    case Num(n) => Val(IntReg(n), w)
    case Str(n) => if n == 0 then Stuck else Val(StrReg(n), w)
    case Path(n) => Val(PtrReg(n), w)
    case Var(x) => Val(s.h.load(w, 0, x, None), w)
    case Field(x, a) => Val(s.h.load(w, 0, x, Some(a)), w)
    case Arg(i) => GetArg(s.h, w, args, ArgNumber(i))
    case ArgField(i, a) => Selected(s.h, GetArg(s.h, w, args, ArgNumber(i)), a)
    case Fetch(x) => Wait(s.h, w, true, 0, x, fuel)
    case Update(x) => Wait(s.h, w, false, 0, x, fuel)
    case Call(f, actual) => EvalCall(s, f, actual, args, w, fuel)
    case CallField(f, actual, a) => Selected(s.h, EvalCall(s, f, actual, args, w, fuel), a)
    case Paren(a) => Eval(s, a, args, w, fuel)
    case Not(a) =>
      var v := Eval(s, a, args, w, fuel);
      if v.Val? then UnaryOp(s.h, NOT, v) else v
    case Neg(a) =>
      var v := Eval(s, a, args, w, fuel);
      if v.Val? then UnaryOp(s.h, NEG, v) else v
    case Minus(a) =>
      var v := Eval(s, a, args, w, fuel);
      if v.Val? then AluOp(s.h, v.w, Sub, ZERO, v.r) else v
    case PreInc(a) =>
      var v := Eval(s, a, args, w, fuel);
      if v.Val? then Step(s.h, Add, v) else v
    case PreDec(a) =>
      var v := Eval(s, a, args, w, fuel);
      if v.Val? then Step(s.h, Sub, v) else v
    case PostInc(a) =>
      var v := Eval(s, a, args, w, fuel);
      if v.Val? then StepAfter(s.h, Add, v) else v
    case PostDec(a) =>
      var v := Eval(s, a, args, w, fuel);
      if v.Val? then StepAfter(s.h, Sub, v) else v
    case AndE(_, _) => EvalLogic(s, e, args, w, fuel)
    case OrE(_, _) => EvalLogic(s, e, args, w, fuel)
    case Cond(c, t, f) =>
      var v := Eval(s, c, args, w, fuel);
      if !v.Val? then v
      else if True(s.h, v) then Eval(s, t, args, v.w, fuel)
      else Eval(s, f, args, v.w, fuel)
    case _ => EvalPair(s, e, args, w, fuel)
  }

  // && and || stop at the first operand that decides.
  function EvalLogic(s: Sem, e: Expr, args: seq<Reg>, w: World, fuel: nat): Value
    requires e.AndE? || e.OrE?
    decreases fuel, e, 0
  {
    var l := Eval(s, e.l, args, w, fuel);
    if !l.Val? then l
    else if True(s.h, l) == e.OrE? then Val(Truth(e.OrE?), l.w)
    else
      var r := Eval(s, e.r, args, l.w, fuel);
      if r.Val? then Val(Truth(True(s.h, r)), r.w) else r
  }

  // Operators that evaluate both operands, the left one first.
  function EvalPair(s: Sem, e: Expr, args: seq<Reg>, w: World, fuel: nat): Value
    requires e.Bin? || e.XorE? || e.Store? || e.StoreOp? || e.Comma?
    decreases fuel, e, 0
  {
    var l := Eval(s, e.l, args, w, fuel);
    if !l.Val? then l else
    var l' := if e.XorE? then UnaryOp(s.h, NOT, l) else l;
    var r := Eval(s, e.r, args, l'.w, fuel);
    if !r.Val? then r else
    match e
    case Bin(op, _, _) => AluOp(s.h, r.w, op, l'.r, r.r)
    case XorE(_, _) => var r' := UnaryOp(s.h, NOT, r); AluOp(s.h, r'.w, Ne, l'.r, r'.r)
    case Store(_, _) => Assign(s.h, r.w, l'.r, r.r)
    case StoreOp(op, _, _) =>
      // The left operand is copied before the right one is evaluated.
      var target := Norm(s.h, l.w, l.r);
      var v := AluOp(s.h, r.w, op, target, r.r);
      Assign(s.h, v.w, target, v.r)
    case Comma(_, _) => r
  }

  // The arguments are evaluated from left to right. A function that is declared
  // but not defined yields 0.
  function EvalCall(s: Sem, fn: Word, actual: Exprs, args: seq<Reg>, w: World, fuel: nat): Value
    decreases fuel, actual, 1
  {
    match EvalArgs(s, actual, args, w, fuel)
    case StuckV => Stuck
    case TiredV => Tired
    case Vals(rs, w1) =>
      if fn !in s.funcs then Val(ZERO, w1)
      else if fuel == 0 then Tired
      else
        var v := RunBody(s, s.funcs[fn], rs, w1, fuel - 1);
        if v.Val? then Val(Norm(s.h, v.w, v.r), v.w) else v
  }

  function EvalArgs(s: Sem, es: Exprs, args: seq<Reg>, w: World, fuel: nat): Values
    decreases fuel, es, 0
  {
    match es
    case NoExpr => Vals([], w)
    case MoreExpr(e, rest) =>
      match Eval(s, e, args, w, fuel)
      case Stuck => StuckV
      case Tired => TiredV
      case Val(r, w1) =>
        match EvalArgs(s, rest, args, w1, fuel)
        case StuckV => StuckV
        case TiredV => TiredV
        case Vals(rs, w2) => Vals([r] + rs, w2)
  }

  // A function or handler: 3 (RESULT_ALLOW) if it ends without return.
  function RunBody(s: Sem, cs: Cmds, args: seq<Reg>, w: World, fuel: nat): Value
    decreases fuel, cs, 5
  {
    match ExecAll(s, cs, args, w, fuel)
    case Normal(w1) => Val(s.h.imm(w1, Norm(s.h, w1, IntReg(3))), w1)
    case Returned(r, w1) => Val(r, w1)
    case TiredC => Tired
    case _ => Stuck
  }

  function Finish(s: Sem, v: Value): Outcome {
    match v
    case Val(r, w) => Returned(s.h.imm(w, Norm(s.h, w, r)), w)
    case Stuck => StuckC
    case Tired => TiredC
  }

  function Failed(v: Value): Outcome
    requires !v.Val?
  {
    if v.Stuck? then StuckC else TiredC
  }

  function Exec(s: Sem, c: Cmd, args: seq<Reg>, w: World, fuel: nat): Outcome
    decreases fuel, c, 3
  {
    match c
    case Skip => Normal(w)
    case Eval(e) =>
      var v := Eval(s, e, args, w, fuel);
      if v.Val? then Normal(v.w) else Failed(v)
    case Block(cs) => ExecAll(s, cs, args, w, fuel)
    case If(e, t) =>
      var v := Eval(s, e, args, w, fuel);
      if !v.Val? then Failed(v)
      else if True(s.h, v) then Exec(s, t, args, v.w, fuel)
      else Normal(v.w)
    case IfElse(e, t, f) =>
      var v := Eval(s, e, args, w, fuel);
      if !v.Val? then Failed(v)
      else if True(s.h, v) then Exec(s, t, args, v.w, fuel)
      else Exec(s, f, args, v.w, fuel)
    case For(i, _, _, _) =>
      var v := if i.Some? then Eval(s, i.value, args, w, fuel) else Val(ZERO, w);
      if v.Val? then ExecFor(s, c, args, v.w, fuel) else Failed(v)
    case Break => Broke(w)
    case Continue => Continued(w)
    case Return => Returned(s.h.imm(w, Norm(s.h, w, IntReg(3))), w)
    case ReturnE(e) => Finish(s, Eval(s, e, args, w, fuel))
    case _ => ExecLoop(s, c, args, w, fuel)
  }

  function ExecAll(s: Sem, cs: Cmds, args: seq<Reg>, w: World, fuel: nat): Outcome
    decreases fuel, cs, 4
  {
    match cs
    case NoCmd => Normal(w)
    case MoreCmd(c, rest) =>
      var o := Exec(s, c, args, w, fuel);
      if o.Normal? then ExecAll(s, rest, args, o.w, fuel) else o
  }

  // while and do from their first command: do runs it before every test, unless
  // the last iteration ended in continue.
  function ExecLoop(s: Sem, c: Cmd, args: seq<Reg>, w: World, fuel: nat): Outcome
    requires c.While? || c.WhileElse? || c.DoWhile? || c.DoWhileElse?
    decreases fuel, c, 2
  {
    var o := if c.DoWhile? || c.DoWhileElse? then Exec(s, c.first, args, w, fuel) else Normal(w);
    if o.Broke? then Normal(o.w)
    else if o.Normal? || o.Continued? then ExecTest(s, c, args, o.w, fuel)
    else o
  }

  // while and do from their test. The else part belongs to the loop: break
  // leaves the loop from it, continue goes back to the test.
  function ExecTest(s: Sem, c: Cmd, args: seq<Reg>, w: World, fuel: nat): Outcome
    requires c.While? || c.WhileElse? || c.DoWhile? || c.DoWhileElse?
    decreases fuel, c, 1
  {
    var v := Eval(s, c.e, args, w, fuel);
    if !v.Val? then Failed(v) else
    var go := True(s.h, v);
    var o := if go then Exec(s, c.body, args, v.w, fuel)
      else if c.WhileElse? || c.DoWhileElse? then Exec(s, c.f, args, v.w, fuel)
      else Normal(v.w);
    if o.Broke? || (o.Normal? && !go) then Normal(o.w)
    else if !o.Normal? && !o.Continued? then o
    else if fuel == 0 then TiredC
    else if o.Normal? then ExecLoop(s, c, args, o.w, fuel - 1)
    else ExecTest(s, c, args, o.w, fuel - 1)
  }

  function ExecFor(s: Sem, c: Cmd, args: seq<Reg>, w: World, fuel: nat): Outcome
    requires c.For?
    decreases fuel, c, 1
  {
    var v := if c.cond.Some? then Eval(s, c.cond.value, args, w, fuel) else Val(ONE, w);
    if !v.Val? then Failed(v)
    else if !(c.cond.Some? ==> True(s.h, v)) then Normal(v.w)
    else
      var o := Exec(s, c.body, args, v.w, fuel);
      if o.Broke? then Normal(o.w)
      else if !o.Normal? && !o.Continued? then o
      else
        var u := Eval(s, c.step, args, o.w, fuel);
        if !u.Val? then Failed(u)
        else if fuel == 0 then TiredC
        else ExecFor(s, c, args, u.w, fuel - 1)
  }
}
