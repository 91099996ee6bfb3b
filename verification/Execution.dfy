/** Runs of the interpreter over code that is loaded somewhere in its memory. */
module Execution {
  import opened Lists
  import opened Words
  import opened Registers
  import opened Machine
  import opened Codegen

  ghost predicate Reaches(c: Program, s: VM, t: VM) {
    exists n: nat :: Run(c, s, n) == Go(t)
  }

  ghost predicate Ends(c: Program, s: VM, t: Next) {
    exists n: nat :: Run(c, s, n) == t
  }

  // Still running after n steps.
  ghost predicate Lasts(c: Program, s: VM, n: nat) { Run(c, s, n).Go? }

  lemma {:induction false} ReachesSelf(c: Program, s: VM)
    ensures Reaches(c, s, s)
  {
    assert Run(c, s, 0) == Go(s);
  }

  lemma {:induction false} ReachesThen(c: Program, s: VM, t: VM, u: VM)
    requires Reaches(c, s, t) && Reaches(c, t, u)
    ensures Reaches(c, s, u)
  {
    var n: nat :| Run(c, s, n) == Go(t);
    var m: nat :| Run(c, t, m) == Go(u);
    RunOn(c, s, n, m);
    assert Run(c, s, n + m) == Go(u);
  }

  lemma {:induction false} EndsThen(c: Program, s: VM, t: VM, u: Next)
    requires Reaches(c, s, t) && Ends(c, t, u)
    ensures Ends(c, s, u)
  {
    var n: nat :| Run(c, s, n) == Go(t);
    var m: nat :| Run(c, t, m) == u;
    RunOn(c, s, n, m);
    assert Run(c, s, n + m) == u;
  }

  lemma {:induction false} LastsLess(c: Program, s: VM, n: nat, m: nat)
    requires Lasts(c, s, n) && m <= n
    ensures Lasts(c, s, m)
    decreases n
  {
    hide Step;
    if m > 0 { LastsLess(c, Step(c, s).vm, n - 1, m - 1); }
  }

  lemma {:induction false} LastsThen(c: Program, s: VM, t: VM, n: nat)
    requires Reaches(c, s, t) && Lasts(c, t, n)
    ensures Lasts(c, s, n)
  {
    var m: nat :| Run(c, s, m) == Go(t);
    RunOn(c, s, m, n);
    LastsLess(c, s, m + n, n);
  }

  lemma {:induction false} StepReaches(c: Program, s: VM, t: VM)
    requires Machine.Step(c, s) == Go(t)
    ensures Reaches(c, s, t)
  {
    assert Run(c, s, 1) == Run(c, t, 0);
    assert Run(c, s, 1) == Go(t);
  }

  // At least one step.
  ghost predicate Moves(c: Program, s: VM, t: VM) {
    exists n: nat :: n > 0 && Run(c, s, n) == Go(t)
  }

  lemma {:induction false} ReachesMoves(c: Program, s: VM, t: VM, u: VM)
    requires Reaches(c, s, t) && Machine.Step(c, t) == Go(u)
    ensures Moves(c, s, u) && Reaches(c, s, u)
  {
    var n: nat :| Run(c, s, n) == Go(t);
    RunOn(c, s, n, 1);
    assert Run(c, t, 1) == Run(c, u, 0);
    assert Run(c, s, n + 1) == Go(u);
  }

  lemma {:induction false} LastsMoves(c: Program, s: VM, t: VM, n: nat)
    requires Moves(c, s, t) && Lasts(c, t, n)
    ensures Lasts(c, s, n + 1)
  {
    var m: nat :| m > 0 && Run(c, s, m) == Go(t);
    RunOn(c, s, m, n);
    LastsLess(c, s, m + n, n + 1);
  }

  lemma {:induction false} MovesThen(c: Program, s: VM, t: VM, u: VM)
    requires Moves(c, s, t) && Reaches(c, t, u)
    ensures Moves(c, s, u) && Reaches(c, s, u)
  {
    var n: nat :| n > 0 && Run(c, s, n) == Go(t);
    var m: nat :| Run(c, t, m) == Go(u);
    RunOn(c, s, n, m);
    assert Run(c, s, n + m) == Go(u);
  }

  /* Loaded code. */

  predicate Loaded(mem: seq<Word>, p: nat, code: Code) {
    p + |code| <= |mem| && mem[p..p + |code|] == code
  }

  lemma LoadedFits(mem: seq<Word>, p: nat, code: Code)
    requires Loaded(mem, p, code)
    ensures p + |code| <= |mem|
  {
  }

  lemma LoadedSplit(mem: seq<Word>, p: nat, a: Code, b: Code)
    requires Loaded(mem, p, a + b)
    ensures Loaded(mem, p, a) && Loaded(mem, p + |a|, b)
  {
    assert mem[p..p + |a|] == (a + b)[..|a|];
    assert mem[p + |a|..p + |a| + |b|] == (a + b)[|a|..];
  }

  lemma LoadedAt(mem: seq<Word>, p: nat, code: Code, i: nat)
    requires Loaded(mem, p, code) && i < |code|
    ensures At(mem, p + i) == code[i]
  {
    assert mem[p..p + |code|][i] == mem[p + i];
  }

  lemma Loaded1(mem: seq<Word>, p: nat, v: Word)
    requires Loaded(mem, p, [v])
    ensures At(mem, p) == v
  {
    LoadedAt(mem, p, [v], 0);
  }

  lemma Loaded2(mem: seq<Word>, p: nat, v: Word, w: Word)
    requires Loaded(mem, p, [v, w])
    ensures At(mem, p) == v && At(mem, p + 1) == w
  {
    LoadedAt(mem, p, [v, w], 0);
    LoadedAt(mem, p, [v, w], 1);
  }

  lemma Loaded3(mem: seq<Word>, p: nat, u: Word, v: Word, w: Word)
    requires Loaded(mem, p, [u, v, w])
    ensures At(mem, p) == u && At(mem, p + 1) == v && At(mem, p + 2) == w
  {
    LoadedAt(mem, p, [u, v, w], 0);
    LoadedAt(mem, p, [u, v, w], 1);
    LoadedAt(mem, p, [u, v, w], 2);
  }

  /* Single instructions, on a stack whose top registers are known. */

  lemma {:induction false} DoLoad(c: Program, op: Op, p: nat, s: seq<Cell>, b: nat, w: World)
    requires op.LD0? || op.LD1?
    requires At(c.mem, p) == Opcode(op)
    ensures Reaches(c, VM(p, s, b, w, 0), VM(p + 1, s + Enc(c.h, if op.LD0? then IntReg(0) else IntReg(1)), b, w, 0))
  {
    hide Opcode, Decode, Enc;
    Stepped(c, VM(p, s, b, w, 0), op);
    StepReaches(c, VM(p, s, b, w, 0), VM(p + 1, s + Enc(c.h, if op.LD0? then IntReg(0) else IntReg(1)), b, w, 0));
  }

  // LDI and a marker.
  lemma {:induction false} DoConst(c: Program, n: Word, mark: Op, r: Reg, p: nat, s: seq<Cell>, b: nat, w: World)
    requires (mark.LTI? && r == IntReg(n)) || (mark.LTS? && n > 0 && r == StrReg(n)) || (mark.LTP? && r == PtrReg(n))
    requires Loaded(c.mem, p, [W(LDI), n, W(mark)])
    ensures Reaches(c, VM(p, s, b, w, 0), VM(p + 3, s + Enc(c.h, r), b, w, 0))
  {
    hide Opcode, Decode;
    Loaded3(c.mem, p, W(LDI), n, W(mark));
    var s0 := VM(p, s, b, w, 0);
    var s1 := VM(p + 2, s + [n], b, w, 0);
    var s2 := VM(p + 3, s + Enc(c.h, r), b, w, 0);
    Stepped(c, s0, LDI);
    StepReaches(c, s0, s1);
    Stepped(c, s1, mark);
    assert s + [n] + [Enc(c.h, r)[1]] == s + Enc(c.h, r);
    StepReaches(c, s1, s2);
    ReachesThen(c, s0, s1, s2);
  }

  lemma {:induction false} DoLDI(c: Program, n: Word, p: nat, s: seq<Cell>, b: nat, w: World)
    requires Loaded(c.mem, p, [W(LDI), n])
    ensures Reaches(c, VM(p, s, b, w, 0), VM(p + 2, s + [n], b, w, 0))
  {
    hide Opcode, Decode;
    Loaded2(c.mem, p, W(LDI), n);
    Stepped(c, VM(p, s, b, w, 0), LDI);
    StepReaches(c, VM(p, s, b, w, 0), VM(p + 2, s + [n], b, w, 0));
  }

  lemma {:induction false} DoVar(c: Program, x: Word, p: nat, s: seq<Cell>, b: nat, w: World)
    requires Loaded(c.mem, p, [W(LDV), x]) && b < |s| && s[b] == 0
    ensures Reaches(c, VM(p, s, b, w, 0), VM(p + 2, s + Enc(c.h, c.h.load(w, 0, x, None)), b, w, 0))
  {
    hide Opcode, Decode, Enc;
    Loaded2(c.mem, p, W(LDV), x);
    var s0 := VM(p, s, b, w, 0);
    Stepped(c, s0, LDV);
    StepReaches(c, s0, VM(p + 2, s + Enc(c.h, c.h.load(w, 0, x, None)), b, w, 0));
  }

  lemma {:induction false} DoField(c: Program, x: Word, a: Word, p: nat, s: seq<Cell>, b: nat, w: World)
    requires Loaded(c.mem, p, [W(LDS), x, a]) && b < |s| && s[b] == 0
    ensures Reaches(c, VM(p, s, b, w, 0), VM(p + 3, s + Enc(c.h, c.h.load(w, 0, x, Some(a))), b, w, 0))
  {
    hide Opcode, Decode, Enc;
    Loaded3(c.mem, p, W(LDS), x, a);
    var s0 := VM(p, s, b, w, 0);
    Stepped(c, s0, LDS);
    StepReaches(c, s0, VM(p + 3, s + Enc(c.h, c.h.load(w, 0, x, Some(a))), b, w, 0));
  }

  lemma {:induction false} DoDel(c: Program, r: Reg, p: nat, s: seq<Cell>, b: nat, w: World)
    requires At(c.mem, p) == W(DEL)
    ensures Reaches(c, VM(p, s + Enc(c.h, r), b, w, 0), VM(p + 1, s, b, w, 0))
  {
    hide Opcode, Decode, Enc, RPop;
    var s0 := VM(p, s + Enc(c.h, r), b, w, 0);
    Stepped(c, s0, DEL);
    PopPush(c.h, w, s, r);
    StepReaches(c, s0, VM(p + 1, s, b, w, 0));
  }

  lemma {:induction false} DoDup(c: Program, r: Reg, p: nat, s: seq<Cell>, b: nat, w: World)
    requires At(c.mem, p) == W(DUP)
    ensures var v := Norm(c.h, w, r);
      Reaches(c, VM(p, s + Enc(c.h, r), b, w, 0), VM(p + 1, s + Enc(c.h, v) + Enc(c.h, v), b, w, 0))
  {
    hide Opcode, Decode, Enc, RPop, Norm;
    var s0 := VM(p, s + Enc(c.h, r), b, w, 0);
    var v := Norm(c.h, w, r);
    Stepped(c, s0, DUP);
    PopPush(c.h, w, s, r);
    StepReaches(c, s0, VM(p + 1, s + Enc(c.h, v) + Enc(c.h, v), b, w, 0));
  }

  lemma {:induction false} DoSwap(c: Program, l: Reg, r: Reg, p: nat, s: seq<Cell>, b: nat, w: World)
    requires At(c.mem, p) == W(SWP)
    ensures Reaches(c, VM(p, s + Enc(c.h, l) + Enc(c.h, r), b, w, 0),
      VM(p + 1, s + Enc(c.h, Norm(c.h, w, r)) + Enc(c.h, Norm(c.h, w, l)), b, w, 0))
  {
    hide Opcode, Decode, Enc, RPop, Norm;
    var s0 := VM(p, s + Enc(c.h, l) + Enc(c.h, r), b, w, 0);
    Stepped(c, s0, SWP);
    PopPush(c.h, w, s + Enc(c.h, l), r);
    PopPush(c.h, w, s, l);
    StepReaches(c, s0, VM(p + 1, s + Enc(c.h, Norm(c.h, w, r)) + Enc(c.h, Norm(c.h, w, l)), b, w, 0));
  }

  lemma {:induction false} DoUnary(c: Program, op: Op, r: Reg, p: nat, s: seq<Cell>, b: nat, w: World)
    requires op.NOT? || op.NEG? || op.IMM?
    requires At(c.mem, p) == W(op)
    ensures var u := Unary(c.h, w, op, Norm(c.h, w, r));
      Reaches(c, VM(p, s + Enc(c.h, r), b, w, 0), VM(p + 1, s + Enc(c.h, u.1), b, u.0, 0))
  {
    hide Opcode, Decode, Enc, RPop, Norm, Unary;
    var s0 := VM(p, s + Enc(c.h, r), b, w, 0);
    var u := Unary(c.h, w, op, Norm(c.h, w, r));
    Stepped(c, s0, op);
    PopPush(c.h, w, s, r);
    StepReaches(c, s0, VM(p + 1, s + Enc(c.h, u.1), b, u.0, 0));
  }

  lemma {:induction false} DoSelect(c: Program, x: Word, r: Reg, p: nat, s: seq<Cell>, b: nat, w: World)
    requires Loaded(c.mem, p, [W(ATR), x])
    ensures var v := AttrOf(c.h, w, Norm(c.h, w, r), x);
      Reaches(c, VM(p, s + Enc(c.h, r), b, w, 0), VM(p + 2, s + Enc(c.h, v), b, w, 0))
  {
    hide Opcode, Enc, Norm, Reaches, AttrOf;
    Loaded2(c.mem, p, W(ATR), x);
    var s0 := VM(p, s + Enc(c.h, r), b, w, 0);
    Stepped(c, s0, ATR);
    PopPush(c.h, w, s, r);
    StepReaches(c, s0, VM(p + 2, s + Enc(c.h, AttrOf(c.h, w, Norm(c.h, w, r), x)), b, w, 0));
  }

  lemma {:induction false} DoAlu(c: Program, op: BinOp, l: Reg, r: Reg, p: nat, s: seq<Cell>, b: nat, w: World)
    requires At(c.mem, p) == W(Alu(op))
    ensures var v := c.h.alu(w, op, Norm(c.h, w, l), Norm(c.h, w, r));
      Reaches(c, VM(p, s + Enc(c.h, l) + Enc(c.h, r), b, w, 0), VM(p + 1, s + Enc(c.h, v.1), b, v.0, 0))
  {
    hide Opcode, Decode, Enc, RPop, Norm;
    var s0 := VM(p, s + Enc(c.h, l) + Enc(c.h, r), b, w, 0);
    var v := c.h.alu(w, op, Norm(c.h, w, l), Norm(c.h, w, r));
    Stepped(c, s0, Alu(op));
    PopPush(c.h, w, s + Enc(c.h, l), r);
    PopPush(c.h, w, s, l);
    StepReaches(c, s0, VM(p + 1, s + Enc(c.h, v.1), b, v.0, 0));
  }

  lemma {:induction false} DoStore(c: Program, l: Reg, r: Reg, p: nat, s: seq<Cell>, b: nat, w: World)
    requires At(c.mem, p) == W(STO)
    ensures var v := Norm(c.h, w, l);
      Reaches(c, VM(p, s + Enc(c.h, l) + Enc(c.h, r), b, w, 0),
        VM(p + 1, s + Enc(c.h, v), b, c.h.sto(w, v, Norm(c.h, w, r)), 0))
  {
    hide Opcode, Decode, Enc, RPop, Norm;
    var s0 := VM(p, s + Enc(c.h, l) + Enc(c.h, r), b, w, 0);
    var v := Norm(c.h, w, l);
    Stepped(c, s0, STO);
    PopPush(c.h, w, s + Enc(c.h, l), r);
    PopPush(c.h, w, s, l);
    StepReaches(c, s0, VM(p + 1, s + Enc(c.h, v), b, c.h.sto(w, v, Norm(c.h, w, r)), 0));
  }

  /* Jumps. */

  lemma OffsetIsRel(target: nat, at: nat)
    ensures Rel(target - (at + 1)) == Offset(target, at)
  {
  }

  lemma {:induction false} DoJump(c: Program, n: int, p: nat, s: seq<Cell>, b: nat, w: World)
    requires Loaded(c.mem, p, [W(JR), Rel(n)]) && 0 <= p + 2 + n < ADDRESS_LIMIT
    ensures Machine.Step(c, VM(p, s, b, w, 0)) == Go(VM(p + 2 + n, s, b, w, 0))
    ensures Reaches(c, VM(p, s, b, w, 0), VM(p + 2 + n, s, b, w, 0))
  {
    hide Opcode, Decode, Rel, Jump, Offset;
    Loaded2(c.mem, p, W(JR), Rel(n));
    var s0 := VM(p, s, b, w, 0);
    Stepped(c, s0, JR);
    OffsetIsRel(p + 2 + n, p + 1);
    JumpLands(p + 2 + n, p + 1);
    StepReaches(c, s0, VM(p + 2 + n, s, b, w, 0));
  }

  lemma {:induction false} DoBranch(c: Program, op: Op, n: int, r: Reg, p: nat, s: seq<Cell>, b: nat, w: World)
    requires op.JIZ? || op.JNZ?
    requires Loaded(c.mem, p, [W(op), Rel(n)]) && 0 <= p + 2 + n < ADDRESS_LIMIT
    ensures var go := NonZero(c.h, w, Norm(c.h, w, r)) == op.JNZ?;
      var s0, s1 := VM(p, s + Enc(c.h, r), b, w, 0), VM(if go then p + 2 + n else p + 2, s, b, w, 0);
      Machine.Step(c, s0) == Go(s1) && Reaches(c, s0, s1)
  {
    hide Opcode, Decode, Rel, Jump, Offset, Enc, RPop, Norm, NonZero;
    Loaded2(c.mem, p, W(op), Rel(n));
    var s0 := VM(p, s + Enc(c.h, r), b, w, 0);
    Stepped(c, s0, op);
    PopPush(c.h, w, s, r);
    OffsetIsRel(p + 2 + n, p + 1);
    JumpLands(p + 2 + n, p + 1);
    var go := NonZero(c.h, w, Norm(c.h, w, r)) == op.JNZ?;
    StepReaches(c, s0, VM(if go then p + 2 + n else p + 2, s, b, w, 0));
  }

  /* Frames: the arguments, their count, the return address, the base of the
     caller, and at the base the local variables. */

  function EncAll(h: Host, rs: seq<Reg>): seq<Cell> {
    if rs == [] then [] else EncAll(h, rs[..|rs| - 1]) + Enc(h, rs[|rs| - 1])
  }

  lemma {:induction false} EncAllFirst(h: Host, r: Reg, rs: seq<Reg>)
    ensures EncAll(h, [r] + rs) == Enc(h, r) + EncAll(h, rs)
    decreases |rs|
  {
    hide Enc;
    if rs == [] {
      assert [r] + rs == [r];
      assert EncAll(h, [r]) == EncAll(h, []) + Enc(h, r);
    } else {
      var n := |rs| - 1;
      EncAllFirst(h, r, rs[..n]);
      assert ([r] + rs)[..n + 1] == [r] + rs[..n];
    }
  }

  lemma {:induction false} DropArgsOf(c: Program, w: World, s: seq<Cell>, rs: seq<Reg>)
    ensures DropArgs(c, w, s + EncAll(c.h, rs), |rs|) == s
    decreases |rs|
  {
    hide Enc, RPop, Norm;
    if rs == [] {
      assert s + [] == s;
    } else {
      var n := |rs| - 1;
      assert s + EncAll(c.h, rs) == (s + EncAll(c.h, rs[..n])) + Enc(c.h, rs[n]);
      PopPush(c.h, w, s + EncAll(c.h, rs[..n]), rs[n]);
      DropArgsOf(c, w, s, rs[..n]);
    }
  }

  lemma {:induction false} PopArgOf(c: Program, w: World, s: seq<Cell>, rs: seq<Reg>, k: nat)
    requires k < |rs|
    ensures PopArg(c, w, s + EncAll(c.h, rs), k) == Norm(c.h, w, rs[|rs| - 1 - k])
    decreases k
  {
    hide Enc, RPop, Norm;
    var n := |rs| - 1;
    assert s + EncAll(c.h, rs) == (s + EncAll(c.h, rs[..n])) + Enc(c.h, rs[n]);
    PopPush(c.h, w, s + EncAll(c.h, rs[..n]), rs[n]);
    if k > 0 { PopArgOf(c, w, s, rs[..n], k - 1); }
  }

  // The stack of a frame whose arguments are args.
  ghost predicate Framed(c: Program, s: seq<Cell>, base: nat, args: seq<Reg>) {
    && c.start < base < |s| && s[base] == 0
    && (args != [] ==>
          var e := EncAll(c.h, args);
          |e| + 3 <= base && s[base - 3] == |args| && s[base - 3 - |e|..base - 3] == e)
  }

  lemma FramedPush(c: Program, s: seq<Cell>, base: nat, args: seq<Reg>, more: seq<Cell>)
    requires Framed(c, s, base, args)
    ensures Framed(c, s + more, base, args)
  {
    hide EncAll;
    if args != [] {
      var e := EncAll(c.h, args);
      assert (s + more)[base - 3 - |e|..base - 3] == s[base - 3 - |e|..base - 3];
    }
  }

  // What the walk of fn_getargsval takes off the frame.
  lemma BelowFrame(stack: seq<Cell>, b: nat, n: nat)
    requires n + 3 <= b <= |stack|
    ensures Below(Below(stack[..b])) == stack[..b - 2]
    ensures Below(stack[..b - 2]) == stack[..b - 3 - n] + stack[b - 3 - n..b - 3]
  {
  }

  // fn_getargsval finds the i-th argument.
  lemma {:induction false} GetArgOf(c: Program, args: seq<Reg>, i: int, s: VM)
    requires Framed(c, s.stack, s.base, args) && 1 <= i <= |args|
    ensures GetArg(c, s, i) == Some(c.h.imm(s.world, Norm(c.h, s.world, args[i - 1])))
  {
    hide Enc, Norm, EncAll, RPop, PopArg;
    var b := s.base;
    var e := EncAll(c.h, args);
    var below := s.stack[..b - 3 - |e|];
    BelowFrame(s.stack, b, |e|);
    PopArgOf(c, s.world, below, args, |args| - i);
  }

  // $i reads the i-th argument.
  lemma {:induction false} DoArg(c: Program, x: Word, args: seq<Reg>, p: nat, s: seq<Cell>, b: nat, w: World)
    requires Loaded(c.mem, p, [W(ARG), x]) && Framed(c, s, b, args)
    requires 1 <= Int32(x) <= |args|
    ensures Reaches(c, VM(p, s, b, w, 0), VM(p + 2, s + Enc(c.h, c.h.imm(w, Norm(c.h, w, args[Int32(x) - 1]))), b, w,
        0))
  {
    hide Opcode, Decode, Enc, Norm, EncAll, RPop, PopArg;
    Loaded2(c.mem, p, W(ARG), x);
    var s0 := VM(p, s, b, w, 0);
    var i := Int32(x);
    GetArgOf(c, args, i, s0);
    Stepped(c, s0, ARG);
    StepReaches(c, s0, VM(p + 2, s + Enc(c.h, c.h.imm(w, Norm(c.h, w, args[i - 1]))), b, w, 0));
  }

  // The frame a call builds, and what return makes of it.
  lemma {:induction false} DoCall(c: Program, f: Word, rs: seq<Reg>, p: nat, s: seq<Cell>, b: nat, w: World)
    requires Loaded(c.mem, p, [W(JSR), f]) && c.cells(f) > 0 && c.start < |s|
    ensures var t := s + EncAll(c.h, rs) + [|rs|];
      var t' := t + [p + 2, b, 0];
      && Machine.Step(c, VM(p, t, b, w, 0)) == Go(VM(c.cells(f), t', |t| + 2, w, 0))
      && Framed(c, t', |t| + 2, rs)
  {
    hide Opcode, Decode, Enc, EncAll;
    Loaded2(c.mem, p, W(JSR), f);
    var t := s + EncAll(c.h, rs) + [|rs|];
    hide Loaded, Framed, Step;
    CallSteps(c, f, p, t, b, w);
    CallFrame(c, s, rs, [p + 2, b, 0]);
  }

  lemma CallSteps(c: Program, f: Word, p: nat, t: seq<Cell>, b: nat, w: World)
    requires At(c.mem, p) == W(JSR) && At(c.mem, p + 1) == f && c.cells(f) > 0
    ensures Machine.Step(c, VM(p, t, b, w, 0)) == Go(VM(c.cells(f), t + [p + 2, b, 0], |t| + 2, w, 0))
  {
    hide Opcode, Decode, Enc, EncAll, Return, Leave;
    Stepped(c, VM(p, t, b, w, 0), JSR);
  }

  lemma CallFrame(c: Program, s: seq<Cell>, rs: seq<Reg>, saved: seq<Cell>)
    requires c.start < |s| && |saved| == 3 && saved[2] == 0
    ensures var t := s + EncAll(c.h, rs) + [|rs|]; Framed(c, t + saved, |t| + 2, rs)
  {
    hide Enc, EncAll;
    var t := s + EncAll(c.h, rs) + [|rs|];
    var t' := t + saved;
    var e := EncAll(c.h, rs);
    assert t'[|t| - 1 - |e|..|t| - 1] == e;
    assert t'[|t| - 1] == |rs|;
  }

  lemma {:induction false} LeaveCall(c: Program, t: seq<Cell>, p: nat, b: nat, q: nat, r: Reg, w: World)
    requires c.start <= |t|
    ensures Leave(c, VM(q, t + [p, b, 0], |t| + 2, w, 0), r) == Go(VM(p, t + Enc(c.h, r), b, w, 0))
  {
    hide Enc;
    var t' := t + [p, b, 0];
    assert Below(t') == t + [p, b];
    assert Below(t + [p, b]) == t + [p];
    assert Below(t + [p]) == t;
  }

  lemma {:induction false} DoCallNothing(c: Program, f: Word, p: nat, s: seq<Cell>, b: nat, w: World)
    requires Loaded(c.mem, p, [W(JSR), f]) && c.cells(f) == 0
    ensures Reaches(c, VM(p, s, b, w, 0), VM(p + 2, s + Enc(c.h, IntReg(0)), b, w, 0))
  {
    hide Opcode, Decode, Enc;
    Loaded2(c.mem, p, W(JSR), f);
    Stepped(c, VM(p, s, b, w, 0), JSR);
    StepReaches(c, VM(p, s, b, w, 0), VM(p + 2, s + Enc(c.h, IntReg(0)), b, w, 0));
  }

  // DEn replaces the arguments and their count by the result.
  lemma {:induction false} DoDropArgs(c: Program, rs: seq<Reg>, r: Reg, p: nat, s: seq<Cell>, b: nat, w: World)
    requires At(c.mem, p) == W(DEn)
    ensures Reaches(c, VM(p, s + EncAll(c.h, rs) + [|rs|] + Enc(c.h, r), b, w, 0),
        VM(p + 1, s + Enc(c.h, Norm(c.h, w, r)), b, w, 0))
  {
    hide Opcode, Decode, Enc, EncAll, RPop, Norm, DropArgs;
    var t := s + EncAll(c.h, rs) + [|rs|];
    var s0 := VM(p, t + Enc(c.h, r), b, w, 0);
    Stepped(c, s0, DEn);
    PopPush(c.h, w, t, r);
    TopBelow(s + EncAll(c.h, rs), |rs|);
    DropArgsOf(c, w, s, rs);
    StepReaches(c, s0, VM(p + 1, s + Enc(c.h, Norm(c.h, w, r)), b, w, 0));
  }

  lemma {:induction false} DoReturn(c: Program, r: Reg, p: nat, s: seq<Cell>, b: nat, w: World)
    requires At(c.mem, p) == W(RET)
    ensures Ends(c, VM(p, s + Enc(c.h, r), b, w, 0), Leave(c, VM(p, s, b, w, 0), c.h.imm(w, Norm(c.h, w, r))))
  {
    hide Opcode, Decode, Enc, RPop, Norm, Leave;
    var s0 := VM(p, s + Enc(c.h, r), b, w, 0);
    Stepped(c, s0, RET);
    PopPush(c.h, w, s, r);
    var l := Leave(c, VM(p, s, b, w, 0), c.h.imm(w, Norm(c.h, w, r)));
    assert Step(c, s0) == l;
    assert Run(c, s0, 1) == l by {
      if l.Go? { assert Run(c, l.vm, 0) == l; }
    }
  }
}
