/** The interpreter as it runs (constable/language/execute.c:80-169, 198-222 and
    331-684): registers are pushed on and popped off the segmented stack. */
module Interpreter {
  import opened Lists
  import opened Words
  import opened Registers
  import opened Machine
  import opened ExecuteStack

  datatype Status = Running | Result(r: Reg, w: World) | OutsideModel

  // Words are pushed, the first one last.
  method PushReversed(s: SegmentedStack, words: seq<Cell>)
    requires s.Valid() && s.cur * STACKLEN <= s.pos
    modifies s.Repr()
    ensures s.Valid() && s.cur * STACKLEN <= s.pos && fresh(s.Repr() - old(s.Repr())) && s.keep == old(s.keep)
    ensures s.Contents() == old(s.Contents()) + Reversed(words)
  {
    var n := |words|;
    assert s.Contents() + Reversed(words[n..]) == s.Contents();
    while n > 0
      invariant 0 <= n <= |words|
      invariant s.Valid() && s.cur * STACKLEN <= s.pos && fresh(s.Repr() - old(s.Repr())) && s.keep == old(s.keep)
      invariant s.Contents() == old(s.Contents()) + Reversed(words[n..])
      decreases n
    {
      n := n - 1;
      assert words[n..][0] == words[n] && words[n..][1..] == words[n + 1..];
      s.Push(words[n]);
    }
    assert words[0..] == words;
  }

  // The next n cells, topmost first.
  method PopWords(s: SegmentedStack, n: nat) returns (words: seq<Cell>)
    requires s.Valid() && s.pos <= (s.cur + 1) * STACKLEN
    modifies s
    ensures s.Valid() && s.Repr() <= old(s.Repr()) && s.keep == old(s.keep)
    ensures s.pos <= (s.cur + 1) * STACKLEN && s.cur <= old(s.cur) && (s.keep ==> s.segs == old(s.segs))
    ensures old(s.Current()) ==> s.Current()
    ensures words == Pops(old(s.Contents()), n) && s.Contents() == Drop(old(s.Contents()), n)
  {
    hide Pops, Drop;
    ghost var was := s.Contents();
    words := [];
    PopsStart(was);
    for i := 0 to n
      invariant s.Valid() && s.Repr() <= old(s.Repr()) && s.keep == old(s.keep)
      invariant s.pos <= (s.cur + 1) * STACKLEN && s.cur <= old(s.cur) && (s.keep ==> s.segs == old(s.segs))
      invariant old(s.Current()) ==> s.Current()
      invariant words == Pops(was, i) && s.Contents() == Drop(was, i)
    {
      var x := s.Pop();
      PopsNext(was, i);
      words := words + [x];
    }
  }

  lemma PopsStart(s: seq<Cell>)
    ensures Pops(s, 0) == [] && Drop(s, 0) == s
  {
  }

  lemma {:induction false} PopsNext(s: seq<Cell>, n: nat)
    ensures Pops(s, n + 1) == Pops(s, n) + [Top(Drop(s, n))]
    ensures Drop(s, n + 1) == Below(Drop(s, n))
    decreases n
  {
    if n > 0 {
      PopsNext(Below(s), n - 1);
    } else {
      PopsStart(s);
      PopsStart(Below(s));
    }
  }

  // R_push
  method RPush(h: Host, s: SegmentedStack, r: Reg)
    requires s.Valid() && s.cur * STACKLEN <= s.pos
    modifies s.Repr()
    ensures s.Valid() && s.Current() && fresh(s.Repr() - old(s.Repr())) && s.keep == old(s.keep)
    ensures s.Contents() == old(s.Contents()) + Enc(h, r)
  {
    hide Fit, Reversed, ClassCells, AttrCells;
    match r {
      case IntReg(v) => PushPair(s, v, Registers.LTI);
      case PtrReg(v) => PushPair(s, v, Registers.LTP);
      case ObjReg(o) => PushPair(s, o, Registers.LTO);
      case StrReg(p) => PushPair(s, p, Registers.LTS);
      case MemReg(a, p, c) => PushRest(h, s, [p], a, c);
      case BufReg(a, buf, c) => PushRest(h, s, [0] + Fit(buf, BufWords(h, a)), a, c);
    }
  }

  // A register that is no simple one: its data, given topmost first, then its
  // class and its attribute.
  method PushRest(h: Host, s: SegmentedStack, data: seq<Cell>, a: Attr, c: nat)
    requires s.Valid() && s.cur * STACKLEN <= s.pos && data != []
    modifies s.Repr()
    ensures s.Valid() && s.Current() && fresh(s.Repr() - old(s.Repr())) && s.keep == old(s.keep)
    ensures s.Contents() == old(s.Contents()) + (Reversed(data[1..]) + [data[0]] + ClassCells(h, a, c) + AttrCells(a))
  {
    hide SegmentedStack.Valid, SegmentedStack.Contents, Reversed, ClassCells, AttrCells;
    ghost var was := s.Contents();
    ghost var x, y, z := Reversed(data[1..]) + [data[0]], ClassCells(h, a, c), AttrCells(a);
    PushData(s, data);
    PushClass(h, s, a, c);
    PushAttr(s, a);
    assert was + x + y + z == was + (x + y + z);
  }

  method PushPair(s: SegmentedStack, x: Cell, mark: Cell)
    requires s.Valid() && s.cur * STACKLEN <= s.pos
    modifies s.Repr()
    ensures s.Valid() && s.Current() && fresh(s.Repr() - old(s.Repr())) && s.keep == old(s.keep)
    ensures s.Contents() == old(s.Contents()) + [x, mark]
  {
    ghost var was := s.Contents();
    s.Push(x);
    s.Push(mark);
    assert was + [x] + [mark] == was + [x, mark];
  }

  // The words of the buffer, the first one last; then the address or 0.
  method PushData(s: SegmentedStack, data: seq<Cell>)
    requires s.Valid() && s.cur * STACKLEN <= s.pos && data != []
    modifies s.Repr()
    ensures s.Valid() && s.Current() && fresh(s.Repr() - old(s.Repr())) && s.keep == old(s.keep)
    ensures s.Contents() == old(s.Contents()) + (Reversed(data[1..]) + [data[0]])
  {
    hide SegmentedStack.Valid, SegmentedStack.Contents, Reversed;
    ghost var was := s.Contents();
    PushReversed(s, data[1..]);
    s.Push(data[0]);
    assert was + Reversed(data[1..]) + [data[0]] == was + (Reversed(data[1..]) + [data[0]]);
  }

  method PushClass(h: Host, s: SegmentedStack, a: Attr, c: nat)
    requires s.Valid() && s.Current()
    modifies s.Repr()
    ensures s.Valid() && s.Current() && fresh(s.Repr() - old(s.Repr())) && s.keep == old(s.keep)
    ensures s.Contents() == old(s.Contents()) + ClassCells(h, a, c)
  {
    if IsEnd(h, a) {
      s.Push(c);
    } else {
      assert s.Contents() + [] == s.Contents();
    }
  }

  method PushAttr(s: SegmentedStack, a: Attr)
    requires s.Valid() && s.Current()
    modifies s.Repr()
    ensures s.Valid() && s.Current() && fresh(s.Repr() - old(s.Repr())) && s.keep == old(s.keep)
    ensures s.Contents() == old(s.Contents()) + AttrCells(a)
  {
    match a {
      case Static(p) => s.Push(p);
      case Tmp(w) =>
        ghost var was := s.Contents();
        PushReversed(s, w);
        s.Push(Registers.LTa);
        assert was + Reversed(w) + [Registers.LTa] == was + (Reversed(w) + [Registers.LTa]);
    }
  }

  // R_pop
  method RPopFrom(h: Host, w: World, s: SegmentedStack) returns (r: Reg)
    requires s.Valid() && s.pos <= (s.cur + 1) * STACKLEN
    modifies s
    ensures s.Valid() && s.Repr() <= old(s.Repr()) && s.keep == old(s.keep)
    ensures s.pos <= (s.cur + 1) * STACKLEN && s.cur <= old(s.cur) && (s.keep ==> s.segs == old(s.segs))
    ensures old(s.Current()) ==> s.Current()
    ensures (r, s.Contents()) == RPop(h, w, old(s.Contents()))
  {
    hide SegmentedStack.Valid, SegmentedStack.Contents, SegmentedStack.Repr, SegmentedStack.Current;
    var x := s.Pop();
    if x == Registers.LTI {
      var v := s.Pop();
      r := IntReg(v);
    } else if x == Registers.LTS {
      var p := s.Pop();
      if p == 0 { r := IntReg(0); } else { r := MemReg(Tmp(StrAttr(h.strlen(w, p) + 1)), p, 0); }
    } else if x == Registers.LTP {
      var v := s.Pop();
      r := PtrReg(v);
    } else if x == Registers.LTO {
      var o := s.Pop();
      r := ObjReg(o);
    } else if x == Registers.LTa {
      var words := PopWords(s, ATTR_WORDS);
      r := PopRest(h, Tmp(words), s);
    } else {
      r := PopRest(h, Static(x), s);
    }
  }

  // R_pop, behind the attribute.
  method PopRest(h: Host, a: Attr, s: SegmentedStack) returns (r: Reg)
    requires s.Valid() && s.pos <= (s.cur + 1) * STACKLEN
    modifies s
    ensures s.Valid() && s.Repr() <= old(s.Repr()) && s.keep == old(s.keep)
    ensures s.pos <= (s.cur + 1) * STACKLEN && s.cur <= old(s.cur) && (s.keep ==> s.segs == old(s.segs))
    ensures old(s.Current()) ==> s.Current()
    ensures (r, s.Contents()) == PopData(h, a, old(s.Contents()))
  {
    var cls := 0;
    if IsEnd(h, a) {
      cls := s.Pop();
    }
    var p := s.Pop();
    if p != 0 {
      r := MemReg(a, p, cls);
    } else {
      var buf := PopWords(s, BufWords(h, a));
      r := BufReg(a, buf, cls);
    }
  }

  // execute_s. start is part of the program the handler runs in.
  class Handler {
    const c: Program
    const stack: SegmentedStack
    var p: nat
    var base: nat
    var world: World
    var cont: nat

    ghost predicate Valid()
      reads this, stack, stack.Repr()
    {
      stack.Valid() && stack.Current() && !stack.keep && this !in stack.Repr()
    }

    ghost function View(): VM
      requires Valid()
      reads this, stack, stack.Repr()
    {
      VM(p, stack.Contents(), base, world, cont)
    }

    // execute_handler, on an empty stack.
    constructor (c: Program, p: nat, w: World)
      ensures Valid() && fresh(stack.Repr()) && this.c == c
      ensures View() == VM(p, [0, 0], 1, w, 0)
    {
      this.c := c;
      this.p, world, cont := p, w, 0;
      base := 1;
      stack := new SegmentedStack();
      new;
      stack.Push(0);
      stack.Push(0);
    }

    // To the next instruction.
    method Skip(n: nat)
      requires Valid()
      modifies this`p, this`cont
      ensures Valid() && View() == Past(old(View()), n)
    {
      p, cont := p + n, 0;
    }

    method SetWorld(w: World)
      requires Valid()
      modifies this`world
      ensures Valid() && View() == old(View()).(world := w)
    {
      world := w;
    }

    method Go(q: nat)
      requires Valid()
      modifies this`p, this`cont
      ensures Valid() && View() == old(View()).(p := q, cont := 0)
    {
      p, cont := q, 0;
    }

    method Push(r: Reg)
      requires Valid()
      modifies stack.Repr()
      ensures Valid() && fresh(stack.Repr() - old(stack.Repr()))
      ensures View() == Pushed(c, old(View()), r)
    {
      RPush(c.h, stack, r);
    }

    method Pop() returns (r: Reg)
      requires Valid()
      modifies stack
      ensures Valid() && stack.Repr() <= old(stack.Repr())
      ensures (View(), r) == Popped(c, old(View()))
    {
      r := RPopFrom(c.h, world, stack);
    }

    method PushCell(x: Cell)
      requires Valid()
      modifies stack.Repr()
      ensures Valid() && fresh(stack.Repr() - old(stack.Repr()))
      ensures View() == old(View()).(stack := old(View()).stack + [x])
    {
      stack.Push(x);
    }

    method PopCell() returns (x: Cell)
      requires Valid()
      modifies stack
      ensures Valid() && stack.Repr() <= old(stack.Repr())
      ensures x == Top(old(View()).stack) && View() == old(View()).(stack := Below(old(View()).stack))
    {
      x := stack.Pop();
    }

    // The local variables of the frame.
    method LocalVars() returns (x: Cell)
      requires Valid()
      ensures x == Locals(View())
    {
      x := 0;
      if 0 < base < stack.pos {
        x := stack.ReadStack(base);
        stack.CellsBelow(base + 1, stack.pos);
        assert stack.Contents()[base] == stack.Cells(base + 1)[base];
      }
    }

    // oADD to oXOR
    method DoBinary(op: BinOp)
      requires Valid()
      modifies this, stack.Repr()
      ensures Valid() && fresh(stack.Repr() - old(stack.Repr())) && View() == Binary(c, old(View()), op)
    {
      hide RPop, Enc;
      var right := Pop();
      var left := Pop();
      var v := c.h.alu(world, op, left, right);
      SetWorld(v.0);
      Push(v.1);
      Skip(1);
    }

    method DoStore()
      requires Valid()
      modifies this, stack.Repr()
      ensures Valid() && fresh(stack.Repr() - old(stack.Repr())) && View() == Store(c, old(View()))
    {
      hide RPop, Enc;
      var right := Pop();
      var left := Pop();
      SetWorld(c.h.sto(world, left, right));
      Push(left);
      Skip(1);
    }

    method DoSwap()
      requires Valid()
      modifies this, stack.Repr()
      ensures Valid() && fresh(stack.Repr() - old(stack.Repr())) && View() == Swap(c, old(View()))
    {
      hide RPop, Enc;
      var top := Pop();
      var second := Pop();
      Push(top);
      Push(second);
      Skip(1);
    }

    method DoCopy()
      requires Valid()
      modifies this, stack.Repr()
      ensures Valid() && fresh(stack.Repr() - old(stack.Repr())) && View() == Copy(c, old(View()))
    {
      hide RPop, Enc;
      var r := Pop();
      Push(r);
      Push(r);
      Skip(1);
    }

    // oIMM, oNOT, oNEG
    method DoUnary(op: Op)
      requires Valid()
      modifies this, stack.Repr()
      ensures Valid() && fresh(stack.Repr() - old(stack.Repr())) && View() == Replace(c, old(View()), op)
    {
      hide RPop, Enc;
      var r := Pop();
      if op.NOT? {
        var (w, v) := c.h.not(world, r);
        SetWorld(w);
        r := v;
      } else {
        r := c.h.imm(world, r);
        if op.NEG? {
          var (w, v) := c.h.neg(world, r);
          SetWorld(w);
          r := v;
        }
      }
      Push(r);
      Skip(1);
    }

    // n registers off the stack.
    method PopMany(n: nat)
      requires Valid()
      modifies stack
      ensures Valid() && stack.Repr() <= old(stack.Repr())
      ensures View() == old(View()).(stack := DropArgs(c, world, old(View()).stack, n))
    {
      hide RPop;
      var i := n;
      ghost var goal := DropArgs(c, world, View().stack, n);
      while i > 0
        invariant 0 <= i <= n
        invariant Valid() && stack.Repr() <= old(stack.Repr())
        invariant View() == old(View()).(stack := View().stack)
        invariant DropArgs(c, world, View().stack, i) == goal
      {
        var r := Pop();
        i := i - 1;
      }
    }

    // oDEn: the result, the count, and that many arguments.
    method DoDropArgs()
      requires Valid()
      modifies this, stack.Repr()
      ensures Valid() && fresh(stack.Repr() - old(stack.Repr())) && View() == DeleteArgs(c, old(View()))
    {
      hide RPop, Enc, DropArgs;
      var result := Pop();
      var n := PopCell();
      PopMany(n);
      Push(result);
      Skip(1);
    }

    // oJIZ, oJNZ
    method DoBranch(onZero: bool)
      requires Valid()
      modifies this, stack.Repr()
      ensures Valid() && fresh(stack.Repr() - old(stack.Repr())) && View() == Branch(c, old(View()), onZero)
    {
      hide RPop, Enc, NonZero, Jump;
      var r := Pop();
      if NonZero(c.h, world, r) == onZero {
        Skip(2);
      } else {
        Go(Jump(p + 1, At(c.mem, p + 1)));
      }
    }

    // oLDV, oLDS
    method DoLoad(attr: Option<Word>, size: nat)
      requires Valid()
      modifies this, stack.Repr()
      ensures Valid() && fresh(stack.Repr() - old(stack.Repr()))
      ensures View() == Load(c, old(View()), attr, size)
    {
      hide RPop, Enc, Locals;
      var locals := LocalVars();
      Push(c.h.load(world, locals, At(c.mem, p + 1), attr));
      Skip(size);
    }

    // The handler waits for an answer: the same instruction again.
    method Suspend(w: World, i: nat)
      requires Valid()
      modifies this`world, this`cont
      ensures Valid() && View() == old(View()).(world := c.h.wake(w), cont := i)
    {
      world, cont := c.h.wake(w), i;
    }

    // oFET, oUPD
    method DoTransfer(fetch: bool)
      requires Valid()
      modifies this, stack.Repr()
      ensures Valid() && fresh(stack.Repr() - old(stack.Repr())) && View() == Transfer(c, old(View()), fetch)
    {
      hide RPop, Enc, Locals;
      var locals := LocalVars();
      var v := c.h.find(world, locals, At(c.mem, p + 1));
      if v.None? {
        Push(IntReg(0));
        Skip(2);
      } else {
        var a := c.h.transfer(world, fetch, cont, v.value);
        if a.1 > 0 {
          Suspend(a.0, a.1);
        } else {
          SetWorld(a.0);
          Push(IntReg(if a.1 < 0 then 0 else 1));
          Skip(2);
        }
      }
    }

    // The frame of a function: return address, base, local variables.
    method Enter(entry: nat)
      requires Valid()
      modifies this, stack.Repr()
      ensures Valid() && fresh(stack.Repr() - old(stack.Repr()))
      ensures var s := old(View()); View() == VM(entry, s.stack + [s.p + 2, s.base, 0], |s.stack| + 2, s.world, 0)
    {
      hide SegmentedStack.Valid, SegmentedStack.Contents, SegmentedStack.Current;
      ghost var was := View().stack;
      PushCell(p + 2);
      PushCell(base);
      base := stack.pos;
      PushCell(0);
      Go(entry);
      assert was + [old(p) + 2] + [old(base)] + [0] == was + [old(p) + 2, old(base), 0];
    }

    // oJSR
    method DoCall()
      requires Valid()
      modifies this, stack.Repr()
      ensures Valid() && fresh(stack.Repr() - old(stack.Repr())) && View() == Call(c, old(View()))
    {
      hide Enc;
      var entry := c.cells(At(c.mem, p + 1));
      if entry == 0 {
        Push(IntReg(0));
        Skip(2);
      } else {
        Enter(entry);
      }
    }

    // Back to the base of the caller.
    method PopFrame()
      requires Valid()
      modifies this`base, stack
      ensures Valid() && stack.Repr() <= old(stack.Repr())
      ensures var s := old(View()); View() == s.(stack := Below(Below(s.stack)), base := Top(Below(s.stack)))
    {
      var x := PopCell();
      var b := PopCell();
      base := b;
    }

    // Behind the call, with the result on the stack.
    method ResumeCaller(r: Reg)
      requires Valid()
      modifies this, stack.Repr()
      ensures Valid() && fresh(stack.Repr() - old(stack.Repr()))
      ensures var s := old(View()); View() == VM(Top(s.stack), Below(s.stack) + Enc(c.h, r), s.base, s.world, 0)
    {
      hide Enc;
      var q := PopCell();
      Push(r);
      Go(q);
    }

    // free_vars, on the variables of the frame.
    method FreeLocals()
      requires Valid()
      modifies this`world
      ensures Valid()
      ensures var s := old(View()); View() == s.(world := if Locals(s) == 0 then s.world
          else c.h.freeVars(s.world, Locals(s)))
    {
      hide Locals;
      var locals := LocalVars();
      if locals != 0 {
        SetWorld(c.h.freeVars(world, locals));
      }
    }

    // The frame is left with the result r.
    method DoLeave(r: Reg) returns (done: Status)
      requires Valid()
      modifies this, stack.Repr()
      ensures Valid() && fresh(stack.Repr() - old(stack.Repr()))
      ensures match Leave(c, old(View()), r)
        case Go(t) => done == Running && View() == t
        case Done(r, w, u, b) => done == Result(r, w) && View().stack == u && View().base == b
        case Outside => false
    {
      hide SegmentedStack.Contents, RPop, Enc, Locals;
      FreeLocals();
      PopFrame();
      if stack.pos <= c.start {
        done := Result(r, world);
      } else {
        ResumeCaller(r);
        done := Running;
      }
    }

    // oRET
    method DoReturn() returns (done: Status)
      requires Valid()
      modifies this, stack.Repr()
      ensures Valid() && fresh(stack.Repr() - old(stack.Repr()))
      ensures match Return(c, old(View()))
        case Go(t) => done == Running && View() == t
        case Done(r, w, u, b) => done == Result(r, w) && View().stack == u && View().base == b
        case Outside => false
    {
      hide RPop, Enc, Locals, Leave;
      var r := Pop();
      done := DoLeave(c.h.imm(world, r));
    }

    // The register n registers below the one on top.
    method PopTo(n: nat) returns (r: Reg)
      requires stack.Valid() && stack.pos <= (stack.cur + 1) * STACKLEN
      modifies stack
      ensures stack.Valid() && stack.Repr() <= old(stack.Repr()) && stack.keep == old(stack.keep)
      ensures stack.cur <= old(stack.cur) && (stack.keep ==> stack.segs == old(stack.segs))
      ensures r == PopArg(c, world, old(stack.Contents()), n)
    {
      hide RPop;
      var i := n;
      ghost var goal := PopArg(c, world, stack.Contents(), n);
      r := RPopFrom(c.h, world, stack);
      while i > 0
        invariant 0 <= i <= n
        invariant stack.Valid() && stack.pos <= (stack.cur + 1) * STACKLEN
        invariant stack.Repr() <= old(stack.Repr()) && stack.keep == old(stack.keep)
        invariant stack.cur <= old(stack.cur) && (stack.keep ==> stack.segs == old(stack.segs))
        invariant if i == 0 then r == goal else PopArg(c, world, stack.Contents(), i - 1) == goal
      {
        r := RPopFrom(c.h, world, stack);
        i := i - 1;
      }
    }

    // fn_getargsval, once the position is at the base of the frame.
    method ReadArgument(i: int) returns (r: Option<Reg>)
      requires stack.Valid() && stack.pos <= (stack.cur + 1) * STACKLEN && i > 0
      modifies stack
      ensures stack.Valid() && stack.Repr() <= old(stack.Repr()) && stack.keep == old(stack.keep)
      ensures stack.keep ==> stack.segs == old(stack.segs)
      ensures stack.cur <= old(stack.cur)
      ensures r == ArgBelow(c, world, old(stack.Contents()), i)
    {
      hide SegmentedStack.Valid, SegmentedStack.Contents, SegmentedStack.Repr, SegmentedStack.Current, RPop, PopArg;
      var saved := stack.Pop();
      var back := stack.Pop();
      var n := stack.Pop();
      r := None;
      if n - i >= 0 {
        var x := PopTo(n - i);
        r := Some(c.h.imm(world, x));
      }
    }

    // fn_getargsval: the arguments are read from the base of the frame down; the
    // segments above are kept, and the position is put back.
    method GetArgument(i: int) returns (r: Option<Reg>)
      requires Valid() && base <= stack.pos
      modifies stack
      ensures stack.Valid() && !stack.keep && stack.Repr() <= old(stack.Repr()) && stack.cur * STACKLEN <= stack.pos
      ensures stack.Contents() == old(stack.Contents())
      ensures r == GetArg(c, old(View()), i)
    {
      hide RPop, PopArg, ArgBelow;
      var z := stack.pos;
      ghost var cells := stack.Contents();
      stack.keep, stack.pos := true, base;
      assert stack.Contents() == cells[..base];
      if i <= 0 {
        r := None;
        assert ArgBelow(c, world, stack.Contents(), i) == None by { NoArg(c, world, stack.Contents(), i); }
      } else {
        r := ReadArgument(i);
      }
      stack.pos, stack.keep := z, false;
    }

    // oARG. A register that was not loaded is pushed as it is.
    method DoArg()
      requires Valid()
      modifies this, stack.Repr()
      ensures Valid() && fresh(stack.Repr() - old(stack.Repr()))
      ensures View() == Past(Pushed(c, old(View()), LoadArg(c, old(View()))), 2)
    {
      hide Enc, GetArg, Int32;
      var r: Option<Reg> := None;
      var i := Int32(At(c.mem, p + 1));
      if base <= stack.pos {
        r := GetArgument(i);
      }
      RPush(c.h, stack, if r.Some? then r.value else c.h.stale(world));
      Skip(2);
    }

    // oATR
    method DoSelect()
      requires Valid()
      modifies this, stack.Repr()
      ensures Valid() && fresh(stack.Repr() - old(stack.Repr())) && View() == Select(c, old(View()))
    {
      hide RPop, Enc;
      var x := At(c.mem, p + 1);
      var r := Pop();
      if r.ObjReg? && r.o != 0 {
        r := c.h.attrOf(world, r.o, x);
      } else {
        r := IntReg(0);
      }
      Push(r);
      Skip(2);
    }

    method DoConst(x: Cell, n: nat)
      requires Valid()
      modifies this, stack.Repr()
      ensures Valid() && fresh(stack.Repr() - old(stack.Repr()))
      ensures var s := old(View()); View() == Past(s.(stack := s.stack + [x]), n)
    {
      PushCell(x);
      Skip(n);
    }

    method DoDigit(n: nat)
      requires Valid()
      modifies this, stack.Repr()
      ensures Valid() && fresh(stack.Repr() - old(stack.Repr()))
      ensures View() == Past(Pushed(c, old(View()), IntReg(n)), 1)
    {
      hide Enc;
      Push(IntReg(n));
      Skip(1);
    }

    method DoDelete()
      requires Valid()
      modifies this, stack.Repr()
      ensures Valid() && fresh(stack.Repr() - old(stack.Repr()))
      ensures View() == Past(Popped(c, old(View())).0, 1)
    {
      hide RPop;
      var r := Pop();
      Skip(1);
    }

    // Instructions on the stack alone.
    method StackOp(op: Op)
      requires Valid()
      requires op.LD0? || op.LD1? || op.LDI? || op.LTI? || op.LTS? || op.LTP? || op.DUP? || op.SWP? || op.DEL? ||
          op.DEn?
      modifies this, stack.Repr()
      ensures Valid() && fresh(stack.Repr() - old(stack.Repr()))
      ensures Exec(c, old(View()), op) == Machine.Go(View())
    {
      hide SegmentedStack.Valid, SegmentedStack.Contents, RPop, Enc, Return, Call, Load, Transfer, Branch, Replace,
        DeleteArgs, Swap, Store, Copy, Binary, LoadArg, Jumped;
      match op {
        case LD0 => DoDigit(0);
        case LD1 => DoDigit(1);
        case LDI => DoConst(At(c.mem, p + 1), 2);
        case LTI => DoConst(Registers.LTI, 1);
        case LTS => DoConst(Registers.LTS, 1);
        case LTP => DoConst(Registers.LTP, 1);
        case DUP => DoCopy();
        case SWP => DoSwap();
        case DEL => DoDelete();
        case DEn => DoDropArgs();
      }
    }

    // Instructions on registers.
    method RegisterOp(op: Op)
      requires Valid()
      requires op.IMM? || op.NOT? || op.NEG? || op.STO? || op.Alu?
      modifies this, stack.Repr()
      ensures Valid() && fresh(stack.Repr() - old(stack.Repr()))
      ensures Exec(c, old(View()), op) == Machine.Go(View())
    {
      hide SegmentedStack.Valid, SegmentedStack.Contents, RPop, Enc, Return, Call, Load, Transfer, Branch, Replace,
        DeleteArgs, Swap, Store, Copy, Binary, LoadArg, Jumped, Select;
      match op {
        case IMM | NOT | NEG => UnaryOp(op);
        case STO => DoStore();
        case Alu(b) => DoBinary(b);
      }
    }

    method UnaryOp(op: Op)
      requires Valid() && (op.IMM? || op.NOT? || op.NEG?)
      modifies this, stack.Repr()
      ensures Valid() && fresh(stack.Repr() - old(stack.Repr()))
      ensures Exec(c, old(View()), op) == Machine.Go(View())
    {
      hide SegmentedStack.Valid, SegmentedStack.Contents, RPop, Enc, Return, Call, Load, Transfer, Branch, Replace,
        DeleteArgs, Swap, Store, Copy, Binary, LoadArg, Jumped, Select;
      DoUnary(op);
    }

    // Instructions on variables and arguments.
    method VariableOp(op: Op)
      requires Valid()
      requires op.FET? || op.UPD? || op.LDV? || op.LDS? || op.ARG? || op.ATR?
      modifies this, stack.Repr()
      ensures Valid() && fresh(stack.Repr() - old(stack.Repr()))
      ensures Exec(c, old(View()), op) == Machine.Go(View())
    {
      hide SegmentedStack.Valid, SegmentedStack.Contents, RPop, Enc, Return, Call, Load, Transfer, Branch, Replace,
        DeleteArgs, Swap, Store, Copy, Binary, LoadArg, Jumped, Select;
      match op {
        case FET | UPD => TransferOp(op);
        case LDV | LDS => LoadOp(op);
        case ARG => DoArg();
        case ATR => DoSelect();
      }
    }

    method TransferOp(op: Op)
      requires Valid() && (op.FET? || op.UPD?)
      modifies this, stack.Repr()
      ensures Valid() && fresh(stack.Repr() - old(stack.Repr()))
      ensures Exec(c, old(View()), op) == Machine.Go(View())
    {
      hide SegmentedStack.Valid, SegmentedStack.Contents, RPop, Enc, Return, Call, Load, Transfer, Branch, Replace,
        DeleteArgs, Swap, Store, Copy, Binary, LoadArg, Jumped, Select;
      DoTransfer(op.FET?);
    }

    method LoadOp(op: Op)
      requires Valid() && (op.LDV? || op.LDS?)
      modifies this, stack.Repr()
      ensures Valid() && fresh(stack.Repr() - old(stack.Repr()))
      ensures Exec(c, old(View()), op) == Machine.Go(View())
    {
      hide SegmentedStack.Valid, SegmentedStack.Contents, RPop, Enc, Return, Call, Load, Transfer, Branch, Replace,
        DeleteArgs, Swap, Store, Copy, Binary, LoadArg, Jumped, Select;
      if op.LDV? { DoLoad(None, 2); } else { DoLoad(Some(At(c.mem, p + 2)), 3); }
    }

    // Jumps and calls.
    method ControlOp(op: Op)
      requires Valid()
      requires op.NOP? || op.JR? || op.JIZ? || op.JNZ? || op.JSR?
      modifies this, stack.Repr()
      ensures Valid() && fresh(stack.Repr() - old(stack.Repr()))
      ensures Exec(c, old(View()), op) == Machine.Go(View())
    {
      hide SegmentedStack.Valid, SegmentedStack.Contents, RPop, Enc, Return, Call, Load, Transfer, Branch, Replace,
        DeleteArgs, Swap, Store, Copy, Binary, LoadArg, Jumped, Select;
      match op {
        case NOP => Skip(1);
        case JR => DoJump();
        case JIZ | JNZ => BranchOp(op);
        case JSR => DoCall();
      }
    }

    method BranchOp(op: Op)
      requires Valid() && (op.JIZ? || op.JNZ?)
      modifies this, stack.Repr()
      ensures Valid() && fresh(stack.Repr() - old(stack.Repr()))
      ensures Exec(c, old(View()), op) == Machine.Go(View())
    {
      hide SegmentedStack.Valid, SegmentedStack.Contents, RPop, Enc, Return, Call, Load, Transfer, Branch, Replace,
        DeleteArgs, Swap, Store, Copy, Binary, LoadArg, Jumped, Select;
      DoBranch(op.JIZ?);
    }

    // One instruction.
    method Step() returns (done: Status)
      requires Valid()
      modifies this, stack.Repr()
      ensures Valid() && fresh(stack.Repr() - old(stack.Repr()))
      ensures match Machine.Step(c, old(View()))
        case Go(t) => done == Running && View() == t
        case Done(r, w, u, b) => done == Result(r, w) && View().stack == u && View().base == b
        case Outside => done == OutsideModel
    {
      hide SegmentedStack.Valid, SegmentedStack.Contents, RPop, Enc, Return, Call, Load, Transfer, Branch, Replace,
        DeleteArgs, Swap, Store, Copy, Binary, LoadArg, Jumped, Select;
      hide Decode;
      done := Running;
      var op := Decode(At(c.mem, p));
      if op.None? {
        Skip(1);
        return;
      }
      match op.value {
        case LD0 | LD1 | LDI | LTI | LTS | LTP | DUP | SWP | DEL | DEn => StackOp(op.value);
        case IMM | NOT | NEG | STO => RegisterOp(op.value);
        case FET | UPD | LDV | LDS | ARG | ATR => VariableOp(op.value);
        case Alu(_) => RegisterOp(op.value);
        case NOP | JR | JIZ | JNZ | JSR => ControlOp(op.value);
        case RET => done := DoReturn();
        case _ => done := OutsideModel;
      }
    }

    method DoJump()
      requires Valid()
      modifies this, stack.Repr()
      ensures Valid() && fresh(stack.Repr() - old(stack.Repr())) && View() == Jumped(c, old(View()))
    {
      hide Jump;
      Go(Jump(p + 1, At(c.mem, p + 1)));
    }

    // execute_handler_do, for at most n instructions.
    method Execute(n: nat) returns (done: Status)
      requires Valid()
      modifies this, stack.Repr()
      ensures Valid()
      ensures match Run(c, old(View()), n)
        case Go(t) => done == Running && View() == t
        case Done(r, w, u, b) => done == Result(r, w) && View().stack == u && View().base == b
        case Outside => done == OutsideModel
    {
      hide Machine.Step;
      var i := n;
      done := Running;
      ghost var goal := Run(c, View(), n);
      while i > 0
        invariant 0 <= i <= n && Valid() && fresh(stack.Repr() - old(stack.Repr()))
        invariant Run(c, View(), i) == goal
        decreases i
      {
        done := Step();
        if done != Running {
          return;
        }
        i := i - 1;
      }
      done := Running;
    }
  }

  lemma NoArg(c: Program, w: World, frame: seq<Cell>, i: int)
    requires i <= 0
    ensures ArgBelow(c, w, frame, i) == None
  {
  }
}
