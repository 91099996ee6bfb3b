/** The output of the back-patcher for the actions of an expression is its code,
    wherever it stands. */
module Placing {
  import opened Lists
  import opened Words
  import opened Engine
  import opened Source
  import opened Postfix
  import opened Layout
  import opened Codegen

  function Before(ws: Code, r: Laid): Laid { r.(words := ws + r.words) }

  lemma BeforeBefore(a: Code, b: Code, r: Laid)
    ensures Before(a, Before(b, r)) == Before(a + b, r)
  {
    assert a + (b + r.words) == (a + b) + r.words;
  }

  ghost predicate LaysAs(acts: Acts, more: Acts, ws: Code, pos: nat, sects: seq<Section>) {
    Lay(acts, pos, sects) == Before(ws, Lay(more, pos + |ws|, sects))
  }

  ghost predicate SkipsAs(acts: Acts, more: Acts, n: nat, pos: nat, depth: nat, lab: nat, at: nat) {
    Next(acts, pos, depth, lab, at) == Next(more, pos + n, depth, lab, at)
  }

  // acts outputs the words ws and then does what more does: in every state of
  // the sections, and without giving a value to a label that is open now.
  ghost predicate Emits(acts: Acts, more: Acts, ws: Code) {
    && (forall pos: nat, sects: seq<Section> :: LaysAs(acts, more, ws, pos, sects))
    && (forall pos: nat, depth: nat, lab: nat, at: nat :: SkipsAs(acts, more, |ws|, pos, depth, lab, at))
  }

  lemma {:induction false} EmitsThen(a: Acts, b: Acts, c: Acts, v: Code, w: Code)
    requires Emits(a, b, v) && Emits(b, c, w)
    ensures Emits(a, c, v + w)
  {
    hide Lay, Next, Before;
    forall pos: nat, sects: seq<Section> ensures LaysAs(a, c, v + w, pos, sects) {
      assert LaysAs(a, b, v, pos, sects) && LaysAs(b, c, w, pos + |v|, sects);
      BeforeBefore(v, w, Lay(c, pos + |v| + |w|, sects));
    }
    forall pos: nat, depth: nat, lab: nat, at: nat ensures SkipsAs(a, c, |v + w|, pos, depth, lab, at) {
      assert SkipsAs(a, b, |v|, pos, depth, lab, at) && SkipsAs(b, c, |w|, pos + |v|, depth, lab, at);
    }
  }

  lemma {:induction false} EmitsPut(w: Word, more: Acts)
    ensures Emits(Cons(Put(w), more), more, [w])
  {
    forall pos: nat, sects: seq<Section> ensures LaysAs(Cons(Put(w), more), more, [w], pos, sects) {
    }
  }

  lemma {:induction false} EmitsPut2(v: Word, w: Word, more: Acts)
    ensures Emits(Cons(Put(v), Cons(Put(w), more)), more, [v, w])
  {
    hide Emits;
    EmitsPut(v, Cons(Put(w), more));
    EmitsPut(w, more);
    EmitsThen(Cons(Put(v), Cons(Put(w), more)), Cons(Put(w), more), more, [v], [w]);
    assert [v] + [w] == [v, w];
  }

  lemma {:induction false} EmitsPut3(u: Word, v: Word, w: Word, more: Acts)
    ensures Emits(Cons(Put(u), Cons(Put(v), Cons(Put(w), more))), more, [u, v, w])
  {
    hide Emits;
    EmitsPut(u, Cons(Put(v), Cons(Put(w), more)));
    EmitsPut2(v, w, more);
    EmitsThen(Cons(Put(u), Cons(Put(v), Cons(Put(w), more))), Cons(Put(v), Cons(Put(w), more)), more, [u], [v, w]);
    assert [u] + [v, w] == [u, v, w];
  }

  lemma {:induction false} EmitsIncremented(op: BinOp, more: Acts)
    ensures Emits(Incremented(op, more), more, IncCode(op))
  {
    hide Emits, Opcode;
    var rest := Op1(Alu(op), Op1(STO, more));
    EmitsPut2(W(DUP), W(LD1), rest);
    EmitsPut2(W(Alu(op)), W(STO), more);
    EmitsThen(Incremented(op, more), rest, more, [W(DUP), W(LD1)], [W(Alu(op)), W(STO)]);
    assert [W(DUP), W(LD1)] + [W(Alu(op)), W(STO)] == IncCode(op);
  }

  lemma {:induction false} EmitsOld(op: BinOp, more: Acts)
    ensures Emits(OldAndIncremented(op, more), more, OldCode(op))
  {
    hide Emits, Opcode, IncCode;
    var inc := Incremented(op, Op1(DEL, more));
    EmitsPut3(W(DUP), W(IMM), W(SWP), inc);
    EmitsIncremented(op, Op1(DEL, more));
    EmitsPut(W(DEL), more);
    EmitsThen(OldAndIncremented(op, more), inc, Op1(DEL, more), [W(DUP), W(IMM), W(SWP)], IncCode(op));
    EmitsThen(OldAndIncremented(op, more), Op1(DEL, more), more, [W(DUP), W(IMM), W(SWP)] + IncCode(op), [W(DEL)]);
  }

  /* References. */

  function RefAt(more: Acts, pos: nat, sects: seq<Section>, k: nat, lab: nat, at: nat): Word
    requires k < |sects|
  {
    var l := LabelOf(sects[k], lab);
    if l != Undefined then Value(l, at) else Next(more, pos, |sects| - 1 - k, lab, at)
  }

  // An instruction with a reference to a label of the innermost section of a type.
  lemma {:induction false} LayOpRef(op: Op, typ: nat, lab: nat, more: Acts, pos: nat, sects: seq<Section>)
    requires Nearest(sects, typ).Some?
    ensures var k := Nearest(sects, typ).value;
      Lay(OpRef(op, typ, lab, more), pos, sects)
        == Before([W(op), RefAt(more, pos + 2, sects, k, lab, pos + 1)], Lay(more, pos + 2, Refer(sects, k, lab)))
  {
    hide Opcode, Next, Refer;
    var k := Nearest(sects, typ).value;
    var ref := Cons(PutRef(typ, lab), more);
    var r := Lay(more, pos + 2, Refer(sects, k, lab));
    assert Lay(ref, pos + 1, sects) == Before([Referred(more, pos + 1, sects, k, lab)], r);
    assert Lay(OpRef(op, typ, lab, more), pos, sects) == Before([W(op)], Lay(ref, pos + 1, sects));
    BeforeBefore([W(op)], [Referred(more, pos + 1, sects, k, lab)], r);
  }

  lemma {:induction false} NextOpRef(op: Op, typ: nat, lab: nat, more: Acts, pos: nat, depth: nat, l: nat, at: nat)
    ensures Next(OpRef(op, typ, lab, more), pos, depth, l, at) == Next(more, pos + 2, depth, l, at)
  {
    hide Opcode;
  }

  /* Single actions. */

  lemma LayPut(w: Word, more: Acts, pos: nat, sects: seq<Section>)
    ensures Lay(Cons(Put(w), more), pos, sects) == Before([w], Lay(more, pos + 1, sects))
  {
  }

  lemma LaySetPos(lab: nat, more: Acts, pos: nat, sects: seq<Section>, s: Section)
    ensures Lay(Cons(SetPos(lab), more), pos, sects + [s]) == Lay(more, pos, sects + [Set(s, lab, Pos(pos))])
  {
    assert Define(sects + [s], lab, Pos(pos)) == sects + [Set(s, lab, Pos(pos))];
  }

  lemma LaySectEnd(more: Acts, pos: nat, sects: seq<Section>, s: Section)
    requires AllDefined(s)
    ensures Lay(Cons(SectEnd, more), pos, sects + [s]) == Lay(more, pos, sects)
  {
    assert (sects + [s])[..|sects|] == sects;
  }

  function Set(s: Section, lab: nat, l: Label): Section { s.(labels := s.labels[lab := l]) }

  // The section after a reference to a label that is undefined.
  function Awaiting(s: Section, lab: nat): Section {
    s.(labels := s.labels[lab := Undefined], awaited := s.awaited + {lab})
  }

  lemma ReferTop(sects: seq<Section>, s: Section, lab: nat)
    requires LabelOf(s, lab) == Undefined
    ensures Refer(sects + [s], |sects|, lab) == sects + [Awaiting(s, lab)]
  {
  }

  lemma NextPut(w: Word, more: Acts, pos: nat, depth: nat, lab: nat, at: nat)
    ensures Next(Cons(Put(w), more), pos, depth, lab, at) == Next(more, pos + 1, depth, lab, at)
  {
  }

  lemma NextSetPos(l: nat, more: Acts, pos: nat, depth: nat, lab: nat, at: nat)
    ensures Next(Cons(SetPos(l), more), pos, depth, lab, at)
         == if depth == 0 && l == lab then Offset(pos, at) else Next(more, pos, depth, lab, at)
  {
  }

  lemma NextSectEnd(more: Acts, pos: nat, depth: nat, lab: nat, at: nat)
    ensures Next(Cons(SectEnd, more), pos, depth, lab, at) == if depth == 0 then 0
        else Next(more, pos, depth - 1, lab, at)
  {
  }

  lemma NearestTop(sects: seq<Section>, s: Section)
    ensures Nearest(sects + [s], s.typ) == Some(|sects|)
  {
  }

  lemma NearestBelow(sects: seq<Section>, s: Section, typ: nat)
    requires s.typ != typ
    ensures Nearest(sects + [s], typ) == Nearest(sects, typ)
  {
    assert (sects + [s])[..|sects|] == sects;
  }

  // A reference n words back from its label.
  lemma OffsetRel(target: nat, at: nat)
    ensures Offset(target, at) == Rel(target - (at + 1))
  {
  }

  /* && and || */

  // The section of a chain once its exit has been referred to.
  function ChainSect(): Section { Section(0xf, map[1 := Undefined], {1}) }

  predicate InChain(s: Section) { s == Section(0xf, map[], {}) || s == ChainSect() }

  lemma ReferChain(sects: seq<Section>, s: Section)
    requires InChain(s)
    ensures Refer(sects + [s], |sects|, 1) == sects + [ChainSect()]
  {
    ReferTop(sects, s, 1);
    var m: map<nat, Label> := map[1 := Undefined];
    var none: map<nat, Label> := map[];
    assert m[1 := Undefined] == m && none[1 := Undefined] == m;
    assert s.labels == none || s.labels == m;
    assert s.awaited + {1} == {1};
  }

  // Label lab of the section that was open when acts began leads to target.
  ghost predicate Leads(acts: Acts, pos: nat, lab: nat, target: nat) {
    forall at: nat :: Next(acts, pos, 0, lab, at) == Offset(target, at)
  }

  // One more operand of a chain: its jump, and then the operand.
  lemma {:induction false} LayOperand(jump: Op, right: Acts, more: Acts, code: Code, d: nat, pos: nat,
      sects: seq<Section>, s: Section)
    requires Emits(right, more, code) && InChain(s)
    requires Leads(more, pos + 2 + |code|, 1, pos + 2 + |code| + d)
    ensures Lay(OpRef(jump, 0xf, 1, right), pos, sects + [s])
         == Before([W(jump), Rel(|code| + d)] + code, Lay(more, pos + 2 + |code|, sects + [ChainSect()]))
    ensures Leads(OpRef(jump, 0xf, 1, right), pos, 1, pos + 2 + |code| + d)
  {
    hide Lay, Opcode, Next, Refer;
    NearestTop(sects, s);
    LayOpRef(jump, 0xf, 1, right, pos, sects + [s]);
    ReferChain(sects, s);
    assert LaysAs(right, more, code, pos + 2, sects + [ChainSect()]);
    assert SkipsAs(right, more, |code|, pos + 2, 0, 1, pos + 1);
    OffsetRel(pos + 2 + |code| + d, pos + 1);
    var target := pos + 2 + |code| + d;
    assert RefAt(right, pos + 2, sects + [s], |sects|, 1, pos + 1) == Rel(|code| + d);
    BeforeBefore([W(jump), Rel(|code| + d)], code, Lay(more, pos + 2 + |code|, sects + [ChainSect()]));
    forall at: nat ensures Next(OpRef(jump, 0xf, 1, right), pos, 0, 1, at) == Offset(target, at) {
      NextOperand(jump, right, more, code, pos, 0, 1, at);
    }
  }

  lemma {:induction false} NextOperand(jump: Op, right: Acts, more: Acts, code: Code, pos: nat, depth: nat, lab: nat,
      at: nat)
    requires Emits(right, more, code)
    ensures Next(OpRef(jump, 0xf, 1, right), pos, depth, lab, at) == Next(more, pos + 2 + |code|, depth, lab, at)
  {
    hide Lay, Opcode, Next;
    NextOpRef(jump, 0xf, 1, right, pos, depth, lab, at);
    assert SkipsAs(right, more, |code|, pos + 2, depth, lab, at);
  }

  /* The end of a chain. */

  function EndActs(more: Acts): Acts { Cons(SetPos(2), Cons(SectEnd, more)) }

  function ExitActs(some: Op, more: Acts): Acts { Cons(SetPos(1), Op1(some, EndActs(more))) }

  lemma {:induction false} LayExit(some: Op, more: Acts, pos: nat, sects: seq<Section>)
    ensures var s := Awaiting(ChainSect(), 2);
      Lay(ExitActs(some, more), pos, sects + [s]) == Before([W(some)], Lay(more, pos + 1, sects))
  {
    hide Opcode, Lay;
    var s := Awaiting(ChainSect(), 2);
    var s1 := Set(s, 1, Pos(pos));
    LaySetPos(1, Op1(some, EndActs(more)), pos, sects, s);
    LayPut(W(some), EndActs(more), pos, sects + [s1]);
    LaySetPos(2, Cons(SectEnd, more), pos + 1, sects, s1);
    LaySectEnd(more, pos + 1, sects, Set(s1, 2, Pos(pos + 1)));
  }

  lemma {:induction false} NextExit(some: Op, more: Acts, pos: nat, depth: nat, lab: nat, at: nat)
    ensures Next(ExitActs(some, more), pos, depth, lab, at)
         == if depth > 0 then Next(more, pos + 1, depth - 1, lab, at)
            else if lab == 1 then Offset(pos, at) else if lab == 2 then Offset(pos + 1, at) else 0
  {
    hide Opcode, Next;
    NextSetPos(1, Op1(some, EndActs(more)), pos, depth, lab, at);
    NextPut(W(some), EndActs(more), pos, depth, lab, at);
    NextSetPos(2, Cons(SectEnd, more), pos + 1, depth, lab, at);
    NextSectEnd(more, pos + 1, depth, lab, at);
  }

  lemma {:induction false} NextChainEnd(jump: Op, all: Op, some: Op, more: Acts, pos: nat, depth: nat, lab: nat,
      at: nat)
    ensures Next(ChainEnd(jump, all, some, more), pos, depth, lab, at) ==
        Next(ExitActs(some, more), pos + 5, depth, lab, at)
  {
    hide Opcode, Next;
    var skip := OpRef(JR, 0xf, 2, ExitActs(some, more));
    NextOpRef(jump, 0xf, 1, Op1(all, skip), pos, depth, lab, at);
    NextPut(W(all), skip, pos + 2, depth, lab, at);
    NextOpRef(JR, 0xf, 2, ExitActs(some, more), pos + 3, depth, lab, at);
  }

  // JR to label 2, over the value the exit loads.
  lemma {:induction false} LaySkip(all: Op, some: Op, more: Acts, pos: nat, sects: seq<Section>)
    ensures Lay(Op1(all, OpRef(JR, 0xf, 2, ExitActs(some, more))), pos, sects + [ChainSect()])
         == Before([W(all), W(JR), Rel(1), W(some)], Lay(more, pos + 4, sects))
  {
    hide Opcode, Lay, Next, Refer, ExitActs;
    var s0 := sects + [ChainSect()];
    var exit := ExitActs(some, more);
    LayPut(W(all), OpRef(JR, 0xf, 2, exit), pos, s0);
    NearestTop(sects, ChainSect());
    LayOpRef(JR, 0xf, 2, exit, pos + 1, s0);
    ReferTop(sects, ChainSect(), 2);
    NextExit(some, more, pos + 3, 0, 2, pos + 2);
    OffsetRel(pos + 4, pos + 2);
    LayExit(some, more, pos + 3, sects);
    var r := Lay(more, pos + 4, sects);
    BeforeBefore([W(JR), Rel(1)], [W(some)], r);
    BeforeBefore([W(all)], [W(JR), Rel(1)] + [W(some)], r);
    assert [W(all)] + ([W(JR), Rel(1)] + [W(some)]) == [W(all), W(JR), Rel(1), W(some)];
  }

  lemma {:induction false} LayChainEnd(jump: Op, all: Op, some: Op, more: Acts, pos: nat, sects: seq<Section>)
    ensures Lay(ChainEnd(jump, all, some, more), pos, sects + [ChainSect()])
         == Before(ChainCode(jump, all, some), Lay(more, pos + 6, sects))
    ensures Leads(ChainEnd(jump, all, some, more), pos, 1, pos + 5)
  {
    hide Opcode, Lay, Next, Refer, ExitActs;
    var s0 := sects + [ChainSect()];
    var skip := Op1(all, OpRef(JR, 0xf, 2, ExitActs(some, more)));
    NearestTop(sects, ChainSect());
    LayOpRef(jump, 0xf, 1, skip, pos, s0);
    ReferChain(sects, ChainSect());
    assert ChainEnd(jump, all, some, more) == OpRef(jump, 0xf, 1, skip) by { ChainEndIs(jump, all, some, more); }
    forall at: nat ensures Next(ChainEnd(jump, all, some, more), pos, 0, 1, at) == Offset(pos + 5, at) {
      NextChainEnd(jump, all, some, more, pos, 0, 1, at);
      NextExit(some, more, pos + 5, 0, 1, at);
    }
    NextOpRef(jump, 0xf, 1, skip, pos, 0, 1, pos + 1);
    OffsetRel(pos + 5, pos + 1);
    LaySkip(all, some, more, pos + 2, sects);
    BeforeBefore([W(jump), Rel(3)], [W(all), W(JR), Rel(1), W(some)], Lay(more, pos + 6, sects));
    assert [W(jump), Rel(3)] + [W(all), W(JR), Rel(1), W(some)] == ChainCode(jump, all, some);
  }

  lemma ChainEndIs(jump: Op, all: Op, some: Op, more: Acts)
    ensures ChainEnd(jump, all, some, more) == OpRef(jump, 0xf, 1, Op1(all, OpRef(JR, 0xf, 2, ExitActs(some, more))))
  {
  }

  lemma NextStart(typ: nat, more: Acts, pos: nat, depth: nat, lab: nat, at: nat)
    ensures Next(Cons(SectStart(typ), more), pos, depth, lab, at) == Next(more, pos, depth + 1, lab, at)
  {
  }

  lemma LayStart(typ: nat, more: Acts, pos: nat, sects: seq<Section>)
    ensures Lay(Cons(SectStart(typ), more), pos, sects) == Lay(more, pos, sects + [Section(typ, map[], {})])
  {
  }

  /* ?:, if and if-else: a section with label 1 behind the first branch and
     label 2 behind the second. */

  function Tested(typ: nat): Section { Section(typ, map[1 := Undefined], {1}) }

  function Split(typ: nat, p: nat): Section { Section(typ, map[1 := Pos(p), 2 := Undefined], {1, 2}) }

  lemma {:induction false} LayTestStart(typ: nat, rest: Acts, pos: nat, sects: seq<Section>)
    ensures Lay(TestStart(typ, rest), pos, sects)
         == Before([W(JIZ), Next(rest, pos + 2, 0, 1, pos + 1)], Lay(rest, pos + 2, sects + [Tested(typ)]))
  {
    hide Opcode, Lay, Next, Refer;
    var s := Section(typ, map[], {});
    LayStart(typ, OpRef(JIZ, typ, 1, rest), pos, sects);
    NearestTop(sects, s);
    LayOpRef(JIZ, typ, 1, rest, pos, sects + [s]);
    ReferTop(sects, s, 1);
    var none: map<nat, Label> := map[];
    assert none[1 := Undefined] == map[1 := Undefined];
    assert Awaiting(s, 1) == Tested(typ);
  }

  lemma {:induction false} NextTestStart(typ: nat, rest: Acts, pos: nat, depth: nat, lab: nat, at: nat)
    ensures Next(TestStart(typ, rest), pos, depth, lab, at) == Next(rest, pos + 2, depth + 1, lab, at)
  {
    hide Opcode, Next;
    NextStart(typ, OpRef(JIZ, typ, 1, rest), pos, depth, lab, at);
    NextOpRef(JIZ, typ, 1, rest, pos, depth + 1, lab, at);
  }

  lemma {:induction false} LayTestElse(typ: nat, rest: Acts, pos: nat, sects: seq<Section>)
    ensures Lay(TestElse(typ, rest), pos, sects + [Tested(typ)])
         == Before([W(JR), Next(rest, pos + 2, 0, 2, pos + 1)], Lay(rest, pos + 2, sects + [Split(typ, pos + 2)]))
  {
    hide Opcode, Lay, Next, Refer;
    var s := Tested(typ);
    NearestTop(sects, s);
    LayOpRef(JR, typ, 2, Cons(SetPos(1), rest), pos, sects + [s]);
    NextSetPos(1, rest, pos + 2, 0, 2, pos + 1);
    ReferTop(sects, s, 2);
    LaySetPos(1, rest, pos + 2, sects, Awaiting(s, 2));
    var m: map<nat, Label> := map[1 := Undefined];
    assert m[2 := Undefined][1 := Pos(pos + 2)] == map[1 := Pos(pos + 2), 2 := Undefined];
    assert Set(Awaiting(s, 2), 1, Pos(pos + 2)) == Split(typ, pos + 2);
  }

  lemma {:induction false} NextTestElse(typ: nat, rest: Acts, pos: nat, depth: nat, lab: nat, at: nat)
    ensures Next(TestElse(typ, rest), pos, depth, lab, at)
         == if depth == 0 && lab == 1 then Offset(pos + 2, at) else Next(rest, pos + 2, depth, lab, at)
  {
    hide Opcode, Next;
    NextOpRef(JR, typ, 2, Cons(SetPos(1), rest), pos, depth, lab, at);
    NextSetPos(1, rest, pos + 2, depth, lab, at);
  }

  lemma {:induction false} LayTestEnd(lab: nat, more: Acts, pos: nat, sects: seq<Section>, s: Section)
    requires AllDefined(Set(s, lab, Pos(pos)))
    ensures Lay(TestEnd(lab, more), pos, sects + [s]) == Lay(more, pos, sects)
  {
    hide Lay;
    LaySetPos(lab, Cons(SectEnd, more), pos, sects, s);
    LaySectEnd(more, pos, sects, Set(s, lab, Pos(pos)));
  }

  lemma {:induction false} NextTestEnd(l: nat, more: Acts, pos: nat, depth: nat, lab: nat, at: nat)
    ensures Next(TestEnd(l, more), pos, depth, lab, at)
         == if depth > 0 then Next(more, pos, depth - 1, lab, at) else if lab == l then Offset(pos, at) else 0
  {
    hide Next;
    NextSetPos(l, Cons(SectEnd, more), pos, depth, lab, at);
    NextSectEnd(more, pos, depth, lab, at);
  }

  // c ? t : f, for branches that leave the sections as they are.
  lemma {:induction false} EmitsBranches(typ: nat, t: Acts, f: Acts, more: Acts, tc: Code, fc: Code)
    requires Emits(t, TestElse(typ, f), tc) && Emits(f, TestEnd(2, more), fc)
    ensures Emits(TestStart(typ, t), more, TestCode([], tc, fc))
  {
    hide Opcode, Lay, Next, TestStart, TestElse, TestEnd, Tested, Split, Before;
    forall pos: nat, depth: nat, lab: nat, at: nat
      ensures SkipsAs(TestStart(typ, t), more, |TestCode([], tc, fc)|, pos, depth, lab, at)
    {
      NextBranches(typ, t, f, more, tc, fc, pos, depth, lab, at);
    }
    forall pos: nat, sects: seq<Section> ensures LaysAs(TestStart(typ, t), more, TestCode([], tc, fc), pos, sects) {
      LayBranches(typ, t, f, more, tc, fc, pos, sects);
    }
  }

  lemma {:induction false} NextBranches(typ: nat, t: Acts, f: Acts, more: Acts, tc: Code, fc: Code, pos: nat,
      depth: nat, lab: nat, at: nat)
    requires Emits(t, TestElse(typ, f), tc) && Emits(f, TestEnd(2, more), fc)
    ensures Next(TestStart(typ, t), pos, depth, lab, at) == Next(more, pos + |tc| + |fc| + 4, depth, lab, at)
  {
    hide Opcode, Lay, Next, TestStart, TestElse, TestEnd;
    NextTestStart(typ, t, pos, depth, lab, at);
    assert SkipsAs(t, TestElse(typ, f), |tc|, pos + 2, depth + 1, lab, at);
    NextTestElse(typ, f, pos + 2 + |tc|, depth + 1, lab, at);
    assert SkipsAs(f, TestEnd(2, more), |fc|, pos + 4 + |tc|, depth + 1, lab, at);
    NextTestEnd(2, more, pos + 4 + |tc| + |fc|, depth + 1, lab, at);
  }

  lemma {:induction false} LayBranches(typ: nat, t: Acts, f: Acts, more: Acts, tc: Code, fc: Code, pos: nat,
      sects: seq<Section>)
    requires Emits(t, TestElse(typ, f), tc) && Emits(f, TestEnd(2, more), fc)
    ensures LaysAs(TestStart(typ, t), more, TestCode([], tc, fc), pos, sects)
  {
    hide Opcode, Lay, Next, TestStart, TestElse, TestEnd;
    var p2 := pos + 4 + |tc|;
    var p3 := p2 + |fc|;
    var r := Lay(more, p3, sects);
    LayTestStart(typ, t, pos, sects);
    assert SkipsAs(t, TestElse(typ, f), |tc|, pos + 2, 0, 1, pos + 1);
    NextTestElse(typ, f, pos + 2 + |tc|, 0, 1, pos + 1);
    OffsetRel(p2, pos + 1);
    assert LaysAs(t, TestElse(typ, f), tc, pos + 2, sects + [Tested(typ)]);
    LayTestElse(typ, f, pos + 2 + |tc|, sects);
    assert SkipsAs(f, TestEnd(2, more), |fc|, p2, 0, 2, p2 - 1);
    NextTestEnd(2, more, p3, 0, 2, p2 - 1);
    OffsetRel(p3, p2 - 1);
    assert LaysAs(f, TestEnd(2, more), fc, p2, sects + [Split(typ, p2)]);
    LayTestEnd(2, more, p3, sects, Split(typ, p2));
    BeforeTest(tc, fc, r);
  }

  lemma BeforeTest(tc: Code, fc: Code, r: Laid)
    ensures Before([W(JIZ), Rel(|tc| + 2)], Before(tc, Before([W(JR), Rel(|fc|)], Before(fc, r)))) ==
        Before(TestCode([], tc, fc), r)
  {
    var j1, j2 := [W(JIZ), Rel(|tc| + 2)], [W(JR), Rel(|fc|)];
    BeforeBefore(j2, fc, r);
    BeforeBefore(tc, j2 + fc, r);
    BeforeBefore(j1, tc + (j2 + fc), r);
    assert j1 + (tc + (j2 + fc)) == TestCode([], tc, fc);
  }

  /* Calls: label 0 of a section of type 4 counts the arguments, label 1 is the function. */

  function CallSect(f: Word, counted: bool, n: nat): Section {
    Section(4, if counted then map[1 := Data(f), 0 := Data(n % WORD_LIMIT)] else map[1 := Data(f)], {})
  }

  lemma {:induction false} LayCount(delta: int, more: Acts, pos: nat, sects: seq<Section>, f: Word, counted: bool,
      n: nat)
    requires n + delta >= 0 && (counted || n == 0)
    ensures Lay(Cons(Inc(0, delta), more), pos, sects + [CallSect(f, counted, n)])
         == Lay(more, pos, sects + [CallSect(f, true, n + delta)])
  {
    var s := CallSect(f, counted, n);
    var l := Counted(LabelOf(s, 0), delta);
    CountWraps(n, delta);
    assert l == Data((n + delta) % WORD_LIMIT);
    var m: map<nat, Label> := s.labels;
    assert m[0 := l] == map[1 := Data(f), 0 := Data((n + delta) % WORD_LIMIT)];
    assert Define(sects + [s], 0, l) == sects + [CallSect(f, true, n + delta)];
  }

  lemma CountWraps(n: nat, delta: int)
    ensures (n % WORD_LIMIT + delta) % WORD_LIMIT == (n + delta) % WORD_LIMIT
  {
    var q := n / WORD_LIMIT;
    var r := (n % WORD_LIMIT + delta) % WORD_LIMIT;
    var k := (n % WORD_LIMIT + delta) / WORD_LIMIT;
    assert n + delta == r + (q + k) * WORD_LIMIT;
    ModCancel(r, q + k, WORD_LIMIT);
  }

  lemma NextCount(delta: int, more: Acts, pos: nat, depth: nat, lab: nat, at: nat)
    requires depth > 0
    ensures Next(Cons(Inc(0, delta), more), pos, depth, lab, at) == Next(more, pos, depth, lab, at)
  {
  }

  lemma {:induction false} LayCallStart(f: Word, rest: Acts, pos: nat, sects: seq<Section>)
    ensures Lay(CallStart(f, rest), pos, sects) == Lay(rest, pos, sects + [CallSect(f, false, 0)])
  {
    var s := Section(4, map[], {});
    LayStart(4, Cons(SetData(1, f), rest), pos, sects);
    var none: map<nat, Label> := map[];
    assert none[1 := Data(f)] == map[1 := Data(f)];
    assert Define(sects + [s], 1, Data(f)) == sects + [CallSect(f, false, 0)];
  }

  lemma NextCallStart(f: Word, rest: Acts, pos: nat, depth: nat, lab: nat, at: nat)
    ensures Next(CallStart(f, rest), pos, depth, lab, at) == Next(rest, pos, depth + 1, lab, at)
  {
  }

  lemma {:induction false} LayCallEnd(f: Word, n: nat, more: Acts, pos: nat, sects: seq<Section>)
    ensures Lay(CallEnd(more), pos, sects + [CallSect(f, true, n)]) == Before(CallCode(f, n), Lay(more, pos + 5, sects))
  {
    hide Opcode, Lay, Next;
    var s := CallSect(f, true, n);
    var tail := Op1(DEn, Cons(SectEnd, more));
    NearestTop(sects, s);
    LayOpRef(LDI, 4, 0, OpRef(JSR, 4, 1, tail), pos, sects + [s]);
    LayOpRef(JSR, 4, 1, tail, pos + 2, sects + [s]);
    LayPut(W(DEn), Cons(SectEnd, more), pos + 4, sects + [s]);
    LaySectEnd(more, pos + 5, sects, s);
    var r := Lay(more, pos + 5, sects);
    BeforeBefore([W(JSR), f], [W(DEn)], r);
    BeforeBefore([W(LDI), n % WORD_LIMIT], [W(JSR), f] + [W(DEn)], r);
    assert [W(LDI), n % WORD_LIMIT] + ([W(JSR), f] + [W(DEn)]) == CallCode(f, n);
  }

  lemma {:induction false} NextCallEnd(more: Acts, pos: nat, depth: nat, lab: nat, at: nat)
    requires depth > 0
    ensures Next(CallEnd(more), pos, depth, lab, at) == Next(more, pos + 5, depth - 1, lab, at)
  {
    hide Opcode, Next;
    var tail := Op1(DEn, Cons(SectEnd, more));
    NextOpRef(LDI, 4, 0, OpRef(JSR, 4, 1, tail), pos, depth, lab, at);
    NextOpRef(JSR, 4, 1, tail, pos + 2, depth, lab, at);
    NextPut(W(DEn), Cons(SectEnd, more), pos + 4, depth, lab, at);
    NextSectEnd(more, pos + 5, depth, lab, at);
  }
}
