/** Every command lays out as its code. A break or continue refers to a label of
    an enclosing loop, which the code around the command defines. */
module PlacingCmds {
  import opened Lists
  import opened Words
  import opened Engine
  import opened Source
  import opened Postfix
  import opened Layout
  import opened Codegen
  import opened Placing
  import opened PlacingExprs

  predicate HasBreak(c: Cmd) {
    match c
    case Block(cs) => HasBreaks(cs)
    case If(_, t) => HasBreak(t)
    case IfElse(_, t, f) => HasBreak(t) || HasBreak(f)
    case Break => true
    case _ => false
  }

  predicate HasBreaks(cs: Cmds) { cs.MoreCmd? && (HasBreak(cs.c) || HasBreaks(cs.rest)) }

  predicate HasContinue(c: Cmd) {
    match c
    case Block(cs) => HasContinues(cs)
    case If(_, t) => HasContinue(t)
    case IfElse(_, t, f) => HasContinue(t) || HasContinue(f)
    case Continue => true
    case _ => false
  }

  predicate HasContinues(cs: Cmds) { cs.MoreCmd? && (HasContinue(cs.c) || HasContinues(cs.rest)) }

  /* Sections after references to the labels of break (type 2) and continue (type 3). */

  type Sects = seq<Section>

  function Mark(sects: Sects, typ: nat, used: bool): (r: Sects)
    ensures |r| == |sects|
  {
    var k := Nearest(sects, typ);
    if used && k.Some? then Refer(sects, k.value, 0xff) else sects
  }

  function Marked(sects: Sects, brk: bool, cont: bool): (r: Sects)
    ensures |r| == |sects|
  {
    Mark(Mark(sects, 2, brk), 3, cont)
  }

  // Same types and same values of every label.
  ghost predicate Alike(s: Sects, s': Sects) {
    && |s| == |s'|
    && forall k :: 0 <= k < |s| ==> s[k].typ == s'[k].typ && forall lab :: LabelOf(s[k], lab) == LabelOf(s'[k], lab)
  }

  lemma {:induction false} NearestAlike(s: Sects, s': Sects, typ: nat)
    requires |s| == |s'| && forall k :: 0 <= k < |s| ==> s[k].typ == s'[k].typ
    ensures Nearest(s, typ) == Nearest(s', typ)
    decreases |s|
  {
    if s != [] {
      NearestAlike(s[..|s| - 1], s'[..|s| - 1], typ);
    }
  }

  lemma ReferAlike(sects: Sects, k: nat, lab: nat)
    requires k < |sects|
    ensures Alike(Refer(sects, k, lab), sects)
  {
  }

  lemma {:induction false} MarkAlike(sects: Sects, typ: nat, used: bool)
    ensures Alike(Mark(sects, typ, used), sects)
    ensures forall t: nat :: Nearest(Mark(sects, typ, used), t) == Nearest(sects, t)
  {
    hide Nearest, Refer;
    var k := Nearest(sects, typ);
    if used && k.Some? { ReferAlike(sects, k.value, 0xff); }
    forall t: nat ensures Nearest(Mark(sects, typ, used), t) == Nearest(sects, t) {
      NearestAlike(Mark(sects, typ, used), sects, t);
    }
  }

  lemma {:induction false} MarkedAlike(sects: Sects, brk: bool, cont: bool)
    ensures Alike(Marked(sects, brk, cont), sects)
    ensures forall t: nat :: Nearest(Marked(sects, brk, cont), t) == Nearest(sects, t)
  {
    hide Nearest, Mark;
    MarkAlike(sects, 2, brk);
    MarkAlike(Mark(sects, 2, brk), 3, cont);
  }

  lemma {:induction false} MarkTwice(sects: Sects, typ: nat, u: bool, v: bool)
    ensures Mark(Mark(sects, typ, u), typ, v) == Mark(sects, typ, u || v)
  {
    hide Nearest;
    MarkAlike(sects, typ, u);
    var k := Nearest(sects, typ);
    if u && v && k.Some? {
      ReferTwice(sects, k.value, 0xff);
    }
  }

  lemma ReferTwice(sects: Sects, k: nat, lab: nat)
    requires k < |sects|
    ensures Refer(Refer(sects, k, lab), k, lab) == Refer(sects, k, lab)
  {
    if LabelOf(sects[k], lab) == Undefined {
      var s := Awaiting(sects[k], lab);
      assert s.labels[lab := Undefined] == s.labels && s.awaited + {lab} == s.awaited;
    }
  }

  lemma {:induction false} MarkCommutes(sects: Sects, u: bool, v: bool)
    ensures Mark(Mark(sects, 3, u), 2, v) == Mark(Mark(sects, 2, v), 3, u)
  {
    hide Nearest;
    MarkAlike(sects, 3, u);
    MarkAlike(sects, 2, v);
    var k2, k3 := Nearest(sects, 2), Nearest(sects, 3);
    if u && v && k2.Some? && k3.Some? {
      assert k2.value != k3.value;
      assert Refer(Refer(sects, k3.value, 0xff), k2.value, 0xff) == Refer(Refer(sects, k2.value, 0xff), k3.value, 0xff);
    }
  }

  lemma {:induction false} MarkedTwice(sects: Sects, b: bool, c: bool, b': bool, c': bool)
    ensures Marked(Marked(sects, b, c), b', c') == Marked(sects, b || b', c || c')
  {
    hide Mark;
    MarkCommutes(Mark(sects, 2, b), c, b');
    MarkTwice(sects, 2, b, b');
    MarkTwice(Mark(sects, 2, b || b'), 3, c, c');
  }

  lemma {:induction false} MarkedBelow(sects: Sects, s: Section, brk: bool, cont: bool)
    requires s.typ != 2 && s.typ != 3
    ensures Marked(sects + [s], brk, cont) == Marked(sects, brk, cont) + [s]
  {
    hide Nearest;
    NearestBelow(sects, s, 2);
    assert Mark(sects + [s], 2, brk) == Mark(sects, 2, brk) + [s] by { ReferBelow(sects, s, 2); }
    NearestBelow(Mark(sects, 2, brk), s, 3);
    ReferBelow(Mark(sects, 2, brk), s, 3);
  }

  lemma ReferBelow(sects: Sects, s: Section, typ: nat)
    ensures var k := Nearest(sects, typ); k.Some? ==>
        Refer(sects + [s], k.value, 0xff) == Refer(sects, k.value, 0xff) + [s]
  {
  }

  /* Where break and continue lead. */

  // A reference to label 0xff of the innermost section of a type leads to target.
  ghost predicate Aims(sects: Sects, typ: nat, more: Acts, pos: nat, target: int) {
    && Nearest(sects, typ).Some? && target >= 0
    && forall at: nat :: RefAt(more, pos, sects, Nearest(sects, typ).value, 0xff, at) == Offset(target, at)
  }

  ghost predicate Loops(sects: Sects, more: Acts, pos: nat, brk: int, cont: int) {
    Aims(sects, 2, more, pos, pos + brk) && Aims(sects, 3, more, pos, pos + cont)
  }

  lemma {:induction false} AimsAlike(sects: Sects, sects': Sects, typ: nat, more: Acts, pos: nat, target: int)
    requires Alike(sects, sects') && Nearest(sects, typ) == Nearest(sects', typ)
    requires Aims(sects, typ, more, pos, target)
    ensures Aims(sects', typ, more, pos, target)
  {
    hide Nearest, Next;
    var k := Nearest(sects, typ).value;
    forall at: nat ensures RefAt(more, pos, sects', k, 0xff, at) == Offset(target, at) {
      assert RefAt(more, pos, sects, k, 0xff, at) == Offset(target, at);
    }
  }

  lemma {:induction false} LoopsMarked(sects: Sects, more: Acts, pos: nat, brk: int, cont: int, b: bool, c: bool)
    requires Loops(sects, more, pos, brk, cont)
    ensures Loops(Marked(sects, b, c), more, pos, brk, cont)
  {
    hide Nearest, Aims, Marked;
    MarkedAlike(sects, b, c);
    AimsAlike(sects, Marked(sects, b, c), 2, more, pos, pos + brk);
    AimsAlike(sects, Marked(sects, b, c), 3, more, pos, pos + cont);
  }

  // acts skips n words, and closes the section s, without giving a value to 0xff.
  ghost predicate Passes(acts: Acts, pos: nat, more: Acts, n: nat, up: nat) {
    forall depth: nat, at: nat :: PassesAt(acts, pos, more, n, up, depth, at)
  }

  ghost predicate PassesAt(acts: Acts, pos: nat, more: Acts, n: nat, up: nat, depth: nat, at: nat) {
    Next(acts, pos, depth + up, 0xff, at) == Next(more, pos + n, depth, 0xff, at)
  }

  lemma {:induction false} AimsPass(sects: Sects, typ: nat, acts: Acts, pos: nat, more: Acts, n: nat, target: int)
    requires Aims(sects, typ, more, pos + n, target) && Passes(acts, pos, more, n, 0)
    ensures Aims(sects, typ, acts, pos, target)
  {
    hide Nearest, Next;
    var k := Nearest(sects, typ).value;
    forall at: nat ensures RefAt(acts, pos, sects, k, 0xff, at) == Offset(target, at) {
      assert RefAt(more, pos + n, sects, k, 0xff, at) == Offset(target, at);
      assert PassesAt(acts, pos, more, n, 0, |sects| - 1 - k, at);
    }
  }

  lemma {:induction false} AimsInside(sects: Sects, s: Section, typ: nat, acts: Acts, pos: nat, more: Acts, n: nat,
      target: int)
    requires s.typ != typ && Aims(sects, typ, more, pos + n, target) && Passes(acts, pos, more, n, 1)
    ensures Aims(sects + [s], typ, acts, pos, target)
  {
    hide Nearest, Next;
    NearestBelow(sects, s, typ);
    var k := Nearest(sects, typ).value;
    forall at: nat ensures RefAt(acts, pos, sects + [s], k, 0xff, at) == Offset(target, at) {
      assert RefAt(more, pos + n, sects, k, 0xff, at) == Offset(target, at);
      assert PassesAt(acts, pos, more, n, 1, |sects| - 1 - k, at);
    }
  }

  lemma {:induction false} LoopsPass(sects: Sects, acts: Acts, pos: nat, more: Acts, n: nat, brk: int, cont: int)
    requires Loops(sects, more, pos + n, brk, cont) && Passes(acts, pos, more, n, 0)
    ensures Loops(sects, acts, pos, n + brk, n + cont)
  {
    hide Aims, Passes;
    AimsPass(sects, 2, acts, pos, more, n, pos + n + brk);
    AimsPass(sects, 3, acts, pos, more, n, pos + n + cont);
  }

  lemma {:induction false} LoopsInside(sects: Sects, s: Section, acts: Acts, pos: nat, more: Acts, n: nat, brk: int,
      cont: int)
    requires s.typ != 2 && s.typ != 3
    requires Loops(sects, more, pos + n, brk, cont) && Passes(acts, pos, more, n, 1)
    ensures Loops(sects + [s], acts, pos, n + brk, n + cont)
  {
    hide Aims, Passes;
    AimsInside(sects, s, 2, acts, pos, more, n, pos + n + brk);
    AimsInside(sects, s, 3, acts, pos, more, n, pos + n + cont);
  }

  /* Expressions inside commands. */

  lemma {:induction false} LayExpr(e: Expr, rest: Acts, pos: nat, sects: Sects)
    ensures Lay(Spell(e, rest), pos, sects) == Before(CodeE(e), Lay(rest, pos + |CodeE(e)|, sects))
  {
    hide Lay, Next, Spell, CodeE, Before;
    Spelled(e, rest);
    assert LaysAs(Spell(e, rest), rest, CodeE(e), pos, sects);
  }

  lemma {:induction false} NextExpr(e: Expr, rest: Acts, pos: nat, depth: nat, lab: nat, at: nat)
    ensures Next(Spell(e, rest), pos, depth, lab, at) == Next(rest, pos + |CodeE(e)|, depth, lab, at)
  {
    hide Lay, Next, Spell, CodeE, Before;
    Spelled(e, rest);
    assert SkipsAs(Spell(e, rest), rest, |CodeE(e)|, pos, depth, lab, at);
  }

  /* The sections of a loop. Label 1 is its start, 0xff of type 3 its test or
     step, 2 the end of its body, 0xff of type 2 its end. */

  function Exit(used: bool): Section {
    Section(2, if used then map[0xff := Undefined] else map[], if used then {0xff} else {})
  }

  function Start(p: nat, used: bool): Section {
    Section(3, if used then map[1 := Pos(p), 0xff := Undefined] else map[1 := Pos(p)], if used then {0xff} else {})
  }

  function Body(p: nat, t: nat, awaited: set<nat>): Section {
    Section(3, map[1 := Pos(p), 0xff := Pos(t), 2 := Undefined], awaited)
  }

  function Last(p: nat, t: nat, q: nat, awaited: set<nat>): Section {
    Section(3, map[1 := Pos(p), 0xff := Pos(t), 2 := Pos(q)], awaited)
  }

  lemma NearestExit(sects: Sects, x: Section, y: Section)
    requires x.typ == 2 && y.typ == 3
    ensures Nearest(sects + [x] + [y], 2) == Some(|sects|)
    ensures Nearest(sects + [x] + [y], 3) == Some(|sects| + 1)
  {
    NearestBelow(sects + [x], y, 2);
    NearestTop(sects, x);
    NearestTop(sects + [x], y);
  }

  lemma ReferExit(sects: Sects, b: bool, y: Section)
    ensures Refer(sects + [Exit(b)] + [y], |sects|, 0xff) == sects + [Exit(true)] + [y]
  {
    var x := Exit(b);
    var none: map<nat, Label> := map[];
    var m: map<nat, Label> := map[0xff := Undefined];
    assert none[0xff := Undefined] == m && m[0xff := Undefined] == m;
    assert x.labels == none || x.labels == m;
    assert x.awaited + {0xff} == {0xff};
    assert Awaiting(x, 0xff) == Exit(true);
    var s := sects + [x] + [y];
    assert s[|sects|] == x;
    assert s[|sects| := Exit(true)] == sects + [Exit(true)] + [y];
  }

  // Commands in a loop whose continue label is known.
  lemma {:induction false} MarkedKnown(sects: Sects, b: bool, y: Section, brk: bool, cont: bool)
    requires y.typ == 3 && LabelOf(y, 0xff) != Undefined
    ensures Marked(sects + [Exit(b)] + [y], brk, cont) == sects + [Exit(b || brk)] + [y]
  {
    hide Nearest, Refer;
    NearestExit(sects, Exit(b), y);
    NearestExit(sects, Exit(true), y);
    ReferExit(sects, b, y);
    assert Refer(sects + [Exit(b || brk)] + [y], |sects| + 1, 0xff) == sects + [Exit(b || brk)] + [y] by {
      ReferKnown(sects + [Exit(b || brk)], y);
    }
  }

  lemma ReferKnown(sects: Sects, y: Section)
    requires LabelOf(y, 0xff) != Undefined
    ensures Refer(sects + [y], |sects|, 0xff) == sects + [y]
  {
  }

  // Commands in front of the test of a do-while.
  lemma {:induction false} MarkedStart(sects: Sects, p: nat, brk: bool, cont: bool)
    ensures Marked(sects + [Exit(false)] + [Start(p, false)], brk, cont) == sects + [Exit(brk)] + [Start(p, cont)]
  {
    hide Nearest, Refer;
    var y := Start(p, false);
    NearestExit(sects, Exit(false), y);
    NearestExit(sects, Exit(true), y);
    ReferExit(sects, false, y);
    ReferTop(sects + [Exit(brk)], y, 0xff);
    var m: map<nat, Label> := map[1 := Pos(p)];
    assert m[0xff := Undefined] == map[1 := Pos(p), 0xff := Undefined];
    assert Awaiting(y, 0xff) == Start(p, true);
  }

  // Inside a loop, break leads to the end that the actions to come define.
  lemma {:induction false} LoopsKnown(sects: Sects, b: bool, y: Section, acts: Acts, pos: nat, t: nat, end: nat)
    requires y.typ == 3 && LabelOf(y, 0xff) == Pos(t)
    requires forall at: nat :: Next(acts, pos, 1, 0xff, at) == Offset(end, at)
    ensures Loops(sects + [Exit(b)] + [y], acts, pos, end - pos, t - pos)
  {
    hide Nearest, Next;
    NearestExit(sects, Exit(b), y);
    var s := sects + [Exit(b)] + [y];
    assert s[|sects|] == Exit(b) && s[|sects| + 1] == y;
  }

  lemma {:induction false} LoopsStart(sects: Sects, p: nat, acts: Acts, pos: nat, end: nat)
    requires forall at: nat :: Next(acts, pos, 0, 0xff, at) == Offset(pos, at)
    requires forall at: nat :: Next(acts, pos, 1, 0xff, at) == Offset(end, at)
    ensures Loops(sects + [Exit(false)] + [Start(p, false)], acts, pos, end - pos, 0)
  {
    hide Nearest, Next;
    var y := Start(p, false);
    NearestExit(sects, Exit(false), y);
    var s := sects + [Exit(false)] + [y];
    assert s[|sects|] == Exit(false) && s[|sects| + 1] == y;
  }

  lemma {:induction false} LayLoopStart(rest: Acts, pos: nat, sects: Sects)
    ensures Lay(LoopStart(rest), pos, sects) == Lay(rest, pos, sects + [Exit(false)] + [Start(pos, false)])
  {
    hide Lay;
    var y := Section(3, map[], {});
    LayStart(2, Cons(SectStart(3), Cons(SetPos(1), rest)), pos, sects);
    LayStart(3, Cons(SetPos(1), rest), pos, sects + [Exit(false)]);
    LaySetPos(1, rest, pos, sects + [Exit(false)], y);
    var none: map<nat, Label> := map[];
    assert none[1 := Pos(pos)] == map[1 := Pos(pos)];
    assert Set(y, 1, Pos(pos)) == Start(pos, false);
  }

  lemma {:induction false} NextLoopStart(rest: Acts, pos: nat, depth: nat, lab: nat, at: nat)
    ensures Next(LoopStart(rest), pos, depth, lab, at) == Next(rest, pos, depth + 2, lab, at)
  {
    hide Next;
    NextStart(2, Cons(SectStart(3), Cons(SetPos(1), rest)), pos, depth, lab, at);
    NextStart(3, Cons(SetPos(1), rest), pos, depth + 1, lab, at);
    NextSetPos(1, rest, pos, depth + 2, lab, at);
  }

  lemma {:induction false} LayLoopTest(e: Expr, rest: Acts, pos: nat, sects: Sects, p: nat, used: bool)
    returns (awaited: set<nat>)
    ensures var q := pos + |CodeE(e)|;
      Lay(LoopTest(e, rest), pos, sects + [Start(p, used)])
        == Before(CodeE(e) + [W(JIZ), Next(rest, q + 2, 0, 2, q + 1)],
          Lay(rest, q + 2, sects + [Body(p, pos, awaited)]))
  {
    hide Lay, Next, Opcode, Spell, CodeE, Refer;
    var jump := OpRef(JIZ, 3, 2, rest);
    var q := pos + |CodeE(e)|;
    LaySetPos(0xff, Spell(e, jump), pos, sects, Start(p, used));
    var y := Section(3, map[1 := Pos(p), 0xff := Pos(pos)], Start(p, used).awaited);
    var m: map<nat, Label> := Start(p, used).labels;
    assert m[0xff := Pos(pos)] == map[1 := Pos(p), 0xff := Pos(pos)];
    assert Set(Start(p, used), 0xff, Pos(pos)) == y;
    LayExpr(e, jump, pos, sects + [y]);
    NearestTop(sects, y);
    LayOpRef(JIZ, 3, 2, rest, q, sects + [y]);
    ReferTop(sects, y, 2);
    awaited := y.awaited + {2};
    var m2: map<nat, Label> := map[1 := Pos(p), 0xff := Pos(pos)];
    assert m2[2 := Undefined] == map[1 := Pos(p), 0xff := Pos(pos), 2 := Undefined];
    assert Awaiting(y, 2) == Body(p, pos, awaited);
    BeforeBefore(CodeE(e), [W(JIZ), Next(rest, q + 2, 0, 2, q + 1)], Lay(rest, q + 2, sects + [Body(p, pos, awaited)]));
  }

  lemma {:induction false} NextLoopTest(e: Expr, rest: Acts, pos: nat, depth: nat, lab: nat, at: nat)
    ensures Next(LoopTest(e, rest), pos, depth, lab, at)
         == if depth == 0 && lab == 0xff then Offset(pos, at) else Next(rest, pos + |CodeE(e)| + 2, depth, lab, at)
  {
    hide Next, Opcode, Spell, CodeE;
    var jump := OpRef(JIZ, 3, 2, rest);
    NextSetPos(0xff, Spell(e, jump), pos, depth, lab, at);
    NextExpr(e, jump, pos, depth, lab, at);
    NextOpRef(JIZ, 3, 2, rest, pos + |CodeE(e)|, depth, lab, at);
  }

  lemma {:induction false} LayLoopBack(rest: Acts, pos: nat, sects: Sects, p: nat, t: nat, awaited: set<nat>)
    ensures Lay(LoopBack(rest), pos, sects + [Body(p, t, awaited)])
         == Before([W(JR), Rel(p - (pos + 2))], Lay(rest, pos + 2, sects + [Last(p, t, pos + 2, awaited)]))
  {
    hide Lay, Next, Opcode;
    var y := Body(p, t, awaited);
    NearestTop(sects, y);
    LayOpRef(JR, 3, 1, Cons(SetPos(2), rest), pos, sects + [y]);
    OffsetRel(p, pos + 1);
    LaySetPos(2, rest, pos + 2, sects, y);
    var m: map<nat, Label> := y.labels;
    assert m[2 := Pos(pos + 2)] == map[1 := Pos(p), 0xff := Pos(t), 2 := Pos(pos + 2)];
    assert Set(y, 2, Pos(pos + 2)) == Last(p, t, pos + 2, awaited);
  }

  lemma {:induction false} NextLoopBack(rest: Acts, pos: nat, depth: nat, lab: nat, at: nat)
    ensures Next(LoopBack(rest), pos, depth, lab, at)
         == if depth == 0 && lab == 2 then Offset(pos + 2, at) else Next(rest, pos + 2, depth, lab, at)
  {
    hide Next, Opcode;
    NextOpRef(JR, 3, 1, Cons(SetPos(2), rest), pos, depth, lab, at);
    NextSetPos(2, rest, pos + 2, depth, lab, at);
  }

  lemma {:induction false} LayLoopEnd(more: Acts, pos: nat, sects: Sects, b: bool, y: Section)
    requires AllDefined(y)
    ensures Lay(LoopEnd(more), pos, sects + [Exit(b)] + [y]) == Lay(more, pos, sects)
  {
    hide Lay;
    LaySectEnd(Cons(SetPos(0xff), Cons(SectEnd, more)), pos, sects + [Exit(b)], y);
    LaySetPos(0xff, Cons(SectEnd, more), pos, sects, Exit(b));
    LaySectEnd(more, pos, sects, Set(Exit(b), 0xff, Pos(pos)));
  }

  lemma {:induction false} NextLoopEnd(more: Acts, pos: nat, depth: nat, lab: nat, at: nat)
    ensures Next(LoopEnd(more), pos, depth, lab, at)
         == if depth == 0 then 0 else if depth == 1 then (if lab == 0xff then Offset(pos, at) else 0)
            else Next(more, pos, depth - 2, lab, at)
  {
    hide Next;
    NextSectEnd(Cons(SetPos(0xff), Cons(SectEnd, more)), pos, depth, lab, at);
    if depth > 0 {
      NextSetPos(0xff, Cons(SectEnd, more), pos, depth - 1, lab, at);
      NextSectEnd(more, pos, depth - 1, lab, at);
    }
  }
}
