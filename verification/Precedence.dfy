/** Which operator of two is applied first (constable/language/expression.c:36-60 and
    85-131), for a text of three numbers and two operators without parentheses. */
module Precedence {
  import opened Lists
  import opened Words
  import opened Grammar
  import opened Engine
  import opened Source
  import opened Postfix
  import opened Parsing

  // a o b p c is (a o b) p c: o binds tighter than p, or as tightly, since all
  // operators associate to the left.
  predicate LeftFirst(o: BinOp, p: BinOp) {
    match o
    case Mul | Div | Mod => true
    case Add | Sub => !p.Mul? && !p.Div? && !p.Mod?
    case Shl | Shr => !p.Mul? && !p.Div? && !p.Mod? && !p.Add? && !p.Sub?
    case Lt | Gt | Le | Ge => Comparing(p) || Bitwise(p)
    case Eq | Ne => p.Eq? || p.Ne? || Bitwise(p)
    case And => Bitwise(p)
    case Xor => p.Xor? || p.Or?
    case Or => p.Or?
  }

  predicate Comparing(p: BinOp) { p.Lt? || p.Gt? || p.Le? || p.Ge? || p.Eq? || p.Ne? }

  predicate Bitwise(p: BinOp) { p.And? || p.Xor? || p.Or? }

  function NumberText(n: Word, more: Tokens): Tokens { Cons(Token(V(TNum), n), more) }

  function OpText(o: BinOp, more: Tokens): Tokens { Cons(Token(OpT(o), 0), more) }

  // a o b p c
  function TwoOperators(a: Word, o: BinOp, b: Word, p: BinOp, c: Word, more: Tokens): Tokens {
    NumberText(a, OpText(o, NumberText(b, OpText(p, NumberText(c, more)))))
  }

  function PushNumber(n: Word, more: Acts): Acts { Op2(LDI, n, Op1(LTI, more)) }

  // What the engine hands on: the operands in their order, each operator behind its
  // own two.
  lemma {:induction false} FirstApplied(a: Word, o: BinOp, b: Word, p: BinOp, c: Word, more: Tokens, st: Syms,
      last: Word)
      returns (l: Word)
    requires Look(more) == P(Semi)
    ensures Run(N(Exp2, st), TwoOperators(a, o, b, p, c, more), last) ==
      var r := Run(st, more, l);
      if r.Rejected? then Rejected
      else if LeftFirst(o, p) then Emitted(PushNumber(a,
        PushNumber(b, Op1(Alu(o), PushNumber(c, Op1(Alu(p), r.acts))))))
      else Emitted(PushNumber(a, PushNumber(b, PushNumber(c, Op1(Alu(p), Op1(Alu(o), r.acts))))))
  {
    var e := if LeftFirst(o, p) then Bin(p, Bin(o, Num(a), Num(b)), Num(c)) else Bin(o, Num(a), Bin(p, Num(b), Num(c)));
    Unparenthesised(a, o, b, p, c, more);
    hide Run, Opcode, LeftFirst, TwoOperators;
    l := Parsed(e, 16, more, st, last);
    Postfixed(a, o, b, p, c, Acted(Run(st, more, l)));
  }

  lemma {:induction false} Unparenthesised(a: Word, o: BinOp, b: Word, p: BinOp, c: Word, more: Tokens)
    ensures LeftFirst(o, p) ==>
      Write(Bin(p, Bin(o, Num(a), Num(b)), Num(c)), 16, more) == TwoOperators(a, o, b, p, c, more)
    ensures !LeftFirst(o, p) ==>
      Write(Bin(o, Num(a), Bin(p, Num(b), Num(c))), 16, more) == TwoOperators(a, o, b, p, c, more)
  {
    ByLevel(o, p);
    hide LeftFirst, OpLevel, Write, Bare;
    Levels(o);
    Levels(p);
    if LeftFirst(o, p) {
      var last := NumberText(c, more);
      WriteBin(p, Bin(o, Num(a), Num(b)), Num(c), 16, more);
      WriteNum(c, OpLevel(p) - 1, more);
      WriteBin(o, Num(a), Num(b), OpLevel(p), OpText(p, last));
      WriteNum(b, OpLevel(o) - 1, OpText(p, last));
      WriteNum(a, OpLevel(o), OpText(o, NumberText(b, OpText(p, last))));
    } else {
      var right := NumberText(b, OpText(p, NumberText(c, more)));
      WriteBin(o, Num(a), Bin(p, Num(b), Num(c)), 16, more);
      WriteBin(p, Num(b), Num(c), OpLevel(o) - 1, more);
      WriteNum(c, OpLevel(p) - 1, more);
      WriteNum(b, OpLevel(p), OpText(p, NumberText(c, more)));
      WriteNum(a, OpLevel(o), OpText(o, right));
    }
  }

  lemma ByLevel(o: BinOp, p: BinOp)
    ensures LeftFirst(o, p) <==> OpLevel(o) <= OpLevel(p)
  {
  }

  lemma Levels(o: BinOp)
    ensures 3 <= OpLevel(o) <= 10
  {
  }

  lemma WriteNum(n: Word, q: nat, more: Tokens)
    requires q >= 1
    ensures Write(Num(n), q, more) == NumberText(n, more)
  {
  }

  lemma WriteBin(o: BinOp, l: Expr, r: Expr, q: nat, more: Tokens)
    requires 1 <= OpLevel(o) <= q
    ensures Write(Bin(o, l, r), q, more) == Write(l, OpLevel(o), OpText(o, Write(r, OpLevel(o) - 1, more)))
  {
  }

  lemma Postfixed(a: Word, o: BinOp, b: Word, p: BinOp, c: Word, more: Acts)
    ensures Spell(Bin(p, Bin(o, Num(a), Num(b)), Num(c)), more) ==
      PushNumber(a, PushNumber(b, Op1(Alu(o), PushNumber(c, Op1(Alu(p), more)))))
    ensures Spell(Bin(o, Num(a), Bin(p, Num(b), Num(c))), more) ==
      PushNumber(a, PushNumber(b, PushNumber(c, Op1(Alu(p), Op1(Alu(o), more)))))
    ensures Assignable(Bin(p, Bin(o, Num(a), Num(b)), Num(c))) && Assignable(Bin(o, Num(a), Bin(p, Num(b), Num(c))))
  {
    hide Opcode, Spell, PushNumber, Op1, Assignable;
    SpellBin(p, Bin(o, Num(a), Num(b)), Num(c), more);
    SpellBin(o, Num(a), Num(b), PushNumber(c, Op1(Alu(p), more)));
    SpellBin(o, Num(a), Bin(p, Num(b), Num(c)), more);
    SpellBin(p, Num(b), Num(c), Op1(Alu(o), more));
    SpellNum(c, Op1(Alu(p), more));
    SpellNum(b, Op1(Alu(o), PushNumber(c, Op1(Alu(p), more))));
    SpellNum(a, PushNumber(b, Op1(Alu(o), PushNumber(c, Op1(Alu(p), more)))));
    SpellNum(c, Op1(Alu(p), Op1(Alu(o), more)));
    SpellNum(b, PushNumber(c, Op1(Alu(p), Op1(Alu(o), more))));
    SpellNum(a, PushNumber(b, PushNumber(c, Op1(Alu(p), Op1(Alu(o), more)))));
  }

  lemma SpellBin(o: BinOp, l: Expr, r: Expr, more: Acts)
    ensures Spell(Bin(o, l, r), more) == Spell(l, Spell(r, Op1(Alu(o), more)))
    ensures Assignable(Bin(o, l, r)) == (Assignable(l) && Assignable(r))
  {
    hide Opcode, Op1, Op2;
  }

  lemma SpellNum(n: Word, more: Acts)
    ensures Spell(Num(n), more) == PushNumber(n, more) && Assignable(Num(n))
  {
  }
}
