/** What handlers see of registers: when a condition holds, and what of a value
    comes back from the stack (constable/language/execute.c:80-195). */
module Meanings {
  import opened Lists
  import opened Words
  import opened Registers
  import opened Source
  import Sem = Semantics

  // A number is true by its lower 32 bits, a pointer by all of its bits.
  lemma {:induction false} NumberTruth(s: Sem.Sem, n: Word, t: Cmd, args: seq<Reg>, w: World, fuel: nat)
    ensures Sem.Exec(s, If(Num(n), t), args, w, fuel) ==
      if n % 0x1_0000_0000 == 0 then Sem.Normal(w) else Sem.Exec(s, t, args, w, fuel)
    ensures Sem.Exec(s, If(Path(n), t), args, w, fuel) ==
      if n == 0 then Sem.Normal(w) else Sem.Exec(s, t, args, w, fuel)
  {
    assert Sem.Eval(s, Num(n), args, w, fuel) == Sem.Val(IntReg(n), w);
    assert Sem.Eval(s, Path(n), args, w, fuel) == Sem.Val(PtrReg(n), w);
  }

  // The bytes of an attribute, and whether it marks a whole object.
  function LengthOf(h: Host, a: Attr): nat {
    match a
    case Static(p) => h.attrLength(p)
    case Tmp(w) => (w[0] - w[0] % 65536) / 65536 % 65536
  }

  ghost predicate MarksObject(h: Host, a: Attr) {
    match a
    case Static(p) => h.attrIsEnd(p)
    case Tmp(w) => exists k :: w[1] == 256 * k
  }

  lemma {:induction false} LengthIs(h: Host, a: Attr)
    ensures LengthOf(h, a) == AttrLength(h, a) && (MarksObject(h, a) <==> IsEnd(h, a))
  {
    if a.Tmp? {
      var x := a.words[1];
      if x % 256 == 0 { assert x == 256 * (x / 256); }
    }
  }

  // A variable whose data is in the register is true if one of the words that hold
  // its bytes is not 0.
  lemma {:induction false} DataTruth(s: Sem.Sem, x: Word, t: Cmd, args: seq<Reg>, w: World, fuel: nat)
    requires s.h.load(w, 0, x, None).BufReg?
    ensures var r := s.h.load(w, 0, x, None);
      Sem.Exec(s, If(Var(x), t), args, w, fuel) ==
        if exists i :: 0 <= i < |r.buf| && 4 * i < LengthOf(s.h, r.attr) && r.buf[i] != 0
        then Sem.Exec(s, t, args, w, fuel) else Sem.Normal(w)
  {
    var r := s.h.load(w, 0, x, None);
    LengthIs(s.h, r.attr);
    assert Sem.Eval(s, Var(x), args, w, fuel) == Sem.Val(r, w);
    var kept := Norm(s.h, w, r).buf;
    assert |kept| == BufWords(s.h, r.attr) && forall i :: 0 <= i < |kept| ==>
      kept[i] == if i < |r.buf| then r.buf[i] else 0;
    if NonZero(s.h, w, Norm(s.h, w, r)) {
      var i :| 0 <= i < |kept| && i < BufWords(s.h, r.attr) && kept[i] != 0;
      assert r.buf[i] != 0;
    }
    if exists i :: 0 <= i < |r.buf| && 4 * i < LengthOf(s.h, r.attr) && r.buf[i] != 0 {
      var i :| 0 <= i < |r.buf| && 4 * i < LengthOf(s.h, r.attr) && r.buf[i] != 0;
      assert kept[i] != 0;
    }
  }

  // Data that went over the stack: the words that hold its bytes, those it lacked
  // as 0; and its class only where the attribute marks a whole object.
  lemma {:induction false} DataComesBack(h: Host, w: World, below: seq<Cell>, a: Attr, buf: seq<nat>, cls: nat)
    ensures var (r, s) := RPop(h, w, below + Enc(h, BufReg(a, buf, cls)));
      && s == below && r.BufReg? && r.attr == a && r.cls == (if MarksObject(h, a) then cls else 0)
      && 4 * |r.buf| < LengthOf(h, a) + 4 && LengthOf(h, a) <= 4 * |r.buf|
      && forall i :: 0 <= i < |r.buf| ==> r.buf[i] == if i < |buf| then buf[i] else 0
  {
    hide Enc, RPop;
    LengthIs(h, a);
    PopPush(h, w, below, BufReg(a, buf, cls));
  }

  // A string: its data stays where it is, with an attribute of its own, a string as
  // long as it and its closing 0.
  lemma {:induction false} StringComesBack(h: Host, w: World, below: seq<Cell>, p: Pointer)
    ensures var (r, s) := RPop(h, w, below + Enc(h, StrReg(p)));
      && s == below && r.MemReg? && r.p == p && r.cls == 0 && r.attr.Tmp?
      && LengthOf(h, r.attr) == (h.strlen(w, p) + 1) % 65536 && r.attr.words[1] == 0x83 && r.attr.words[0] % 65536 == 0
  {
    hide Enc, RPop;
    PopPush(h, w, below, StrReg(p));
    var n := (h.strlen(w, p) + 1) % 65536;
    assert n * 65536 / 65536 == n && (n * 65536) % 65536 == 0;
  }
}
