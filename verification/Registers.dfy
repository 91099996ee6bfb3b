/** Registers on the operand stack: R_push and R_pop (constable/language/execute.c:80-169). */
module Registers {
  import opened Lists
  import opened Words

  // The memory and variables of the daemon, as far as handlers see them.
  type World(!new)

  // Stack cells. Positions on the stack are saved as cells too; they never wrap.
  type Cell = nat

  const LTI: Cell := 0
  const LTS: Cell := 1
  const LTP: Cell := 2
  const LTO: Cell := 3
  const LTa: Cell := 4

  // An attribute elsewhere in memory (pointers are above the markers), or the
  // copy a register holds itself: struct medusa_attribute_s, 32 bytes.
  datatype Attr = Static(a: Address) | Tmp(words: AttrWords)

  type Address = a: nat | a > 4 witness 5

  type Pointer = p: nat | p > 0 witness 1

  const ATTR_WORDS := 8

  type AttrWords = s: seq<nat> | |s| == 8 witness [0, 0, 0, 0, 0, 0, 0, 0]

  // A register by the shape R_push distinguishes: an immediate integer or
  // pointer, a whole object, a C string, data elsewhere, data in its buffer.
  datatype Reg =
    | IntReg(v: nat)
    | PtrReg(v: nat)
    | ObjReg(o: nat)
    | StrReg(s: Pointer)
    | MemReg(attr: Attr, p: Pointer, cls: nat)
    | BufReg(attr: Attr, buf: seq<nat>, cls: nat)

  // What handlers need from the rest of the daemon.
  datatype Host = Host(
    attrLength: Address -> nat,
    attrIsEnd: Address -> bool,                      // type == MED_TYPE_END
    strlen: (World, nat) -> nat,
    nonZero: (World, Reg) -> bool,                   // r_nz on data elsewhere
    imm: (World, Reg) -> Reg,                        // r_imm
    sto: (World, Reg, Reg) -> World,                 // r_sto
    alu: (World, BinOp, Reg, Reg) -> (World, Reg),   // do_bin_op
    not: (World, Reg) -> (World, Reg),               // r_not
    neg: (World, Reg) -> (World, Reg),               // r_neg
    load: (World, nat, Word, Option<Word>) -> Reg,   // reg_load_var
    attrOf: (World, nat, Word) -> Reg,               // obj_to_reg, an attribute of an object
    find: (World, nat, Word) -> Option<nat>,         // data_find_var
    transfer: (World, bool, nat, nat) -> (World, int), // fetch_object, update_object
    wake: World -> World,                            // while the handler is suspended
    freeVars: (World, nat) -> World,
    stale: World -> Reg                              // a register that was not loaded
  )

  // oATR: an attribute of a register that holds an object; 0 of any other.
  function AttrOf(h: Host, w: World, r: Reg, a: Word): Reg {
    if r.ObjReg? && r.o != 0 then h.attrOf(w, r.o, a) else IntReg(0)
  }

  function AttrLength(h: Host, a: Attr): nat {
    match a
    case Static(p) => h.attrLength(p)
    case Tmp(w) => w[0] / 65536 % 65536
  }

  predicate IsEnd(h: Host, a: Attr) {
    match a
    case Static(p) => h.attrIsEnd(p)
    case Tmp(w) => w[1] % 256 == 0
  }

  function BufWords(h: Host, a: Attr): nat { (AttrLength(h, a) + 3) / 4 }

  // execute_attr_str with the length of a string.
  function StrAttr(len: nat): AttrWords { [len % 65536 * 65536, 0x83, 0, 0, 0, 0, 0, 0] }

  /* Pushing: cells from the bottom up. */

  function Reversed(s: seq<Cell>): (r: seq<Cell>)
    ensures |r| == |s|
  {
    if s == [] then [] else Reversed(s[1..]) + [s[0]]
  }

  function Fit(buf: seq<nat>, n: nat): (r: seq<nat>)
    ensures |r| == n
  {
    seq(n, i requires 0 <= i < n => if i < |buf| then buf[i] else 0)
  }

  function AttrCells(a: Attr): seq<Cell> {
    match a
    case Static(p) => [p]
    case Tmp(w) => Reversed(w) + [LTa]
  }

  function ClassCells(h: Host, a: Attr, cls: nat): seq<Cell> {
    if IsEnd(h, a) then [cls] else []
  }

  // R_push
  function Enc(h: Host, r: Reg): seq<Cell> {
    match r
    case IntReg(v) => [v, LTI]
    case PtrReg(v) => [v, LTP]
    case ObjReg(o) => [o, LTO]
    case StrReg(s) => [s, LTS]
    case MemReg(a, p, c) => [p] + ClassCells(h, a, c) + AttrCells(a)
    case BufReg(a, buf, c) => Reversed(Fit(buf, BufWords(h, a))) + [0] + ClassCells(h, a, c) + AttrCells(a)
  }

  /* Popping. A pop of the empty stack reports an underrun and yields 0. */

  function Top(s: seq<Cell>): Cell { if s == [] then 0 else s[|s| - 1] }

  function Below(s: seq<Cell>): seq<Cell> { if s == [] then [] else s[..|s| - 1] }

  function Pops(s: seq<Cell>, n: nat): (r: seq<Cell>)
    ensures |r| == n
  {
    if n == 0 then [] else [Top(s)] + Pops(Below(s), n - 1)
  }

  function Drop(s: seq<Cell>, n: nat): seq<Cell> {
    if n == 0 then s else Drop(Below(s), n - 1)
  }

  // R_pop, behind the attribute.
  function PopData(h: Host, a: Attr, s: seq<Cell>): (Reg, seq<Cell>) {
    var cls := if IsEnd(h, a) then Top(s) else 0;
    var t := if IsEnd(h, a) then Below(s) else s;
    var p := Top(t);
    if p != 0 then (MemReg(a, p, cls), Below(t))
    else (BufReg(a, Pops(Below(t), BufWords(h, a)), cls), Drop(Below(t), BufWords(h, a)))
  }

  function RPop(h: Host, w: World, s: seq<Cell>): (Reg, seq<Cell>) {
    var x, t := Top(s), Below(s);
    if x == LTI then (IntReg(Top(t)), Below(t))
    else if x == LTS then
      (if Top(t) == 0 then IntReg(0) else MemReg(Tmp(StrAttr(h.strlen(w, Top(t)) + 1)), Top(t), 0), Below(t))
    else if x == LTP then (PtrReg(Top(t)), Below(t))
    else if x == LTO then (ObjReg(Top(t)), Below(t))
    else if x == LTa then PopData(h, Tmp(Pops(t, ATTR_WORDS)), Drop(t, ATTR_WORDS))
    else PopData(h, Static(x), t)
  }

  // What is left of a register that went over the stack: the class only of
  // objects, the buffer only up to the length, and a string has a copied attribute.
  function Norm(h: Host, w: World, r: Reg): Reg {
    match r
    case StrReg(s) => MemReg(Tmp(StrAttr(h.strlen(w, s) + 1)), s, 0)
    case MemReg(a, p, c) => MemReg(a, p, if IsEnd(h, a) then c else 0)
    case BufReg(a, buf, c) => BufReg(a, Fit(buf, BufWords(h, a)), if IsEnd(h, a) then c else 0)
    case _ => r
  }

  lemma TopBelow(s: seq<Cell>, x: Cell)
    ensures Top(s + [x]) == x && Below(s + [x]) == s
  {
  }

  lemma {:induction false} PopsReversed(s: seq<Cell>, v: seq<Cell>)
    ensures Pops(s + Reversed(v), |v|) == v
    ensures Drop(s + Reversed(v), |v|) == s
  {
    if v == [] {
      assert s + [] == s;
    } else {
      var t := s + Reversed(v);
      assert t == (s + Reversed(v[1..])) + [v[0]];
      TopBelow(s + Reversed(v[1..]), v[0]);
      PopsReversed(s, v[1..]);
      assert [v[0]] + v[1..] == v;
    }
  }

  lemma {:induction false} PopDataOf(h: Host, a: Attr, s: seq<Cell>, data: seq<Cell>, x: Cell, cls: nat)
    ensures var t := s + data + [x] + ClassCells(h, a, cls);
      PopData(h, a, t) == if x != 0 then (MemReg(a, x, if IsEnd(h, a) then cls else 0), s + data)
        else (BufReg(a, Pops(s + data, BufWords(h, a)), if IsEnd(h, a) then cls else 0), Drop(s + data, BufWords(h, a)))
  {
    hide Pops, Drop;
    TopBelow(s + data, x);
    if IsEnd(h, a) {
      TopBelow(s + data + [x], cls);
    } else {
      assert s + data + [x] + [] == s + data + [x];
    }
  }

  lemma {:induction false} PopAttr(h: Host, w: World, s: seq<Cell>, a: Attr)
    ensures RPop(h, w, s + AttrCells(a)) == PopData(h, a, s)
  {
    hide Pops, Drop, PopData;
    match a
    case Static(p) => TopBelow(s, p);
    case Tmp(v) =>
      assert s + AttrCells(a) == (s + Reversed(v)) + [LTa];
      TopBelow(s + Reversed(v), LTa);
      PopsReversed(s, v);
  }

  // R_pop undoes R_push, whatever lies beneath.
  lemma {:induction false} PopPush(h: Host, w: World, s: seq<Cell>, r: Reg)
    ensures RPop(h, w, s + Enc(h, r)) == (Norm(h, w, r), s)
  {
    if r.MemReg? {
      PopPushMem(h, w, s, r);
    } else if r.BufReg? {
      PopPushBuf(h, w, s, r);
    } else {
      hide PopData, Pops, Drop;
      var e := Enc(h, r);
      assert s + e == (s + [e[0]]) + [e[1]];
      TopBelow(s + [e[0]], e[1]);
      TopBelow(s, e[0]);
    }
  }

  lemma {:induction false} PopPushMem(h: Host, w: World, s: seq<Cell>, r: Reg)
    requires r.MemReg?
    ensures RPop(h, w, s + Enc(h, r)) == (Norm(h, w, r), s)
  {
    hide Pops, Drop, PopData, RPop, AttrCells, ClassCells, IsEnd;
    var a, p, c := r.attr, r.p, r.cls;
    assert s + Enc(h, r) == (s + [] + [p] + ClassCells(h, a, c)) + AttrCells(a);
    PopAttr(h, w, s + [] + [p] + ClassCells(h, a, c), a);
    PopDataOf(h, a, s, [], p, c);
    assert s + [] == s;
  }

  lemma {:induction false} PopPushBuf(h: Host, w: World, s: seq<Cell>, r: Reg)
    requires r.BufReg?
    ensures RPop(h, w, s + Enc(h, r)) == (Norm(h, w, r), s)
  {
    hide Pops, Drop, PopData, RPop, Reversed, Fit, AttrCells, ClassCells, IsEnd;
    var a, buf, c := r.attr, r.buf, r.cls;
    var data := Reversed(Fit(buf, BufWords(h, a)));
    assert s + Enc(h, r) == (s + data + [0] + ClassCells(h, a, c)) + AttrCells(a);
    PopAttr(h, w, s + data + [0] + ClassCells(h, a, c), a);
    PopDataOf(h, a, s, data, 0, c);
    PopsReversed(s, Fit(buf, BufWords(h, a)));
  }

  // r_nz
  predicate NonZero(h: Host, w: World, r: Reg) {
    match r
    case IntReg(v) => v % 0x1_0000_0000 != 0
    case PtrReg(v) => v % WORD_LIMIT != 0
    case BufReg(a, buf, _) => exists i :: 0 <= i < |buf| && i < BufWords(h, a) && buf[i] != 0
    case _ => h.nonZero(w, r)
  }
}
