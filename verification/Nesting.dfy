/** How the rows of the table open and close sections. */
module NestingRules {
  import opened Lists
  import opened Words
  import opened Grammar
  import opened Engine

  // The number of open sections behind a run of output symbols that starts with
  // d open ones; -1 if a label is set outside a section, or no section can close.
  function WalkOuts(outs: Outs, d: int): int
    decreases outs
  {
    if d < 0 then -1 else
    match outs
    case Done => d
    case Start(_, rest) => WalkOuts(rest, d + 1)
    case End(rest) => if d < 1 then -1 else WalkOuts(rest, d - 1)
    case Here(_, rest) => if d < 1 then -1 else WalkOuts(rest, d)
    case HereOnce(_, rest) => if d < 1 then -1 else WalkOuts(rest, d)
    case SetVal(_, rest) => if d < 1 then -1 else WalkOuts(rest, d)
    case IncVal(_, rest) => if d < 1 then -1 else WalkOuts(rest, d)
    case DecVal(_, rest) => if d < 1 then -1 else WalkOuts(rest, d)
    case O(_, rest) => WalkOuts(rest, d)
    case OutVal(rest) => WalkOuts(rest, d)
    case Val(_, rest) => WalkOuts(rest, d)
    case OutRef(_, _, rest) => WalkOuts(rest, d)
  }

  // No section is opened or closed and no label is set.
  predicate Quiet(outs: Outs)
    decreases outs
  {
    match outs
    case Done => true
    case O(_, rest) => Quiet(rest)
    case OutVal(rest) => Quiet(rest)
    case Val(_, rest) => Quiet(rest)
    case OutRef(_, _, rest) => Quiet(rest)
    case _ => false
  }

  lemma {:induction false} QuietWalk(outs: Outs, d: int)
    requires Quiet(outs)
    ensures WalkOuts(outs, d) == if d < 0 then -1 else d
    decreases outs
  {
    if !outs.Done? { QuietWalk(outs.more, d); }
  }

  // What a state of the table needs and leaves.
  function NeedNT(nt: NT): int {
    match nt
    case Args => 1 case Args1 => 1 case Args2 => 1 case ArgNext => 1
    case AndMore => 1 case OrMore => 1 case IfTail => 1
    case DoTail => 2 case WhileC => 2 case WhileTail => 2
    case SwitchBody => 1 case SwitchMore => 1
    case _ => 0
  }

  function NetNT(nt: NT): int {
    match nt
    case AndMore => -1 case OrMore => -1 case IfTail => -1
    case DoTail => -2 case WhileC => -2 case WhileTail => -2
    case _ => 0
  }

  function Walk(stack: Syms, d: int): int
    decreases stack
  {
    if d < 0 then -1 else
    match stack
    case Eps => d
    case T(_, rest) => Walk(rest, d)
    case Do(outs, rest) => Walk(rest, WalkOuts(outs, d))
    case N(nt, rest) => if d < NeedNT(nt) then -1 else Walk(rest, d + NetNT(nt))
  }

  // Every row starts with need open sections and leaves left of them.
  predicate Nested(rows: Rows, need: int, left: int)
    decreases rows
  {
    match rows
    case NoRow => true
    case Row(_, body, next) => Walk(body, need) == left && Nested(next, need, left)
  }

  predicate FlatRows(rows: Rows)
    decreases rows
  {
    match rows
    case NoRow => true
    case Row(_, body, next) => Flat(body) && FlatRows(next)
  }

  // A right-hand side without sections.
  predicate Flat(stack: Syms)
    decreases stack
  {
    match stack
    case Eps => true
    case T(_, rest) => Flat(rest)
    case Do(outs, rest) => Quiet(outs) && Flat(rest)
    case N(nt, rest) => Plain(nt) && Flat(rest)
  }

  predicate Plain(nt: NT) {
    match nt
    case Args => false case Args1 => false case Args2 => false case ArgNext => false
    case AndMore => false case OrMore => false case IfTail => false
    case DoTail => false case WhileC => false case WhileTail => false
    case SwitchBody => false case SwitchMore => false
    case _ => true
  }

  lemma {:induction false} FlatWalk(stack: Syms, d: nat)
    requires Flat(stack)
    ensures Walk(stack, d) == d
    decreases stack
  {
    match stack
    case Eps =>
    case T(_, rest) => FlatWalk(rest, d);
    case Do(outs, rest) =>
      QuietWalk(outs, d);
      FlatWalk(rest, d);
    case N(nt, rest) => FlatWalk(rest, d);
  }

  lemma {:induction false} FlatNested(rows: Rows)
    requires FlatRows(rows)
    ensures Nested(rows, 0, 0)
    decreases rows
  {
    hide Walk, Flat;
    if rows.Row? {
      FlatWalk(rows.body, 0);
      FlatNested(rows.next);
    }
  }

  lemma {:induction false} LevelTailFlat(n: nat)
    ensures FlatRows(LevelTailRows(n))
  {
    match n { case 3 => case 4 => case 5 => case 6 => case 7 => case 8 => case 9 => case 10 => case _ => }
  }

  lemma {:induction false} NameFlat()
    ensures FlatRows(DataRows(IdTail)) && FlatRows(DataRows(AttrTail))
  {
  }

  lemma {:induction false} PrefixFlat()
    ensures FlatRows(ArithmeticRows(Prefix)) && FlatRows(ArithmeticRows(Postfix))
  {
    hide FlatRows, ArithmeticRows;
    SignFlat();
    IncFlat();
  }

  lemma {:induction false} SignFlat()
    ensures FlatRows(ArithmeticRows(Prefix))
  {
  }

  lemma {:induction false} IncFlat()
    ensures FlatRows(ArithmeticRows(Postfix))
  {
  }

  lemma {:induction false} LevelFlat(n: nat)
    ensures FlatRows(ArithmeticRows(Level(n))) && FlatRows(ArithmeticRows(LevelTail(n)))
  {
    LevelTailFlat(n);
    OperandFlat(n);
  }

  lemma OperandFlat(n: nat)
    ensures Flat(N(Operand(n), N(LevelTail(n), Eps)))
  {
    assert Flat(N(LevelTail(n), Eps));
  }

  lemma {:induction false} LogicFlat()
    ensures FlatRows(LogicRows(AndL)) && FlatRows(LogicRows(XorL)) && FlatRows(LogicRows(XorTail)) &&
        FlatRows(LogicRows(OrL))
  {
  }

  lemma {:induction false} TopFlat()
    ensures FlatRows(TopRows(CondL)) && FlatRows(TopRows(AssignL))
  {
  }

  lemma {:induction false} CommaFlat()
    ensures FlatRows(TopRows(Exp)) && FlatRows(TopRows(Exp2)) && FlatRows(TopRows(Exp2Tail))
  {
  }

  lemma {:induction false} AssignFlat()
    ensures FlatRows(TopRows(AssignTail))
  {
  }

  lemma {:induction false} ForFlat()
    ensures FlatRows(ControlRows(ForCond)) && FlatRows(ControlRows(ForExp))
  {
  }

  lemma {:induction false} BlockFlat()
    ensures FlatRows(BlockRows(ReturnTail)) && FlatRows(BlockRows(ReturnZero))
    ensures FlatRows(BlockRows(Commands)) && FlatRows(BlockRows(Program))
  {
    hide FlatRows, BlockRows;
    ReturnFlat();
    CommandsFlat();
  }

  lemma {:induction false} ReturnFlat()
    ensures FlatRows(BlockRows(ReturnTail)) && FlatRows(BlockRows(ReturnZero))
  {
  }

  lemma {:induction false} CommandsFlat()
    ensures FlatRows(BlockRows(Commands)) && FlatRows(BlockRows(Program))
  {
  }

  lemma {:induction false} AndStart()
    ensures Nested(LogicRows(AndTail), 0, 0)
  {
  }

  lemma {:induction false} OrStart()
    ensures Nested(LogicRows(OrTail), 0, 0)
  {
  }

  lemma {:induction false} AndWalk()
    ensures WalkOuts(O(JIZ, OutRef(0xf, 1, O(LD1, O(JR, OutRef(0xf, 2, Here(1, O(LD0, Here(2, End(Done))))))))), 1) == 0
    ensures WalkOuts(O(JNZ, OutRef(0xf, 1, O(LD0, O(JR, OutRef(0xf, 2, Here(1, O(LD1, Here(2, End(Done))))))))), 1) == 0
  {
  }

  lemma {:induction false} MoreWalk(nt: NT, next: NT, outs: Outs, t: Term)
    requires nt.Level? || nt.XorL?
    requires next.AndMore? || next.OrMore?
    requires WalkOuts(outs, 1) == 1
    ensures Walk(T(t, Do(outs, N(nt, N(next, Eps)))), 1) == 0
  {
    assert Walk(N(next, Eps), 1) == 0;
    assert Walk(N(nt, N(next, Eps)), 1) == 0;
    assert Walk(Do(outs, N(nt, N(next, Eps))), 1) == 0;
  }

  lemma {:induction false} EndWalk(outs: Outs)
    requires WalkOuts(outs, 1) == 0
    ensures Nested(Row(Any, Do(outs, Eps), NoRow), 1, 0)
  {
    assert Walk(Eps, 0) == 0;
  }

  lemma {:induction false} ChainNested()
    ensures Nested(LogicRows(AndMore), 1, 0)
    ensures Nested(LogicRows(OrMore), 1, 0)
  {
    hide Nested, Walk;
    AndWalk();
    EndWalk(O(JIZ, OutRef(0xf, 1, O(LD1, O(JR, OutRef(0xf, 2, Here(1, O(LD0, Here(2, End(Done))))))))));
    EndWalk(O(JNZ, OutRef(0xf, 1, O(LD0, O(JR, OutRef(0xf, 2, Here(1, O(LD1, Here(2, End(Done))))))))));
    MoreWalk(Level(10), AndMore, O(JIZ, OutRef(0xf, 1, Done)), P(AndAnd));
    MoreWalk(XorL, OrMore, O(JNZ, OutRef(0xf, 1, Done)), P(OrOr));
    RowNested(LogicRows(AndMore), 1, 0);
    RowNested(LogicRows(OrMore), 1, 0);
  }

  lemma {:induction false} CondNested()
    ensures Nested(TopRows(CondTail), 0, 0)
  {
  }

  lemma {:induction false} ArgsNested()
    ensures Nested(DataRows(Args), 1, 1) && Nested(DataRows(Args1), 1, 1)
  {
  }

  lemma {:induction false} ArgNested()
    ensures Nested(DataRows(Args2), 1, 1) && Nested(DataRows(ArgNext), 1, 1)
  {
  }

  lemma {:induction false} IfNested()
    ensures Nested(ControlRows(IfTail), 1, 0)
  {
  }

  lemma {:induction false} DoNested()
    ensures Nested(ControlRows(DoTail), 2, 0)
  {
  }

  lemma {:induction false} LoopNested()
    ensures Nested(ControlRows(WhileC), 2, 0)
  {
  }

  lemma {:induction false} WhileNested()
    ensures Nested(ControlRows(WhileTail), 2, 0)
  {
  }

  lemma {:induction false} CaseWalk()
    ensures Walk(T(K(CaseK), Do(HereOnce(0, O(DUP, Done)), N(Exp2, T(P(Colon),
      Do(O(Alu(Eq), O(JIZ, OutRef(2, 0, HereOnce(1, Done)))), N(SwitchMore, Eps)))))), 1) == 1
  {
  }

  lemma {:induction false} DefaultWalk()
    ensures Walk(Do(O(JR, OutRef(2, 0, Done)), T(K(DefaultK),
        Do(Here(2, HereOnce(1, Done)), T(P(Colon), N(SwitchMore, Eps))))), 1) == 1
  {
  }

  lemma {:induction false} SwitchNested()
    ensures Nested(ControlRows(SwitchBody), 1, 1)
  {
    hide Nested, Walk;
    CaseWalk();
    DefaultWalk();
    var r := ControlRows(SwitchBody);
    assert Nested(NoRow, 1, 1) by { NoRowNested(); }
    RowNested(r.next, 1, 1);
    RowNested(r, 1, 1);
  }

  lemma NoRowNested()
    ensures Nested(NoRow, 1, 1)
  {
  }

  lemma {:induction false} SwitchMoreNested()
    ensures Nested(ControlRows(SwitchMore), 1, 1)
  {
    hide Nested, Walk;
    var last := Row(Any, N(Command, N(SwitchMore, Eps)), NoRow);
    var close := Row(On(P(RBrace)), Do(O(JR, OutRef(2, 0xff, Here(0, O(JR, OutRef(2, 2, Done))))), Eps), last);
    SwitchMoreWalks();
    RowNested(last, 1, 1);
    RowNested(close, 1, 1);
    RowNested(Row(On2(K(CaseK), K(DefaultK)), Do(O(JR, OutRef(2, 1, Done)), N(SwitchBody, Eps)), close), 1, 1);
  }

  lemma {:induction false} SwitchMoreWalks()
    ensures Walk(N(Command, N(SwitchMore, Eps)), 1) == 1 && Nested(NoRow, 1, 1)
    ensures Walk(Do(O(JR, OutRef(2, 0xff, Here(0, O(JR, OutRef(2, 2, Done))))), Eps), 1) == 1
    ensures Walk(Do(O(JR, OutRef(2, 1, Done)), N(SwitchBody, Eps)), 1) == 1
  {
  }

  // The rows of a call and of a builtin.
  lemma {:induction false} CallWalk(t: Lexeme, op: Op)
    ensures Walk(T(V(t), Do(SetVal(1, Done), N(Args, Do(O(op, OutRef(4, 1, O(DEn, End(Done)))), N(AttrTail, Eps))))),
        1) == 0
  {
    assert WalkOuts(O(op, OutRef(4, 1, O(DEn, End(Done)))), 1) == 0;
    var tail := Do(O(op, OutRef(4, 1, O(DEn, End(Done)))), N(AttrTail, Eps));
    assert Walk(tail, 1) == 0;
    assert Walk(N(Args, tail), 1) == 0;
    assert Walk(Do(SetVal(1, Done), N(Args, tail)), 1) == 0;
  }

  // Peels one row.
  lemma {:induction false} RowNested(rows: Rows, need: int, left: int)
    requires rows.Row? && Walk(rows.body, need) == left && Nested(rows.next, need, left)
    ensures Nested(rows, need, left)
  {
  }

  lemma {:induction false} ValueNested()
    ensures Nested(DataRows(Value), 0, 0)
  {
    hide Nested, Walk, WalkOuts;
    var r1 := DataRows(Value);
    var r2 := r1.next; var r3 := r2.next; var r4 := r3.next; var r5 := r4.next; var r6 := r5.next; var r7 := r6.next;
      var r8 := r7.next;
    assert FlatRows(r8);
    FlatNested(r8);
    ValueCalls(r7.body, r6.body);
    RowNested(r7, 0, 0);
    RowNested(r6, 0, 0);
    FlatWalk(r5.body, 0); RowNested(r5, 0, 0);
    FlatWalk(r4.body, 0); RowNested(r4, 0, 0);
    FlatWalk(r3.body, 0); RowNested(r3, 0, 0);
    FlatWalk(r2.body, 0); RowNested(r2, 0, 0);
    FlatWalk(r1.body, 0); RowNested(r1, 0, 0);
  }

  lemma {:induction false} ValueCalls(call: Syms, builtin: Syms)
    requires call == Do(Start(4, Done), T(V(TCall),
        Do(SetVal(1, Done), N(Args, Do(O(JSR, OutRef(4, 1, O(DEn, End(Done)))), N(AttrTail, Eps))))))
    requires builtin == Do(Start(4, Done), T(V(TBuildin),
        Do(SetVal(1, Done), N(Args, Do(O(BIN, OutRef(4, 1, O(DEn, End(Done)))), N(AttrTail, Eps))))))
    ensures Walk(call, 0) == 0 && Walk(builtin, 0) == 0
  {
    CallWalk(TCall, JSR);
    CallWalk(TBuildin, BIN);
    assert WalkOuts(Start(4, Done), 0) == 1;
  }

  lemma {:induction false} IfWalk()
    ensures Walk(T(K(IfK), N(Exp2, Do(Start(1, O(JIZ, OutRef(1, 1, Done))), N(Command, N(IfTail, Eps))))), 0) == 0
  {
  }

  lemma {:induction false} LoopWalk()
    ensures Walk(T(K(DoK), Do(Start(2, Start(3, Here(1, Done))), N(Command, N(DoTail, Eps)))), 0) == 0
    ensures Walk(Do(Start(2, Start(3, Here(1, Done))), N(WhileC, Eps)), 0) == 0
  {
  }

  lemma {:induction false} ForTailWalk()
    ensures Walk(T(P(Semi), Do(Here(0xff, Done), N(ForExp, Do(O(JR, OutRef(3, 4, Done)), T(P(RParen),
              Do(Here(3, Done), N(Command, Do(O(JR, OutRef(3, 0xff, End(Here(0xff, End(Done))))), Eps)))))))), 2) == 0
  {
    assert WalkOuts(O(JR, OutRef(3, 0xff, End(Here(0xff, End(Done))))), 2) == 0;
    var close := Do(O(JR, OutRef(3, 0xff, End(Here(0xff, End(Done))))), Eps);
    assert Walk(close, 2) == 0;
    assert WalkOuts(Here(3, Done), 2) == 2 && WalkOuts(O(JR, OutRef(3, 4, Done)), 2) == 2 &&
      WalkOuts(Here(0xff, Done), 2) == 2;
    var body := Do(Here(3, Done), N(Command, close));
    assert Walk(body, 2) == 0;
    var step := N(ForExp, Do(O(JR, OutRef(3, 4, Done)), T(P(RParen), body)));
    assert Walk(step, 2) == 0;
  }

  lemma {:induction false} ForHeadWalk(tail: Syms)
    requires Walk(tail, 2) == 0
    ensures Walk(T(K(ForK), Do(Start(2, Start(3, Done)), T(P(LParen), N(ForExp, T(P(Semi),
              Do(Here(4, Done), N(ForCond, Do(O(JR, OutRef(3, 3, Done)), tail)))))))), 0) == 0
  {
    assert WalkOuts(O(JR, OutRef(3, 3, Done)), 2) == 2 && WalkOuts(Here(4, Done), 2) == 2;
    var s1 := N(ForCond, Do(O(JR, OutRef(3, 3, Done)), tail));
    assert Walk(Do(O(JR, OutRef(3, 3, Done)), tail), 2) == 0;
    assert Walk(s1, 2) == 0;
    assert Walk(Do(Here(4, Done), s1), 2) == 0;
    var s2 := N(ForExp, T(P(Semi), Do(Here(4, Done), s1)));
    assert Walk(T(P(Semi), Do(Here(4, Done), s1)), 2) == 0;
    assert Walk(s2, 2) == 0;
    assert WalkOuts(Start(2, Start(3, Done)), 0) == 2;
    assert Walk(T(P(LParen), s2), 2) == 0;
  }

  lemma {:induction false} ForWalk()
    ensures Walk(T(K(ForK), Do(Start(2, Start(3, Done)), T(P(LParen), N(ForExp, T(P(Semi),
              Do(Here(4, Done), N(ForCond, Do(O(JR, OutRef(3, 3, Done)), T(P(Semi),
              Do(Here(0xff, Done), N(ForExp, Do(O(JR, OutRef(3, 4, Done)), T(P(RParen),
              Do(Here(3, Done), N(Command,
              Do(O(JR, OutRef(3, 0xff, End(Here(0xff, End(Done))))), Eps)))))))))))))))), 0) == 0
  {
    hide Walk, WalkOuts;
    ForTailWalk();
    ForHeadWalk(T(P(Semi), Do(Here(0xff, Done), N(ForExp, Do(O(JR, OutRef(3, 4, Done)), T(P(RParen),
              Do(Here(3, Done), N(Command, Do(O(JR, OutRef(3, 0xff, End(Here(0xff, End(Done))))), Eps)))))))));
  }

  lemma {:induction false} SwitchWalk()
    ensures Walk(T(K(SwitchK), N(Exp2, Do(Start(2, Done), T(P(LBrace), N(SwitchBody, T(P(RBrace),
              Do(Here(1, Here(0xff, End(O(DEL, Done)))), Eps))))))), 0) == 0
  {
  }

  lemma {:induction false} CommandNested()
    ensures Nested(CommandRows(Command), 0, 0)
  {
    hide Nested, Walk, WalkOuts;
    var r1 := CommandRows(Command);
    var r2 := r1.next; var r3 := r2.next; var r4 := r3.next; var r5 := r4.next; var r6 := r5.next; var r7 := r6.next;
      var r8 := r7.next;
    assert FlatRows(r8);
    FlatNested(r8);
    SwitchWalk(); RowNested(r7, 0, 0);
    FlatWalk(r6.body, 0); RowNested(r6, 0, 0);
    FlatWalk(r5.body, 0); RowNested(r5, 0, 0);
    ForWalk(); RowNested(r4, 0, 0);
    LoopWalk();
    RowNested(r3, 0, 0);
    RowNested(r2, 0, 0);
    IfWalk(); RowNested(r1, 0, 0);
  }

  // Every state of the table opens and closes sections as it promises.
  lemma {:induction false} TableNested(nt: NT)
    ensures Nested(Table(nt), NeedNT(nt), NeedNT(nt) + NetNT(nt))
  {
    hide DataRows, ArithmeticRows, LogicRows, TopRows, CommandRows, ControlRows, BlockRows, Nested, FlatRows;
    match nt
    case Value => ValueNested();
    case IdTail | AttrTail => NameFlat(); FlatNested(Table(nt));
    case Args | Args1 => ArgsNested();
    case Args2 | ArgNext => ArgNested();
    case Prefix | Postfix => PrefixFlat(); FlatNested(Table(nt));
    case Level(n) => LevelFlat(n); FlatNested(Table(nt));
    case LevelTail(n) => LevelFlat(n); FlatNested(Table(nt));
    case AndTail => AndStart();
    case OrTail => OrStart();
    case AndMore | OrMore => ChainNested();
    case AndL | XorL | XorTail | OrL => LogicFlat(); FlatNested(Table(nt));
    case CondTail => CondNested();
    case CondL | AssignL => TopFlat(); FlatNested(Table(nt));
    case Exp | Exp2 | Exp2Tail => CommaFlat(); FlatNested(Table(nt));
    case AssignTail => AssignFlat(); FlatNested(Table(nt));
    case Command => CommandNested();
    case IfTail => IfNested();
    case DoTail => DoNested();
    case WhileC => LoopNested();
    case WhileTail => WhileNested();
    case SwitchBody => SwitchNested();
    case SwitchMore => SwitchMoreNested();
    case ForCond | ForExp => ForFlat(); FlatNested(Table(nt));
    case ReturnTail | ReturnZero | Commands | Program => BlockFlat(); FlatNested(Table(nt));
  }

  // More open sections than needed do no harm.
  lemma {:induction false} WalkOutsMore(outs: Outs, d: int, k: nat)
    requires WalkOuts(outs, d) >= 0
    ensures WalkOuts(outs, d + k) == WalkOuts(outs, d) + k
    decreases outs
  {
    match outs
    case Done =>
    case Start(_, rest) => WalkOutsMore(rest, d + 1, k);
    case End(rest) => WalkOutsMore(rest, d - 1, k);
    case _ => WalkOutsMore(outs.more, d, k);
  }

  lemma {:induction false} WalkMore(stack: Syms, d: int, k: nat)
    requires Walk(stack, d) >= 0
    ensures Walk(stack, d + k) == Walk(stack, d) + k
    decreases stack
  {
    hide WalkOuts;
    match stack
    case Eps =>
    case T(_, rest) => WalkMore(rest, d, k);
    case Do(outs, rest) =>
      assert WalkOuts(outs, d) >= 0 by { if WalkOuts(outs, d) < 0 { WalkStray(rest, WalkOuts(outs, d)); } }
      WalkOutsMore(outs, d, k);
      WalkMore(rest, WalkOuts(outs, d), k);
    case N(nt, rest) => WalkMore(rest, d + NetNT(nt), k);
  }

  lemma {:induction false} WalkPush(body: Syms, stack: Syms, d: int)
    ensures Walk(Push(body, stack), d) == Walk(stack, Walk(body, d))
    decreases body
  {
    hide WalkOuts, NeedNT, NetNT;
    match body
    case Eps => if d < 0 { WalkStray(stack, d); }
    case T(_, rest) => WalkPush(rest, stack, d); if d < 0 { WalkStray(stack, d); }
    case N(nt, rest) => WalkPush(rest, stack, d + NetNT(nt)); if d < 0 { WalkStray(stack, d); } WalkStray(stack, -1);
    case Do(outs, rest) =>
      WalkPush(rest, stack, WalkOuts(outs, d));
      if d < 0 { WalkStray(stack, d); }
  }

  lemma WalkStray(stack: Syms, d: int)
    requires d < 0
    ensures Walk(stack, d) == -1
  {
  }

  // Replacing a state by a row keeps the stack safe.
  lemma {:induction false} FoundNested(nt: NT, rows: Rows, t: Term, stack: Syms, d: int)
    requires Nested(rows, NeedNT(nt), NeedNT(nt) + NetNT(nt)) && FindRow(rows, t).Some?
    requires Walk(N(nt, stack), d) >= 0
    ensures Walk(Push(FindRow(rows, t).value, stack), d) >= 0
    decreases rows
  {
    hide NeedNT, NetNT;
    if Applies(rows.guard, t) {
      WalkPush(rows.body, stack, d);
      NetFits(nt);
      WalkMore(rows.body, NeedNT(nt), d - NeedNT(nt));
    } else {
      FoundNested(nt, rows.next, t, stack, d);
    }
  }

  lemma NetFits(nt: NT)
    ensures NeedNT(nt) >= 0 && NeedNT(nt) + NetNT(nt) >= 0
  {
  }
}

/** Whatever the tokens are, the engine never sets or counts a label outside a
    section. */
module Nesting {
  import opened Lists
  import opened Words
  import opened Grammar
  import opened Engine
  import opened Layout
  import opened BackPatch
  import opened NestingRules

  /* The back-patcher. */

  lemma {:induction false} DrainSects(st: State)
    ensures Drain(st).sects == st.sects
    decreases |st.pending|
  {
    if st.pending != [] && st.pending[0].Ready? {
      DrainSects(st.(out := st.out + [st.pending[0].w], pending := st.pending[1..]));
    }
  }

  // An action opens one section, closes one, or leaves their number.
  lemma {:induction false} StepSects(st: State, a: Action)
    requires Possible(a, st.sects)
    ensures |Step(st, a).sects| == |st.sects| + if a.SectStart? then 1 else if a.SectEnd? &&
        st.sects != [] then -1 else 0
  {
    hide Drain, PatchAll;
    match a
    case Put(w) => DrainSects(Apply(st));
    case PutRef(typ, lab) =>
      var k := Nearest(st.sects, typ);
      if k.Some? {
        DrainSects(Apply(State(st.out, st.outPos + 1, st.pending + [Waiting(k.value, lab)],
          Refer(st.sects, k.value, lab), st.bad)));
      }
    case _ =>
  }

  // A run of output symbols that has the sections it needs.
  lemma {:induction false} OutsSteps(outs: Outs, last: Word, more: List<Action>, st: State) returns (st': State)
    requires WalkOuts(outs, |st.sects|) >= 0
    ensures |st'.sects| == WalkOuts(outs, |st.sects|)
    ensures Steps(st, Actions(outs, last, more)) == Steps(st', more)
    decreases outs
  {
    hide Step, Opcode;
    st' := st;
    match outs {
      case Done =>
      case Val(n, rest) => st' := OutsSteps(rest, n, more, st);
      case _ =>
        var a := Actions(outs, last, more).head;
        StepSects(st, a);
        st' := OutsSteps(outs.more, last, more, Step(st, a));
    }
  }

  // For every token string: the actions the engine emits are possible where
  // they occur.
  lemma {:induction false} NeverStray(stack: Syms, toks: List<Token>, last: Word, st: State)
    requires Walk(stack, |st.sects|) >= 0 && Run(stack, toks, last).Emitted?
    ensures Steps(st, Run(stack, toks, last).acts).Some?
    decreases Length(toks), Cost(stack)
  {
    hide Steps, Table, FindRow, Push, WalkOuts, Actions, NeedNT, NetNT;
    match stack
    case Eps => StepsNil(st);
    case Do(outs, rest) =>
      var later := Run(rest, toks, LastAfter(outs, last));
      assert WalkOuts(outs, |st.sects|) >= 0 by { WalkFits(outs, rest, |st.sects|); }
      var st' := OutsSteps(outs, last, later.acts, st);
      NeverStray(rest, toks, LastAfter(outs, last), st');
    case T(t, rest) => NeverStray(rest, toks.tail, toks.head.data, st);
    case N(nt, rest) =>
      var body := FindRow(Table(nt), Look(toks)).value;
      TableShrinks(nt);
      FoundShrinks(nt, Table(nt), Look(toks), rest);
      TableNested(nt);
      FoundNested(nt, Table(nt), Look(toks), rest, |st.sects|);
      NeverStray(Push(body, rest), toks, last, st);
  }

  lemma WalkFits(outs: Outs, rest: Syms, d: int)
    requires Walk(Do(outs, rest), d) >= 0
    ensures WalkOuts(outs, d) >= 0
  {
    if WalkOuts(outs, d) < 0 { WalkStray(rest, WalkOuts(outs, d)); }
  }

  lemma StepsNil(st: State)
    ensures Steps(st, Nil) == Some(st)
  {
  }
}
