/** The grammar tables of the policy language: expressions
    (constable/language/expression.c), values (data.c) and commands (language.c).
    A row gives the terminals it applies to and the symbols that replace its state.
    A run of consecutive output symbols of a row is one Do symbol. */
module Grammar {
  import opened Lists
  import opened Words

  // What the lexer delivers. EndOfInput is the lookahead after the last token.
  datatype Term =
    | P(p: Punctuator) | K(k: Keyword) | V(v: Lexeme)
    | OpT(op: BinOp) | OpAs(op: BinOp)               // op and op=
    | EndOfInput

  datatype Punctuator =
    | LParen | RParen | LBrace | RBrace | Semi | CommaT | DotT | Colon | Question
    | Bang | Tilde | Assign | PlusPlus | MinusMinus | AndAnd | XorXor | OrOr

  datatype Keyword =
    | IfK | ElseK | WhileK | DoK | ForK | BreakK | ContinueK
    | SwitchK | CaseK | DefaultK | ReturnK
    | FetchK | UpdateK | TypeofK | CommofK

  // Numbers, strings, paths, names, $i, and the names of functions.
  datatype Lexeme = TNum | TStr | TPath | TId | TArg | TCall | TBuildin

  datatype Token = Token(sym: Term, data: Word)

  // A run of output symbols of a row.
  datatype Outs =
    | O(op: Op, more: Outs)                          // an instruction
    | OutVal(more: Outs)                             // the value of the last token
    | Val(n: Word, more: Outs)                       // replace the value of the last token
    | Start(typ: nat, more: Outs) | End(more: Outs)  // open, close a section
    | OutRef(typ: nat, lab: nat, more: Outs)         // reference to a label
    | Here(lab: nat, more: Outs)                     // SEC_SETPOS
    | HereOnce(lab: nat, more: Outs)                 // SEC_SEFPOS
    | SetVal(lab: nat, more: Outs)                   // SEC_SETVAL
    | IncVal(lab: nat, more: Outs) | DecVal(lab: nat, more: Outs)
    | Done

  datatype NT =
    | Value | Args | Args1 | Args2 | ArgNext | IdTail | AttrTail
    | Prefix | Postfix
    | Level(n: nat) | LevelTail(n: nat)      // binary operators, levels 3 to 10
    | AndL | AndTail | AndMore | XorL | XorTail | OrL | OrTail | OrMore
    | CondL | CondTail | AssignL | AssignTail | Exp | Exp2 | Exp2Tail
    | Command | IfTail | DoTail | WhileC | WhileTail | ForCond | ForExp
    | ReturnTail | Commands | SwitchBody | SwitchMore | ReturnZero | Program

  // The right-hand side of a row, and the parse stack (top first).
  datatype Syms =
    | T(t: Term, below: Syms)
    | N(nt: NT, below: Syms)
    | Do(outs: Outs, below: Syms)
    | Eps

  datatype Guard = Any | On(t: Term) | On2(t1: Term, t2: Term)

  datatype Rows = Row(guard: Guard, body: Syms, next: Rows) | NoRow

  // Level of a binary operator: the number of its state in the table.
  function OpLevel(b: BinOp): nat {
    match b
    case Mul => 3 case Div => 3 case Mod => 3
    case Add => 4 case Sub => 4
    case Shl => 5 case Shr => 5
    case Lt => 6 case Gt => 6 case Le => 6 case Ge => 6
    case Eq => 7 case Ne => 7
    case And => 8 case Xor => 9 case Or => 10
  }

  function Operand(n: nat): NT {
    if n <= 3 then Prefix else Level(n - 1)
  }

  // Binary operators, by level: expression.c.
  function LevelTailRows(n: nat): Rows {
    if n == 3 then
      Row(On(OpT(Mul)), T(OpT(Mul), N(Prefix, Do(O(Alu(Mul), Done), N(LevelTail(3), Eps)))),
      Row(On(OpT(Div)), T(OpT(Div), N(Prefix, Do(O(Alu(Div), Done), N(LevelTail(3), Eps)))),
      Row(On(OpT(Mod)), T(OpT(Mod), N(Prefix, Do(O(Alu(Mod), Done), N(LevelTail(3), Eps)))),
      Row(Any, Eps, NoRow))))
    else if n == 4 then
      Row(On(OpT(Add)), T(OpT(Add), N(Level(3), Do(O(Alu(Add), Done), N(LevelTail(4), Eps)))),
      Row(On(OpT(Sub)), T(OpT(Sub), N(Level(3), Do(O(Alu(Sub), Done), N(LevelTail(4), Eps)))),
      Row(Any, Eps, NoRow)))
    else if n == 5 then
      Row(On(OpT(Shl)), T(OpT(Shl), N(Level(4), Do(O(Alu(Shl), Done), N(LevelTail(5), Eps)))),
      Row(On(OpT(Shr)), T(OpT(Shr), N(Level(4), Do(O(Alu(Shr), Done), N(LevelTail(5), Eps)))),
      Row(Any, Eps, NoRow)))
    else if n == 6 then
      Row(On(OpT(Lt)), T(OpT(Lt), N(Level(5), Do(O(Alu(Lt), Done), N(LevelTail(6), Eps)))),
      Row(On(OpT(Gt)), T(OpT(Gt), N(Level(5), Do(O(Alu(Gt), Done), N(LevelTail(6), Eps)))),
      Row(On(OpT(Le)), T(OpT(Le), N(Level(5), Do(O(Alu(Le), Done), N(LevelTail(6), Eps)))),
      Row(On(OpT(Ge)), T(OpT(Ge), N(Level(5), Do(O(Alu(Ge), Done), N(LevelTail(6), Eps)))),
      Row(Any, Eps, NoRow)))))
    else if n == 7 then
      Row(On(OpT(Eq)), T(OpT(Eq), N(Level(6), Do(O(Alu(Eq), Done), N(LevelTail(7), Eps)))),
      Row(On(OpT(Ne)), T(OpT(Ne), N(Level(6), Do(O(Alu(Ne), Done), N(LevelTail(7), Eps)))),
      Row(Any, Eps, NoRow)))
    else if n == 8 then
      Row(On(OpT(And)), T(OpT(And), N(Level(7), Do(O(Alu(And), Done), N(LevelTail(8), Eps)))),
      Row(Any, Eps, NoRow))
    else if n == 9 then
      Row(On(OpT(Xor)), T(OpT(Xor), N(Level(8), Do(O(Alu(Xor), Done), N(LevelTail(9), Eps)))),
      Row(Any, Eps, NoRow))
    else if n == 10 then
      Row(On(OpT(Or)), T(OpT(Or), N(Level(9), Do(O(Alu(Or), Done), N(LevelTail(10), Eps)))),
      Row(Any, Eps, NoRow))
    else NoRow
  }

  // Section types: 0xf for && and ||, 0xe for ?:, 1 for if, 2 for break,
  // 3 for continue, 4 for the arguments of a call. Label 0xff is the target of
  // break and continue.

  function ValueRows(): Rows {
    Row(On(V(TNum)), Do(O(LDI, Done), T(V(TNum), Do(OutVal(O(LTI, Done)), Eps))),
      Row(On(V(TArg)), Do(O(ARG, Done), T(V(TArg), Do(OutVal(Done), N(AttrTail, Eps)))),
      Row(On(V(TStr)), T(V(TStr), Do(O(LDI, OutVal(O(LTS, Done))), Eps)),
      Row(On(V(TPath)), T(V(TPath), Do(O(LDI, OutVal(O(LTP, Done))), Eps)),
      Row(On(V(TId)), T(V(TId), N(IdTail, Eps)),
      Row(On(V(TBuildin)), Do(Start(4, Done), T(V(TBuildin),
        Do(SetVal(1, Done), N(Args, Do(O(BIN, OutRef(4, 1, O(DEn, End(Done)))), N(AttrTail, Eps)))))),
      Row(On(V(TCall)), Do(Start(4, Done), T(V(TCall),
        Do(SetVal(1, Done), N(Args, Do(O(JSR, OutRef(4, 1, O(DEn, End(Done)))), N(AttrTail, Eps)))))),
      Row(On(K(FetchK)), T(K(FetchK), T(V(TId), Do(O(FET, OutVal(Done)), Eps))),
      Row(On(K(UpdateK)), T(K(UpdateK), T(V(TId), Do(O(UPD, OutVal(Done)), Eps))),
      Row(On(K(TypeofK)), T(K(TypeofK), T(P(LParen), N(Exp, T(P(RParen), Do(O(TOF, Done), Eps))))),
      Row(On(K(CommofK)), T(K(CommofK), T(P(LParen), N(Exp, T(P(RParen), Do(O(COF, Done), Eps))))),
      Row(On(P(LParen)), T(P(LParen), N(Exp2, T(P(RParen), Eps))), NoRow))))))))))))
  }

  // Values, variables and calls: data.c.
  function DataRows(nt: NT): Rows {
    if nt.Value? then ValueRows()
    else if nt.IdTail? then
      Row(On(P(DotT)), Do(O(LDS, OutVal(Done)), T(P(DotT), T(V(TId), Do(OutVal(Done), Eps)))),
      Row(Any, Do(O(LDV, OutVal(Done)), Eps), NoRow))
    else if nt.AttrTail? then
      Row(On(P(DotT)), Do(O(ATR, Done), T(P(DotT), T(V(TId), Do(OutVal(Done), Eps)))),
      Row(Any, Eps, NoRow))
    else if nt.Args? then
      Row(On2(P(Semi), P(CommaT)), Do(IncVal(0, DecVal(0, O(LDI, OutRef(4, 0, Done)))), Eps),
      Row(Any, T(P(LParen), N(Args1, T(P(RParen), Do(O(LDI, OutRef(4, 0, Done)), Eps)))), NoRow))
    else if nt.Args1? then
      Row(On(P(RParen)), Do(IncVal(0, DecVal(0, Done)), Eps),
      Row(Any, N(Args2, Eps), NoRow))
    else if nt.Args2? then Row(Any, N(Exp, Do(IncVal(0, Done), N(ArgNext, Eps))), NoRow)
    else if nt.ArgNext? then
      Row(On(P(CommaT)), T(P(CommaT), N(Args2, Eps)),
      Row(Any, Eps, NoRow))
    else NoRow
  }

  // Unary and binary operators: expression.c.
  function ArithmeticRows(nt: NT): Rows {
    if nt.Prefix? then
      Row(On(P(Bang)), T(P(Bang), N(Prefix, Do(O(NOT, Done), Eps))),
      Row(On(P(Tilde)), T(P(Tilde), N(Prefix, Do(O(NEG, Done), Eps))),
      Row(On(OpT(Sub)), Do(O(LD0, Done), T(OpT(Sub), N(Prefix, Do(O(Alu(Sub), Done), Eps)))),
      Row(On(P(PlusPlus)), T(P(PlusPlus), N(Prefix, Do(O(DUP, O(LD1, O(Alu(Add), O(STO, Done)))), Eps))),
      Row(On(P(MinusMinus)), T(P(MinusMinus), N(Prefix, Do(O(DUP, O(LD1, O(Alu(Sub), O(STO, Done)))), Eps))),
      Row(Any, N(Value, N(Postfix, Eps)), NoRow))))))
    else if nt.Postfix? then
      Row(On(P(PlusPlus)), T(P(PlusPlus), Do(O(DUP, O(IMM, O(SWP, O(DUP, O(LD1, O(Alu(Add), O(STO, O(DEL, Done)))))))),
        Eps)),
      Row(On(P(MinusMinus)), T(P(MinusMinus), Do(O(DUP,
        O(IMM, O(SWP, O(DUP, O(LD1, O(Alu(Sub), O(STO, O(DEL, Done)))))))), Eps)),
      Row(Any, Eps, NoRow)))
    else if nt.Level? then Row(Any, N(Operand(nt.n), N(LevelTail(nt.n), Eps)), NoRow)
    else if nt.LevelTail? then LevelTailRows(nt.n)
    else NoRow
  }

  // &&, ^^ and ||: expression.c.
  function LogicRows(nt: NT): Rows {
    if nt.AndL? then Row(Any, N(Level(10), N(AndTail, Eps)), NoRow)
    else if nt.AndTail? then
      Row(On(P(AndAnd)), T(P(AndAnd), Do(Start(0xf, O(JIZ, OutRef(0xf, 1, Done))), N(Level(10), N(AndMore, Eps)))),
      Row(Any, Eps, NoRow))
    else if nt.AndMore? then
      Row(On(P(AndAnd)), T(P(AndAnd), Do(O(JIZ, OutRef(0xf, 1, Done)), N(Level(10), N(AndMore, Eps)))),
      Row(Any, Do(O(JIZ, OutRef(0xf, 1, O(LD1, O(JR, OutRef(0xf, 2, Here(1, O(LD0, Here(2, End(Done))))))))), Eps),
        NoRow))
    else if nt.XorL? then Row(Any, N(AndL, N(XorTail, Eps)), NoRow)
    else if nt.XorTail? then
      Row(On(P(XorXor)), T(P(XorXor), Do(O(NOT, Done), N(AndL, Do(O(NOT, O(Alu(Ne), Done)), N(XorTail, Eps))))),
      Row(Any, Eps, NoRow))
    else if nt.OrL? then Row(Any, N(XorL, N(OrTail, Eps)), NoRow)
    else if nt.OrTail? then
      Row(On(P(OrOr)), T(P(OrOr), Do(Start(0xf, O(JNZ, OutRef(0xf, 1, Done))), N(XorL, N(OrMore, Eps)))),
      Row(Any, Eps, NoRow))
    else if nt.OrMore? then
      Row(On(P(OrOr)), T(P(OrOr), Do(O(JNZ, OutRef(0xf, 1, Done)), N(XorL, N(OrMore, Eps)))),
      Row(Any, Do(O(JNZ, OutRef(0xf, 1, O(LD0, O(JR, OutRef(0xf, 2, Here(1, O(LD1, Here(2, End(Done))))))))), Eps),
        NoRow))
    else NoRow
  }

  // ?:, assignment and comma: expression.c. The rows of <<= and >>= ask for the
  // token %= where their own token stands (expression.c:171-172).
  // The row of op=, with the token it goes on to ask for.
  function StoreRow(op: BinOp, wanted: BinOp, next: Rows): Rows {
    Row(On(OpAs(op)), T(OpAs(wanted), Do(O(DUP, Done), N(AssignL, Do(O(Alu(op), O(STO, Done)), Eps)))), next)
  }

  function StoreRows(): Rows {
    StoreRow(Add, Add, StoreRow(Sub, Sub, StoreRow(Mul, Mul, StoreRow(Div, Div, StoreRow(Mod, Mod,
    StoreRow(And, And, StoreRow(Or, Or, StoreRow(Xor, Xor, StoreRow(Shl, Mod, StoreRow(Shr, Mod,
    Row(Any, Eps, NoRow)))))))))))
  }

  function TopRows(nt: NT): Rows {
    if nt.CondL? then Row(Any, N(OrL, N(CondTail, Eps)), NoRow)
    else if nt.CondTail? then
      Row(On(P(Question)), T(P(Question), Do(Start(0xe, O(JIZ, OutRef(0xe, 1, Done))),
        N(CondL, Do(O(JR, OutRef(0xe, 2, Done)), T(P(Colon),
        Do(Here(1, Done), N(CondL, Do(Here(2, End(Done)), Eps)))))))),
      Row(Any, Eps, NoRow))
    else if nt.AssignL? then Row(Any, N(CondL, N(AssignTail, Eps)), NoRow)
    else if nt.AssignTail? then
      Row(On(P(Assign)), T(P(Assign), N(AssignL, Do(O(STO, Done), Eps))),
      StoreRows())
    else if nt.Exp? then Row(Any, N(AssignL, Eps), NoRow)
    else if nt.Exp2? then Row(Any, N(AssignL, N(Exp2Tail, Eps)), NoRow)
    else if nt.Exp2Tail? then
      Row(On(P(CommaT)), T(P(CommaT), Do(O(DEL, Done), N(AssignL, N(Exp2Tail, Eps)))),
      Row(Any, Eps, NoRow))
    else NoRow
  }

  // Commands: language.c.
  function CommandRows(nt: NT): Rows {
    if nt.Command? then
      Row(On(K(IfK)), T(K(IfK), N(Exp2, Do(Start(1, O(JIZ, OutRef(1, 1, Done))), N(Command, N(IfTail, Eps))))),
      Row(On(K(DoK)), T(K(DoK), Do(Start(2, Start(3, Here(1, Done))), N(Command, N(DoTail, Eps)))),
      Row(On(K(WhileK)), Do(Start(2, Start(3, Here(1, Done))), N(WhileC, Eps)),
      Row(On(K(ForK)),
        T(K(ForK), Do(Start(2, Start(3, Done)), T(P(LParen), N(ForExp, T(P(Semi),
              Do(Here(4, Done), N(ForCond, Do(O(JR, OutRef(3, 3, Done)), T(P(Semi),
              Do(Here(0xff, Done), N(ForExp, Do(O(JR, OutRef(3, 4, Done)), T(P(RParen),
              Do(Here(3, Done), N(Command,
              Do(O(JR, OutRef(3, 0xff, End(Here(0xff, End(Done))))), Eps)))))))))))))))),
      Row(On(K(BreakK)), T(K(BreakK), T(P(Semi), Do(O(JR, OutRef(2, 0xff, Done)), Eps))),
      Row(On(K(ContinueK)), T(K(ContinueK), T(P(Semi), Do(O(JR, OutRef(3, 0xff, Done)), Eps))),
      Row(On(K(SwitchK)), T(K(SwitchK), N(Exp2, Do(Start(2, Done),
        T(P(LBrace), N(SwitchBody, T(P(RBrace), Do(Here(1, Here(0xff, End(O(DEL, Done)))), Eps))))))),
      Row(On(K(ReturnK)), T(K(ReturnK), N(ReturnTail, Do(O(RET, Done), T(P(Semi), Eps)))),
      Row(On(P(Semi)), T(P(Semi), Eps),
      Row(On(P(LBrace)), T(P(LBrace), N(Commands, T(P(RBrace), Eps))),
      Row(Any, N(Exp2, Do(O(DEL, Done), T(P(Semi), Eps))), NoRow)))))))))))
    else NoRow
  }

  // Control structures: language.c.
  function ControlRows(nt: NT): Rows {
    if nt.IfTail? then
      Row(On(K(ElseK)), T(K(ElseK), Do(O(JR, OutRef(1, 2, Here(1, Done))), N(Command, Do(Here(2, End(Done)), Eps)))),
      Row(Any, Do(Here(1, End(Done)), Eps), NoRow))
    else if nt.DoTail? then Row(Any, N(WhileC, Eps), NoRow)
    else if nt.WhileC? then Row(On(K(WhileK)), T(K(WhileK),
      Do(Here(0xff, Done), N(Exp2, Do(O(JIZ, OutRef(3, 2, Done)), N(Command, N(WhileTail, Eps)))))), NoRow)
    else if nt.WhileTail? then
      Row(On(K(ElseK)), T(K(ElseK), Do(O(JR, OutRef(3, 1, Here(2, Done))),
        N(Command, Do(End(Here(0xff, End(Done))), Eps)))),
      Row(Any, Do(O(JR, OutRef(3, 1, Here(2, End(Here(0xff, End(Done)))))), Eps), NoRow))
    else if nt.ForCond? then
      Row(On(P(Semi)), Eps,
      Row(Any, N(Exp2, Do(O(JIZ, OutRef(2, 0xff, Done)), Eps)), NoRow))
    else if nt.ForExp? then
      Row(On(P(Semi)), Eps,
      Row(Any, N(Exp2, Do(O(DEL, Done), Eps)), NoRow))
    else if nt.SwitchBody? then
      Row(On(K(CaseK)), T(K(CaseK), Do(HereOnce(0, O(DUP, Done)),
        N(Exp2, T(P(Colon), Do(O(Alu(Eq), O(JIZ, OutRef(2, 0, HereOnce(1, Done)))), N(SwitchMore, Eps)))))),
      Row(On(K(DefaultK)), Do(O(JR, OutRef(2, 0, Done)),
        T(K(DefaultK), Do(Here(2, HereOnce(1, Done)), T(P(Colon), N(SwitchMore, Eps))))), NoRow))
    else if nt.SwitchMore? then
      Row(On2(K(CaseK), K(DefaultK)), Do(O(JR, OutRef(2, 1, Done)), N(SwitchBody, Eps)),
      Row(On(P(RBrace)), Do(O(JR, OutRef(2, 0xff, Here(0, O(JR, OutRef(2, 2, Done))))), Eps),
      Row(Any, N(Command, N(SwitchMore, Eps)), NoRow)))
    else NoRow
  }

  // Blocks and return: language.c, and the SRET0 row of conf_lang.c.
  function BlockRows(nt: NT): Rows {
    if nt.ReturnTail? then
      Row(On(P(Semi)), N(ReturnZero, Eps),
      Row(Any, N(Exp2, Eps), NoRow))
    else if nt.Commands? then
      Row(On(P(RBrace)), Eps,
      Row(Any, N(Command, N(Commands, Eps)), NoRow))
    else if nt.ReturnZero? then Row(Any, Do(O(LDI, Val(3, OutVal(O(LTI, Done)))), Eps), NoRow)
    else if nt.Program? then Row(Any, N(Commands, N(ReturnZero, Do(O(RET, Done), Eps))), NoRow)
    else NoRow
  }

  function Table(nt: NT): Rows {
    match nt
    case Value | IdTail | AttrTail | Args | Args1 | Args2 | ArgNext => DataRows(nt)
    case Prefix | Postfix | Level(_) | LevelTail(_) => ArithmeticRows(nt)
    case AndL | AndTail | AndMore | XorL | XorTail | OrL | OrTail | OrMore => LogicRows(nt)
    case CondL | CondTail | AssignL | AssignTail | Exp | Exp2 | Exp2Tail => TopRows(nt)
    case Command => CommandRows(nt)
    case IfTail | DoTail | WhileC | WhileTail | ForCond | ForExp | SwitchBody | SwitchMore => ControlRows(nt)
    case ReturnTail | Commands | ReturnZero | Program => BlockRows(nt)
  }

  // patri_term
  predicate Applies(g: Guard, t: Term) {
    match g
    case Any => true
    case On(t1) => t == t1
    case On2(t1, t2) => t == t1 || t == t2
  }

  // najdi_tab: the first row of the state that applies to the lookahead.
  function FindRow(rows: Rows, t: Term): Option<Syms>
    decreases rows
  {
    match rows
    case NoRow => None
    case Row(g, body, next) => if Applies(g, t) then Some(body) else FindRow(next, t)
  }

  function Push(body: Syms, stack: Syms): Syms
    decreases body
  {
    match body
    case Eps => stack
    case T(t, rest) => T(t, Push(rest, stack))
    case N(nt, rest) => N(nt, Push(rest, stack))
    case Do(outs, rest) => Do(outs, Push(rest, stack))
  }
}
