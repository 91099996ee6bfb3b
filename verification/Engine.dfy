/** The table-driven LL(1) engine (libmcompiler/compiler/synt.c:86-167), stopping
    at the first error. What it hands to the back-patcher is a list of actions. */
module Engine {
  import opened Lists
  import opened Words
  import opened Grammar

  // What special_out is asked to do: one case per kind of output symbol, with
  // the value of the last token already filled in.
  datatype Action =
    | Put(w: Word)                        // a word for the output
    | PutRef(typ: nat, lab: nat)          // a label of the nearest section of that type
    | SectStart(typ: nat) | SectEnd
    | SetPos(lab: nat) | SefPos(lab: nat)
    | SetData(lab: nat, w: Word) | SefData(lab: nat, w: Word)
    | Inc(lab: nat, delta: int)

  // The actions of a run of output symbols, in front of more actions.
  function Actions(outs: Outs, last: Word, more: List<Action>): List<Action>
    decreases outs
  {
    match outs
    case Done => more
    case O(op, rest) => Cons(Put(Opcode(op)), Actions(rest, last, more))
    case OutVal(rest) => Cons(Put(last), Actions(rest, last, more))
    case Val(n, rest) => Actions(rest, n, more)
    case Start(t, rest) => Cons(SectStart(t), Actions(rest, last, more))
    case End(rest) => Cons(SectEnd, Actions(rest, last, more))
    case OutRef(t, l, rest) => Cons(PutRef(t, l), Actions(rest, last, more))
    case Here(l, rest) => Cons(SetPos(l), Actions(rest, last, more))
    case HereOnce(l, rest) => Cons(SefPos(l), Actions(rest, last, more))
    case SetVal(l, rest) => Cons(SetData(l, last), Actions(rest, last, more))
    case IncVal(l, rest) => Cons(Inc(l, 1), Actions(rest, last, more))
    case DecVal(l, rest) => Cons(Inc(l, -1), Actions(rest, last, more))
  }

  // The value of the last token after a run of output symbols.
  function LastAfter(outs: Outs, last: Word): Word
    decreases outs
  {
    match outs
    case Done => last
    case Val(n, rest) => LastAfter(rest, n)
    case _ => LastAfter(outs.more, last)
  }

  function Look(toks: List<Token>): Term {
    match toks
    case Nil => EndOfInput
    case Cons(t, _) => t.sym
  }

  /* Termination. Every state that does not vanish on some lookahead consumes a
     token, so only the stack above the first such symbol can be popped before
     the token stream shrinks. */

  predicate Consumes(nt: NT) {
    match nt
    case Value | Args2 | Prefix | Level(_) | AndL | XorL | OrL | CondL | AssignL
      | Exp | Exp2 | Command | DoTail | WhileC | SwitchBody => true
    case _ => false
  }

  function Weight(nt: NT): nat {
    match nt
    case Value => 10
    case Prefix => 20
    case Level(n) => 30 + n
    case AndL => 50 case XorL => 51 case OrL => 52 case CondL => 53 case AssignL => 54
    case Exp => 55 case Exp2 => 55
    case Args2 => 56 case Args1 => 60
    case ForCond => 60 case ForExp => 60
    case Command => 60 case WhileC => 10 case DoTail => 11
    case SwitchBody => 10 case SwitchMore => 70
    case Commands => 70 case ReturnTail => 70 case Program => 100
    case _ => 5
  }

  function Cost(stack: Syms): nat {
    match stack
    case Eps => 0
    case T(_, _) => 1
    case Do(_, rest) => 1 + Cost(rest)
    case N(nt, rest) => Weight(nt) + if Consumes(nt) then 0 else Cost(rest)
  }

  predicate HasConsumer(stack: Syms) {
    match stack
    case Eps => false
    case T(_, _) => true
    case Do(_, rest) => HasConsumer(rest)
    case N(nt, rest) => Consumes(nt) || HasConsumer(rest)
  }

  lemma CostPush(body: Syms, stack: Syms)
    ensures Cost(Push(body, stack)) == Cost(body) + if HasConsumer(body) then 0 else Cost(stack)
  {
  }

  predicate Shrinks(nt: NT, rows: Rows)
    decreases rows
  {
    match rows
    case NoRow => true
    case Row(_, body, next) =>
      && Cost(body) < Weight(nt)
      && (Consumes(nt) ==> HasConsumer(body))
      && Shrinks(nt, next)
  }

  lemma {:induction false} FoundShrinks(nt: NT, rows: Rows, t: Term, stack: Syms)
    requires Shrinks(nt, rows) && FindRow(rows, t).Some?
    ensures Cost(Push(FindRow(rows, t).value, stack)) < Cost(N(nt, stack))
  {
    if Applies(rows.guard, t) {
      CostPush(rows.body, stack);
    } else {
      FoundShrinks(nt, rows.next, t, stack);
    }
  }

  lemma {:induction false} LevelTailShrinks(n: nat)
    ensures Shrinks(LevelTail(n), LevelTailRows(n))
  {
    match n { case 3 => case 4 => case 5 => case 6 => case 7 => case 8 => case 9 => case 10 => case _ => }
  }

  lemma {:induction false} ValueShrinks(nt: NT)
    requires nt.Value?
    ensures Shrinks(nt, DataRows(nt))
  {
  }

  lemma {:induction false} NameShrinks(nt: NT)
    requires nt.IdTail? || nt.AttrTail?
    ensures Shrinks(nt, DataRows(nt))
  {
    match nt {
      case IdTail =>
      case AttrTail =>
    }
  }

  lemma {:induction false} ArgsShrinks(nt: NT)
    requires nt.Args? || nt.Args1? || nt.Args2? || nt.ArgNext?
    ensures Shrinks(nt, DataRows(nt))
  {
    match nt {
      case Args =>
      case Args1 =>
      case Args2 =>
      case ArgNext =>
    }
  }

  lemma {:induction false} ArithmeticShrinks(nt: NT)
    requires nt.Prefix? || nt.Postfix? || nt.Level? || nt.LevelTail?
    ensures Shrinks(nt, ArithmeticRows(nt))
  {
    match nt {
      case Prefix =>
      case Postfix =>
      case Level(_) =>
      case LevelTail(n) => LevelTailShrinks(n);
    }
  }

  lemma {:induction false} AndShrinks(nt: NT)
    requires nt.AndL? || nt.AndTail? || nt.AndMore?
    ensures Shrinks(nt, LogicRows(nt))
  {
    match nt {
      case AndL =>
      case AndTail =>
      case AndMore =>
    }
  }

  lemma {:induction false} XorShrinks(nt: NT)
    requires nt.XorL? || nt.XorTail?
    ensures Shrinks(nt, LogicRows(nt))
  {
    match nt {
      case XorL =>
      case XorTail =>
    }
  }

  lemma {:induction false} OrShrinks(nt: NT)
    requires nt.OrL? || nt.OrTail? || nt.OrMore?
    ensures Shrinks(nt, LogicRows(nt))
  {
    match nt {
      case OrL =>
      case OrTail =>
      case OrMore =>
    }
  }

  lemma {:induction false} CondShrinks(nt: NT)
    requires nt.CondL? || nt.CondTail?
    ensures Shrinks(nt, TopRows(nt))
  {
    match nt {
      case CondL =>
      case CondTail =>
    }
  }

  lemma {:induction false} AssignShrinks(nt: NT)
    requires nt.AssignL? || nt.AssignTail?
    ensures Shrinks(nt, TopRows(nt))
  {
    match nt {
      case AssignL =>
      case AssignTail =>
    }
  }

  lemma {:induction false} CommaShrinks(nt: NT)
    requires nt.Exp? || nt.Exp2? || nt.Exp2Tail?
    ensures Shrinks(nt, TopRows(nt))
  {
    if nt.Exp? {
      ExpShrinks();
    } else if nt.Exp2? {
      Exp2Shrinks();
    } else {
      Exp2TailShrinks();
    }
  }

  lemma {:induction false} ExpShrinks()
    ensures Shrinks(Exp, TopRows(Exp))
  {
  }

  lemma {:induction false} Exp2Shrinks()
    ensures Shrinks(Exp2, TopRows(Exp2))
  {
  }

  lemma {:induction false} Exp2TailShrinks()
    ensures Shrinks(Exp2Tail, TopRows(Exp2Tail))
  {
  }

  lemma {:induction false} CommandShrinks(nt: NT)
    requires nt.Command?
    ensures Shrinks(nt, CommandRows(nt))
  {
  }

  lemma {:induction false} IfShrinks(nt: NT)
    requires nt.IfTail? || nt.DoTail?
    ensures Shrinks(nt, ControlRows(nt))
  {
    match nt {
      case IfTail =>
      case DoTail =>
    }
  }

  lemma {:induction false} WhileShrinks(nt: NT)
    requires nt.WhileC? || nt.WhileTail?
    ensures Shrinks(nt, ControlRows(nt))
  {
    match nt {
      case WhileC =>
      case WhileTail =>
    }
  }

  lemma {:induction false} ForShrinks(nt: NT)
    requires nt.ForCond? || nt.ForExp?
    ensures Shrinks(nt, ControlRows(nt))
  {
    match nt {
      case ForCond =>
      case ForExp =>
    }
  }

  lemma {:induction false} CaseShrinks(nt: NT)
    requires nt.SwitchBody?
    ensures Shrinks(nt, ControlRows(nt))
  {
  }

  lemma {:induction false} SwitchShrinks(nt: NT)
    requires nt.SwitchMore?
    ensures Shrinks(nt, ControlRows(nt))
  {
  }

  lemma {:induction false} ReturnShrinks(nt: NT)
    requires nt.ReturnTail? || nt.ReturnZero?
    ensures Shrinks(nt, BlockRows(nt))
  {
    match nt {
      case ReturnTail =>
      case ReturnZero =>
    }
  }

  lemma {:induction false} CommandsShrinks(nt: NT)
    requires nt.Commands?
    ensures Shrinks(nt, BlockRows(nt))
  {
  }

  lemma {:induction false} ProgramShrinks(nt: NT)
    requires nt.Program?
    ensures Shrinks(nt, BlockRows(nt))
  {
  }

  lemma {:induction false} TableShrinks(nt: NT)
    ensures Shrinks(nt, Table(nt))
  {
    hide DataRows, ArithmeticRows, LogicRows, TopRows, CommandRows, ControlRows, BlockRows, Shrinks;
    match nt
    case Value => ValueShrinks(nt);
    case IdTail | AttrTail => NameShrinks(nt);
    case Args | Args1 | Args2 | ArgNext => ArgsShrinks(nt);
    case Prefix | Postfix | Level(_) | LevelTail(_) => ArithmeticShrinks(nt);
    case AndL | AndTail | AndMore => AndShrinks(nt);
    case XorL | XorTail => XorShrinks(nt);
    case OrL | OrTail | OrMore => OrShrinks(nt);
    case CondL | CondTail => CondShrinks(nt);
    case AssignL | AssignTail => AssignShrinks(nt);
    case Exp | Exp2 | Exp2Tail => CommaShrinks(nt);
    case _ => CommandTableShrinks(nt);
  }

  predicate OfControl(nt: NT) {
    nt.IfTail? || nt.DoTail? || nt.WhileC? || nt.WhileTail? || nt.ForCond? || nt.ForExp? || nt.SwitchBody? ||
      nt.SwitchMore?
  }

  predicate OfBlocks(nt: NT) { nt.ReturnTail? || nt.ReturnZero? || nt.Commands? || nt.Program? }

  lemma CommandTable(nt: NT)
    requires nt.Command? || OfControl(nt) || OfBlocks(nt)
    ensures Table(nt) == if nt.Command? then CommandRows(nt) else if OfControl(nt) then ControlRows(nt)
        else BlockRows(nt)
  {
    hide DataRows, ArithmeticRows, LogicRows, TopRows, CommandRows, ControlRows, BlockRows;
  }

  lemma {:induction false} CommandTableShrinks(nt: NT)
    requires nt.Command? || OfControl(nt) || OfBlocks(nt)
    ensures Shrinks(nt, Table(nt))
  {
    hide Table, CommandRows, ControlRows, BlockRows, Shrinks;
    CommandTable(nt);
    if nt.Command? {
      CommandShrinks(nt);
    } else if OfControl(nt) {
      ControlShrinks(nt);
    } else {
      BlockShrinks(nt);
    }
  }

  lemma {:induction false} ControlShrinks(nt: NT)
    requires OfControl(nt)
    ensures Shrinks(nt, ControlRows(nt))
  {
    hide ControlRows, Shrinks;
    match nt
    case IfTail | DoTail => IfShrinks(nt);
    case WhileC | WhileTail => WhileShrinks(nt);
    case ForCond | ForExp => ForShrinks(nt);
    case SwitchBody => CaseShrinks(nt);
    case SwitchMore => SwitchShrinks(nt);
  }

  lemma {:induction false} BlockShrinks(nt: NT)
    requires OfBlocks(nt)
    ensures Shrinks(nt, BlockRows(nt))
  {
    hide BlockRows, Shrinks;
    match nt
    case ReturnTail | ReturnZero => ReturnShrinks(nt);
    case Commands => CommandsShrinks(nt);
    case Program => ProgramShrinks(nt);
  }

  datatype Parse = Rejected | Emitted(acts: List<Action>)

  // The run of the engine from a parse stack, the tokens left (lookahead first)
  // and the value of the last token consumed.
  function Run(stack: Syms, toks: List<Token>, last: Word): Parse
    decreases Length(toks), Cost(stack)
  {
    match stack
    case Eps => Emitted(Nil)
    case Do(outs, rest) =>
      var r := Run(rest, toks, LastAfter(outs, last));
      if r.Rejected? then Rejected else Emitted(Actions(outs, last, r.acts))
    case T(t, rest) =>
      if toks.Cons? && toks.head.sym == t then Run(rest, toks.tail, toks.head.data) else Rejected
    case N(nt, rest) =>
      var body := FindRow(Table(nt), Look(toks));
      if body.None? then Rejected else
      TableShrinks(nt); FoundShrinks(nt, Table(nt), Look(toks), rest);
      Run(Push(body.value, rest), toks, last)
  }
}
