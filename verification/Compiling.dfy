/** The engine as it runs: a parse stack, the lookahead and the back-patcher,
    updated symbol by symbol (libmcompiler/compiler/synt.c:25-167). */
module Compiling {
  import opened Lists
  import opened Words
  import opened Grammar
  import opened Engine
  import opened Layout
  import opened BackPatch
  import opened BackPatcher
  import opened NestingRules
  import opened Nesting
  import EndToEnd

  // najdi_tab: the first row that applies, searched in order.
  method Lookup(rows: Rows, t: Term) returns (r: Option<Syms>)
    ensures r == FindRow(rows, t)
  {
    var rest := rows;
    while rest.Row?
      invariant FindRow(rest, t) == FindRow(rows, t)
      decreases rest
    {
      var admits := match rest.guard case Any => true case On(a) => t == a case On2(a, b) => t == a || t == b;
      if admits {
        return Some(rest.body);
      }
      rest := rest.next;
    }
    r := None;
  }

  // The state of the back-patcher that the rest of the run will lead to.
  ghost function Outcome(p: Parse, st: State): Option<State> {
    if p.Rejected? then None else Steps(st, p.acts)
  }

  class Compiler {
    const patcher: Patcher
    var stack: Syms            // parse stack, top first
    var toks: List<Token>      // lookahead first
    var last: Word             // the value of the last token

    constructor ()
      ensures fresh(patcher) && patcher.Valid() && patcher.View() == INITIAL
    {
      patcher := new Patcher();
      stack, toks, last := Eps, Nil, 0;
    }

    // One run of output symbols. An error stops the compiler at once.
    method Output(outs: Outs, ghost more: List<Action>) returns (ok: bool)
      requires patcher.Valid() && !patcher.bad
      requires WalkOuts(outs, |patcher.sections|) >= 0
      modifies patcher, this`last
      ensures patcher.Valid() && ok == !patcher.bad
      ensures ok ==>
        && last == LastAfter(outs, old(last))
        && |patcher.sections| == WalkOuts(outs, old(|patcher.sections|))
        && Steps(patcher.View(), more) == Steps(old(patcher.View()), Actions(outs, old(last), more))
      ensures !ok && Steps(old(patcher.View()), Actions(outs, old(last), more)).Some? ==>
        Steps(old(patcher.View()), Actions(outs, old(last), more)).value.bad
    {
      var o := outs;
      while !o.Done?
        invariant patcher.Valid() && !patcher.bad
        invariant WalkOuts(o, |patcher.sections|) == WalkOuts(outs, old(|patcher.sections|))
        invariant LastAfter(o, last) == LastAfter(outs, old(last))
        invariant Steps(patcher.View(), Actions(o, last, more)) ==
            Steps(old(patcher.View()), Actions(outs, old(last), more))
        decreases o
      {
        if o.Val? {
          last := o.n;
        } else {
          var a := ActionOf(o, last);
          ghost var st := patcher.View();
          assert Actions(o, last, more) == Cons(a, Actions(o.more, last, more));
          StepSects(st, a);
          patcher.SpecialOut(a);
          if patcher.bad {
            assert Steps(st, Actions(o, last, more)) == Steps(patcher.View(), Actions(o.more, last, more));
            if Steps(patcher.View(), Actions(o.more, last, more)).Some? {
              BadStays(patcher.View(), Actions(o.more, last, more));
            }
            return false;
          }
        }
        o := o.more;
      }
      ok := true;
    }

    // compiler_compile: true if the tokens are accepted and no error was reported.
    method Compile(start: Syms, text: List<Token>, first: Word) returns (ok: bool)
      requires patcher.Valid() && !patcher.bad && Walk(start, |patcher.sections|) >= 0
      modifies this, patcher
      ensures patcher.Valid()
      ensures var r := Outcome(Run(start, text, first), old(patcher.View()));
        && ok == (r.Some? && !r.value.bad)
        && (ok ==> patcher.View() == r.value)
    {
      stack, toks, last := start, text, first;
      ghost var goal := Outcome(Run(start, text, first), patcher.View());
      while stack != Eps
        invariant patcher.Valid() && !patcher.bad && Walk(stack, |patcher.sections|) >= 0
        invariant Outcome(Run(stack, toks, last), patcher.View()) == goal
        decreases Length(toks), Cost(stack)
      {
        match stack {
          case T(t, rest) =>
            if toks.Nil? || toks.head.sym != t {
              return false;
            }
            last, stack, toks := toks.head.data, rest, toks.tail;
          case Do(outs, rest) =>
            WalkFits(outs, rest, |patcher.sections|);
            ghost var later := Run(rest, toks, LastAfter(outs, last));
            if later.Emitted? {
              assert Run(stack, toks, last) == Emitted(Actions(outs, last, later.acts));
              NeverStray(stack, toks, last, patcher.View());
            }
            ghost var acts := if later.Emitted? then later.acts else Nil;
            var fine := Output(outs, acts);
            if !fine {
              return false;
            }
            stack := rest;
          case N(nt, rest) =>
            var body := Lookup(Table(nt), Look(toks));
            if body.None? {
              return false;
            }
            TableShrinks(nt);
            FoundShrinks(nt, Table(nt), Look(toks), rest);
            TableNested(nt);
            FoundNested(nt, Table(nt), Look(toks), rest, |patcher.sections|);
            stack := Push(body.value, rest);
        }
      }
      ok := true;
    }
  }

  // What one output symbol asks of the back-patcher.
  function ActionOf(o: Outs, last: Word): Action
    requires !o.Done? && !o.Val?
  {
    match o
    case O(op, _) => Put(Opcode(op))
    case OutVal(_) => Put(last)
    case Start(t, _) => Action.SectStart(t)
    case End(_) => Action.SectEnd
    case OutRef(t, l, _) => PutRef(t, l)
    case Here(l, _) => SetPos(l)
    case HereOnce(l, _) => SefPos(l)
    case SetVal(l, _) => SetData(l, last)
    case IncVal(l, _) => Inc(l, 1)
    case DecVal(l, _) => Inc(l, -1)
  }

  // A whole handler, up to the flush at the end of the translation.
  method CompileText(text: List<Token>) returns (code: Option<seq<Word>>)
    ensures code == EndToEnd.Compile(text, 0)
  {
    var c := new Compiler();
    var start := N(NT.Program, T(P(RBrace), Eps));
    assert Walk(start, 0) == 0;
    ghost var r := Outcome(Run(start, text, 0), INITIAL);
    if Run(start, text, 0).Emitted? {
      NeverStray(start, text, 0, INITIAL);
    }
    var ok := c.Compile(start, text, 0);
    if ok {
      c.patcher.TheEnd();
    }
    if ok && !c.patcher.bad {
      code := Some(c.patcher.out);
    } else {
      code := None;
      if r.Some? && !ok {
        FinishKeepsBad(r.value);
      }
    }
  }
}
