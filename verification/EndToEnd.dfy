/** The whole way of a handler: its tokens, the engine, the back-patcher, and a
    run of the output on the interpreter. */
module EndToEnd {
  import opened Lists
  import opened Words
  import opened Grammar
  import opened Engine
  import opened Source
  import opened Registers
  import opened Codegen
  import opened Execution
  import opened Correctness
  import Postfix
  import Layout
  import BackPatch
  import Machine
  import Parsing
  import ParsingCommands
  import PlacingCode
  import Misplaced
  import Sem = Semantics

  // The tokens of a handler up to its closing brace.
  function Text(cs: Cmds): List<Token> { WriteCmds(cs, Sym(P(RBrace), Nil)) }

  // The words the compiler outputs for a token string, if it reports no error.
  function Compile(toks: List<Token>, last: Word): Option<seq<Word>> {
    match Run(N(NT.Program, T(P(RBrace), Eps)), toks, last)
    case Rejected => None
    case Emitted(acts) =>
      var r := BackPatch.Steps(BackPatch.INITIAL, acts);
      if r.None? then None else
      var f := BackPatch.Finish(r.value);
      if f.bad then None else Some(f.out)
  }

  // The compiler outputs the code of a handler. It rejects <<= and >>=, and a
  // break or continue outside of every loop, and no other handler.
  lemma {:induction false} CompileHandler(cs: Cmds, last: Word)
    ensures Compile(Text(cs), last) ==
      if ParsingCommands.AssignableCmds(cs) && PlacedAll(cs, false) then Some(CodeH(cs)) else None
  {
    hide Run, WriteCmds, BackPatch.Steps, BackPatch.Finish, Layout.Lay, CodeH, ParsingCommands.AssignableCmds,
      PlacedAll;
    ParsingCommands.ParsedHandler(cs, last);
    if PlacedAll(cs, false) {
      PlacingCode.HandlerPlaced(cs);
    } else {
      Misplaced.HandlerMisplaced(cs);
    }
    BackPatch.BackPatchedSimply(Postfix.SpellHandler(cs));
  }

  // What the compiler made of every function, loaded behind the cell the
  // function is called through.
  ghost predicate Installed(c: Machine.Program, m: Sem.Sem) {
    && c.h == m.h && |c.mem| < ADDRESS_LIMIT
    && forall f: Word :: InstalledAt(c, m, f)
  }

  ghost predicate InstalledAt(c: Machine.Program, m: Sem.Sem, f: Word) {
    if f in m.funcs then
      var code := Compile(Text(m.funcs[f]), 0);
      && code.Some? && c.cells(f) > 0 && Loaded(c.mem, c.cells(f), code.value)
    else c.cells(f) == 0
  }

  lemma {:induction false} InstalledLinked(c: Machine.Program, m: Sem.Sem)
    requires Installed(c, m)
    ensures Linked(c, m)
  {
    hide Compile, Loaded, CodeH;
    forall f: Word ensures LinkedAt(c, m, f) {
      assert InstalledAt(c, m, f);
      if f in m.funcs {
        CompileHandler(m.funcs[f], 0);
      }
    }
  }

  // execute_handler: the state in which a handler starts on the stack below.
  function Entered(p: nat, below: seq<Cell>, base: nat, w: World): Machine.VM {
    Machine.VM(p, below + [base, 0], |below| + 1, w, 0)
  }

  // A handler that is compiled from its tokens and run on the interpreter ends
  // with the result and in the world its meaning says; when the meaning is
  // still running after fuel steps, so is the interpreter. At the end the stack
  // is what it was below the handler, and the base is restored.
  lemma {:induction false} HandlerCorrect(c: Machine.Program, m: Sem.Sem, cs: Cmds, p: nat, below: seq<Cell>,
      base: nat, w: World, fuel: nat)
    requires Installed(c, m) && c.start == |below|
    requires Compile(Text(cs), 0).Some? && Loaded(c.mem, p, Compile(Text(cs), 0).value)
    ensures var s := Entered(p, below, base, w);
      match Sem.RunBody(m, cs, [], w, fuel)
      case Val(r, w') => Ends(c, s, Machine.Done(r, w', below, base))
      case Stuck => true
      case Tired => Lasts(c, s, fuel)
  {
    hide Compile, Loaded, CodeH, Sem.RunBody, Linked, Ends, Lasts, ParsingCommands.AssignableCmds;
    CompileHandler(cs, 0);
    InstalledLinked(c, m);
    var s := Entered(p, below, base, w);
    assert Framed(c, s.stack, s.base, []);
    BodyRuns(c, m, cs, [], s, fuel);
    var v := Sem.RunBody(m, cs, [], w, fuel);
    if v.Val? {
      assert Below(s.stack) == below + [base];
      assert Below(below + [base]) == below;
      assert Machine.Leave(c, Machine.VM(0, s.stack, s.base, v.w, 0), v.r) == Machine.Done(v.r, v.w, below, base);
    }
  }
}
