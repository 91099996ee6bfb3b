/** The back-patcher (libmcompiler/compiler/special_out.c): a queue of words
    that wait for labels, flushed from its front. */
module BackPatch {
  import opened Lists
  import opened Words
  import opened Engine
  import opened Layout
  import opened Settling

  // to_out_s: a word that is known, or a reference to a label of the k-th section.
  datatype Entry = Ready(w: Word) | Waiting(k: nat, lab: nat)

  datatype State = State(out: seq<Word>, outPos: nat, pending: seq<Entry>, sects: seq<Section>, bad: bool)

  const INITIAL := State([], 0, [], [], false)

  // Every queued word has its place behind the words already output, and every
  // waiting word names a label its section knows.
  ghost predicate Wf(st: State) {
    && st.outPos == |st.out| + |st.pending|
    && forall i :: 0 <= i < |st.pending| && st.pending[i].Waiting? ==> Named(st.pending[i], st.sects)
  }

  predicate Named(e: Entry, sects: seq<Section>)
    requires e.Waiting?
  {
    e.k < |sects| && e.lab in sects[e.k].labels
  }

  /* apply_labels, data_flush, data_out, data_rel_out */

  function Patch(e: Entry, at: nat, sects: seq<Section>): Entry {
    if e.Waiting? && e.k < |sects| && LabelOf(sects[e.k], e.lab) != Undefined
    then Ready(Value(LabelOf(sects[e.k], e.lab), at)) else e
  }

  function PatchAll(pending: seq<Entry>, from: nat, sects: seq<Section>): seq<Entry> {
    seq(|pending|, i requires 0 <= i < |pending| => Patch(pending[i], from + i, sects))
  }

  function Apply(st: State): State {
    st.(pending := PatchAll(st.pending, |st.out|, st.sects))
  }

  function Drain(st: State): State
    decreases |st.pending|
  {
    if st.pending != [] && st.pending[0].Ready?
    then Drain(st.(out := st.out + [st.pending[0].w], pending := st.pending[1..])) else st
  }

  function Flush(st: State): State { Drain(Apply(st)) }

  function DataOut(st: State, w: Word): State {
    var f := Flush(st);
    if f.pending != [] then f.(pending := f.pending + [Ready(w)], outPos := f.outPos + 1)
    else f.(out := f.out + [w], outPos := f.outPos + 1)
  }

  function RelOut(st: State, k: nat, lab: nat): State {
    Flush(st.(pending := st.pending + [Waiting(k, lab)], outPos := st.outPos + 1))
  }

  /* sect_setpos, sect_setdata, sect_end */

  function Top(st: State): Section
    requires st.sects != []
  {
    st.sects[|st.sects| - 1]
  }

  function SetLabel(st: State, lab: nat, l: Label, once: bool): State
    requires st.sects != []
  {
    var a := if LabelOf(Top(st), lab) != Undefined then Apply(st) else st;
    var d := a.(sects := Define(a.sects, lab, l));
    if once then
      var b := Apply(d);
      b.(sects := Define(b.sects, lab, Undefined))
    else d
  }

  function Zeroed(s: Section): Section {
    s.(labels := map lab | lab in s.labels :: if s.labels[lab] == Undefined then Data(0) else s.labels[lab])
  }

  function Close(st: State): State
    requires st.sects != []
  {
    var n := |st.sects| - 1;
    var a := Apply(Apply(st).(sects := st.sects[n := Zeroed(st.sects[n])]));
    a.(sects := a.sects[..n], bad := a.bad || !AllDefined(st.sects[n]))
  }

  // compiler_buildin1
  function Step(st: State, a: Action): State
    requires Possible(a, st.sects)
  {
    if Faulty(a, st.sects) then st.(bad := true) else
    match a
    case Put(w) => DataOut(st, w)
    case PutRef(typ, lab) =>
      var k := Nearest(st.sects, typ).value;
      RelOut(st.(sects := Refer(st.sects, k, lab)), k, lab)
    case SectStart(typ) => st.(sects := st.sects + [Section(typ, map[], {})])
    case SectEnd => Close(st)
    case SetPos(lab) => SetLabel(st, lab, Pos(st.outPos), false)
    case SefPos(lab) => SetLabel(st, lab, Pos(st.outPos), true)
    case SetData(lab, w) => SetLabel(st, lab, Data(w), false)
    case SefData(lab, w) => SetLabel(st, lab, Data(w), true)
    case Inc(lab, delta) => st.(sects := Define(st.sects, lab, Counted(LabelOf(Top(st), lab), delta)))
  }

  // TEND: close the sections that are open, innermost first, and flush.
  function Finish(st: State): State
    decreases |st.sects|
  {
    if st.sects == [] then Flush(st) else Finish(Close(st))
  }

  function Steps(st: State, acts: List<Action>): Option<State>
    decreases acts
  {
    match acts
    case Nil => Some(st)
    case Cons(a, rest) => if Possible(a, st.sects) then Steps(Step(st, a), rest) else None
  }

  /* What the queue will become. */

  // The word an entry at position at will hold, given the actions to come.
  function Will(e: Entry, at: nat, sects: seq<Section>, acts: List<Action>, pos: nat): Word {
    match e
    case Ready(w) => w
    case Waiting(k, lab) => if k >= |sects| then 0 else Taken(acts, pos, sects, k, lab, at)
  }

  function WillAll(pending: seq<Entry>, from: nat, sects: seq<Section>, acts: List<Action>, pos: nat): seq<Word> {
    seq(|pending|, i requires 0 <= i < |pending| => Will(pending[i], from + i, sects, acts, pos))
  }

  // The words output and queued so far, as they will be.
  function Total(st: State, acts: List<Action>): seq<Word> {
    st.out + WillAll(st.pending, |st.out|, st.sects, acts, st.outPos)
  }

  lemma {:induction false} DrainTotal(st: State, acts: List<Action>)
    requires Wf(st)
    ensures Wf(Drain(st)) && Total(Drain(st), acts) == Total(st, acts)
    ensures Drain(st).sects == st.sects && Drain(st).outPos == st.outPos && Drain(st).bad == st.bad
    decreases |st.pending|
  {
    hide Taken;
    if st.pending != [] && st.pending[0].Ready? {
      var d := st.(out := st.out + [st.pending[0].w], pending := st.pending[1..]);
      assert Total(d, acts) == Total(st, acts);
      DrainTotal(d, acts);
    }
  }

  // The entries of two queues agree on what they will become.
  lemma {:induction false} SameTotal(st: State, acts: List<Action>, st': State, acts': List<Action>)
    requires st'.out == st.out && |st'.pending| == |st.pending|
    requires forall i :: 0 <= i < |st.pending| ==>
        Will(st'.pending[i], |st.out| + i, st'.sects, acts', st'.outPos) ==
        Will(st.pending[i], |st.out| + i, st.sects, acts, st.outPos)
    ensures Total(st', acts') == Total(st, acts)
  {
    hide Taken;
    assert WillAll(st'.pending, |st'.out|, st'.sects, acts', st'.outPos) ==
      WillAll(st.pending, |st.out|, st.sects, acts, st.outPos);
  }

  // The words an action adds to the output, as they will be.
  function Adds(a: Action, st: State, rest: List<Action>): seq<Word>
    requires !Faulty(a, st.sects)
  {
    match a
    case Put(w) => [w]
    case PutRef(typ, lab) => [Reference(rest, st.outPos, st.sects, Nearest(st.sects, typ).value, lab)]
    case _ => []
  }

  ghost predicate Advances(st: State, a: Action, rest: List<Action>)
    requires Possible(a, st.sects) && !Faulty(a, st.sects)
  {
    var s := Step(st, a);
    && Wf(s)
    && s.sects == Opened(a, st.outPos, st.sects)
    && s.outPos == st.outPos + Size(a)
    && s.bad == (st.bad || (a.SectEnd? && !AllDefined(Top(st))))
    && Total(s, rest) == Total(st, Cons(a, rest)) + Adds(a, st, rest)
  }

  // An entry that takes its value, if its label has one, and the sections behind.
  lemma {:induction false} TakenNow(e: Entry, at: nat, a: Action, rest: List<Action>, pos: nat, sects: seq<Section>)
    requires Possible(a, sects) && !Faulty(a, sects) && Applies(a, sects) && !a.SectEnd? && !a.SefPos? && !a.SefData?
    requires e.Waiting? ==> e.k < |sects|
    ensures var now := Opened(a, pos, sects);
      Will(Patch(e, at, sects), at, now, rest, pos + Size(a)) == Will(e, at, sects, Cons(a, rest), pos)
  {
  }

  // An entry behind an action that applies no label.
  lemma {:induction false} TakenLater(e: Entry, at: nat, a: Action, rest: List<Action>, pos: nat, sects: seq<Section>)
    requires Possible(a, sects) && !Faulty(a, sects) && !Applies(a, sects)
    requires e.Waiting? ==> e.k < |sects|
    ensures Will(e, at, Opened(a, pos, sects), rest, pos + Size(a)) == Will(e, at, sects, Cons(a, rest), pos)
  {
  }

  lemma {:induction false} PutAdvances(st: State, w: Word, rest: List<Action>)
    requires Wf(st)
    ensures Advances(st, Put(w), rest)
  {
    hide Taken, LabelOf, Patch, Will;
    var a := Put(w);
    var p := Apply(st).(outPos := st.outPos + 1);
    forall i | 0 <= i < |st.pending|
      ensures p.pending[i].Waiting? ==> p.pending[i] == st.pending[i]
      ensures Will(p.pending[i], |st.out| + i, p.sects, rest, p.outPos) ==
          Will(st.pending[i], |st.out| + i, st.sects, Cons(a, rest), st.outPos)
    {
      PatchWaits(st.pending[i], |st.out| + i, st.sects);
      TakenNow(st.pending[i], |st.out| + i, a, rest, st.outPos, st.sects);
    }
    SameTotal(st, Cons(a, rest), p, rest);
    var q := Apply(st);
    DrainTotal(q, rest);
    DrainFrom(q, p.outPos, rest);
    WordAdded(Drain(q).(outPos := p.outPos), w, rest);
  }

  lemma PatchWaits(e: Entry, at: nat, sects: seq<Section>)
    ensures Patch(e, at, sects).Waiting? ==> Patch(e, at, sects) == e
  {
  }

  // Draining does not look at the position, nor at what is to come.
  lemma {:induction false} DrainFrom(st: State, pos: nat, acts: List<Action>)
    ensures Drain(st.(outPos := pos)) == Drain(st).(outPos := pos)
    ensures Total(Drain(st).(outPos := pos), acts) == Total(st.(outPos := pos), acts)
    decreases |st.pending|
  {
    hide Taken;
    if st.pending != [] && st.pending[0].Ready? {
      var d := st.(out := st.out + [st.pending[0].w], pending := st.pending[1..]);
      assert Total(d.(outPos := pos), acts) == Total(st.(outPos := pos), acts);
      DrainFrom(d, pos, acts);
    }
  }

  lemma {:induction false} WordAdded(f: State, w: Word, acts: List<Action>)
    ensures var s := if f.pending != [] then f.(pending := f.pending + [Ready(w)]) else f.(out := f.out + [w]);
      Total(s, acts) == Total(f, acts) + [w]
  {
    hide Taken;
  }

  lemma {:induction false} RefAdvances(st: State, typ: nat, lab: nat, rest: List<Action>)
    requires Wf(st) && Nearest(st.sects, typ).Some?
    ensures Advances(st, PutRef(typ, lab), rest)
  {
    hide Taken, Will, Patch, LabelOf, Refer, Reference;
    var a := PutRef(typ, lab);
    var k := Nearest(st.sects, typ).value;
    var sects := Refer(st.sects, k, lab);
    ReferSame(st.sects, k, lab);
    var q := State(st.out, st.outPos + 1, st.pending + [Waiting(k, lab)], sects, st.bad);
    var p := Apply(q);
    forall i | 0 <= i < |q.pending|
      ensures p.pending[i].Waiting? ==> p.pending[i] == q.pending[i] && Named(p.pending[i], sects)
      ensures Will(p.pending[i], |st.out| + i, sects, rest, p.outPos) ==
        if i < |st.pending| then Will(st.pending[i], |st.out| + i, st.sects, Cons(a, rest), st.outPos)
        else Reference(rest, st.outPos, st.sects, k, lab)
    {
      PatchWaits(q.pending[i], |st.out| + i, sects);
      if i < |st.pending| {
        TakenNow(st.pending[i], |st.out| + i, a, rest, st.outPos, st.sects);
        PatchSame(st.pending[i], |st.out| + i, st.sects, sects);
      } else {
        NewTaken(st.sects, k, lab, rest, st.outPos);
      }
    }
    assert Total(p, rest) == Total(st, Cons(a, rest)) + Adds(a, st, rest);
    DrainTotal(p, rest);
  }

  // A reference leaves the values of all labels as they are.
  lemma ReferSame(sects: seq<Section>, k: nat, lab: nat)
    requires k < |sects|
    ensures var now := Refer(sects, k, lab);
      && |now| == |sects| && (LabelOf(sects[k], lab) == Undefined ==> lab in now[k].labels)
      && (LabelOf(sects[k], lab) != Undefined ==> lab in now[k].labels)
      && forall i :: 0 <= i < |sects| ==>
        sects[i].labels.Keys <= now[i].labels.Keys && forall l :: LabelOf(now[i], l) == LabelOf(sects[i], l)
  {
  }

  lemma PatchSame(e: Entry, at: nat, sects: seq<Section>, now: seq<Section>)
    requires |now| == |sects| && forall i :: 0 <= i < |sects| ==> forall l :: LabelOf(now[i], l) == LabelOf(sects[i], l)
    ensures Patch(e, at, now) == Patch(e, at, sects)
  {
  }

  lemma NewTaken(sects: seq<Section>, k: nat, lab: nat, rest: List<Action>, pos: nat)
    requires k < |sects|
    ensures var now := Refer(sects, k, lab);
      Will(Patch(Waiting(k, lab), pos, now), pos, now, rest, pos + 1) == Reference(rest, pos, sects, k, lab)
  {
    hide Taken;
  }

  // An action that leaves the queue alone.
  lemma {:induction false} QuietAdvances(st: State, a: Action, rest: List<Action>)
    requires Wf(st) && Possible(a, st.sects) && !Faulty(a, st.sects) && !Applies(a, st.sects)
    ensures Advances(st, a, rest)
  {
    var s := Step(st, a);
    QuietStep(st, a);
    hide Taken, Will, Patch, Step, Opened, Applies, Total, Faulty, Possible;
    forall i | 0 <= i < |st.pending|
      ensures Will(s.pending[i], |st.out| + i, s.sects, rest, s.outPos) ==
          Will(st.pending[i], |st.out| + i, st.sects, Cons(a, rest), st.outPos)
    {
      TakenLater(st.pending[i], |st.out| + i, a, rest, st.outPos, st.sects);
    }
    SameTotal(st, Cons(a, rest), s, rest);
    assert Total(st, Cons(a, rest)) + [] == Total(st, Cons(a, rest));
  }

  lemma QuietStep(st: State, a: Action)
    requires Possible(a, st.sects) && !Faulty(a, st.sects) && !Applies(a, st.sects)
    ensures Step(st, a) == st.(sects := Opened(a, st.outPos, st.sects)) && Size(a) == 0 && !a.PutRef? && !a.Put? &&
        !a.SectEnd?
    ensures var now := Opened(a, st.outPos, st.sects);
      |st.sects| <= |now| && forall k :: 0 <= k < |st.sects| ==> st.sects[k].labels.Keys <= now[k].labels.Keys
  {
  }

  // A label that had a value gets another one: what waits takes the old one first.
  lemma {:induction false} ResetAdvances(st: State, a: Action, rest: List<Action>)
    requires Wf(st) && (a.SetPos? || a.SetData?) && st.sects != [] && Applies(a, st.sects)
    ensures Advances(st, a, rest)
  {
    var s := Step(st, a);
    hide Taken, Will, Patch;
    forall i | 0 <= i < |st.pending|
      ensures s.pending[i].Waiting? ==> s.pending[i] == st.pending[i]
      ensures Will(s.pending[i], |st.out| + i, s.sects, rest, s.outPos) ==
          Will(st.pending[i], |st.out| + i, st.sects, Cons(a, rest), st.outPos)
    {
      PatchWaits(st.pending[i], |st.out| + i, st.sects);
      TakenNow(st.pending[i], |st.out| + i, a, rest, st.outPos, st.sects);
    }
    SameTotal(st, Cons(a, rest), s, rest);
  }

  // What a next-occurrence label does to one entry.
  function OncePatch(e: Entry, at: nat, sects: seq<Section>, lab: nat, l: Label): Entry
    requires sects != []
  {
    var first := if LabelOf(sects[|sects| - 1], lab) != Undefined then Patch(e, at, sects) else e;
    Patch(first, at, Define(sects, lab, l))
  }

  lemma {:induction false} TakenOnce(e: Entry, at: nat, a: Action, rest: List<Action>, pos: nat, sects: seq<Section>)
    requires sects != [] && (a.SefPos? || a.SefData?) && (e.Waiting? ==> e.k < |sects|)
    ensures var f := OncePatch(e, at, sects, a.lab, OnceValue(a, pos));
      && (f.Waiting? ==> f == e)
      && Will(f, at, Define(sects, a.lab, Undefined), rest, pos) == Will(e, at, sects, Cons(a, rest), pos)
  {
  }

  lemma {:induction false} OnceAdvances(st: State, a: Action, rest: List<Action>)
    requires Wf(st) && (a.SefPos? || a.SefData?) && st.sects != []
    ensures Advances(st, a, rest)
  {
    var l := OnceValue(a, st.outPos);
    OnceStep(st, a);
    var s := Step(st, a);
    hide Taken, Will, OncePatch, Step, Define;
    forall i | 0 <= i < |st.pending|
      ensures s.pending[i].Waiting? ==> s.pending[i] == st.pending[i]
      ensures Will(s.pending[i], |st.out| + i, s.sects, rest, s.outPos) ==
          Will(st.pending[i], |st.out| + i, st.sects, Cons(a, rest), st.outPos)
    {
      TakenOnce(st.pending[i], |st.out| + i, a, rest, st.outPos, st.sects);
    }
    DefineKeys(st.sects, a.lab, Undefined);
    SameTotal(st, Cons(a, rest), s, rest);
  }

  lemma DefineKeys(sects: seq<Section>, lab: nat, l: Label)
    requires sects != []
    ensures var now := Define(sects, lab, l);
      |now| == |sects| && forall k :: 0 <= k < |sects| ==> sects[k].labels.Keys <= now[k].labels.Keys
  {
  }

  lemma {:induction false} OnceStep(st: State, a: Action)
    requires (a.SefPos? || a.SefData?) && st.sects != []
    ensures var s := Step(st, a);
      && s.sects == Define(st.sects, a.lab, Undefined) && s.out == st.out && s.outPos == st.outPos && s.bad == st.bad
      && |s.pending| == |st.pending|
      && forall i :: 0 <= i < |st.pending| ==>
        s.pending[i] == OncePatch(st.pending[i], |st.out| + i, st.sects, a.lab, OnceValue(a, st.outPos))
  {
    hide Patch;
    DefineTwice(st.sects, a.lab, OnceValue(a, st.outPos), Undefined);
  }

  lemma DefineTwice(sects: seq<Section>, lab: nat, l: Label, l': Label)
    requires sects != []
    ensures Define(Define(sects, lab, l), lab, l') == Define(sects, lab, l')
  {
    var m: map<nat, Label> := sects[|sects| - 1].labels;
    assert m[lab := l][lab := l'] == m[lab := l'];
  }

  // What closing the innermost section does to one entry.
  function ClosePatch(e: Entry, at: nat, sects: seq<Section>): Entry
    requires sects != []
  {
    Patch(Patch(e, at, sects), at, sects[|sects| - 1 := Zeroed(sects[|sects| - 1])])
  }

  lemma {:induction false} TakenAtEnd(e: Entry, at: nat, rest: List<Action>, pos: nat, sects: seq<Section>)
    requires sects != [] && (e.Waiting? ==> Named(e, sects))
    ensures var f, now := ClosePatch(e, at, sects), sects[..|sects| - 1];
      && (f.Waiting? ==> Named(f, now))
      && Will(f, at, now, rest, pos) == Will(e, at, sects, Cons(SectEnd, rest), pos)
  {
    var n := |sects| - 1;
    if e.Waiting? && e.k == n && LabelOf(sects[n], e.lab) == Undefined {
      assert LabelOf(Zeroed(sects[n]), e.lab) == Data(0);
    }
  }

  // What closing the innermost section does to the i-th entry.
  lemma {:induction false} EndAt(st: State, rest: List<Action>, i: nat)
    requires st.sects != [] && i < |st.pending| && (st.pending[i].Waiting? ==> Named(st.pending[i], st.sects))
    ensures var s := Step(st, SectEnd);
      && |s.pending| == |st.pending|
      && (s.pending[i].Waiting? ==> Named(s.pending[i], s.sects))
      && Will(s.pending[i], |st.out| + i, s.sects, rest, s.outPos) ==
        Will(st.pending[i], |st.out| + i, st.sects, Cons(SectEnd, rest), st.outPos)
  {
    hide Taken, Will, ClosePatch, Step, AllDefined, Named;
    EndStep(st);
    TakenAtEnd(st.pending[i], |st.out| + i, rest, st.outPos, st.sects);
  }

  lemma {:induction false} EndTotal(st: State, rest: List<Action>)
    requires Wf(st) && st.sects != []
    ensures var s := Step(st, SectEnd); Wf(s) && Total(s, rest) == Total(st, Cons(SectEnd, rest))
  {
    var s := Step(st, SectEnd);
    EndStep(st);
    hide Taken, Will, ClosePatch, Step, AllDefined, Named, Total;
    assert s.out == st.out && |s.pending| == |st.pending| && s.outPos == |s.out| + |s.pending|;
    forall i: nat | i < |st.pending|
      ensures s.pending[i].Waiting? ==> Named(s.pending[i], s.sects)
      ensures Will(s.pending[i], |st.out| + i, s.sects, rest, s.outPos) ==
          Will(st.pending[i], |st.out| + i, st.sects, Cons(SectEnd, rest), st.outPos)
    {
      EndAt(st, rest, i);
    }
    SameTotal(st, Cons(SectEnd, rest), s, rest);
  }

  lemma {:induction false} EndAdvances(st: State, rest: List<Action>)
    requires Wf(st) && st.sects != []
    ensures Advances(st, SectEnd, rest)
  {
    hide Step, AllDefined, Wf, Total;
    EndStep(st);
    EndTotal(st, rest);
    assert Total(st, Cons(SectEnd, rest)) + [] == Total(st, Cons(SectEnd, rest));
  }

  lemma {:induction false} EndStep(st: State)
    requires st.sects != []
    ensures var s, n := Step(st, SectEnd), |st.sects| - 1;
      && s.sects == st.sects[..n] && s.out == st.out && s.outPos == st.outPos
      && s.bad == (st.bad || !AllDefined(st.sects[n])) && |s.pending| == |st.pending|
      && forall i :: 0 <= i < |st.pending| ==> s.pending[i] == ClosePatch(st.pending[i], |st.out| + i, st.sects)
  {
    hide Patch;
  }

  lemma {:induction false} StepAdvances(st: State, a: Action, rest: List<Action>)
    requires Wf(st) && Possible(a, st.sects) && !Faulty(a, st.sects)
    ensures Advances(st, a, rest)
  {
    hide Step, Wf, Total, Opened, Adds;
    if !Applies(a, st.sects) {
      QuietAdvances(st, a, rest);
    } else {
      match a
      case Put(w) => PutAdvances(st, w, rest);
      case PutRef(typ, lab) => RefAdvances(st, typ, lab, rest);
      case SectEnd => EndAdvances(st, rest);
      case SefPos(_) => OnceAdvances(st, a, rest);
      case SefData(_, _) => OnceAdvances(st, a, rest);
      case SetPos(_) => ResetAdvances(st, a, rest);
      case SetData(_, _) => ResetAdvances(st, a, rest);
    }
  }

  // At the end nothing waits, and the queue is output whole.
  lemma {:induction false} FinishTotal(st: State)
    requires Wf(st)
    ensures var f := Finish(st);
      && f.out == Total(st, Nil) && f.pending == [] && f.sects == []
      && f.bad == (st.bad || exists k :: 0 <= k < |st.sects| && !AllDefined(st.sects[k]))
    decreases |st.sects|
  {
    if st.sects == [] {
      assert Apply(st).pending == st.pending;
      assert Apply(st) == st;
      DrainTotal(st, Nil);
      DrainAll(st);
    } else {
      EndAdvances(st, Nil);
      var c := Close(st);
      assert Step(st, SectEnd) == c;
      FinishTotal(c);
      EndIsNil(st);
      assert forall k :: 0 <= k < |c.sects| ==> c.sects[k] == st.sects[k];
    }
  }

  lemma {:induction false} EndIsNil(st: State)
    requires Wf(st)
    ensures Total(st, Cons(SectEnd, Nil)) == Total(st, Nil)
  {
    var end := Cons(SectEnd, Nil);
    forall i | 0 <= i < |st.pending|
      ensures Will(st.pending[i], |st.out| + i, st.sects, end, st.outPos) ==
          Will(st.pending[i], |st.out| + i, st.sects, Nil, st.outPos)
    {
    }
    SameTotal(st, Nil, st, end);
  }

  lemma {:induction false} DrainAll(st: State)
    requires forall i :: 0 <= i < |st.pending| ==> st.pending[i].Ready?
    ensures Drain(st).pending == []
    decreases |st.pending|
  {
    if st.pending != [] {
      DrainAll(st.(out := st.out + [st.pending[0].w], pending := st.pending[1..]));
    }
  }

  // An error that was reported once stays reported.
  lemma {:induction false} BadStays(st: State, acts: List<Action>)
    requires st.bad && Steps(st, acts).Some?
    ensures Steps(st, acts).value.bad
    decreases acts
  {
    if acts.Cons? {
      StepKeepsBad(st, acts.head);
      BadStays(Step(st, acts.head), acts.tail);
    }
  }

  lemma {:induction false} StepKeepsBad(st: State, a: Action)
    requires Possible(a, st.sects) && st.bad
    ensures Step(st, a).bad
  {
    forall s: State ensures Drain(s).bad == s.bad { DrainBad(s); }
  }

  lemma {:induction false} DrainBad(st: State)
    ensures Drain(st).bad == st.bad
    decreases |st.pending|
  {
    if st.pending != [] && st.pending[0].Ready? {
      DrainBad(st.(out := st.out + [st.pending[0].w], pending := st.pending[1..]));
    }
  }

  lemma {:induction false} FinishKeepsBad(st: State)
    requires st.bad
    ensures Finish(st).bad
    decreases |st.sects|
  {
    if st.sects == [] {
      DrainBad(Apply(st));
    } else {
      FinishKeepsBad(Close(st));
    }
  }

  // An action that reports an error does nothing else.
  lemma FaultIsBad(st: State, a: Action)
    requires Possible(a, st.sects) && Faulty(a, st.sects)
    ensures Step(st, a) == st.(bad := true)
  {
  }

  lemma {:induction false} FaultTotal(st: State, a: Action, rest: List<Action>)
    requires Wf(st) && Faulty(a, st.sects)
    ensures Total(st, Cons(a, rest)) == Total(st.(bad := true), rest) && Wf(st.(bad := true))
  {
    forall i | 0 <= i < |st.pending|
      ensures Will(st.pending[i], |st.out| + i, st.sects, Cons(a, rest), st.outPos) ==
          Will(st.pending[i], |st.out| + i, st.sects, rest, st.outPos)
    {
    }
    SameTotal(st, Cons(a, rest), st.(bad := true), rest);
  }

  lemma {:induction false} StepsLay(st: State, acts: List<Action>)
    requires Wf(st) && LayOut(acts, st.outPos, st.sects).fits
    ensures var laid := LayOut(acts, st.outPos, st.sects);
      var r := Steps(st, acts);
      && r.Some?
      && Finish(r.value).out == Total(st, acts) + laid.words
      && Finish(r.value).pending == []
      && Finish(r.value).bad == (st.bad || laid.errors)
    decreases acts, 1
  {
    hide Step, Wf, Total, Opened, Finish, Taken, Reference, AllDefined, Adds;
    if acts.Nil? {
      FinishTotal(st);
    } else if Faulty(acts.head, st.sects) {
      FaultIsBad(st, acts.head);
      FaultTotal(st, acts.head, acts.tail);
      StepsLay(st.(bad := true), acts.tail);
    } else {
      FineLay(st, acts.head, acts.tail);
    }
  }

  lemma {:induction false} FineLay(st: State, a: Action, rest: List<Action>)
    requires Wf(st) && !Faulty(a, st.sects) && LayOut(Cons(a, rest), st.outPos, st.sects).fits
    ensures var laid := LayOut(Cons(a, rest), st.outPos, st.sects);
      var r := Steps(st, Cons(a, rest));
      && r.Some?
      && Finish(r.value).out == Total(st, Cons(a, rest)) + laid.words
      && Finish(r.value).pending == []
      && Finish(r.value).bad == (st.bad || laid.errors)
    decreases Cons(a, rest), 0
  {
    LayOutPossible(a, rest, st.outPos, st.sects);
    hide Step, Wf, Total, Opened, Finish, LayOut, Adds, AllDefined, Faulty, Possible, Reference, Steps;
    StepsFirst(st, a, rest);
    StepAdvances(st, a, rest);
    LayOutStep(st, a, rest);
    var s := Step(st, a);
    StepsLay(s, rest);
    Joined(Total(st, Cons(a, rest)), Adds(a, st, rest), LayOut(rest, s.outPos, s.sects).words);
  }

  lemma LayOutPossible(a: Action, rest: List<Action>, pos: nat, sects: seq<Section>)
    requires LayOut(Cons(a, rest), pos, sects).fits
    ensures Possible(a, sects)
  {
  }

  lemma StepsFirst(st: State, a: Action, rest: List<Action>)
    requires Possible(a, st.sects)
    ensures Steps(st, Cons(a, rest)) == Steps(Step(st, a), rest)
  {
    hide Step, Possible;
  }

  lemma Joined(x: seq<Word>, y: seq<Word>, z: seq<Word>)
    ensures (x + y) + z == x + (y + z)
  {
  }

  // What one action adds to the layout.
  lemma LayOutStep(st: State, a: Action, rest: List<Action>)
    requires Possible(a, st.sects) && !Faulty(a, st.sects)
    ensures var laid, r := LayOut(Cons(a, rest), st.outPos, st.sects),
        LayOut(rest, st.outPos + Size(a), Opened(a, st.outPos, st.sects));
      && laid.fits == r.fits && laid.words == Adds(a, st, rest) + r.words
      && laid.errors == (r.errors || (a.SectEnd? && !AllDefined(Top(st))))
  {
    hide Opened, Reference, AllDefined, Nearest;
  }

  // For every sequence of actions that sets no label outside of all sections, the
  // flushed output is the words of the actions, in order, each once, every
  // reference with the value its label is taken with; and an error is reported
  // exactly if an action reports one or a section closes over an undefined label.
  lemma {:induction false} BackPatched(acts: List<Action>)
    ensures var laid := LayOut(acts, 0, []);
      var r := Steps(INITIAL, acts);
      && (laid.fits <==> r.Some?)
      && (laid.fits ==> Finish(r.value).out == laid.words && (Finish(r.value).bad <==> laid.errors))
  {
    hide LayOut, Steps, Finish;
    if LayOut(acts, 0, []).fits {
      StepsLay(INITIAL, acts);
    } else {
      NotPossible(INITIAL, acts);
    }
  }

  lemma {:induction false} NotPossible(st: State, acts: List<Action>)
    requires Wf(st) && !LayOut(acts, st.outPos, st.sects).fits
    ensures Steps(st, acts).None?
    decreases acts
  {
    hide Step, Wf, Total, Opened, Taken, Reference;
    if Possible(acts.head, st.sects) {
      if Faulty(acts.head, st.sects) {
        FaultIsBad(st, acts.head);
        FaultTotal(st, acts.head, acts.tail);
        NotPossible(st.(bad := true), acts.tail);
      } else {
        StepAdvances(st, acts.head, acts.tail);
        NotPossible(Step(st, acts.head), acts.tail);
      }
    }
  }

  // In the simple reading: where it fits, it is what is output.
  lemma {:induction false} BackPatchedSimply(acts: List<Action>)
    ensures var laid := Lay(acts, 0, []);
      var r := Steps(INITIAL, acts);
      && (laid.fits ==> r.Some? && Finish(r.value).out == laid.words && Finish(r.value).bad == laid.errors)
      && (laid.errors ==> r.None? || Finish(r.value).bad)
  {
    hide Lay, LayOut, Steps, Finish;
    BackPatched(acts);
    Simply(acts, 0, []);
  }

  /* A counter that is referred to before it is counted. */

  function Counts(lab: nat, deltas: seq<int>, more: List<Action>): List<Action> {
    if deltas == [] then more else Cons(Inc(lab, deltas[0]), Counts(lab, deltas[1..], more))
  }

  function Sum(deltas: seq<int>): int { if deltas == [] then 0 else deltas[0] + Sum(deltas[1..]) }

  // In any sections, whatever follows: what waits for a label takes the count
  // reached when labels are next applied.
  lemma {:induction false} CountedLate(lab: nat, deltas: seq<int>, a: Action, rest: List<Action>, pos: nat,
      sects: seq<Section>, at: nat)
    requires sects != [] && deltas != [] && !LabelOf(sects[|sects| - 1], lab).Pos?
    requires !Faulty(a, sects) && (a.Put? || a.PutRef? || a.SectEnd?)
    ensures var l := LabelOf(sects[|sects| - 1], lab);
      Taken(Counts(lab, deltas, Cons(a, rest)), pos, sects, |sects| - 1, lab, at)
        == ((if l.Data? then l.w else 0) + Sum(deltas)) % WORD_LIMIT
    decreases |deltas|
  {
    var k := |sects| - 1;
    var l := LabelOf(sects[k], lab);
    var now := Define(sects, lab, Counted(l, deltas[0]));
    var n := if l.Data? then l.w else 0;
    assert LabelOf(now[k], lab) == Data((n + deltas[0]) % WORD_LIMIT);
    if |deltas| == 1 {
      assert deltas[1..] == [];
      SameFault(a, sects, now, lab);
      assert Taken(Cons(a, rest), pos, now, k, lab, at) == (n + deltas[0]) % WORD_LIMIT;
    } else {
      SameFault(a, sects, now, lab);
      CountedLate(lab, deltas[1..], a, rest, pos, now, at);
      CountWraps(n + deltas[0], Sum(deltas[1..]));
    }
  }

  lemma SameFault(a: Action, sects: seq<Section>, now: seq<Section>, lab: nat)
    requires a.Put? || a.PutRef? || a.SectEnd?
    requires |now| == |sects| && forall i :: 0 <= i < |sects| ==> now[i].typ == sects[i].typ
    ensures Faulty(a, now) == Faulty(a, sects)
  {
    if a.PutRef? { SameNearest(sects, now, a.typ); }
  }

  lemma {:induction false} SameNearest(sects: seq<Section>, now: seq<Section>, typ: nat)
    requires |now| == |sects| && forall i :: 0 <= i < |sects| ==> now[i].typ == sects[i].typ
    ensures Nearest(now, typ) == Nearest(sects, typ)
    decreases |sects|
  {
    if sects != [] { SameNearest(sects[..|sects| - 1], now[..|sects| - 1], typ); }
  }

  lemma CountWraps(n: int, delta: int)
    ensures (n % WORD_LIMIT + delta) % WORD_LIMIT == (n + delta) % WORD_LIMIT
  {
  }
}
