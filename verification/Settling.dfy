/** What every list of actions means for the output. A word that refers to a label
    takes the value the label has when labels are next applied: a counter may be
    counted on until then. */
module Settling {
  import opened Lists
  import opened Words
  import opened Engine
  import opened Layout

  // Whether an action lets the words that wait take the values of their labels.
  predicate Applies(a: Action, sects: seq<Section>) {
    match a
    case Put(_) | PutRef(_, _) | SectEnd | SefPos(_) | SefData(_, _) => true
    case SetPos(lab) => sects != [] && LabelOf(sects[|sects| - 1], lab) != Undefined
    case SetData(lab, _) => sects != [] && LabelOf(sects[|sects| - 1], lab) != Undefined
    case SectStart(_) | Inc(_, _) => false
  }

  // A label that is defined for what waits for it, and for nothing behind.
  predicate Once(a: Action, lab: nat) { (a.SefPos? || a.SefData?) && a.lab == lab }

  function OnceValue(a: Action, pos: nat): Label
    requires a.SefPos? || a.SefData?
  {
    if a.SefPos? then Pos(pos) else Data(a.w)
  }

  // What a word at position at, which waits for label lab of the k-th section, takes.
  function Taken(acts: List<Action>, pos: nat, sects: seq<Section>, k: nat, lab: nat, at: nat): Word
    requires k < |sects|
    decreases acts
  {
    var l := LabelOf(sects[k], lab);
    match acts
    case Nil => Value(l, at)
    case Cons(a, rest) =>
      if Faulty(a, sects) then Taken(rest, pos, sects, k, lab, at)
      else if l != Undefined && Applies(a, sects) then Value(l, at)
      else if k == |sects| - 1 && a.SectEnd? then 0
      else if k == |sects| - 1 && Once(a, lab) then Value(OnceValue(a, pos), at)
      else Taken(rest, pos + Size(a), Opened(a, pos, sects), k, lab, at)
  }

  // The word a reference at position pos holds.
  function Reference(rest: List<Action>, pos: nat, sects: seq<Section>, k: nat, lab: nat): Word
    requires k < |sects|
  {
    var l := LabelOf(sects[k], lab);
    if l != Undefined then Value(l, pos) else Taken(rest, pos + 1, Refer(sects, k, lab), k, lab, pos)
  }

  // The output, whether no label is set or counted outside of all sections, and
  // whether an error is reported.
  function LayOut(acts: List<Action>, pos: nat, sects: seq<Section>): Laid
    decreases acts
  {
    match acts
    case Nil => Laid([], true, exists k :: 0 <= k < |sects| && !AllDefined(sects[k]))
    case Cons(a, rest) =>
      if !Possible(a, sects) then Laid([], false, false)
      else if Faulty(a, sects) then LayOut(rest, pos, sects).(errors := true)
      else
        var r := LayOut(rest, pos + Size(a), Opened(a, pos, sects));
        match a
        case Put(w) => r.(words := [w] + r.words)
        case PutRef(typ, lab) => r.(words := [Reference(rest, pos, sects, Nearest(sects, typ).value, lab)] + r.words)
        case SectEnd => r.(errors := r.errors || !AllDefined(sects[|sects| - 1]))
        case _ => r
  }

  /* Where no counter is counted after it was referred to, a reference simply
     holds the value its section gives the label next. */

  // A label that is defined, and was referred to before, keeps its value until it is taken.
  lemma {:induction false} Kept(acts: List<Action>, pos: nat, sects: seq<Section>, k: nat, lab: nat, at: nat)
    requires k < |sects| && Lay(acts, pos, sects).fits
    requires LabelOf(sects[k], lab) != Undefined && lab in sects[k].awaited
    ensures Taken(acts, pos, sects, k, lab, at) == Value(LabelOf(sects[k], lab), at)
    decreases acts
  {
    if acts.Cons? && !Applies(acts.head, sects) {
      var next := Opened(acts.head, pos, sects);
      assert LabelOf(next[k], lab) == LabelOf(sects[k], lab) && lab in next[k].awaited;
      Kept(acts.tail, pos + Size(acts.head), next, k, lab, at);
    }
  }

  lemma {:induction false} TakenNext(acts: List<Action>, pos: nat, sects: seq<Section>, k: nat, lab: nat, at: nat)
    requires k < |sects| && Lay(acts, pos, sects).fits
    requires LabelOf(sects[k], lab) == Undefined && lab in sects[k].awaited
    ensures Taken(acts, pos, sects, k, lab, at) == Next(acts, pos, |sects| - 1 - k, lab, at)
    decreases acts, 1
  {
    hide Opened;
    if acts.Cons? {
      var a, rest := acts.head, acts.tail;
      if k == |sects| - 1 && (a.SectEnd? || Once(a, lab)) {
        LayRest(a, rest, pos, sects);
        TakenAtOnce(a, rest, pos, sects, k, lab, at);
      } else {
        TakenOn(a, rest, pos, sects, k, lab, at);
      }
    }
  }

  lemma {:induction false} TakenOn(a: Action, rest: List<Action>, pos: nat, sects: seq<Section>, k: nat, lab: nat,
      at: nat)
    requires k < |sects| && Lay(Cons(a, rest), pos, sects).fits
    requires LabelOf(sects[k], lab) == Undefined && lab in sects[k].awaited
    requires !(k == |sects| - 1 && (a.SectEnd? || Once(a, lab)))
    ensures Taken(Cons(a, rest), pos, sects, k, lab, at) == Next(Cons(a, rest), pos, |sects| - 1 - k, lab, at)
    decreases Cons(a, rest), 0
  {
    hide Taken, Next;
    LayRest(a, rest, pos, sects);
    TakenLater(a, rest, pos, sects, k, lab, at);
    NextLater(a, rest, pos, sects, k, lab, at);
    hide Opened, Lay;
    var next := Opened(a, pos, sects);
    if LabelOf(next[k], lab) != Undefined {
      Kept(rest, pos + Size(a), next, k, lab, at);
    } else {
      TakenNext(rest, pos + Size(a), next, k, lab, at);
    }
  }

  lemma LayRest(a: Action, rest: List<Action>, pos: nat, sects: seq<Section>)
    requires Lay(Cons(a, rest), pos, sects).fits
    ensures Fits(a, sects) && Possible(a, sects) && !Faulty(a, sects)
    ensures Lay(rest, pos + Size(a), Opened(a, pos, sects)).fits
  {
    hide Opened, Referred, AllDefined;
  }

  lemma TakenAtOnce(a: Action, rest: List<Action>, pos: nat, sects: seq<Section>, k: nat, lab: nat, at: nat)
    requires k == |sects| - 1 && Fits(a, sects) && LabelOf(sects[k], lab) == Undefined
    requires a.SectEnd? || Once(a, lab)
    ensures Taken(Cons(a, rest), pos, sects, k, lab, at) == Next(Cons(a, rest), pos, 0, lab, at)
  {
  }

  lemma TakenLater(a: Action, rest: List<Action>, pos: nat, sects: seq<Section>, k: nat, lab: nat, at: nat)
    requires k < |sects| && Fits(a, sects) && LabelOf(sects[k], lab) == Undefined && lab in sects[k].awaited
    requires !(k == |sects| - 1 && (a.SectEnd? || Once(a, lab)))
    ensures var next := Opened(a, pos, sects);
      && k < |next| && lab in next[k].awaited
      && Taken(Cons(a, rest), pos, sects, k, lab, at) == Taken(rest, pos + Size(a), next, k, lab, at)
  {
    hide Next, Lay;
  }

  lemma NextLater(a: Action, rest: List<Action>, pos: nat, sects: seq<Section>, k: nat, lab: nat, at: nat)
    requires k < |sects| && Fits(a, sects) && LabelOf(sects[k], lab) == Undefined && lab in sects[k].awaited
    requires !(k == |sects| - 1 && (a.SectEnd? || Once(a, lab)))
    ensures var next := Opened(a, pos, sects);
      && k < |next|
      && Next(Cons(a, rest), pos, |sects| - 1 - k, lab, at) ==
        if LabelOf(next[k], lab) != Undefined then Value(LabelOf(next[k], lab), at)
        else Next(rest, pos + Size(a), |next| - 1 - k, lab, at)
  {
    hide Taken, Lay;
  }

  // The simple layout is the layout of all the lists it fits, and reports no
  // error that is not one.
  lemma {:induction false} Simply(acts: List<Action>, pos: nat, sects: seq<Section>)
    ensures Lay(acts, pos, sects).fits ==> LayOut(acts, pos, sects) == Lay(acts, pos, sects)
    ensures Lay(acts, pos, sects).errors && LayOut(acts, pos, sects).fits ==> LayOut(acts, pos, sects).errors
    decreases acts
  {
    hide Next, Taken;
    if acts.Cons? && Fits(acts.head, sects) {
      var a := acts.head;
      Simply(acts.tail, pos + Size(a), Opened(a, pos, sects));
      if a.PutRef? && Lay(acts, pos, sects).fits {
        var k := Nearest(sects, a.typ).value;
        if LabelOf(sects[k], a.lab) == Undefined {
          TakenNext(acts.tail, pos + 1, Refer(sects, k, a.lab), k, a.lab, pos);
        }
      }
    }
  }
}
