/** What a list of actions means for the output, without a pending queue, if no
    counter is counted after it was referred to: every reference to a label holds
    the value of the label where it is defined, and otherwise the value its section
    gives the label next. */
module Layout {
  import opened Lists
  import opened Words
  import opened Engine

  // label_s: typ 0, 1 and 2.
  datatype Label = Undefined | Data(w: Word) | Pos(p: nat)

  // An open section. awaited holds the labels that were referenced before they
  // were defined; it exists for the specification only.
  datatype Section = Section(typ: nat, labels: map<nat, Label>, awaited: set<nat>)

  function Value(l: Label, at: nat): Word {
    match l
    case Undefined => 0
    case Data(w) => w
    case Pos(p) => Offset(p, at)
  }

  function LabelOf(s: Section, lab: nat): Label {
    if lab in s.labels then s.labels[lab] else Undefined
  }

  // get_section: the innermost section of a type.
  function Nearest(sects: seq<Section>, typ: nat): (r: Option<nat>)
    ensures r.Some? ==> r.value < |sects| && sects[r.value].typ == typ
  {
    if sects == [] then None
    else if sects[|sects| - 1].typ == typ then Some(|sects| - 1)
    else Nearest(sects[..|sects| - 1], typ)
  }

  function Define(sects: seq<Section>, lab: nat, l: Label): seq<Section>
    requires sects != []
  {
    var top := sects[|sects| - 1];
    sects[|sects| - 1 := top.(labels := top.labels[lab := l])]
  }

  // A reference creates the label it names.
  function Refer(sects: seq<Section>, k: nat, lab: nat): seq<Section>
    requires k < |sects|
  {
    if LabelOf(sects[k], lab) != Undefined then sects else
    sects[k := sects[k].(labels := sects[k].labels[lab := Undefined], awaited := sects[k].awaited + {lab})]
  }

  function Counted(l: Label, delta: int): Label {
    Data(((if l.Data? then l.w else 0) + delta) % WORD_LIMIT)
  }

  // What an action demands: a section for a label, a section to close, and that
  // a counter is neither a position nor awaited when it is incremented.
  predicate Fits(a: Action, sects: seq<Section>) {
    match a
    case Put(_) | SectStart(_) => true
    case PutRef(typ, _) => Nearest(sects, typ).Some?
    case Inc(lab, _) =>
      sects != [] && !LabelOf(sects[|sects| - 1], lab).Pos? && lab !in sects[|sects| - 1].awaited
    case _ => sects != []
  }

  // A label can only be set or counted inside a section.
  predicate Possible(a: Action, sects: seq<Section>) {
    a.Put? || a.PutRef? || a.SectStart? || a.SectEnd? || sects != []
  }

  // The errors an action reports itself: no section to close or of the type
  // referred to, and a position that is counted.
  predicate Faulty(a: Action, sects: seq<Section>) {
    || (a.SectEnd? && sects == [])
    || (a.PutRef? && Nearest(sects, a.typ).None?)
    || (a.Inc? && sects != [] && LabelOf(sects[|sects| - 1], a.lab).Pos?)
  }

  function Opened(a: Action, pos: nat, sects: seq<Section>): seq<Section>
    requires Possible(a, sects) && !Faulty(a, sects)
  {
    match a
    case Put(_) => sects
    case PutRef(typ, lab) => Refer(sects, Nearest(sects, typ).value, lab)
    case SectStart(typ) => sects + [Section(typ, map[], {})]
    case SectEnd => sects[..|sects| - 1]
    case SetPos(lab) => Define(sects, lab, Pos(pos))
    case SefPos(lab) => Define(sects, lab, Undefined)
    case SetData(lab, w) => Define(sects, lab, Data(w))
    case SefData(lab, _) => Define(sects, lab, Undefined)
    case Inc(lab, delta) => Define(sects, lab, Counted(LabelOf(sects[|sects| - 1], lab), delta))
  }

  // Words an action outputs.
  function Size(a: Action): nat { if a.Put? || a.PutRef? then 1 else 0 }

  // The value that the section, depth levels up, gives lab next; 0 if it closes first.
  function Next(acts: List<Action>, pos: nat, depth: nat, lab: nat, at: nat): Word
    decreases acts
  {
    match acts
    case Nil => 0
    case Cons(a, rest) =>
      var here := depth == 0;
      match a
      case SectStart(_) => Next(rest, pos, depth + 1, lab, at)
      case SectEnd => if here then 0 else Next(rest, pos, depth - 1, lab, at)
      case SetPos(l) => if here && l == lab then Offset(pos, at) else Next(rest, pos, depth, lab, at)
      case SefPos(l) => if here && l == lab then Offset(pos, at) else Next(rest, pos, depth, lab, at)
      case SetData(l, w) => if here && l == lab then w else Next(rest, pos, depth, lab, at)
      case SefData(l, w) => if here && l == lab then w else Next(rest, pos, depth, lab, at)
      case Inc(l, delta) => if here && l == lab then Counted(Undefined, delta).w else Next(rest, pos, depth, lab, at)
      case Put(_) => Next(rest, pos + 1, depth, lab, at)
      case PutRef(_, _) => Next(rest, pos + 1, depth, lab, at)
  }

  // The word a reference at position pos holds.
  function Referred(rest: List<Action>, pos: nat, sects: seq<Section>, k: nat, lab: nat): Word
    requires k < |sects|
  {
    var l := LabelOf(sects[k], lab);
    if l != Undefined then Value(l, pos) else Next(rest, pos + 1, |sects| - 1 - k, lab, pos)
  }

  predicate AllDefined(s: Section) {
    forall lab :: lab in s.labels ==> s.labels[lab] != Undefined
  }

  // The output up to the first action that does not fit, whether every action
  // fits, and whether an error is reported by an action or because a section
  // closes over an undefined label.
  datatype Laid = Laid(words: seq<Word>, fits: bool, errors: bool)

  function Lay(acts: List<Action>, pos: nat, sects: seq<Section>): Laid
    decreases acts
  {
    match acts
    case Nil => Laid([], true, exists k :: 0 <= k < |sects| && !AllDefined(sects[k]))
    case Cons(a, rest) =>
      if !Fits(a, sects) then Laid([], false, Faulty(a, sects)) else
      var r := Lay(rest, pos + Size(a), Opened(a, pos, sects));
      match a
      case Put(w) => r.(words := [w] + r.words)
      case PutRef(typ, lab) => r.(words := [Referred(rest, pos, sects, Nearest(sects, typ).value, lab)] + r.words)
      case SectEnd => r.(errors := r.errors || !AllDefined(sects[|sects| - 1]))
      case _ => r
  }
}
