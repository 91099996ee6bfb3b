/** The compiler state special_out.c updates in place, and its routines, proved
    against the state functions of BackPatch. */
module BackPatcher {
  import opened Lists
  import opened Words
  import opened Engine
  import opened Layout
  import opened BackPatch

  class Patcher {
    var out: seq<Word>            // what c->out received
    var outPos: nat               // out_pos
    var pending: seq<Entry>       // the FIFO of to_out_s
    var sections: seq<Section>    // the stack of sect_s, innermost last
    var bad: bool                 // exit

    ghost function View(): State
      reads this
    {
      State(out, outPos, pending, sections, bad)
    }

    // out_pos counts the words output and queued.
    predicate Valid()
      reads this
    {
      outPos == |out| + |pending|
    }

    constructor ()
      ensures Valid() && View() == INITIAL
    {
      out, outPos, pending, sections, bad := [], 0, [], [], false;
    }

    method ApplyLabels()
      requires Valid()
      modifies this`pending
      ensures Valid() && View() == Apply(old(View()))
    {
      var n := |pending|;
      for i := 0 to n
        invariant |pending| == n
        invariant forall j :: 0 <= j < i ==> pending[j] == Patch(old(pending)[j], |out| + j, sections)
        invariant forall j :: i <= j < n ==> pending[j] == old(pending)[j]
      {
        var e := pending[i];
        if e.Waiting? && e.k < |sections| {
          var l := LabelOf(sections[e.k], e.lab);
          if l != Undefined {
            pending := pending[i := Ready(Value(l, outPos - |pending| + i))];
          }
        }
      }
    }

    method DataFlush()
      requires Valid()
      modifies this`pending, this`out
      ensures Valid() && View() == Flush(old(View()))
    {
      ApplyLabels();
      while pending != [] && pending[0].Ready?
        invariant Valid() && Drain(View()) == Flush(old(View()))
        invariant unchanged(this`outPos) && unchanged(this`sections) && unchanged(this`bad)
        decreases |pending|
      {
        out, pending := out + [pending[0].w], pending[1..];
      }
    }

    method DataOut(w: Word)
      requires Valid()
      modifies this
      ensures Valid() && View() == BackPatch.DataOut(old(View()), w)
    {
      DataFlush();
      if pending != [] {
        pending := pending + [Ready(w)];
      } else {
        out := out + [w];
      }
      outPos := outPos + 1;
    }

    method DataRelOut(k: nat, lab: nat)
      requires Valid()
      modifies this
      ensures Valid() && View() == RelOut(old(View()), k, lab)
    {
      pending := pending + [Waiting(k, lab)];
      outPos := outPos + 1;
      DataFlush();
    }

    method SectStart(typ: nat)
      requires Valid()
      modifies this`sections
      ensures Valid() && View() == Step(old(View()), Action.SectStart(typ))
    {
      sections := sections + [Section(typ, map[], {})];
    }

    // Every label still undefined is an error, counts as 0 from then on, and is
    // applied before the next label is looked at.
    method SectEnd()
      requires Valid()
      modifies this
      ensures Valid() && View() == Step(old(View()), Action.SectEnd)
      ensures old(sections) != [] ==> |sections| == |old(sections)| - 1
    {
      hide Between, Missing, Zeroed, Patch, Drain;
      if sections == [] {
        bad := true;
        return;
      }
      var n := |sections| - 1;
      ghost var was := sections[n];
      assert Between(was, was) by { BetweenStart(was); }
      ghost var zero := sections[n := Zeroed(was)];
      ApplyLabels();
      ghost var all := PatchAll(pending, |out|, zero);
      Idempotent(old(pending), |out|, sections);
      while exists lab :: lab in sections[n].labels && sections[n].labels[lab] == Undefined
        invariant Valid() && |sections| == n + 1 && sections[..n] == old(sections)[..n]
        invariant Between(was, sections[n])
        invariant PatchAll(pending, |out|, zero) == all
        invariant pending == PatchAll(pending, |out|, sections)
        invariant bad == (old(bad) || sections[n] != was)
        invariant out == old(out) && outPos == old(outPos)
        decreases Missing(sections[n])
      {
        var lab :| lab in sections[n].labels && sections[n].labels[lab] == Undefined;
        bad := true;
        BetweenStep(was, sections[n], lab);
        var top := sections[n];
        sections := sections[n := top.(labels := top.labels[lab := Data(0)])];
        ghost var queue := pending;
        ApplyLabels();
        PatchTwice(queue, |out|, sections, zero, was);
        Idempotent(queue, |out|, sections);
      }
      BetweenFull(was, sections[n]);
      assert sections == zero;
      sections := sections[..n];
    }

    method SetLabelTo(lab: nat, l: Label, once: bool)
      requires Valid() && sections != []
      modifies this`pending, this`sections
      ensures Valid() && View() == SetLabel(old(View()), lab, l, once)
    {
      var n := |sections| - 1;
      if LabelOf(sections[n], lab) != Undefined {
        ApplyLabels();
      }
      sections := Define(sections, lab, l);
      if once {
        ApplyLabels();
        sections := Define(sections, lab, Undefined);
      }
    }

    method SectIncVal(lab: nat, delta: int)
      requires Valid() && sections != []
      modifies this`sections, this`bad
      ensures Valid() && View() == Step(old(View()), Inc(lab, delta))
    {
      var l := LabelOf(sections[|sections| - 1], lab);
      if l == Undefined {
        l := Data(0);
      }
      if l.Pos? {
        bad := true;
        return;
      }
      sections := Define(sections, lab, Data((l.w + delta) % WORD_LIMIT));
    }

    // get_section: the innermost section of a type, searched from the top.
    method GetSection(typ: nat) returns (r: Option<nat>)
      ensures r == Nearest(sections, typ)
    {
      var i := |sections|;
      assert sections[..i] == sections;
      while i > 0
        invariant 0 <= i <= |sections|
        invariant Nearest(sections, typ) == Nearest(sections[..i], typ)
      {
        assert sections[..i][..i - 1] == sections[..i - 1];
        i := i - 1;
        if sections[i].typ == typ {
          return Some(i);
        }
      }
      r := None;
    }

    method SectOutVal(typ: nat, lab: nat)
      requires Valid()
      modifies this
      ensures Valid() && View() == Step(old(View()), PutRef(typ, lab))
    {
      var k := GetSection(typ);
      if k.None? {
        bad := true;
        return;
      }
      sections := Refer(sections, k.value, lab);
      DataRelOut(k.value, lab);
    }

    // compiler_buildin1
    method SpecialOut(a: Action)
      requires Valid() && Possible(a, sections)
      modifies this
      ensures Valid() && View() == Step(old(View()), a)
    {
      match a {
        case Put(w) => DataOut(w);
        case PutRef(typ, lab) => SectOutVal(typ, lab);
        case SectStart(typ) => SectStart(typ);
        case SectEnd => SectEnd();
        case SetPos(lab) => SetLabelTo(lab, Pos(outPos), false);
        case SefPos(lab) => SetLabelTo(lab, Pos(outPos), true);
        case SetData(lab, w) => SetLabelTo(lab, Data(w), false);
        case SefData(lab, w) => SetLabelTo(lab, Data(w), true);
        case Inc(lab, delta) => SectIncVal(lab, delta);
      }
    }

    // TEND
    method TheEnd()
      requires Valid()
      modifies this
      ensures Valid() && View() == Finish(old(View()))
    {
      while sections != []
        invariant Valid() && Finish(View()) == Finish(old(View()))
        decreases |sections|
      {
        SectEnd();
      }
      DataFlush();
    }
  }

  // A section in which some undefined labels have been set to 0.
  ghost predicate Between(was: Section, s: Section) {
    && s.typ == was.typ && s.awaited == was.awaited && s.labels.Keys == was.labels.Keys
    && forall lab :: lab in was.labels ==>
      s.labels[lab] == was.labels[lab] || (was.labels[lab] == Undefined && s.labels[lab] == Data(0))
  }

  function Missing(s: Section): set<nat> {
    set lab | lab in s.labels && s.labels[lab] == Undefined
  }

  lemma BetweenStart(was: Section)
    ensures Between(was, was)
  {
  }

  lemma BetweenStep(was: Section, s: Section, lab: nat)
    requires Between(was, s) && lab in s.labels && s.labels[lab] == Undefined
    ensures var z := s.(labels := s.labels[lab := Data(0)]);
      Between(was, z) && z != was && Missing(z) < Missing(s)
  {
    var z := s.(labels := s.labels[lab := Data(0)]);
    assert Missing(z) == Missing(s) - {lab} && lab in Missing(s);
    assert z.labels[lab] != was.labels[lab];
  }

  lemma BetweenFull(was: Section, s: Section)
    requires Between(was, s) && AllDefined(s)
    ensures s == Zeroed(was)
    ensures (s != was) == !AllDefined(was)
  {
    assert s.labels == Zeroed(was).labels;
    if AllDefined(was) {
      assert s.labels == was.labels;
    }
  }

  lemma Idempotent(q: seq<Entry>, from: nat, sects: seq<Section>)
    ensures PatchAll(PatchAll(q, from, sects), from, sects) == PatchAll(q, from, sects)
  {
  }

  // Labels that are 0 now and 0 in the end are worth the same.
  lemma PatchTwice(q: seq<Entry>, from: nat, now: seq<Section>, end: seq<Section>, was: Section)
    requires |now| == |end| > 0 && now[..|now| - 1] == end[..|now| - 1]
    requires Between(was, now[|now| - 1]) && end[|now| - 1] == Zeroed(was)
    ensures PatchAll(PatchAll(q, from, now), from, end) == PatchAll(q, from, end)
  {
    var n := |now| - 1;
    forall i | 0 <= i < |q|
      ensures Patch(Patch(q[i], from + i, now), from + i, end) == Patch(q[i], from + i, end)
    {
      if q[i].Waiting? && q[i].k < n {
        assert now[q[i].k] == now[..n][q[i].k] == end[..n][q[i].k];
      }
    }
  }
}
