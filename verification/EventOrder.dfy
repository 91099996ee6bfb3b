/** The order of an event's handlers (constable/event.c:414-639), where no handler
    waits: those of the event, then those at the nodes of the subject, then those at
    the nodes of the object; and after a decision its notification. */
module EventOrder {
  import opened Lists
  import opened Events

  ghost predicate NoneWaits<W(!new)>(env: Env<W>) {
    forall w, h, again, r :: !env.call(w, h, again, r).1.Pending?
  }

  // The handlers that are accepted are called in turn; what one says is evaluated.
  function Heard<W>(env: Env<W>, c: Ctx<W>, es: seq<Entry>): Ctx<W>
    decreases |es|
  {
    if es == [] then c
    else if !env.accepts(c.w, es[0]) then Heard(env, c, es[1..])
    else
      var (w, a) := env.call(c.w, es[0], false, c.result);
      if a.Finished?
      then Heard(env, Ctx(w, EvaluateResult(c.result, a.result), false, c.log + [(es[0].id, a.result)]), es[1..])
      else Heard(env, Ctx(w, c.result, c.unhandled, c.log), es[1..])
  }

  // At a node, only the handlers for this event.
  function SameEvent(es: seq<Entry>): seq<Entry> {
    if es == [] then [] else (if es[0].sameEvent then [es[0]] else []) + SameEvent(es[1..])
  }

  function HeardAtSubjects<W>(env: Env<W>, c: Ctx<W>, classes: seq<nat>, ehh: nat): Ctx<W>
    decreases |classes|
  {
    if classes == [] then c
    else
      match env.node(c.w, classes[0], Subject)
      case None => HeardAtSubjects(env, c, classes[1..], ehh)
      case Some(n) => HeardAtSubjects(env, Heard(env, c, SameEvent(n.ofSubject(ehh))), classes[1..], ehh)
  }

  function HeardAtObjects<W>(env: Env<W>, c: Ctx<W>, classes: seq<nat>, ehh: nat): Ctx<W>
    decreases |classes|
  {
    if classes == [] then c
    else
      match env.node(c.w, classes[0], Object)
      case None => HeardAtObjects(env, c, classes[1..], ehh)
      case Some(n) => HeardAtObjects(env, Heard(env, c, SameEvent(n.ofObject(ehh))), classes[1..], ehh)
  }

  // The list for a decision starts anew; the one for a notification goes on.
  function Begun<W>(env: Env<W>, c: Ctx<W>, ehh: nat): Ctx<W> {
    if ehh == VS_ALLOW || ehh == VS_DENY then Ctx(env.prepare(c.w), RESULT_ERR, true, []) else c
  }

  function HeardSubject<W>(env: Env<W>, c: Ctx<W>, ehh: nat): Ctx<W> {
    if env.hasClass(c.w, Subject) then HeardAtSubjects(env, c, env.classHandlers(c.w, Subject), ehh) else c
  }

  function HeardObject<W>(env: Env<W>, c: Ctx<W>, ehh: nat): Ctx<W> {
    if env.hasClass(c.w, Object) then HeardAtObjects(env, c, env.classHandlers(c.w, Object), ehh) else c
  }

  function HeardList<W>(env: Env<W>, c: Ctx<W>, ehh: nat): Ctx<W> {
    HeardObject(env, HeardSubject(env, Heard(env, Begun(env, c, ehh), env.handlers(ehh)), ehh), ehh)
  }

  lemma {:induction false} EntriesHeard<W(!new)>(env: Env<W>, c: Ctx<W>, es: seq<Entry>, byEvent: bool)
    requires NoneWaits(env)
    ensures PassEntries(env, c, es, false, byEvent) == (Heard(env, c, if byEvent then SameEvent(es) else es), [])
    decreases |es|
  {
    if es != [] {
      if byEvent && !es[0].sameEvent {
        EntriesHeard(env, c, es[1..], byEvent);
        assert SameEvent(es) == SameEvent(es[1..]);
      } else {
        EntriesHeard(env, OneCall(env, c, es[0], false).0, es[1..], byEvent);
        if byEvent { assert SameEvent(es)[0] == es[0] && SameEvent(es)[1..] == SameEvent(es[1..]); }
      }
    }
  }

  lemma {:induction false} SubjectsHeard<W(!new)>(env: Env<W>, c: Ctx<W>, ch: seq<nat>, ehh: nat)
    requires NoneWaits(env)
    ensures PassNodes(env, c, ch, [], false, Subject, ehh) == (HeardAtSubjects(env, c, ch, ehh), [], [])
    decreases |ch|
  {
    hide PassEntries, Heard, SameEvent, NoneWaits;
    if ch != [] {
      match env.node(c.w, ch[0], Subject)
      case None => SubjectsHeard(env, c, ch[1..], ehh);
      case Some(n) =>
        EntriesHeard(env, c, n.ofSubject(ehh), true);
        SubjectsHeard(env, Heard(env, c, SameEvent(n.ofSubject(ehh))), ch[1..], ehh);
    }
  }

  lemma {:induction false} ObjectsHeard<W(!new)>(env: Env<W>, c: Ctx<W>, ch: seq<nat>, ehh: nat)
    requires NoneWaits(env)
    ensures PassNodes(env, c, ch, [], false, Object, ehh) == (HeardAtObjects(env, c, ch, ehh), [], [])
    decreases |ch|
  {
    hide PassEntries, Heard, SameEvent, NoneWaits;
    if ch != [] {
      match env.node(c.w, ch[0], Object)
      case None => ObjectsHeard(env, c, ch[1..], ehh);
      case Some(n) =>
        EntriesHeard(env, c, n.ofObject(ehh), true);
        ObjectsHeard(env, Heard(env, c, SameEvent(n.ofObject(ehh))), ch[1..], ehh);
    }
  }

  // One list: the handlers of the event, of the nodes of the subject, of the nodes
  // of the object, in this order; -1 if none of them completed.
  lemma {:induction false} ListHeard<W(!new)>(env: Env<W>, p: Point<W>)
    requires NoneWaits(env) && p.phase == 0
    ensures var c := HeardList(env, p.ctx, p.ehh);
      PassList(env, p) == (Point(0, [], [], p.ehh, c), if c.unhandled then -1 else 0)
  {
    hide NoneWaits, PassEntries, PassNodes, Heard, HeardAtSubjects, HeardAtObjects;
    var c0 := Begun(env, p.ctx, p.ehh);
    EntriesHeard(env, c0, env.handlers(p.ehh), false);
    var c1 := Heard(env, c0, env.handlers(p.ehh));
    SubjectsHeard(env, c1, ClassesOf(env, c1, Subject), p.ehh);
    NoClasses(env, c1, p.ehh);
    var c2 := HeardSubject(env, c1, p.ehh);
    ObjectsHeard(env, c2, ClassesOf(env, c2, Object), p.ehh);
    NoClasses(env, c2, p.ehh);
  }

  lemma NoClasses<W>(env: Env<W>, c: Ctx<W>, ehh: nat)
    ensures HeardAtSubjects(env, c, [], ehh) == c == HeardAtObjects(env, c, [], ehh)
  {
  }

  // With one class handler for the subject and one for the object, whose nodes are
  // found: three lists of handlers, one after the other.
  lemma {:induction false} OneNodeEach<W(!new)>(env: Env<W>, c: Ctx<W>, ehh: nat, k: nat, n: Node, l: nat, m: Node)
    requires NoneWaits(env)
    requires var c1 := Heard(env, Begun(env, c, ehh), env.handlers(ehh));
      && env.hasClass(c1.w, Subject) && env.classHandlers(c1.w, Subject) == [k] && env.node(c1.w, k, Subject) == Some(n)
      && var c2 := Heard(env, c1, SameEvent(n.ofSubject(ehh)));
        env.hasClass(c2.w, Object) && env.classHandlers(c2.w, Object) == [l] && env.node(c2.w, l, Object) == Some(m)
    ensures PassList(env, Point(0, [], [], ehh, c)).0.ctx ==
      Heard(env, Heard(env, Heard(env, Begun(env, c, ehh), env.handlers(ehh)), SameEvent(n.ofSubject(ehh))),
        SameEvent(m.ofObject(ehh)))
  {
    hide NoneWaits, PassList, Heard, SameEvent, Begun;
    ListHeard(env, Point(0, [], [], ehh, c));
    var c1 := Heard(env, Begun(env, c, ehh), env.handlers(ehh));
    var c2 := Heard(env, c1, SameEvent(n.ofSubject(ehh)));
    AtOne(env, c1, k, ehh);
    AtOne(env, c2, l, ehh);
    assert HeardSubject(env, c1, ehh) == c2;
  }

  lemma AtOne<W>(env: Env<W>, c: Ctx<W>, k: nat, ehh: nat)
    ensures env.node(c.w, k, Subject).Some? ==>
        HeardAtSubjects(env, c, [k], ehh) ==
        Heard(env, c, SameEvent(env.node(c.w, k, Subject).value.ofSubject(ehh)))
    ensures env.node(c.w, k, Object).Some? ==>
        HeardAtObjects(env, c, [k], ehh) ==
        Heard(env, c, SameEvent(env.node(c.w, k, Object).value.ofObject(ehh)))
  {
    hide Heard, SameEvent;
    assert [k][1..] == [];
  }

  // List 0 decides on allowed accesses and list 1 on denied ones; list 2 notifies of
  // allowed accesses and list 3 of denied ones. After list 0 comes list 3 exactly if
  // the result is 1 (DENY) or 2 (FAKE_ALLOW), and list 2 otherwise; after list 1 comes
  // list 3; after 2 and 3 nothing.
  lemma {:induction false} EventHeard<W(!new)>(env: Env<W>, p: Point<W>)
    requires NoneWaits(env) && p.phase == 0 && Sound(p.ctx)
    ensures var c := HeardList(env, p.ctx, p.ehh);
      PassEvent(env, p).0.ctx ==
        if p.ehh == 0 && (c.result == 1 || c.result == 2) then HeardList(env, c, 3)
        else if p.ehh == 0 then HeardList(env, c, 2)
        else if p.ehh == 1 then HeardList(env, c, 3)
        else c
  {
    hide NoneWaits, PassList, HeardList, Sound;
    ListHeard(env, p);
    NeverRetry(env, p);
    var c := HeardList(env, p.ctx, p.ehh);
    ListHeard(env, Point(0, [], [], NOTIFY_ALLOW, c));
    ListHeard(env, Point(0, [], [], NOTIFY_DENY, c));
  }

  predicate SaysOneOf(log: seq<(nat, int)>, r: int) { exists i :: 0 <= i < |log| && log[i].1 == r }

  // The numbers the kernel is answered with: 1 denies, and what no handler may say
  // does, too; otherwise 2 wins over 0, and 0 over 3; -1 if no handler completed.
  lemma {:induction false} ResultNumber(log: seq<(nat, int)>)
    ensures Strongest(log) ==
      if log == [] then -1
      else if exists i :: 0 <= i < |log| && (log[i].1 == 1 || log[i].1 < 0 || log[i].1 > 3) then 1
      else if SaysOneOf(log, 2) then 2
      else if SaysOneOf(log, 0) then 0
      else 3
  {
    StrongestWins(log);
    if log != [] {
      var i :| 0 <= i < |log| && Said(log[i].1) == Strongest(log);
    }
  }
}
