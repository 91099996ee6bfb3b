/** Deciding an event (constable/event.c:334-639). do_event is a coroutine: a
    handler that waits for an answer suspends it, and the next call goes on from
    the state it left behind. Here that state, one call, and the uninterrupted
    run it has to agree with. */
module Events {
  import opened Lists

  /* Results */

  const RESULT_ERR: int := -1
  const FORCE_ALLOW: int := 0
  const DENY: int := 1
  const FAKE_ALLOW: int := 2
  const ALLOW: int := 3
  const RETRY: int := 4

  predicate Verdict(r: int) { FORCE_ALLOW <= r <= ALLOW }

  // evaluate_result
  function EvaluateResult(was: int, said: int): int {
    var new' := if said != ALLOW && said != DENY && said != FAKE_ALLOW && said != FORCE_ALLOW then DENY else said;
    if was == DENY || new' == DENY then DENY
    else if was == RESULT_ERR || new' == FAKE_ALLOW then new'
    else if was == ALLOW && new' == FORCE_ALLOW then new'
    else was
  }

  // How strong a result is; what no handler may say counts as DENY.
  function Strength(r: int): nat {
    if r == RESULT_ERR then 0 else if r == ALLOW then 1 else if r == FORCE_ALLOW then 2 else if r == FAKE_ALLOW then 3
      else 4
  }

  function Said(r: int): int { if Verdict(r) then r else DENY }

  /* Handlers */

  // A registered handler, by its number, and whether it is for the event at hand.
  datatype Entry = Entry(id: nat, sameEvent: bool)

  // The handlers of a tree node, by list.
  datatype Node = Node(ofSubject: nat -> seq<Entry>, ofObject: nat -> seq<Entry>)

  datatype Side = Subject | Object

  datatype Answer = Pending | Finished(result: int) | Failed

  const VS_ALLOW: nat := 0
  const VS_DENY: nat := 1
  const NOTIFY_ALLOW: nat := 2
  const NOTIFY_DENY: nat := 3

  // The rest of the daemon, over a state of type W. A handler is called for the
  // first time or again, and sees the result so far.
  datatype Env<!W> = Env(
    handlers: nat -> seq<Entry>,                         // evname->handlers_hash
    hasClass: (W, Side) -> bool,
    classHandlers: (W, Side) -> seq<nat>,                // class_handler
    node: (W, nat, Side) -> Option<Node>,                // get_tree_node
    accepts: (W, Entry) -> bool,                         // object_cmp_vs on both sides
    call: (W, Entry, bool, int) -> (W, Answer),          // h->handler
    prepare: W -> W,                                     // object_do_sethandler
    wake: W -> W                                         // while a handler waits
  )

  // log is kept for the specification: what the completed handlers said.
  datatype Ctx<W> = Ctx(w: W, result: int, unhandled: bool, log: seq<(nat, int)>)

  // do_phase, hh and ch as what is left of their lists, ehh_list, context.
  datatype Point<W> = Point(phase: nat, hh: seq<Entry>, ch: seq<nat>, ehh: nat, ctx: Ctx<W>)

  function Woken<W>(env: Env<W>, c: Ctx<W>): Ctx<W> { c.(w := env.wake(c.w)) }

  // What a completed call leaves: evaluate_result, or the result as it was.
  function Concluded<W>(c: Ctx<W>, w: W, h: Entry, a: Answer): Ctx<W>
    requires !a.Pending?
  {
    if a.Failed? then c.(w := w)
    else Ctx(w, EvaluateResult(c.result, a.result), false, c.log + [(h.id, a.result)])
  }

  // do_event_handler. again: do_phase != 0, the handler was suspended.
  function OneCall<W>(env: Env<W>, c: Ctx<W>, h: Entry, again: bool): (Ctx<W>, bool) {
    if !again && !env.accepts(c.w, h) then (c, false) else
    var (w, a) := env.call(c.w, h, again, c.result);
    if a.Pending? then (c.(w := w), true) else (Concluded(c, w, h, a), false)
  }

  /* One call of do_event_list. */

  // The loop over hh; byEvent: handlers of a tree node for other events are
  // skipped. What is left is empty, or begins with the handler that waits.
  function PassEntries<W>(env: Env<W>, c: Ctx<W>, hh: seq<Entry>, again: bool, byEvent: bool): (Ctx<W>, seq<Entry>)
    decreases |hh|
  {
    if hh == [] then (c, [])
    else if byEvent && !hh[0].sameEvent then PassEntries(env, c, hh[1..], false, byEvent)
    else
      var (c', waits) := OneCall(env, c, hh[0], again);
      if waits then (c', hh) else PassEntries(env, c', hh[1..], false, byEvent)
  }

  function HandlersOf(n: Node, side: Side, ehh: nat): seq<Entry> {
    if side.Subject? then n.ofSubject(ehh) else n.ofObject(ehh)
  }

  // The loop over ch: a class handler whose node is gone is skipped, with
  // whatever was suspended under it.
  function PassNodes<W>(env: Env<W>, c: Ctx<W>, ch: seq<nat>, hh: seq<Entry>, again: bool, side: Side, ehh: nat)
    : (Ctx<W>, seq<nat>, seq<Entry>)
    decreases |ch|
  {
    if ch == [] then (c, [], [])
    else
      var n := env.node(c.w, ch[0], side);
      if n.None? then PassNodes(env, c, ch[1..], [], false, side, ehh)
      else
        var (c', left) := PassEntries(env, c, if again then hh else HandlersOf(n.value, side, ehh), again, true);
        if left != [] then (c', ch, left) else PassNodes(env, c', ch[1..], [], false, side, ehh)
  }

  function Started<W>(env: Env<W>, c: Ctx<W>, ehh: nat): Ctx<W> {
    if ehh == VS_ALLOW || ehh == VS_DENY then Ctx(env.prepare(c.w), RESULT_ERR, true, []) else c
  }

  function ClassesOf<W>(env: Env<W>, c: Ctx<W>, side: Side): seq<nat> {
    if env.hasClass(c.w, side) then env.classHandlers(c.w, side) else []
  }

  function PassObjects<W>(env: Env<W>, c: Ctx<W>, ch: seq<nat>, hh: seq<Entry>, again: bool, ehh: nat): (Point<W>,
      int) {
    var (c', ch', hh') := PassNodes(env, c, ch, hh, again, Object, ehh);
    if hh' != [] then (Point(3, hh', ch', ehh, c'), 1)
    else (Point(0, [], [], ehh, c'), if c'.unhandled then -1 else 0)
  }

  function PassSubjects<W>(env: Env<W>, c: Ctx<W>, ch: seq<nat>, hh: seq<Entry>, again: bool, ehh: nat): (Point<W>,
      int) {
    var (c', ch', hh') := PassNodes(env, c, ch, hh, again, Subject, ehh);
    if hh' != [] then (Point(2, hh', ch', ehh, c'), 1)
    else PassObjects(env, c', ClassesOf(env, c', Object), [], false, ehh)
  }

  function PassAll<W>(env: Env<W>, c: Ctx<W>, hh: seq<Entry>, again: bool, ehh: nat): (Point<W>, int) {
    var (c', hh') := PassEntries(env, c, hh, again, false);
    if hh' != [] then (Point(1, hh', [], ehh, c'), 1)
    else PassSubjects(env, c', ClassesOf(env, c', Subject), [], false, ehh)
  }

  // do_event_list: 1 if a handler waits, -1 if no handler completed, or 0.
  function PassList<W>(env: Env<W>, p: Point<W>): (Point<W>, int) {
    if p.phase == 0 then PassAll(env, Started(env, p.ctx, p.ehh), env.handlers(p.ehh), false, p.ehh)
    else if p.phase == 1 then PassAll(env, p.ctx, p.hh, true, p.ehh)
    else if p.phase == 2 then PassSubjects(env, p.ctx, p.ch, p.hh, true, p.ehh)
    else PassObjects(env, p.ctx, p.ch, p.hh, true, p.ehh)
  }

  // The notification list that follows a decision.
  function Notify(ehh: nat, result: int): nat {
    if ehh == VS_ALLOW && result != DENY && result != FAKE_ALLOW then NOTIFY_ALLOW else NOTIFY_DENY
  }

  predicate Deciding(ehh: nat) { ehh == VS_ALLOW || ehh == VS_DENY }

  // do_event. Its case RETRY is never taken, see NeverRetry.
  function PassEvent<W>(env: Env<W>, p: Point<W>): (Point<W>, int) {
    var (q, r) := PassList(env, p);
    if r > 0 || !Deciding(q.ehh) || q.ctx.result == RETRY then (q, r)
    else PassList(env, q.(ehh := Notify(q.ehh, q.ctx.result)))
  }

  /* The uninterrupted run: every handler is brought to its end where it is
     called. fuel bounds how often handlers wait altogether. */

  datatype Out<W> = Tired | Ended(ctx: Ctx<W>, fuel: nat)

  function Complete<W>(env: Env<W>, c: Ctx<W>, h: Entry, again: bool, fuel: nat): Out<W>
    decreases fuel
  {
    var (c', waits) := OneCall(env, c, h, again);
    if !waits then Ended(c', fuel)
    else if fuel == 0 then Tired
    else Complete(env, Woken(env, c'), h, true, fuel - 1)
  }

  function AllEntries<W>(env: Env<W>, c: Ctx<W>, hh: seq<Entry>, again: bool, byEvent: bool, fuel: nat): Out<W>
    decreases |hh|
  {
    if hh == [] then Ended(c, fuel)
    else if byEvent && !hh[0].sameEvent then AllEntries(env, c, hh[1..], false, byEvent, fuel)
    else
      var o := Complete(env, c, hh[0], again, fuel);
      if o.Tired? then Tired else AllEntries(env, o.ctx, hh[1..], false, byEvent, o.fuel)
  }

  function AllNodes<W>(env: Env<W>, c: Ctx<W>, ch: seq<nat>, side: Side, ehh: nat, fuel: nat): Out<W>
    decreases |ch|
  {
    if ch == [] then Ended(c, fuel) else
    var n := env.node(c.w, ch[0], side);
    if n.None? then AllNodes(env, c, ch[1..], side, ehh, fuel) else
    var o := AllEntries(env, c, HandlersOf(n.value, side, ehh), false, true, fuel);
    if o.Tired? then Tired else AllNodes(env, o.ctx, ch[1..], side, ehh, o.fuel)
  }

  // A list of handlers: those of the event, of the subject and of the object.
  function AllList<W>(env: Env<W>, c: Ctx<W>, ehh: nat, fuel: nat): Out<W> {
    var o := AllEntries(env, Started(env, c, ehh), env.handlers(ehh), false, false, fuel);
    if o.Tired? then Tired else AllSubjects(env, o, ehh)
  }

  function AllSubjects<W>(env: Env<W>, o: Out<W>, ehh: nat): Out<W>
    requires o.Ended?
  {
    var o' := AllNodes(env, o.ctx, ClassesOf(env, o.ctx, Subject), Subject, ehh, o.fuel);
    if o'.Tired? then Tired else AllObjects(env, o', ehh)
  }

  function AllObjects<W>(env: Env<W>, o: Out<W>, ehh: nat): Out<W>
    requires o.Ended?
  {
    AllNodes(env, o.ctx, ClassesOf(env, o.ctx, Object), Object, ehh, o.fuel)
  }

  // The decision, and its notification.
  function AllEvent<W>(env: Env<W>, c: Ctx<W>, ehh: nat, fuel: nat): Out<W> {
    var o := AllList(env, c, ehh, fuel);
    if o.Tired? || !Deciding(ehh) then o
    else AllList(env, o.ctx, Notify(ehh, o.ctx.result), o.fuel)
  }

  // do_event, called again whenever a handler that waited is woken, at most fuel times.
  function Drive<W>(env: Env<W>, p: Point<W>, fuel: nat): Option<(Point<W>, int)>
    decreases fuel
  {
    var (q, r) := PassEvent(env, p);
    if r <= 0 then Some((q, r))
    else if fuel == 0 then None
    else Drive(env, q.(ctx := Woken(env, q.ctx)), fuel - 1)
  }

  /* The uninterrupted run from a suspended state on. */

  function RestNodes<W>(env: Env<W>, c: Ctx<W>, ch: seq<nat>, hh: seq<Entry>, again: bool, side: Side, ehh: nat,
      fuel: nat): Out<W> {
    if !again then AllNodes(env, c, ch, side, ehh, fuel)
    else
      var o := AllEntries(env, c, hh, true, true, fuel);
      if o.Tired? || ch == [] then o else AllNodes(env, o.ctx, ch[1..], side, ehh, o.fuel)
  }

  function RestList<W>(env: Env<W>, p: Point<W>, fuel: nat): Out<W> {
    if p.phase == 0 then AllList(env, p.ctx, p.ehh, fuel)
    else if p.phase == 1 then
      var o := AllEntries(env, p.ctx, p.hh, true, false, fuel);
      if o.Tired? then Tired else AllSubjects(env, o, p.ehh)
    else if p.phase == 2 then
      var o := RestNodes(env, p.ctx, p.ch, p.hh, true, Subject, p.ehh, fuel);
      if o.Tired? then Tired else AllObjects(env, o, p.ehh)
    else RestNodes(env, p.ctx, p.ch, p.hh, true, Object, p.ehh, fuel)
  }

  function RestEvent<W>(env: Env<W>, p: Point<W>, fuel: nat): Out<W> {
    var o := RestList(env, p, fuel);
    if o.Tired? || !Deciding(p.ehh) then o
    else AllList(env, o.ctx, Notify(p.ehh, o.ctx.result), o.fuel)
  }

  // A suspended state as do_event_list leaves it: the handler that waits is for
  // this event, and it was found under the first class handler that is left.
  predicate Suspended<W>(p: Point<W>) {
    || (p.phase == 1 && p.hh != [])
    || ((p.phase == 2 || p.phase == 3) && p.hh != [] && p.hh[0].sameEvent && p.ch != [])
  }

  // get_tree_node still finds the node under which the handler waits.
  predicate Found<W>(env: Env<W>, p: Point<W>) {
    p.phase == 2 || p.phase == 3 ==>
      p.ch != [] && env.node(p.ctx.w, p.ch[0], if p.phase == 2 then Subject else Object).Some?
  }

  predicate Resumable<W>(env: Env<W>, p: Point<W>) { p.phase == 0 || (Suspended(p) && Found(env, p)) }

  /* One call against the uninterrupted run. */

  lemma {:induction false} EntriesPass<W>(env: Env<W>, c: Ctx<W>, hh: seq<Entry>, again: bool, byEvent: bool, fuel: nat)
    requires again ==> hh != [] && (byEvent ==> hh[0].sameEvent)
    ensures var (c', left) := PassEntries(env, c, hh, again, byEvent);
      && (left != [] && byEvent ==> left[0].sameEvent)
      && AllEntries(env, c, hh, again, byEvent, fuel)
         == if left == [] then Ended(c', fuel)
            else if fuel == 0 then Tired
            else AllEntries(env, Woken(env, c'), left, true, byEvent, fuel - 1)
    decreases |hh|
  {
    hide OneCall;
    if hh == [] {
    } else if byEvent && !hh[0].sameEvent {
      EntriesPass(env, c, hh[1..], false, byEvent, fuel);
    } else {
      var (c', waits) := OneCall(env, c, hh[0], again);
      if !waits { EntriesPass(env, c', hh[1..], false, byEvent, fuel); }
    }
  }

  lemma {:induction false} NodesPass<W>(env: Env<W>, c: Ctx<W>, ch: seq<nat>, hh: seq<Entry>, again: bool, side: Side,
      ehh: nat, fuel: nat)
    requires again ==> ch != [] && env.node(c.w, ch[0], side).Some? && hh != [] && hh[0].sameEvent
    ensures var (c', ch', hh') := PassNodes(env, c, ch, hh, again, side, ehh);
      && (hh' != [] ==> ch' != [] && hh'[0].sameEvent)
      && RestNodes(env, c, ch, hh, again, side, ehh, fuel)
         == if hh' == [] then Ended(c', fuel)
            else if fuel == 0 then Tired
            else RestNodes(env, Woken(env, c'), ch', hh', true, side, ehh, fuel - 1)
    decreases |ch|
  {
    hide PassEntries, AllEntries, HandlersOf;
    if ch != [] {
      var n := env.node(c.w, ch[0], side);
      if n.None? {
        NodesPass(env, c, ch[1..], [], false, side, ehh, fuel);
      } else {
        var list := if again then hh else HandlersOf(n.value, side, ehh);
        EntriesPass(env, c, list, again, true, fuel);
        var (c', left) := PassEntries(env, c, list, again, true);
        if left == [] { NodesPass(env, c', ch[1..], [], false, side, ehh, fuel); }
      }
    }
  }

  // The state do_event_list leaves, when the waiting handler is woken.
  function Resumed<W>(env: Env<W>, q: Point<W>): Point<W> { q.(ctx := Woken(env, q.ctx)) }

  // What a call of do_event_list owes to the uninterrupted run.
  ghost predicate Owes<W>(env: Env<W>, rest: Out<W>, q: Point<W>, r: int, ehh: nat, fuel: nat) {
    && q.ehh == ehh
    && (r <= 0 ==> rest == Ended(q.ctx, fuel) && q.phase == 0 && r == if q.ctx.unhandled then -1 else 0)
    && (r > 0 ==>
          && q.phase != 0 && Suspended(q)
          && rest == if fuel == 0 then Tired else RestList(env, Resumed(env, q), fuel - 1))
  }

  lemma {:induction false} ObjectsPass<W>(env: Env<W>, c: Ctx<W>, ch: seq<nat>, hh: seq<Entry>, again: bool, ehh: nat,
      fuel: nat)
    requires again ==> ch != [] && env.node(c.w, ch[0], Object).Some? && hh != [] && hh[0].sameEvent
    ensures var (q, r) := PassObjects(env, c, ch, hh, again, ehh);
      Owes(env, RestNodes(env, c, ch, hh, again, Object, ehh, fuel), q, r, ehh, fuel)
  {
    hide PassNodes, RestNodes;
    NodesPass(env, c, ch, hh, again, Object, ehh, fuel);
  }

  function AfterSubjects<W>(env: Env<W>, o: Out<W>, ehh: nat): Out<W> {
    if o.Tired? then Tired else AllObjects(env, o, ehh)
  }

  lemma {:induction false} SubjectsPass<W>(env: Env<W>, c: Ctx<W>, ch: seq<nat>, hh: seq<Entry>, again: bool, ehh: nat,
      fuel: nat)
    requires again ==> ch != [] && env.node(c.w, ch[0], Subject).Some? && hh != [] && hh[0].sameEvent
    ensures var (q, r) := PassSubjects(env, c, ch, hh, again, ehh);
      Owes(env, AfterSubjects(env, RestNodes(env, c, ch, hh, again, Subject, ehh, fuel), ehh), q, r, ehh, fuel)
  {
    hide PassNodes, AllNodes, AllEntries;
    NodesPass(env, c, ch, hh, again, Subject, ehh, fuel);
    var (c', ch', hh') := PassNodes(env, c, ch, hh, again, Subject, ehh);
    if hh' == [] {
      ObjectsPass(env, c', ClassesOf(env, c', Object), [], false, ehh, fuel);
    }
  }

  function AfterEntries<W>(env: Env<W>, o: Out<W>, ehh: nat): Out<W> {
    if o.Tired? then Tired else AllSubjects(env, o, ehh)
  }

  lemma {:induction false} AllPass<W>(env: Env<W>, c: Ctx<W>, hh: seq<Entry>, again: bool, ehh: nat, fuel: nat)
    requires again ==> hh != []
    ensures var (q, r) := PassAll(env, c, hh, again, ehh);
      Owes(env, AfterEntries(env, AllEntries(env, c, hh, again, false, fuel), ehh), q, r, ehh, fuel)
  {
    hide PassEntries, PassNodes, AllEntries, AllNodes;
    EntriesPass(env, c, hh, again, false, fuel);
    var (c', hh') := PassEntries(env, c, hh, again, false);
    if hh' == [] {
      SubjectsPass(env, c', ClassesOf(env, c', Subject), [], false, ehh, fuel);
    }
  }

  lemma {:induction false} ListPass<W>(env: Env<W>, p: Point<W>, fuel: nat)
    requires Resumable(env, p)
    ensures var (q, r) := PassList(env, p);
      Owes(env, RestList(env, p, fuel), q, r, p.ehh, fuel)
  {
    hide PassAll, PassSubjects, PassObjects, AllEntries, AllNodes, Owes;
    if p.phase == 0 {
      AllPass(env, Started(env, p.ctx, p.ehh), env.handlers(p.ehh), false, p.ehh, fuel);
    } else if p.phase == 1 {
      AllPass(env, p.ctx, p.hh, true, p.ehh, fuel);
    } else if p.phase == 2 {
      SubjectsPass(env, p.ctx, p.ch, p.hh, true, p.ehh, fuel);
    } else {
      ObjectsPass(env, p.ctx, p.ch, p.hh, true, p.ehh, fuel);
    }
  }

  /* Results stay results. */

  predicate Sound<W>(c: Ctx<W>) { c.result == Strongest(c.log) && c.unhandled == (c.log == []) }

  // The results the handlers gave, one after the other.
  function Strongest(log: seq<(nat, int)>): int {
    if log == [] then RESULT_ERR else EvaluateResult(Strongest(log[..|log| - 1]), log[|log| - 1].1)
  }

  // The strongest thing said, whatever the order; an error if nothing was said.
  lemma {:induction false} StrongestWins(log: seq<(nat, int)>)
    ensures Strongest(log) == RESULT_ERR || Verdict(Strongest(log))
    ensures Strongest(log) == RESULT_ERR <==> log == []
    ensures forall i :: 0 <= i < |log| ==> Strength(Said(log[i].1)) <= Strength(Strongest(log))
    ensures log != [] ==> exists i :: 0 <= i < |log| && Said(log[i].1) == Strongest(log)
    decreases |log|
  {
    if log != [] {
      var n := |log| - 1;
      StrongestWins(log[..n]);
      var was, said := Strongest(log[..n]), log[n].1;
      assert Strongest(log) == was || Strongest(log) == Said(said);
      if Strongest(log) == Said(said) {
        assert Said(log[n].1) == Strongest(log);
      } else if n > 0 {
        var i :| 0 <= i < n && Said(log[..n][i].1) == was;
        assert Said(log[i].1) == Strongest(log);
      }
      forall i | 0 <= i < |log| ensures Strength(Said(log[i].1)) <= Strength(Strongest(log)) {
        if i < n { assert log[..n][i] == log[i]; }
      }
    }
  }

  lemma {:induction false} CallSound<W>(env: Env<W>, c: Ctx<W>, h: Entry, again: bool)
    requires Sound(c)
    ensures Sound(OneCall(env, c, h, again).0)
  {
    var (w, a) := env.call(c.w, h, again, c.result);
    if a.Finished? {
      var log := c.log + [(h.id, a.result)];
      assert log[..|log| - 1] == c.log;
    }
  }

  lemma {:induction false} EntriesSound<W>(env: Env<W>, c: Ctx<W>, hh: seq<Entry>, again: bool, byEvent: bool)
    requires Sound(c)
    ensures Sound(PassEntries(env, c, hh, again, byEvent).0)
    decreases |hh|
  {
    hide Sound, OneCall;
    if hh != [] {
      if byEvent && !hh[0].sameEvent {
        EntriesSound(env, c, hh[1..], false, byEvent);
      } else {
        CallSound(env, c, hh[0], again);
        var (c', waits) := OneCall(env, c, hh[0], again);
        if !waits { EntriesSound(env, c', hh[1..], false, byEvent); }
      }
    }
  }

  lemma {:induction false} NodesSound<W>(env: Env<W>, c: Ctx<W>, ch: seq<nat>, hh: seq<Entry>, again: bool, side: Side,
      ehh: nat)
    requires Sound(c)
    ensures Sound(PassNodes(env, c, ch, hh, again, side, ehh).0)
    decreases |ch|
  {
    hide Sound, PassEntries;
    if ch != [] {
      var n := env.node(c.w, ch[0], side);
      if n.None? {
        NodesSound(env, c, ch[1..], [], false, side, ehh);
      } else {
        var list := if again then hh else HandlersOf(n.value, side, ehh);
        EntriesSound(env, c, list, again, true);
        var (c', left) := PassEntries(env, c, list, again, true);
        if left == [] { NodesSound(env, c', ch[1..], [], false, side, ehh); }
      }
    }
  }

  lemma {:induction false} SubjectsSound<W>(env: Env<W>, c: Ctx<W>, ch: seq<nat>, hh: seq<Entry>, again: bool, ehh: nat)
    requires Sound(c)
    ensures Sound(PassSubjects(env, c, ch, hh, again, ehh).0.ctx)
  {
    hide Sound, PassNodes;
    NodesSound(env, c, ch, hh, again, Subject, ehh);
    var (c', ch', hh') := PassNodes(env, c, ch, hh, again, Subject, ehh);
    NodesSound(env, c', ClassesOf(env, c', Object), [], false, Object, ehh);
  }

  lemma {:induction false} ListSound<W>(env: Env<W>, p: Point<W>)
    requires Sound(p.ctx)
    ensures Sound(PassList(env, p).0.ctx)
  {
    hide Sound, PassNodes, PassEntries, PassSubjects;
    if p.phase <= 1 {
      var c := if p.phase == 0 then Started(env, p.ctx, p.ehh) else p.ctx;
      var hh := if p.phase == 0 then env.handlers(p.ehh) else p.hh;
      assert Sound(c) by { StartedSound(env, p.ctx, p.ehh); }
      EntriesSound(env, c, hh, p.phase == 1, false);
      var (c', hh') := PassEntries(env, c, hh, p.phase == 1, false);
      SubjectsSound(env, c', ClassesOf(env, c', Subject), [], false, p.ehh);
    } else if p.phase == 2 {
      SubjectsSound(env, p.ctx, p.ch, p.hh, true, p.ehh);
    } else {
      NodesSound(env, p.ctx, p.ch, p.hh, true, Object, p.ehh);
    }
  }

  lemma StartedSound<W>(env: Env<W>, c: Ctx<W>, ehh: nat)
    requires Sound(c)
    ensures Sound(Started(env, c, ehh))
  {
  }

  // The case RETRY of do_event is dead.
  lemma {:induction false} NeverRetry<W>(env: Env<W>, p: Point<W>)
    requires Sound(p.ctx)
    ensures PassList(env, p).0.ctx.result != RETRY
  {
    ListSound(env, p);
    StrongestWins(PassList(env, p).0.ctx.log);
  }

  /* The whole event. */

  lemma {:induction false} EventPass<W>(env: Env<W>, p: Point<W>, fuel: nat)
    requires Resumable(env, p) && Sound(p.ctx)
    ensures var (q, r) := PassEvent(env, p);
      && Sound(q.ctx)
      && (r <= 0 ==>
        RestEvent(env, p, fuel) == Ended(q.ctx, fuel) && q.phase == 0 && r == if q.ctx.unhandled then -1 else 0)
      && (r > 0 ==>
            && Suspended(q)
            && RestEvent(env, p, fuel) == if fuel == 0 then Tired else RestEvent(env, Resumed(env, q), fuel - 1))
  {
    hide PassList, RestList, Resumable, Sound, AllList;
    ListPass(env, p, fuel);
    ListSound(env, p);
    NeverRetry(env, p);
    var (q, r) := PassList(env, p);
    if r <= 0 && Deciding(q.ehh) {
      var n := q.(ehh := Notify(q.ehh, q.ctx.result));
      assert Resumable(env, n) by { FreshResumable(env, n); }
      ListPass(env, n, fuel);
      ListSound(env, n);
      assert RestList(env, n, fuel) == AllList(env, n.ctx, n.ehh, fuel) by { FreshRest(env, n, fuel); }
    }
  }

  lemma FreshResumable<W>(env: Env<W>, p: Point<W>)
    requires p.phase == 0
    ensures Resumable(env, p)
  {
  }

  lemma FreshRest<W>(env: Env<W>, p: Point<W>, fuel: nat)
    requires p.phase == 0
    ensures RestList(env, p, fuel) == AllList(env, p.ctx, p.ehh, fuel)
  {
  }

  lemma WokenResumable<W>(env: Env<W>, q: Point<W>)
    requires Suspended(q) && Found(env, Resumed(env, q))
    ensures Resumable(env, Resumed(env, q))
  {
  }

  lemma WokenSound<W>(env: Env<W>, c: Ctx<W>)
    requires Sound(c)
    ensures Sound(Woken(env, c))
  {
  }

  // In the run from p, every node under which a handler waits is still found
  // when the handler is woken.
  predicate Undisturbed<W>(env: Env<W>, p: Point<W>, fuel: nat)
    decreases fuel
  {
    var (q, r) := PassEvent(env, p);
    r <= 0 || fuel == 0 || (Found(env, Resumed(env, q)) && Undisturbed(env, Resumed(env, q), fuel - 1))
  }

  lemma {:induction false} DriveRest<W>(env: Env<W>, p: Point<W>, fuel: nat)
    requires Resumable(env, p) && Sound(p.ctx) && Undisturbed(env, p, fuel)
    ensures match RestEvent(env, p, fuel)
      case Tired => Drive(env, p, fuel) == None
      case Ended(c, _) =>
        && Drive(env, p, fuel).Some?
        && Drive(env, p, fuel).value.0.ctx == c && Drive(env, p, fuel).value.0.phase == 0
        && Drive(env, p, fuel).value.1 == (if c.unhandled then -1 else 0) && Sound(c)
    decreases fuel
  {
    hide PassEvent, RestEvent, Resumable, Sound;
    EventPass(env, p, fuel);
    var (q, r) := PassEvent(env, p);
    if r > 0 && fuel > 0 {
      WokenSound(env, q.ctx);
      WokenResumable(env, q);
      DriveRest(env, Resumed(env, q), fuel - 1);
    }
  }

  // Suspension is invisible: however often and wherever handlers wait, calling
  // do_event until none waits ends in the state of the uninterrupted run, with
  // the strongest verdict any handler gave; provided no node vanishes under a
  // handler that waits.
  lemma {:induction false} SuspensionInvisible<W>(env: Env<W>, c: Ctx<W>, ehh: nat, fuel: nat)
    requires Deciding(ehh) && Undisturbed(env, Point(0, [], [], ehh, c), fuel)
    ensures match AllEvent(env, c, ehh, fuel)
      case Tired => Drive(env, Point(0, [], [], ehh, c), fuel) == None
      case Ended(e, _) =>
        && Drive(env, Point(0, [], [], ehh, c), fuel).Some?
        && Drive(env, Point(0, [], [], ehh, c), fuel).value.0.ctx == e
        && Drive(env, Point(0, [], [], ehh, c), fuel).value.1 == (if e.log == [] then -1 else 0)
        && e.result == Strongest(e.log)
  {
    var clean := Ctx(c.w, RESULT_ERR, true, []);
    var p := Point(0, [], [], ehh, c);
    StartIsClean(env, c, ehh);
    DriveClean(env, c, ehh, fuel);
    DriveRest(env, Point(0, [], [], ehh, clean), fuel);
  }

  // What the context holds before the event does not matter.
  lemma StartIsClean<W>(env: Env<W>, c: Ctx<W>, ehh: nat)
    requires Deciding(ehh)
    ensures Started(env, c, ehh) == Started(env, Ctx(c.w, RESULT_ERR, true, []), ehh)
  {
  }

  lemma {:induction false} DriveClean<W>(env: Env<W>, c: Ctx<W>, ehh: nat, fuel: nat)
    requires Deciding(ehh)
    ensures var clean := Ctx(c.w, RESULT_ERR, true, []);
      && Drive(env, Point(0, [], [], ehh, c), fuel) == Drive(env, Point(0, [], [], ehh, clean), fuel)
      && Undisturbed(env, Point(0, [], [], ehh, c), fuel) == Undisturbed(env, Point(0, [], [], ehh, clean), fuel)
      && AllEvent(env, c, ehh, fuel) == RestEvent(env, Point(0, [], [], ehh, clean), fuel)
  {
    hide PassAll, AllEntries, AllNodes;
    StartIsClean(env, c, ehh);
    assert PassList(env, Point(0, [], [], ehh, c)) ==
      PassList(env, Point(0, [], [], ehh, Ctx(c.w, RESULT_ERR, true, [])));
  }

  /* When a node vanishes. */

  // One handler of one node: it waits, and then denies.
  function Vanishing(gone: bool): Env<bool> {
    var none: seq<Entry> := [];
    Env((ehh: nat) => none, (w: bool, s: Side) => s.Object?, (w: bool, s: Side) => [0],
      (w: bool, c: nat, s: Side) => if w && gone then None
        else Some(Node((ehh: nat) => none, (ehh: nat) => if ehh == VS_ALLOW then [Entry(7, true)] else none)),
      (w: bool, h: Entry) => true,
      (w: bool, h: Entry, again: bool, r: int) => (w, if again then Finished(DENY) else Pending),
      (w: bool) => w, (w: bool) => true)
  }

  // Without the proviso the agreement fails: the node vanishes while the handler
  // waits, and its denial is lost.
  lemma {:induction false} LostDenial()
    ensures var env := Vanishing(true);
      var c := Ctx(false, RESULT_ERR, true, []);
      var p := Point(0, [], [], VS_ALLOW, c);
      && !Undisturbed(env, p, 1)
      && AllEvent(env, c, VS_ALLOW, 1).Ended? && AllEvent(env, c, VS_ALLOW, 1).ctx.result == DENY
      && Drive(env, p, 1).Some? && Drive(env, p, 1).value.0.ctx.result == RESULT_ERR && Drive(env, p, 1).value.1 == -1
  {
    var env := Vanishing(true);
    var c := Ctx(false, RESULT_ERR, true, []);
    var p := Point(0, [], [], VS_ALLOW, c);
    var h := Entry(7, true);
    // The first call suspends.
    var q := Point(3, [h], [0], VS_ALLOW, c);
    assert HandlersOf(env.node(false, 0, Object).value, Object, VS_ALLOW) == [h];
    assert PassEntries(env, c, [h], false, true) == (c, [h]);
    assert PassObjects(env, c, [0], [], false, VS_ALLOW) == (q, 1);
    assert PassSubjects(env, c, [], [], false, VS_ALLOW) == (q, 1);
    assert PassAll(env, c, [], false, VS_ALLOW) == (q, 1);
    assert PassEvent(env, p) == (q, 1);
    // The second call does not find the node.
    var d := c.(w := true);
    var r := Point(3, [h], [0], VS_ALLOW, d);
    assert Resumed(env, q) == r && !Found(env, r);
    assert PassNodes(env, d, [0], [h], true, Object, VS_ALLOW) == (d, [], []);
    var e := Point(0, [], [], VS_ALLOW, d);
    assert PassList(env, r) == (e, -1);
    NothingToNotify(env, d);
    assert Drive(env, r, 0).Some?;
    assert Drive(env, p, 1) == Drive(env, r, 0);
    // Uninterrupted, the handler denies.
    var denied := Ctx(true, DENY, false, [(7, DENY)]);
    assert Complete(env, d, h, true, 0) == Ended(denied, 0);
    assert Complete(env, c, h, false, 1) == Complete(env, d, h, true, 0);
    assert AllEntries(env, c, [h], false, true, 1) == Ended(denied, 0);
    assert AllNodes(env, c, [0], Object, VS_ALLOW, 1) == Ended(denied, 0);
    assert AllEntries(env, c, [], false, false, 1) == Ended(c, 1);
    assert AllList(env, c, VS_ALLOW, 1) == Ended(denied, 0);
    NothingToNotifyAll(env, denied);
  }

  lemma {:induction false} NothingToNotify(env: Env<bool>, d: Ctx<bool>)
    requires env == Vanishing(true) && d == Ctx(true, RESULT_ERR, true, [])
    ensures PassList(env, Point(0, [], [], NOTIFY_ALLOW, d)) == (Point(0, [], [], NOTIFY_ALLOW, d), -1)
  {
    assert PassNodes(env, d, [0], [], false, Object, NOTIFY_ALLOW) == (d, [], []);
    assert PassObjects(env, d, [0], [], false, NOTIFY_ALLOW) == (Point(0, [], [], NOTIFY_ALLOW, d), -1);
  }

  lemma {:induction false} NothingToNotifyAll(env: Env<bool>, d: Ctx<bool>)
    requires env == Vanishing(true) && d == Ctx(true, DENY, false, [(7, DENY)])
    ensures AllList(env, d, NOTIFY_DENY, 0) == Ended(d, 0)
  {
    assert AllNodes(env, d, [0], Object, NOTIFY_DENY, 0) == Ended(d, 0);
    assert AllEntries(env, d, [], false, false, 0) == Ended(d, 0);
  }
}
