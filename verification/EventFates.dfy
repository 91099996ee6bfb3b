/** What becomes of a handler that was suspended under a class handler
    (constable/event.c:482-548): it is taken up again exactly as long as its tree
    node is found, and dropped with the handlers behind it when it is not. */
module EventFates {
  import opened Lists
  import opened Events

  function SideOf<W>(p: Point<W>): Side { if p.phase == 2 then Subject else Object }

  predicate UnderNode<W>(p: Point<W>) { Suspended(p) && (p.phase == 2 || p.phase == 3) }

  // The rest of do_event_list, with the handlers left under the first class handler.
  function PassLeft<W>(env: Env<W>, p: Point<W>, c: Ctx<W>, left: seq<Entry>): (Point<W>, int)
    requires p.ch != []
  {
    var (c', left') := PassEntries(env, c, left, false, true);
    if left' != [] then (Point(p.phase, left', p.ch, p.ehh, c'), 1)
    else if p.phase == 2 then PassSubjects(env, c', p.ch[1..], [], false, p.ehh)
    else PassObjects(env, c', p.ch[1..], [], false, p.ehh)
  }

  // One call: the handler is called again if its node is found; otherwise neither
  // it nor what is left behind it is called.
  lemma {:induction false} TakenUpOrLost<W>(env: Env<W>, p: Point<W>)
    requires UnderNode(p)
    ensures PassList(env, p) ==
      if !Found(env, p) then PassLeft(env, p, p.ctx, [])
      else
        var (c', waits) := OneCall(env, p.ctx, p.hh[0], true);
        if waits then (p.(ctx := c'), 1) else PassLeft(env, p, c', p.hh[1..])
  {
    hide OneCall, HandlersOf;
  }

  // do_event, from what do_event_list has returned.
  function AfterList<W>(env: Env<W>, l: (Point<W>, int)): (Point<W>, int) {
    if l.1 > 0 || !Deciding(l.0.ehh) || l.0.ctx.result == RETRY then l
    else PassList(env, l.0.(ehh := Notify(l.0.ehh, l.0.ctx.result)))
  }

  // And the further calls.
  function DriveOn<W>(env: Env<W>, l: (Point<W>, int), fuel: nat): Option<(Point<W>, int)> {
    var (q, r) := AfterList(env, l);
    if r <= 0 then Some((q, r)) else if fuel == 0 then None else Drive(env, Resumed(env, q), fuel - 1)
  }

  // The handler that waits at p, over all the calls that take it up.
  datatype Fate<W> = StillWaits | Completes(ctx: Ctx<W>, fuel: nat) | Dropped(ctx: Ctx<W>, fuel: nat)

  function FateOf<W>(env: Env<W>, p: Point<W>, fuel: nat): Fate<W>
    requires p.hh != []
    decreases fuel
  {
    if !Found(env, p) then Dropped(p.ctx, fuel)
    else
      var (c', waits) := OneCall(env, p.ctx, p.hh[0], true);
      if !waits then Completes(c', fuel) else if fuel == 0 then StillWaits
        else FateOf(env, Resumed(env, p.(ctx := c')), fuel - 1)
  }

  // The run goes on as the fate of the handler says: behind it, or behind all
  // that is left under its class handler, with nothing said by any of them.
  lemma {:induction false} RunsOn<W>(env: Env<W>, p: Point<W>, fuel: nat)
    requires UnderNode(p)
    ensures match FateOf(env, p, fuel)
      case StillWaits => Drive(env, p, fuel) == None
      case Completes(c, f) => Drive(env, p, fuel) == DriveOn(env, PassLeft(env, p, c, p.hh[1..]), f)
      case Dropped(c, f) =>
        && c.log == p.ctx.log && c.result == p.ctx.result
        && Drive(env, p, fuel) == DriveOn(env, PassLeft(env, p, c, []), f)
    decreases fuel
  {
    hide PassLeft, PassList, Found;
    TakenUpOrLost(env, p);
    if Found(env, p) {
      var (c', waits) := OneCall(env, p.ctx, p.hh[0], true);
      if waits && fuel > 0 {
        var q := Resumed(env, p.(ctx := c'));
        RunsOn(env, q, fuel - 1);
        assert forall c, left :: PassLeft(env, q, c, left) == PassLeft(env, p, c, left) by { SameLeft(env, p, q); }
      }
    }
  }

  lemma SameLeft<W>(env: Env<W>, p: Point<W>, q: Point<W>)
    requires p.ch != [] && q == p.(ctx := q.ctx)
    ensures forall c, left :: PassLeft(env, q, c, left) == PassLeft(env, p, c, left)
  {
  }

  // The context when the handler h is called for the n-th time after it was
  // suspended, if it waits every time before.
  function Wakeup<W>(env: Env<W>, c: Ctx<W>, h: Entry, n: nat): Ctx<W> {
    if n == 0 then c else Woken(env, OneCall(env, Wakeup(env, c, h, n - 1), h, true).0)
  }

  // Called again and again, h ends with the n-th call.
  predicate EndsAt<W>(env: Env<W>, c: Ctx<W>, h: Entry, n: nat) {
    && !OneCall(env, Wakeup(env, c, h, n), h, true).1
    && forall i :: 0 <= i < n ==> OneCall(env, Wakeup(env, c, h, i), h, true).1
  }

  predicate NodeAt<W>(env: Env<W>, p: Point<W>, n: nat)
    requires p.hh != [] && p.ch != []
  {
    env.node(Wakeup(env, p.ctx, p.hh[0], n).w, p.ch[0], SideOf(p)).Some?
  }

  // A suspended handler that would end with its n-th call is brought to its end
  // exactly if get_tree_node finds its node at every one of its wake-ups, and
  // otherwise dropped.
  lemma {:induction false} CompletesIff<W>(env: Env<W>, p: Point<W>, n: nat, fuel: nat)
    requires UnderNode(p) && EndsAt(env, p.ctx, p.hh[0], n) && n <= fuel
    ensures FateOf(env, p, fuel).Completes? <==> forall i: nat :: i <= n ==> NodeAt(env, p, i)
    ensures FateOf(env, p, fuel).Completes? || FateOf(env, p, fuel).Dropped?
    decreases n
  {
    hide OneCall;
    assert NodeAt(env, p, 0) == Found(env, p);
    if n > 0 && Found(env, p) {
      var h := p.hh[0];
      assert Wakeup(env, p.ctx, h, 0) == p.ctx;
      var q := Resumed(env, p.(ctx := OneCall(env, p.ctx, h, true).0));
      forall i: nat ensures Wakeup(env, q.ctx, h, i) == Wakeup(env, p.ctx, h, i + 1) { WakeupNext(env, p.ctx, h, i); }
      assert EndsAt(env, q.ctx, h, n - 1);
      CompletesIff(env, q, n - 1, fuel - 1);
      forall i: nat ensures NodeAt(env, q, i) == NodeAt(env, p, i + 1) { }
      if forall i: nat :: i <= n - 1 ==> NodeAt(env, q, i) {
        forall i: nat | i <= n ensures NodeAt(env, p, i) {
          if i > 0 { assert NodeAt(env, q, i - 1); }
        }
      }
    }
  }

  lemma {:induction false} WakeupNext<W>(env: Env<W>, c: Ctx<W>, h: Entry, n: nat)
    ensures Wakeup(env, Woken(env, OneCall(env, c, h, true).0), h, n) == Wakeup(env, c, h, n + 1)
  {
    hide OneCall;
    if n > 0 { WakeupNext(env, c, h, n - 1); }
  }

  /* Where no node vanishes */

  // No call of a handler, and nothing that happens while one waits, takes a node away.
  ghost predicate NodesStay<W(!new)>(env: Env<W>) {
    && (forall w, h, again, r, k, side :: env.node(w, k, side).Some? ==>
      env.node(env.call(w, h, again, r).0, k, side).Some?)
    && (forall w, k, side :: env.node(w, k, side).Some? ==> env.node(env.wake(w), k, side).Some?)
  }

  lemma {:induction false} EntriesStay<W(!new)>(env: Env<W>, c: Ctx<W>, hh: seq<Entry>, again: bool, k: nat, side: Side)
    requires NodesStay(env) && env.node(c.w, k, side).Some?
    ensures env.node(PassEntries(env, c, hh, again, true).0.w, k, side).Some?
    decreases |hh|
  {
    if hh != [] {
      if !hh[0].sameEvent {
        EntriesStay(env, c, hh[1..], false, k, side);
      } else {
        var (c', waits) := OneCall(env, c, hh[0], again);
        if !waits { EntriesStay(env, c', hh[1..], false, k, side); }
      }
    }
  }

  lemma {:induction false} NodesFound<W(!new)>(env: Env<W>, c: Ctx<W>, ch: seq<nat>, hh: seq<Entry>, again: bool,
      side: Side, ehh: nat)
    requires NodesStay(env)
    ensures var (c', ch', hh') := PassNodes(env, c, ch, hh, again, side, ehh);
      hh' != [] ==> ch' != [] && env.node(c'.w, ch'[0], side).Some?
    decreases |ch|
  {
    hide PassEntries, HandlersOf, NodesStay;
    if ch != [] {
      var n := env.node(c.w, ch[0], side);
      if n.None? {
        NodesFound(env, c, ch[1..], [], false, side, ehh);
      } else {
        var list := if again then hh else HandlersOf(n.value, side, ehh);
        EntriesStay(env, c, list, again, ch[0], side);
        var (c', left) := PassEntries(env, c, list, again, true);
        if left == [] { NodesFound(env, c', ch[1..], [], false, side, ehh); }
      }
    }
  }

  lemma {:induction false} ObjectsFound<W(!new)>(env: Env<W>, c: Ctx<W>, ch: seq<nat>, hh: seq<Entry>, again: bool,
      ehh: nat)
    requires NodesStay(env)
    ensures PassObjects(env, c, ch, hh, again, ehh).1 > 0 ==> Found(env, PassObjects(env, c, ch, hh, again, ehh).0)
  {
    hide PassNodes, NodesStay;
    NodesFound(env, c, ch, hh, again, Object, ehh);
  }

  lemma {:induction false} SubjectsFound<W(!new)>(env: Env<W>, c: Ctx<W>, ch: seq<nat>, hh: seq<Entry>, again: bool,
      ehh: nat)
    requires NodesStay(env)
    ensures PassSubjects(env, c, ch, hh, again, ehh).1 > 0 ==> Found(env, PassSubjects(env, c, ch, hh, again, ehh).0)
  {
    hide PassNodes, PassObjects, NodesStay;
    NodesFound(env, c, ch, hh, again, Subject, ehh);
    var (c', ch', hh') := PassNodes(env, c, ch, hh, again, Subject, ehh);
    ObjectsFound(env, c', ClassesOf(env, c', Object), [], false, ehh);
  }

  lemma {:induction false} ListFound<W(!new)>(env: Env<W>, p: Point<W>)
    requires NodesStay(env)
    ensures PassList(env, p).1 > 0 ==> Found(env, PassList(env, p).0)
  {
    hide PassSubjects, PassObjects, PassEntries, NodesStay;
    if p.phase <= 1 {
      var c := if p.phase == 0 then Started(env, p.ctx, p.ehh) else p.ctx;
      var (c', hh') := PassEntries(env, c, if p.phase == 0 then env.handlers(p.ehh) else p.hh, p.phase == 1, false);
      SubjectsFound(env, c', ClassesOf(env, c', Subject), [], false, p.ehh);
    } else if p.phase == 2 {
      SubjectsFound(env, p.ctx, p.ch, p.hh, true, p.ehh);
    } else {
      ObjectsFound(env, p.ctx, p.ch, p.hh, true, p.ehh);
    }
  }

  lemma {:induction false} NeverDisturbed<W(!new)>(env: Env<W>, p: Point<W>, fuel: nat)
    requires NodesStay(env)
    ensures Undisturbed(env, p, fuel)
    decreases fuel
  {
    hide PassList;
    ListFound(env, p);
    var (l, i) := PassList(env, p);
    ListFound(env, l.(ehh := Notify(l.ehh, l.ctx.result)));
    var (q, r) := PassEvent(env, p);
    if r > 0 && fuel > 0 { NeverDisturbed(env, Resumed(env, q), fuel - 1); }
  }

  // Then suspension is invisible, whatever waits where.
  lemma {:induction false} InvisibleWhereNodesStay<W(!new)>(env: Env<W>, c: Ctx<W>, ehh: nat, fuel: nat)
    requires Deciding(ehh) && NodesStay(env)
    ensures match AllEvent(env, c, ehh, fuel)
      case Tired => Drive(env, Point(0, [], [], ehh, c), fuel) == None
      case Ended(e, _) =>
        && Drive(env, Point(0, [], [], ehh, c), fuel).Some?
        && Drive(env, Point(0, [], [], ehh, c), fuel).value.0.ctx == e
        && Drive(env, Point(0, [], [], ehh, c), fuel).value.1 == (if e.log == [] then -1 else 0)
  {
    hide AllEvent, Drive, Undisturbed, NodesStay;
    NeverDisturbed(env, Point(0, [], [], ehh, c), fuel);
    SuspensionInvisible(env, c, ehh, fuel);
  }
}
