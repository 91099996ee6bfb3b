/** do_event as it runs: the request buffer keeps where a suspended decision
    goes on (constable/event.c:358-639). */
module EventBuffer {
  import opened Lists
  import opened Events

  class Buffer<W> {
    const env: Env<W>
    var doPhase: nat
    var hh: seq<Entry>          // what is left of the list of handlers
    var ch: seq<nat>            // what is left of the list of class handlers
    var ehhList: nat
    var w: W
    var result: int             // context.result
    var unhandled: bool         // context.unhandled
    ghost var log: seq<(nat, int)>

    constructor (env: Env<W>, ehh: nat, w: W)
      ensures this.env == env && View() == Point(0, [], [], ehh, Ctx(w, RESULT_ERR, true, []))
    {
      this.env := env;
      doPhase, hh, ch, ehhList := 0, [], [], ehh;
      this.w, result, unhandled, log := w, RESULT_ERR, true, [];
    }

    ghost function Context(): Ctx<W>
      reads this
    {
      Ctx(w, result, unhandled, log)
    }

    // hh and ch mean something only while a handler waits.
    ghost function View(): Point<W>
      reads this
    {
      Point(doPhase, if doPhase == 0 then [] else hh, if doPhase == 2 ||
        doPhase == 3 then ch else [], ehhList, Context())
    }

    // do_event_handler: 1 if the handler waits.
    method DoEventHandler() returns (i: int)
      requires hh != []
      modifies this`w, this`result, this`unhandled, this`log
      ensures (Context(), i > 0) == OneCall(env, old(Context()), hh[0], doPhase != 0)
    {
      var h := hh[0];
      if doPhase == 0 && !env.accepts(w, h) {
        return -1;
      }
      var r := result;
      var a := env.call(w, h, doPhase != 0, result);
      w := a.0;
      match a.1 {
        case Finished(said) =>
          result, unhandled, log := EvaluateResult(r, said), false, log + [(h.id, said)];
          i := 0;
        case Pending =>
          result, i := r, 1;
        case Failed =>
          result, i := r, -1;
      }
    }

    // The handlers of the event itself.
    method DoHandlers(ghost goal: (Point<W>, int)) returns (i: int)
      requires doPhase == 0 || (doPhase == 1 && hh != [])
      requires PassAll(env, Context(), hh, doPhase != 0, ehhList) == goal
      modifies this
      ensures ehhList == old(ehhList)
      ensures i > 0 ==> (View(), 1) == goal && i == 1
      ensures i <= 0 ==> doPhase == 0 && goal == PassSubjects(env, Context(), ClassesOf(env, Context(), Subject), [],
          false, ehhList)
    {
      hide OneCall, PassSubjects;
      while hh != []
        invariant ehhList == old(ehhList) && (doPhase == 0 || (doPhase == 1 && hh != []))
        invariant PassAll(env, Context(), hh, doPhase != 0, ehhList) == goal
        decreases |hh|
      {
        i := DoEventHandler();
        if i > 0 {
          doPhase, i := 1, 1;
          return;
        }
        doPhase := 0;
        hh := hh[1..];
      }
      i := 0;
    }

    // The handlers of one tree node, the phase to suspend in is given. left is
    // what the loop comes to.
    method DoNode(phase: nat, ghost left: (Ctx<W>, seq<Entry>)) returns (i: int)
      requires phase != 0 && (doPhase == 0 || hh != [])
      requires PassEntries(env, Context(), hh, doPhase != 0, true) == left
      modifies this
      ensures ehhList == old(ehhList) && ch == old(ch) && Context() == left.0
      ensures i > 0 ==> i == 1 && doPhase == phase && hh == left.1 != []
      ensures i <= 0 ==> doPhase == 0 && left.1 == []
    {
      hide OneCall;
      while hh != []
        invariant ehhList == old(ehhList) && ch == old(ch) && (doPhase == 0 || hh != [])
        invariant PassEntries(env, Context(), hh, doPhase != 0, true) == left
        decreases |hh|
      {
        if hh[0].sameEvent {
          i := DoEventHandler();
          if i > 0 {
            doPhase, i := phase, 1;
            return;
          }
        }
        doPhase := 0;
        hh := hh[1..];
      }
      doPhase := 0;
      i := 0;
    }

    // The class handlers of the subject or the object.
    method DoNodes(side: Side, phase: nat, ghost goal: (Ctx<W>, seq<nat>, seq<Entry>)) returns (i: int)
      requires phase != 0 && (doPhase == 0 || hh != [])
      requires PassNodes(env, Context(), ch, if doPhase == 0 then [] else hh, doPhase != 0, side, ehhList) == goal
      modifies this
      ensures ehhList == old(ehhList) && Context() == goal.0
      ensures i > 0 ==> i == 1 && doPhase == phase && ch == goal.1 && hh == goal.2 != []
      ensures i <= 0 ==> doPhase == 0 && goal.2 == []
    {
      hide PassEntries;
      while ch != []
        invariant ehhList == old(ehhList) && (doPhase == 0 || hh != [])
        invariant PassNodes(env, Context(), ch, if doPhase == 0 then [] else hh, doPhase != 0, side, ehhList) == goal
        decreases |ch|
      {
        var t := env.node(w, ch[0], side);
        if t.None? {
          doPhase := 0;
        } else {
          if doPhase == 0 {
            hh := if side == Subject then t.value.ofSubject(ehhList) else t.value.ofObject(ehhList);
          }
          i := DoNode(phase, PassEntries(env, Context(), hh, doPhase != 0, true));
          if i > 0 {
            return;
          }
        }
        ch := ch[1..];
      }
      doPhase := 0;
      i := 0;
    }

    // do_event_list
    method DoEventList() returns (i: int)
      requires Resumable(env, View())
      modifies this
      ensures (View(), i) == PassList(env, old(View()))
    {
      hide PassEntries, PassNodes, HandlersOf;
      ghost var goal := PassList(env, View());
      if doPhase == 0 && (ehhList == VS_ALLOW || ehhList == VS_DENY) {
        result, unhandled, log := RESULT_ERR, true, [];
        w := env.prepare(w);
      }
      if doPhase == 0 || doPhase == 1 {
        if doPhase == 0 {
          hh := env.handlers(ehhList);
        }
        i := DoHandlers(goal);
        if i > 0 {
          return;
        }
        ch := if env.hasClass(w, Subject) then env.classHandlers(w, Subject) else [];
      }
      if doPhase == 0 || doPhase == 2 {
        ghost var again := doPhase != 0;
        ghost var list := if again then hh else [];
        assert goal == PassSubjects(env, Context(), ch, list, again, ehhList);
        i := DoNodes(Subject, 2, PassNodes(env, Context(), ch, list, again, Subject, ehhList));
        if i > 0 {
          return;
        }
        ch := if env.hasClass(w, Object) then env.classHandlers(w, Object) else [];
      }
      assert goal == PassObjects(env, Context(), ch, if doPhase != 0 then hh else [], doPhase != 0, ehhList);
      i := DoObjects();
    }

    // The nodes of the object, and the end of the list.
    method DoObjects() returns (i: int)
      requires doPhase == 0 || hh != []
      modifies this
      ensures (View(), i) ==
        old(PassObjects(env, Context(), ch, if doPhase != 0 then hh else [], doPhase != 0, ehhList))
    {
      hide PassNodes;
      ghost var again := doPhase != 0;
      i := DoNodes(Object, 3, PassNodes(env, Context(), ch, if again then hh else [], again, Object, ehhList));
      if i > 0 {
        return;
      }
      doPhase := 0;
      i := if unhandled then -1 else 0;
    }

    // do_event
    method DoEvent() returns (r: int)
      requires Resumable(env, View())
      modifies this
      ensures (View(), r) == PassEvent(env, old(View()))
    {
      hide PassList;
      r := DoEventList();
      if r > 0 {
        return;
      }
      if ehhList == VS_ALLOW {
        if result == RETRY {
          return;
        }
        ehhList := if result == DENY || result == FAKE_ALLOW then NOTIFY_DENY else NOTIFY_ALLOW;
        ListDone(env, old(View()));
        r := DoEventList();
      } else if ehhList == VS_DENY {
        if result == RETRY {
          return;
        }
        ehhList := NOTIFY_DENY;
        ListDone(env, old(View()));
        r := DoEventList();
      }
    }
  }

  // When no handler waits the buffer is back in phase 0.
  lemma ListDone<W>(env: Env<W>, p: Point<W>)
    requires Resumable(env, p) && PassList(env, p).1 <= 0
    ensures PassList(env, p).0.phase == 0
  {
    ListPass(env, p, 0);
  }
}
