/** What happens to a buffer while no worker has it: nothing. So a worker that goes
    on with a suspended event finds it as it was left; and what a writer sends is
    what was said, one message after the other. */
module ProtocolResume {
  import opened Lists
  import opened Protocol
  import opened ProtocolPlaces
  import opened ProtocolSafety
  import opened ProtocolGate
  import opened ProtocolRuns

  // No worker runs b, or has it to unlock or to drain.
  predicate AtRest(s: State, b: nat) { b in s.bufs && forall w :: 0 <= w < |s.pcs| ==> !Owns(s.pcs[w], b) }

  // do_phase, the result and the suspended handler of a buffer.
  predicate SameEventState(x: Buf, y: Buf) {
    && y.conn == x.conn && y.id == x.id && y.cls == x.cls
    && y.phase == x.phase && y.result == x.result && y.busy == x.busy
  }

  ghost predicate KeptAtRest(s: State, t: State, b: nat) {
    b in s.bufs && b in t.bufs && SameEventState(s.bufs[b], t.bufs[b])
  }

  lemma {:induction false} StepAtRest(s: State, hasInit: bool, a: Action, b: nat)
    requires Ordered(s) && AtRest(s, b) && Step(s, hasInit, a).Some?
    ensures KeptAtRest(s, Step(s, hasInit, a).value, b)
  {
    hide Placed, Locked, Locks, DoReply, DoQuery, DoReady, DoAnswer, DoAsk;
    if a.Query? {
      QueryAtRest(s, hasInit, a.c, a.id, a.cls, b);
    } else if a.ReadyRequest? {
      ReadyAtRest(s, hasInit, a.c, b);
    } else if a.Reply? {
      ReplyAtRest(s, a.c, a.key, b);
    } else if a.Answer? {
      AnswerAtRest(s, hasInit, a.w, b);
    } else if a.Ask? {
      AskAtRest(s, a.w, a.h, a.kind, a.cid, a.ph, b);
    }
  }

  lemma QueryAtRest(s: State, hasInit: bool, c: nat, id: nat, cls: Option<nat>, b: nat)
    requires Based(s) && b in s.bufs && DoQuery(s, hasInit, c, id, cls).Some?
    ensures KeptAtRest(s, DoQuery(s, hasInit, c, id, cls).value, b)
  {
  }

  lemma ReadyAtRest(s: State, hasInit: bool, c: nat, b: nat)
    requires Based(s) && b in s.bufs && DoReady(s, hasInit, c).Some?
    ensures KeptAtRest(s, DoReady(s, hasInit, c).value, b)
  {
  }

  lemma ReplyAtRest(s: State, c: nat, key: Key, b: nat)
    requires b in s.bufs && DoReply(s, c, key).Some?
    ensures KeptAtRest(s, DoReply(s, c, key).value, b)
  {
    hide FindWaiter, MayReply;
  }

  lemma AnswerAtRest(s: State, hasInit: bool, w: nat, b: nat)
    requires AtRest(s, b) && DoAnswer(s, hasInit, w).Some?
    ensures KeptAtRest(s, DoAnswer(s, hasInit, w).value, b)
  {
    assert Owns(s.pcs[w], s.pcs[w].b);
  }

  lemma AskAtRest(s: State, w: nat, h: nat, kind: Kind, cid: nat, ph: nat, b: nat)
    requires AtRest(s, b) && DoAsk(s, w, h, kind, cid, ph).Some?
    ensures KeptAtRest(s, DoAsk(s, w, h, kind, cid, ph).value, b)
  {
    assert Owns(s.pcs[w], s.pcs[w].b);
  }

  // b is at rest in every state of a run but the last, in which a worker may have
  // it locked.
  ghost predicate RestsUntil(s: State, hasInit: bool, acts: seq<Action>, b: nat)
    decreases acts
  {
    acts == [] ||
    (AtRest(s, b) && Step(s, hasInit, acts[0]).Some? &&
      RestsUntil(Step(s, hasInit, acts[0]).value, hasInit, acts[1..], b))
  }

  lemma {:induction false} RunAtRest(s: State, hasInit: bool, acts: seq<Action>, b: nat)
    requires Safe(s, hasInit) && b in s.bufs && RestsUntil(s, hasInit, acts, b)
    ensures Run(s, hasInit, acts).Some? && KeptAtRest(s, Run(s, hasInit, acts).value, b)
    decreases acts
  {
    hide Ordered, AnswersOk, KeysOk, GateOk, Configured, ReadyOk, Step, AtRest;
    if acts != [] {
      var t := Step(s, hasInit, acts[0]).value;
      StepAtRest(s, hasInit, acts[0], b);
      StepSafe(s, hasInit, acts[0]);
      RunAtRest(t, hasInit, acts[1..], b);
    }
  }

  // An event that goes on later, or has ended, is found as it was left: with the
  // do_phase and the suspended handler, or the result, that its worker gave it.
  lemma {:induction false} FoundAsLeft(s: State, hasInit: bool, w: nat, a: Action, acts: seq<Action>)
    requires Safe(s, hasInit) && Decides(s, w) && Step(s, hasInit, a).Some? && (a.Again? || a.Ended?) && a.w == w
    requires RestsUntil(Step(s, hasInit, a).value, hasInit, acts, s.pcs[w].b)
    ensures Run(s, hasInit, [a] + acts).Some?
    ensures var t, b := Run(s, hasInit, [a] + acts).value, s.pcs[w].b;
      && b in t.bufs && t.bufs[b].id == s.bufs[b].id
      && (a.Again? ==> t.bufs[b].phase == a.ph && t.bufs[b].busy == Some(a.h))
      && (a.Ended? ==> t.bufs[b].phase == 1000 && t.bufs[b].result == a.result)
  {
    hide Ordered, AnswersOk, KeysOk, GateOk, Configured, ReadyOk, RestsUntil, SameEventState;
    assert ([a] + acts)[0] == a && ([a] + acts)[1..] == acts;
    var t := Step(s, hasInit, a).value;
    StepSafe(s, hasInit, a);
    RunAtRest(t, hasInit, acts, s.pcs[w].b);
    assert SameEventState(t.bufs[s.pcs[w].b], Run(t, hasInit, acts).value.bufs[s.pcs[w].b]);
    SameParts(t.bufs[s.pcs[w].b], Run(t, hasInit, acts).value.bufs[s.pcs[w].b]);
  }

  lemma SameParts(x: Buf, y: Buf)
    requires SameEventState(x, y)
    ensures y.id == x.id && y.phase == x.phase && y.result == x.result && y.busy == x.busy
  {
  }

  // A handler that asks, and the worker that then unlocks the buffer.
  lemma {:induction false} FoundAsAsked(s: State, hasInit: bool, w: nat, h: nat, kind: Kind, cid: nat, ph: nat,
      acts: seq<Action>)
    requires Safe(s, hasInit) && Decides(s, w) && DoAsk(s, w, h, kind, cid, ph).Some?
    requires DoLeave(DoAsk(s, w, h, kind, cid, ph).value, w).Some?
    requires RestsUntil(DoLeave(DoAsk(s, w, h, kind, cid, ph).value, w).value, hasInit, acts, s.pcs[w].b)
    ensures var t := DoLeave(DoAsk(s, w, h, kind, cid, ph).value, w).value;
      && Run(t, hasInit, acts).Some?
      && var u, b := Run(t, hasInit, acts).value, s.pcs[w].b;
        b in u.bufs && u.bufs[b].id == s.bufs[b].id && u.bufs[b].phase == ph && u.bufs[b].busy == Some(h)
  {
    hide Ordered, AnswersOk, KeysOk, GateOk, Configured, ReadyOk, RestsUntil, SameEventState;
    StepSafe(s, hasInit, Ask(w, h, kind, cid, ph));
    var t1 := DoAsk(s, w, h, kind, cid, ph).value;
    StepSafe(t1, hasInit, Leave(w));
    var t := DoLeave(t1, w).value;
    var b := s.pcs[w].b;
    assert b in t.bufs && t.bufs[b].phase == ph && t.bufs[b].busy == Some(h) && t.bufs[b].id == s.bufs[b].id;
    hide DoAsk, DoLeave, Step, Run;
    RunAtRest(t, hasInit, acts, b);
    SameParts(t.bufs[b], Run(t, hasInit, acts).value.bufs[b]);
  }

  /* What is sent. */

  function Writes(acts: seq<Action>, c: nat): nat {
    if acts == [] then 0 else (if acts[0] == Write(c) then 1 else 0) + Writes(acts[1..], c)
  }

  ghost predicate SendsOn(s: State, a: Action, t: State) {
    && |t.conns| == |s.conns|
    && forall c: nat :: c < |s.conns| ==>
      s.conns[c].out <= t.conns[c].out && t.conns[c].sent == s.conns[c].sent + if a == Write(c) then 1 else 0
  }

  lemma {:induction false} StepSends(s: State, hasInit: bool, a: Action)
    requires Step(s, hasInit, a).Some?
    ensures SendsOn(s, a, Step(s, hasInit, a).value)
  {
    hide DoReply, DoAnswer, DoQuery, DoReady, DoAsk, SendsOn;
    if a.Query? {
      QuerySends(s, hasInit, a.c, a.id, a.cls);
    } else if a.ReadyRequest? {
      ReadySends(s, hasInit, a.c);
    } else if a.Answer? {
      AnswerSends(s, hasInit, a.w);
    } else if a.Ask? {
      AskSends(s, a.w, a.h, a.kind, a.cid, a.ph);
    } else if a.Reply? {
      ReplySends(s, a.c, a.key);
    } else {
      ThreadSends(s, hasInit, a);
    }
  }

  lemma {:induction false} ThreadSends(s: State, hasInit: bool, a: Action)
    requires Step(s, hasInit, a).Some? && !a.Query? && !a.ReadyRequest? && !a.Answer? && !a.Ask? && !a.Reply?
    ensures SendsOn(s, a, Step(s, hasInit, a).value)
  {
    hide Locks;
  }

  lemma ReadySends(s: State, hasInit: bool, c: nat)
    requires DoReady(s, hasInit, c).Some?
    ensures SendsOn(s, ReadyRequest(c), DoReady(s, hasInit, c).value)
  {
  }

  lemma AskSends(s: State, w: nat, h: nat, kind: Kind, cid: nat, ph: nat)
    requires DoAsk(s, w, h, kind, cid, ph).Some?
    ensures SendsOn(s, Ask(w, h, kind, cid, ph), DoAsk(s, w, h, kind, cid, ph).value)
  {
  }

  lemma QuerySends(s: State, hasInit: bool, c: nat, id: nat, cls: Option<nat>)
    requires DoQuery(s, hasInit, c, id, cls).Some?
    ensures SendsOn(s, Query(c, id, cls), DoQuery(s, hasInit, c, id, cls).value)
  {
  }

  lemma AnswerSends(s: State, hasInit: bool, w: nat)
    requires DoAnswer(s, hasInit, w).Some?
    ensures SendsOn(s, Answer(w), DoAnswer(s, hasInit, w).value)
  {
  }

  lemma ReplySends(s: State, c: nat, key: Key)
    requires DoReply(s, c, key).Some?
    ensures SendsOn(s, Reply(c, key), DoReply(s, c, key).value)
  {
    hide FindWaiter, MayReply;
  }

  // The kernel has been sent the first messages of what was said, as many as the
  // writer has taken steps; what was said is never taken back.
  lemma {:induction false} SentInOrder(s: State, hasInit: bool, acts: seq<Action>, c: nat)
    requires Run(s, hasInit, acts).Some? && c < |s.conns|
    ensures var t := Run(s, hasInit, acts).value;
      |t.conns| == |s.conns| && s.conns[c].out <= t.conns[c].out && t.conns[c].sent == s.conns[c].sent + Writes(acts, c)
    decreases acts
  {
    hide Step;
    if acts != [] {
      StepSends(s, hasInit, acts[0]);
      SentInOrder(Step(s, hasInit, acts[0]).value, hasInit, acts[1..], c);
    }
  }

  /* A buffer has a key exactly while its answer is due. */

  ghost predicate KeyWhileDue(s: State) {
    forall b :: b in s.bufs && b in s.place ==>
      (s.bufs[b].key.Some? <==> s.place[b].Wait? || s.place[b].Reader?)
  }

  // A step that moves buffers between places where no answer is due.
  lemma {:induction false} DueKeep(s: State, t: State)
    requires KeyWhileDue(s) && s.place.Keys == s.bufs.Keys
    requires forall b :: b in t.bufs && b in t.place ==>
      if b in s.bufs then
        t.bufs[b].key == s.bufs[b].key && (t.place[b].Wait? || t.place[b].Reader? <==>
          s.place[b].Wait? || s.place[b].Reader?)
      else t.bufs[b].key.None? && !t.place[b].Wait? && !t.place[b].Reader?
    ensures KeyWhileDue(t)
  {
  }

  lemma {:induction false} StepDue(s: State, hasInit: bool, a: Action)
    requires Ordered(s) && KeyWhileDue(s) && Step(s, hasInit, a).Some?
    ensures KeyWhileDue(Step(s, hasInit, a).value)
  {
    hide QueueOk, Locked, KeyWhileDue, DoReply, DoQuery, DoReady, DoAnswer, DoAsk, DoWakeup;
    if a.Query? {
      QueryDue(s, hasInit, a.c, a.id, a.cls);
    } else if a.ReadyRequest? {
      ReadyDue(s, hasInit, a.c);
    } else if a.Reply? {
      ReplyDue(s, a.c, a.key);
    } else if a.Answer? {
      AnswerDue(s, hasInit, a.w);
    } else if a.Ask? {
      AskDue(s, a.w, a.h, a.kind, a.cid, a.ph);
    } else if a.Wakeup? {
      WakeupDue(s, a.c);
    } else {
      ThreadDue(s, hasInit, a);
    }
  }

  lemma AskDue(s: State, w: nat, h: nat, kind: Kind, cid: nat, ph: nat)
    requires Ordered(s) && KeyWhileDue(s) && DoAsk(s, w, h, kind, cid, ph).Some?
    ensures KeyWhileDue(DoAsk(s, w, h, kind, cid, ph).value)
  {
    hide QueueOk, Locked, KeyWhileDue, Issue;
    IssueDue(s, WithBusy(s, w, Some(h)), w, kind, cid, ph);
  }

  lemma {:induction false} ThreadDue(s: State, hasInit: bool, a: Action)
    requires Ordered(s) && KeyWhileDue(s) && Step(s, hasInit, a).Some?
    requires a.Take? || a.Lock? || a.Again? || a.Return? || a.Refuse? || a.Ended? || a.Leave? || a.Drain? ||
        a.DrainOne? || a.DrainEnd? || a.Write?
    ensures KeyWhileDue(Step(s, hasInit, a).value)
  {
    hide QueueOk, Locked, Locks, KeyWhileDue;
    if a.Take? {
      AtPlace(s, Todo, 0);
    } else if a.DrainOne? {
      AtPlace(s, Wake(s.pcs[a.w].b), 0);
    } else if a.Again? || a.Refuse? || a.Ended? {
      HasIt(s, a.w);
    }
    DueKeep(s, Step(s, hasInit, a).value);
  }

  lemma QueryDue(s: State, hasInit: bool, c: nat, id: nat, cls: Option<nat>)
    requires Ordered(s) && KeyWhileDue(s) && DoQuery(s, hasInit, c, id, cls).Some?
    ensures KeyWhileDue(DoQuery(s, hasInit, c, id, cls).value)
  {
    hide Ordered, KeyWhileDue, ConnInit, Arrive;
    if s.conns[c].state {
      ArriveDue(s, hasInit, c, id, cls);
    } else {
      InitDue(s, hasInit, c);
      AnyInitOrdered(s, hasInit, c);
      ArriveDue(ConnInit(s, hasInit, c), hasInit, c, id, cls);
    }
  }

  lemma InitDue(s: State, hasInit: bool, c: nat)
    requires Ordered(s) && KeyWhileDue(s) && c < |s.conns|
    ensures KeyWhileDue(ConnInit(s, hasInit, c)) && |ConnInit(s, hasInit, c).conns| == |s.conns|
  {
    hide QueueOk, Locked, KeyWhileDue;
    DueKeep(s, ConnInit(s, hasInit, c));
  }

  lemma ArriveDue(s: State, hasInit: bool, c: nat, id: nat, cls: Option<nat>)
    requires Ordered(s) && KeyWhileDue(s) && c < |s.conns|
    ensures KeyWhileDue(Arrive(s, hasInit, c, id, cls))
  {
    hide QueueOk, Locked, KeyWhileDue;
    DueKeep(s, Arrive(s, hasInit, c, id, cls));
  }

  lemma ReadyDue(s: State, hasInit: bool, c: nat)
    requires Ordered(s) && KeyWhileDue(s) && DoReady(s, hasInit, c).Some?
    ensures KeyWhileDue(DoReady(s, hasInit, c).value)
  {
    hide Ordered, KeyWhileDue, ConnInit;
    SameOrdered(s, Asked(s, c));
    SameDue(s, Asked(s, c));
    InitDue(Asked(s, c), hasInit, c);
    SameDue(ConnInit(Asked(s, c), hasInit, c), DoReady(s, hasInit, c).value);
  }

  lemma SameDue(s: State, t: State)
    requires KeyWhileDue(s) && t.bufs == s.bufs && t.place == s.place
    ensures KeyWhileDue(t)
  {
  }

  lemma ReplyDue(s: State, c: nat, key: Key)
    requires Ordered(s) && KeyWhileDue(s) && DoReply(s, c, key).Some?
    ensures KeyWhileDue(DoReply(s, c, key).value)
  {
    hide QueueOk, Locked, KeyWhileDue, FindWaiter, MayReply;
    var n := FindWaiter(s.bufs, s.conns[c].waitq, key);
    if n < |s.conns[c].waitq| { AtPlace(s, Wait(c), n); }
    DueKeep(s, DoReply(s, c, key).value);
  }

  lemma WakeupDue(s: State, c: nat)
    requires Ordered(s) && KeyWhileDue(s) && DoWakeup(s, c).Some?
    ensures KeyWhileDue(DoWakeup(s, c).value)
  {
  }

  // The buffer that waits gets a key.
  lemma IssueDue(s0: State, s: State, w: nat, kind: Kind, cid: nat, ph: nat)
    requires KeyWhileDue(s0) && s0.place.Keys == s0.bufs.Keys && Runs(s, w) && s.place == s0.place &&
        s.bufs.Keys == s0.bufs.Keys
    requires forall b :: b in s.bufs ==> s.bufs[b].key == s0.bufs[b].key
    ensures KeyWhileDue(Issue(s, w, kind, cid, ph))
  {
  }

  lemma AnswerDue(s: State, hasInit: bool, w: nat)
    requires Ordered(s) && KeyWhileDue(s) && DoAnswer(s, hasInit, w).Some?
    ensures KeyWhileDue(DoAnswer(s, hasInit, w).value)
  {
    hide QueueOk, Locked, KeyWhileDue, Issue;
    var x := s.bufs[s.pcs[w].b];
    if x.phase == 1000 && x.result >= 0 && x.cls.Some? {
      IssueDue(s, s, w, Update, x.cls.value, 1003);
    } else {
      DueKeep(s, DoAnswer(s, hasInit, w).value);
    }
  }

  lemma {:induction false} RunDue(s: State, hasInit: bool, acts: seq<Action>)
    requires Safe(s, hasInit) && KeyWhileDue(s) && Run(s, hasInit, acts).Some?
    ensures KeyWhileDue(Run(s, hasInit, acts).value)
    decreases acts
  {
    hide Safe, KeyWhileDue, Step;
    if acts != [] {
      assert Ordered(s) by { SafeIs(s, hasInit); }
      StepDue(s, hasInit, acts[0]);
      StepSafe(s, hasInit, acts[0]);
      RunDue(Step(s, hasInit, acts[0]).value, hasInit, acts[1..]);
    }
  }

  // In every run a live buffer has a key exactly while an answer is due to it: it is
  // in wait_for_answer, or the reader has just found it there.
  lemma {:induction false} KeyOnlyWhileDue(versions: seq<nat>, workers: nat, hasInit: bool, acts: seq<Action>)
    requires Reached(versions, workers, hasInit, acts).Some?
    ensures KeyWhileDue(Reached(versions, workers, hasInit, acts).value)
  {
    hide Safe, Run;
    StartSafe(versions, workers, hasInit);
    RunDue(Start(versions, workers), hasInit, acts);
  }

  lemma SafeIs(s: State, hasInit: bool)
    requires Safe(s, hasInit)
    ensures Ordered(s)
  {
  }
}
