/** No interleaving is stuck, but for a request that waits for itself. */
module ProtocolProgress {
  import opened Lists
  import opened Protocol
  import opened ProtocolPlaces
  import opened ProtocolSafety
  import opened ProtocolGate
  import opened ProtocolRuns

  /* While a buffer is live that does not wait for itself, a thread can go on, or
     the kernel owes an answer. */

  // No new message of the kernel but an answer, and handlers end.
  predicate Inside(a: Action) {
    !a.Query? && !a.ReadyRequest? && !a.Refuse? && !a.Again? && !a.Ask? && !a.Return?
  }

  lemma {:induction false} OwnerGoesOn(s: State, hasInit: bool, w: nat) returns (a: Action)
    requires Safe(s, hasInit) && w < |s.pcs| && (s.pcs[w].Running? || s.pcs[w].Leaving? || s.pcs[w].Draining?)
    ensures Inside(a) && Step(s, hasInit, a).Some?
  {
    hide AnswersOk, KeysOk, ReadyOk, GateAt, ConnAt, WakeAt, QueueOk, DrainsAlone;
    var b := s.pcs[w].b;
    assert Owns(s.pcs[w], b);
    if s.pcs[w].Leaving? {
      a := Leave(w);
    } else if s.pcs[w].Draining? {
      a := if WakeOf(s, b) == [] then DrainEnd(w) else DrainOne(w);
    } else if s.bufs[b].phase < 1000 {
      a := Ended(w, 0);
    } else if s.bufs[b].id.Some? {
      a := Answer(w);
    } else {
      var c := s.bufs[b].conn;
      if s.conns[c].draining {
        var v := GateDrainer(s, c);
        a := if WakeOf(s, s.pcs[v].b) == [] then DrainEnd(v) else DrainOne(v);
      } else {
        OnlyConfigured(s, hasInit, b);
        a := Drain(w);
      }
    }
  }

  lemma OnlyConfigured(s: State, hasInit: bool, b: nat)
    requires Ordered(s) && GateOk(s) && Configured(s, hasInit) && b in s.bufs && s.bufs[b].id.None?
    ensures hasInit
  {
    hide ConnAt, WakeAt, DrainAt, DrainsAlone, Placed, Locked;
    assert OnceAt(s, s.bufs[b].conn);
  }

  lemma {:induction false} GateDrainer(s: State, c: nat) returns (v: nat)
    requires GateOk(s) && c < |s.conns| && s.conns[c].draining
    ensures Drainer(s, v, c)
  {
    assert ConnAt(s, c);
    v :| Drainer(s, v, c);
  }

  lemma {:induction false} WorkerGoesOn(s: State, hasInit: bool, w: nat) returns (a: Action)
    requires Safe(s, hasInit) && w < |s.pcs| && s.pcs[w] != Idle
    ensures Inside(a) && Step(s, hasInit, a).Some?
  {
    hide Safe;
    if !s.pcs[w].Taken? {
      a := OwnerGoesOn(s, hasInit, w);
    } else if exists v: nat :: v < |s.pcs| && Locks(s.pcs[v], s.pcs[w].b) {
      var v: nat :| v < |s.pcs| && Locks(s.pcs[v], s.pcs[w].b);
      a := OwnerGoesOn(s, hasInit, v);
    } else {
      a := Lock(w);
    }
  }

  lemma {:induction false} WaiterGoesOn(s: State, hasInit: bool, b: nat, c: nat) returns (a: Action)
    requires Safe(s, hasInit) && c < |s.conns| && b in s.conns[c].waitq
    ensures Inside(a) && Step(s, hasInit, a).Some?
  {
    hide AnswersOk, Ordered, ReadyOk, GateOk, FindWaiter;
    var k := s.conns[c];
    if k.sent < |k.out| {
      a := Write(c);
    } else if k.reader.Some? {
      ReaderLive(s, c);
      a := Wakeup(c);
    } else {
      var key :| Waits(s, b, c, key);
      assert k.out[..|k.out|] == k.out;
      assert MayReply(k, key);
      a := Reply(c, key);
    }
  }

  lemma ReaderLive(s: State, c: nat)
    requires Ordered(s) && c < |s.conns| && s.conns[c].reader.Some?
    ensures s.conns[c].reader.value in s.bufs
  {
    AtPlace(s, Reader(c), 0);
  }

  // b is in its own queue: execute_handler refused it.
  predicate SelfWaits(s: State, b: nat) { b in s.place && s.place[b] == Wake(b) }

  lemma {:induction false} NeverStuck(s: State, hasInit: bool, b: nat) returns (a: Action)
    requires Safe(s, hasInit) && |s.pcs| > 0 && b in s.bufs && !SelfWaits(s, b)
    ensures Inside(a) && Step(s, hasInit, a).Some?
    decreases if b in s.place && s.place[b].Wake? then 1 else 0
  {
    hide AnswersOk, KeysOk, ReadyOk, Locked, GateOk, Step;
    AtIs(s, s.place[b], b);
    match s.place[b] {
      case Todo => a := TodoGoesOn(s, hasInit);
      case Worker(w) => a := WorkerGoesOn(s, hasInit, w);
      case Reader(c) =>
        a := Wakeup(c);
        assert Step(s, hasInit, a) == DoWakeup(s, c) by { StepWakeup(s, hasInit, c); }
      case Wait(c) => a := WaiterGoesOn(s, hasInit, b, c);
      case Wake(p) =>
        WaitsForInit(s, b);
        a := NeverStuck(s, hasInit, p);
    }
  }

  // What waits for another buffer waits for an _init that is not in a queue.
  lemma WaitsForInit(s: State, b: nat)
    requires GateOk(s) && s.place.Keys == s.bufs.Keys && b in s.bufs && s.place[b].Wake? && !SelfWaits(s, b)
    ensures s.place[b].p in s.bufs && s.bufs[s.place[b].p].id.None? && !s.place[s.place[b].p].Wake?
  {
    assert WakeAt(s, b) && (s.place[b].p in s.bufs ==> WakeAt(s, s.place[b].p));
  }

  lemma StepWakeup(s: State, hasInit: bool, c: nat)
    ensures Step(s, hasInit, Wakeup(c)) == DoWakeup(s, c)
  {
  }

  lemma {:induction false} TodoGoesOn(s: State, hasInit: bool) returns (a: Action)
    requires Safe(s, hasInit) && |s.pcs| > 0 && s.todo != []
    ensures Inside(a) && Step(s, hasInit, a).Some?
  {
    hide Safe;
    if s.pcs[0] == Idle {
      a := Take(0);
    } else {
      a := WorkerGoesOn(s, hasInit, 0);
    }
  }

  /* A request that waits for itself is never answered. */

  lemma {:induction false} SelfWaitsStep(s: State, hasInit: bool, a: Action, b: nat)
    requires Safe(s, hasInit) && Step(s, hasInit, a).Some? && SelfWaits(s, b)
    ensures var t := Step(s, hasInit, a).value; SelfWaits(t, b) && b in t.bufs && SameRequest(s, t, b)
  {
    hide AnswersOk, KeysOk, ReadyOk, Configured, GateOk, QueueOk, Locked, DoReady, DoQuery, DoAsk, DoAnswer, DoReply;
    assert b in s.bufs && b < s.next;
    if a.ReadyRequest? || a.Query? {
      SelfWaitsReader(s, hasInit, a, b);
    } else if a.Take? {
      AtPlace(s, Todo, 0);
    } else if a.Wakeup? {
      AtPlace(s, Reader(a.c), 0);
    } else if a.Reply? {
      SelfWaitsReply(s, hasInit, a, b);
    } else if a.DrainOne? {
      AtPlace(s, Wake(s.pcs[a.w].b), 0);
      HasIt(s, a.w);
    } else if a.Ask? || a.Answer? {
      SelfWaitsWorker(s, hasInit, a, b);
    } else if a.Again? || a.Ended? || a.Refuse? || a.Return? || a.DrainEnd? {
      HasIt(s, a.w);
    }
  }

  lemma SelfWaitsReader(s: State, hasInit: bool, a: Action, b: nat)
    requires (a.ReadyRequest? || a.Query?) && Step(s, hasInit, a).Some? && SelfWaits(s, b) && b in s.bufs && b < s.next
    ensures var t := Step(s, hasInit, a).value; SelfWaits(t, b) && b in t.bufs && SameRequest(s, t, b)
  {
  }

  lemma SelfWaitsWorker(s: State, hasInit: bool, a: Action, b: nat)
    requires Placed(s) && (a.Ask? || a.Answer?) && Step(s, hasInit, a).Some? && SelfWaits(s, b) && b in s.bufs
    ensures var t := Step(s, hasInit, a).value; SelfWaits(t, b) && b in t.bufs && SameRequest(s, t, b)
  {
    HasIt(s, a.w);
  }

  lemma SelfWaitsReply(s: State, hasInit: bool, a: Action, b: nat)
    requires Placed(s) && a.Reply? && Step(s, hasInit, a).Some? && SelfWaits(s, b)
    ensures var t := Step(s, hasInit, a).value; SelfWaits(t, b) && b in t.bufs && SameRequest(s, t, b)
  {
    hide FindWaiter, MayReply, QueueOk;
    var n := FindWaiter(s.bufs, s.conns[a.c].waitq, a.key);
    if n < |s.conns[a.c].waitq| { AtPlace(s, Wait(a.c), n); }
  }

  predicate SameRequest(s: State, t: State, b: nat)
    requires b in s.bufs && b in t.bufs
  {
    t.bufs[b].conn == s.bufs[b].conn && t.bufs[b].id == s.bufs[b].id
  }

  // A request that waits for itself is not answered in any continuation of the run.
  lemma {:induction false} RefusedForever(s: State, hasInit: bool, acts: seq<Action>, b: nat)
    requires Safe(s, hasInit) && Run(s, hasInit, acts).Some? && SelfWaits(s, b)
    ensures b in s.bufs && s.bufs[b].conn < |s.conns| && s.bufs[b].id.Some?
    ensures var t := Run(s, hasInit, acts).value;
      && SelfWaits(t, b) && b in t.bufs && SameRequest(s, t, b) && t.bufs[b].conn < |t.conns|
      && !Answered(t.conns[t.bufs[b].conn].out, s.bufs[b].id.value)
    decreases acts
  {
    hide Step, KeysOk, ReadyOk, Configured, Locked, QueueOk, Answered, SelfWaits;
    SelfWaiter(s, b);
    if acts == [] {
      assert Asks(s, b, s.bufs[b].conn, s.bufs[b].id.value);
    } else {
      hide Safe;
      SelfWaitsStep(s, hasInit, acts[0], b);
      StepSafe(s, hasInit, acts[0]);
      RefusedForever(Step(s, hasInit, acts[0]).value, hasInit, acts[1..], b);
    }
  }

  lemma SelfWaiter(s: State, b: nat)
    requires GateOk(s) && Ordered(s) && SelfWaits(s, b)
    ensures b in s.bufs && s.bufs[b].conn < |s.conns| && s.bufs[b].id.Some?
  {
    assert WakeAt(s, b);
  }
}
