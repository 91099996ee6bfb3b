/** The gate of _init without any assumption on the kernel: in every run, an _init
    of the connection has ended before the first request of it is handled. */
module ProtocolFirst {
  import opened Lists
  import opened Protocol
  import opened ProtocolPlaces
  import opened ProtocolSafety
  import opened ProtocolGate
  import opened ProtocolRuns

  // While no _init of connection c has come for its answer, one is to run or runs.
  predicate ConnFirst(k: Conn) { k.state && k.ended == 0 ==> k.init.Some? }

  // Whoever drains has counted its _init.
  predicate DrainFirst(s: State, w: nat)
    requires w < |s.pcs|
  {
    s.pcs[w].Draining? && s.pcs[w].b in s.bufs && s.bufs[s.pcs[w].b].conn < |s.conns| ==>
      s.conns[s.bufs[s.pcs[w].b].conn].ended > 0
  }

  // A request waits as long as no _init has ended.
  predicate WaitsFirst(s: State, b: nat)
    requires b in s.bufs && b in s.place
  {
    s.bufs[b].id.Some? && s.bufs[b].conn < |s.conns| && s.conns[s.bufs[b].conn].ended == 0 ==> s.place[b].Wake?
  }

  ghost predicate FirstOk(s: State) {
    && (forall c: nat :: c < |s.conns| ==> ConnFirst(s.conns[c]))
    && (forall w: nat :: w < |s.pcs| ==> DrainFirst(s, w))
    && (forall b :: b in s.bufs && b in s.place ==> WaitsFirst(s, b))
  }

  // A step that starts no _init, lets no buffer go from its queue, and frees or
  // keeps buffers.
  lemma {:induction false} FirstKeep(s: State, t: State)
    requires FirstOk(s) && |t.conns| == |s.conns| && |t.pcs| == |s.pcs| && t.bufs.Keys <= s.bufs.Keys
    requires forall c: nat :: c < |s.conns| ==>
      t.conns[c].state == s.conns[c].state && t.conns[c].ended == s.conns[c].ended &&
        t.conns[c].init == s.conns[c].init
    requires forall b :: b in t.bufs ==> t.bufs[b].conn == s.bufs[b].conn && t.bufs[b].id == s.bufs[b].id
    requires forall w: nat :: w < |s.pcs| && t.pcs[w].Draining? ==> t.pcs[w] == s.pcs[w]
    requires forall b :: b in t.place && b in t.bufs ==> b in s.place && (s.place[b].Wake? ==> t.place[b].Wake?)
    ensures FirstOk(t)
  {
    forall c: nat | c < |t.conns| ensures ConnFirst(t.conns[c]) { assert ConnFirst(s.conns[c]); }
    forall w: nat | w < |t.pcs| ensures DrainFirst(t, w) { assert DrainFirst(s, w); }
    forall b | b in t.bufs && b in t.place ensures WaitsFirst(t, b) { assert WaitsFirst(s, b); }
  }

  lemma {:induction false} FirstInit(s: State, c: nat)
    requires FirstOk(s) && Based(s) && Locked(s) && c < |s.conns| && s.place.Keys == s.bufs.Keys
    ensures FirstOk(ConnInit(s, true, c))
  {
    var t := ConnInit(s, true, c);
    assert s.next !in s.bufs;
    forall d: nat | d < |t.conns| ensures ConnFirst(t.conns[d]) { assert ConnFirst(s.conns[d]); }
    forall w: nat | w < |t.pcs| ensures DrainFirst(t, w) {
      assert DrainFirst(s, w) && (s.pcs[w].Draining? ==> Owns(s.pcs[w], s.pcs[w].b));
    }
    forall b | b in t.bufs && b in t.place ensures WaitsFirst(t, b) { assert b in s.bufs ==> WaitsFirst(s, b); }
  }

  lemma {:induction false} FirstArrive(s: State, c: nat, id: nat, cls: Option<nat>)
    requires FirstOk(s) && Based(s) && Locked(s) && c < |s.conns| && s.conns[c].state && s.place.Keys == s.bufs.Keys
    ensures FirstOk(Arrive(s, true, c, id, cls))
  {
    var t := Arrive(s, true, c, id, cls);
    assert s.next !in s.bufs;
    assert ConnFirst(s.conns[c]);
    forall d: nat | d < |t.conns| ensures ConnFirst(t.conns[d]) { assert ConnFirst(s.conns[d]); }
    forall w: nat | w < |t.pcs| ensures DrainFirst(t, w) {
      assert DrainFirst(s, w) && (s.pcs[w].Draining? ==> Owns(s.pcs[w], s.pcs[w].b));
    }
    forall b | b in t.bufs && b in t.place ensures WaitsFirst(t, b) { assert b in s.bufs ==> WaitsFirst(s, b); }
  }

  lemma {:induction false} FirstQuery(s: State, c: nat, id: nat, cls: Option<nat>)
    requires FirstOk(s) && Ordered(s) && DoQuery(s, true, c, id, cls).Some?
    ensures FirstOk(DoQuery(s, true, c, id, cls).value)
  {
    hide FirstOk, QueueOk, Locked, Arrive;
    if s.conns[c].state {
      FirstArrive(s, c, id, cls);
    } else {
      FirstInit(s, c);
      InitOrdered(s, c);
      FirstArrive(ConnInit(s, true, c), c, id, cls);
    }
  }

  lemma {:induction false} FirstReady(s: State, c: nat)
    requires FirstOk(s) && Ordered(s) && DoReady(s, true, c).Some?
    ensures FirstOk(DoReady(s, true, c).value)
  {
    hide FirstOk, QueueOk, Locked, ConnInit;
    FirstKeep(s, Asked(s, c));
    SameOrdered(s, Asked(s, c));
    FirstInit(Asked(s, c), c);
  }

  lemma {:induction false} FirstDrain(s: State, w: nat)
    requires FirstOk(s) && Based(s) && DoDrain(s, true, w).Some?
    ensures FirstOk(DoDrain(s, true, w).value)
  {
    var t := DoDrain(s, true, w).value;
    forall d: nat | d < |t.conns| ensures ConnFirst(t.conns[d]) { assert ConnFirst(s.conns[d]); }
    forall v: nat | v < |t.pcs| ensures DrainFirst(t, v) { assert DrainFirst(s, v); }
    forall b | b in t.bufs && b in t.place ensures WaitsFirst(t, b) { assert WaitsFirst(s, b); }
  }

  // What is let go has waited for a buffer of its own connection.
  lemma {:induction false} FirstDrainOne(s: State, w: nat)
    requires FirstOk(s) && Ordered(s) && GateOk(s) && DoDrainOne(s, w).Some?
    ensures FirstOk(DoDrainOne(s, w).value)
  {
    var t := DoDrainOne(s, w).value;
    AtPlace(s, Wake(s.pcs[w].b), 0);
    assert WakeAt(s, WakeOf(s, s.pcs[w].b)[0]) && DrainFirst(s, w);
    hide GateOk, Ordered;
    forall d: nat | d < |t.conns| ensures ConnFirst(t.conns[d]) { assert ConnFirst(s.conns[d]); }
    forall v: nat | v < |t.pcs| ensures DrainFirst(t, v) { assert DrainFirst(s, v); }
    forall b | b in t.bufs && b in t.place ensures WaitsFirst(t, b) { assert b in s.place ==> WaitsFirst(s, b); }
  }

  lemma {:induction false} FirstDrainEnd(s: State, w: nat)
    requires FirstOk(s) && s.place.Keys == s.bufs.Keys && DoDrainEnd(s, w).Some?
    ensures FirstOk(DoDrainEnd(s, w).value)
  {
    var t := DoDrainEnd(s, w).value;
    assert DrainFirst(s, w);
    forall d: nat | d < |t.conns| ensures ConnFirst(t.conns[d]) { assert ConnFirst(s.conns[d]); }
    forall v: nat | v < |t.pcs| ensures DrainFirst(t, v) { assert DrainFirst(s, v); }
    forall b | b in t.bufs && b in t.place ensures WaitsFirst(t, b) { assert WaitsFirst(s, b); }
  }

  // A worker that has a buffer, and the waiter that is found, wait for no _init.
  lemma {:induction false} FirstOther(s: State, a: Action)
    requires FirstOk(s) && Ordered(s) && Step(s, true, a).Some?
    requires !a.ReadyRequest? && !a.Query? && !a.Drain? && !a.DrainOne? && !a.DrainEnd?
    ensures FirstOk(Step(s, true, a).value)
  {
    hide FirstOk, QueueOk, Locked, Locks, DoReply, DoAnswer, DoAsk;
    if a.Reply? {
      FirstReply(s, a.c, a.key);
    } else if a.Answer? {
      FirstAnswer(s, a.w);
    } else if a.Ask? {
      FirstAsk(s, a.w, a.h, a.kind, a.cid, a.ph);
    } else {
      FirstMoves(s, a);
    }
  }

  lemma {:induction false} FirstMoves(s: State, a: Action)
    requires FirstOk(s) && Ordered(s) && Step(s, true, a).Some?
    requires a.Take? || a.Lock? || a.Again? || a.Return? || a.Refuse? || a.Ended? || a.Leave? || a.Write? || a.Wakeup?
    ensures FirstOk(Step(s, true, a).value)
  {
    hide FirstOk, QueueOk, Locked, Locks;
    if a.Take? {
      AtPlace(s, Todo, 0);
      FirstKeep(s, DoTake(s, a.w).value);
    } else if a.Wakeup? {
      AtPlace(s, Reader(a.c), 0);
      FirstKeep(s, DoWakeup(s, a.c).value);
    } else if a.Again? || a.Ended? || a.Refuse? {
      FirstBack(s, a);
    } else {
      FirstKeep(s, Step(s, true, a).value);
    }
  }

  lemma {:induction false} FirstBack(s: State, a: Action)
    requires FirstOk(s) && Ordered(s) && Step(s, true, a).Some? && (a.Again? || a.Ended? || a.Refuse?)
    ensures FirstOk(Step(s, true, a).value)
  {
    hide FirstOk, QueueOk, Locked;
    HasIt(s, a.w);
    FirstKeep(s, Step(s, true, a).value);
  }

  lemma {:induction false} FirstIssue(s: State, w: nat, kind: Kind, cid: nat, ph: nat)
    requires FirstOk(s) && Ordered(s) && Runs(s, w)
    ensures FirstOk(Issue(s, w, kind, cid, ph))
  {
    hide FirstOk, QueueOk, Locked;
    HasIt(s, w);
    FirstKeep(s, Issue(s, w, kind, cid, ph));
  }

  lemma {:induction false} FirstAsk(s: State, w: nat, h: nat, kind: Kind, cid: nat, ph: nat)
    requires FirstOk(s) && Ordered(s) && DoAsk(s, w, h, kind, cid, ph).Some?
    ensures FirstOk(DoAsk(s, w, h, kind, cid, ph).value)
  {
    hide FirstOk, QueueOk, Locked, Issue;
    FirstKeep(s, WithBusy(s, w, Some(h)));
    BusyOrdered(s, w, Some(h));
    FirstIssue(WithBusy(s, w, Some(h)), w, kind, cid, ph);
  }

  lemma {:induction false} FirstAnswer(s: State, w: nat)
    requires FirstOk(s) && Ordered(s) && DoAnswer(s, true, w).Some?
    ensures FirstOk(DoAnswer(s, true, w).value)
  {
    hide FirstOk, QueueOk, Locked, Issue;
    var x := s.bufs[s.pcs[w].b];
    if x.phase == 1000 && x.result >= 0 && x.cls.Some? {
      FirstIssue(s, w, Update, x.cls.value, 1003);
    } else {
      FirstKeep(s, DoAnswer(s, true, w).value);
    }
  }

  lemma {:induction false} FirstReply(s: State, c: nat, key: Key)
    requires FirstOk(s) && Ordered(s) && DoReply(s, c, key).Some?
    ensures FirstOk(DoReply(s, c, key).value)
  {
    hide FirstOk, QueueOk, Locked, FindWaiter, MayReply;
    var n := FindWaiter(s.bufs, s.conns[c].waitq, key);
    if n < |s.conns[c].waitq| { AtPlace(s, Wait(c), n); }
    FirstKeep(s, DoReply(s, c, key).value);
  }

  lemma {:induction false} StepFirst(s: State, a: Action)
    requires Safe(s, true) && FirstOk(s) && Step(s, true, a).Some?
    ensures FirstOk(Step(s, true, a).value)
  {
    hide FirstOk, Ordered, AnswersOk, KeysOk, GateOk, Configured, ReadyOk;
    assert s.place.Keys == s.bufs.Keys && Based(s) by { Parts(s); }
    match a {
      case ReadyRequest(c) => FirstReady(s, c);
      case Query(c, id, cls) => FirstQuery(s, c, id, cls);
      case Drain(w) => FirstDrain(s, w);
      case DrainOne(w) => FirstDrainOne(s, w);
      case DrainEnd(w) => FirstDrainEnd(s, w);
      case _ => FirstOther(s, a);
    }
  }

  lemma Parts(s: State)
    requires Ordered(s)
    ensures s.place.Keys == s.bufs.Keys && Based(s)
  {
  }

  lemma {:induction false} RunFirst(s: State, acts: seq<Action>)
    requires Safe(s, true) && FirstOk(s) && Run(s, true, acts).Some?
    ensures FirstOk(Run(s, true, acts).value)
    decreases acts
  {
    hide Safe, FirstOk, Step;
    if acts != [] {
      StepFirst(s, acts[0]);
      StepSafe(s, true, acts[0]);
      RunFirst(Step(s, true, acts[0]).value, acts[1..]);
    }
  }

  // In every run, however often the kernel asks for READY, a worker that handles a
  // request finds that an _init of its connection has ended, if one is configured.
  lemma {:induction false} SomeInitFirst(versions: seq<nat>, workers: nat, acts: seq<Action>, c: nat, w: nat)
    requires Reached(versions, workers, true, acts).Some? &&
        RunsRequest(Reached(versions, workers, true, acts).value, c, w)
    ensures var s := Reached(versions, workers, true, acts).value;
      c < |s.conns| && s.conns[c].state && s.conns[c].ended > 0
  {
    var s := Reached(versions, workers, true, acts).value;
    StartSafe(versions, workers, true);
    hide Safe, Step, Run;
    RunFirst(Start(versions, workers), acts);
    ReachedSafe(versions, workers, true, acts);
    FirstHolds(s, c, w);
  }

  lemma {:induction false} FirstHolds(s: State, c: nat, w: nat)
    requires Safe(s, true) && FirstOk(s) && RunsRequest(s, c, w)
    ensures c < |s.conns| && s.conns[c].state && s.conns[c].ended > 0
  {
    hide AnswersOk, KeysOk, ReadyOk, QueueOk, OnceAt;
    HasIt(s, w);
    assert ConnAt(s, c) && WaitsFirst(s, s.pcs[w].b);
  }
}
