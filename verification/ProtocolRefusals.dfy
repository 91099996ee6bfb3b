/** How a request comes to wait for itself: a handler must have been suspended in
    its buffer, and one that has been is enough. */
module ProtocolRefusals {
  import opened Lists
  import opened Protocol
  import opened ProtocolPlaces
  import opened ProtocolSafety
  import opened ProtocolGate
  import opened ProtocolRuns
  import opened ProtocolLimits
  import opened ProtocolProgress

  // A handler does not return at once.
  predicate Suspends(a: Action) { a.Ask? || a.Again? }

  function Suspensions(acts: seq<Action>): nat {
    if acts == [] then 0 else (if Suspends(acts[0]) then 1 else 0) + Suspensions(acts[1..])
  }

  // While a worker handles a request, execute_handler refuses a handler exactly if
  // another one is suspended in the buffer, and exactly if it does not let it run.
  lemma {:induction false} RefusedWhere(s: State, hasInit: bool, w: nat)
    requires Decides(s, w) && s.bufs[s.pcs[w].b].id.Some?
    ensures (exists h: nat :: Step(s, hasInit, Refuse(w, h)).Some?) <==> s.bufs[s.pcs[w].b].busy.Some?
    ensures forall h: nat :: s.bufs[s.pcs[w].b].busy.Some? ==>
      (Step(s, hasInit, Refuse(w, h)).Some? <==> h != s.bufs[s.pcs[w].b].busy.value)
    ensures forall h: nat :: Step(s, hasInit, Refuse(w, h)).Some? <==> Step(s, hasInit, Again(w, h, 0)).None?
  {
    var busy := s.bufs[s.pcs[w].b].busy;
    if busy.Some? { assert Step(s, hasInit, Refuse(w, busy.value + 1)).Some?; }
  }

  /* Without a suspension no request waits for itself. */

  ghost predicate NoneBusy(s: State) {
    forall b :: b in s.bufs ==> s.bufs[b].busy.None? && !(b in s.place && s.place[b] == Wake(b))
  }

  lemma {:induction false} NoneBusyKeep(s: State, t: State)
    requires NoneBusy(s) && t.bufs.Keys <= s.bufs.Keys
    requires forall b :: b in t.bufs ==> t.bufs[b].busy == s.bufs[b].busy || t.bufs[b].busy.None?
    requires forall b :: b in t.place && t.place[b].Wake? ==> b in s.place && s.place[b] == t.place[b]
    ensures NoneBusy(t)
  {
  }

  lemma {:induction false} StepNoneBusy(s: State, hasInit: bool, a: Action)
    requires Safe(s, hasInit) && NoneBusy(s) && Step(s, hasInit, a).Some? && !Suspends(a)
    ensures NoneBusy(Step(s, hasInit, a).value)
  {
    hide AnswersOk, KeysOk, ReadyOk, Configured, GateOk, Ordered, DoReady, DoQuery, DoAnswer, DoReply, DoRefuse,
      NoneBusy;
    if a.ReadyRequest? {
      ReadyNoneBusy(s, hasInit, a.c);
    } else if a.Query? {
      QueryNoneBusy(s, hasInit, a.c, a.id, a.cls);
    } else if a.Answer? {
      AnswerNoneBusy(s, hasInit, a.w);
    } else if a.Reply? {
      ReplyNoneBusy(s, a.c, a.key);
    } else if a.Refuse? {
      assert false by { NotRefused(s, a.w, a.h); }
    } else {
      ThreadNoneBusy(s, hasInit, a);
    }
  }

  lemma {:induction false} ThreadNoneBusy(s: State, hasInit: bool, a: Action)
    requires NoneBusy(s) && Step(s, hasInit, a).Some?
    requires a.Take? || a.Lock? || a.Return? || a.Ended? || a.Leave? || a.Drain? || a.DrainOne? || a.DrainEnd? ||
        a.Write? || a.Wakeup?
    ensures NoneBusy(Step(s, hasInit, a).value)
  {
    hide NoneBusy, Locks;
    NoneBusyKeep(s, Step(s, hasInit, a).value);
  }

  lemma NotRefused(s: State, w: nat, h: nat)
    requires NoneBusy(s)
    ensures DoRefuse(s, w, h).None?
  {
  }

  lemma ReadyNoneBusy(s: State, hasInit: bool, c: nat)
    requires NoneBusy(s) && Ordered(s) && DoReady(s, hasInit, c).Some?
    ensures NoneBusy(DoReady(s, hasInit, c).value)
  {
  }

  lemma AnswerNoneBusy(s: State, hasInit: bool, w: nat)
    requires NoneBusy(s) && DoAnswer(s, hasInit, w).Some?
    ensures NoneBusy(DoAnswer(s, hasInit, w).value)
  {
    hide NoneBusy;
    NoneBusyKeep(s, DoAnswer(s, hasInit, w).value);
  }

  lemma ReplyNoneBusy(s: State, c: nat, key: Key)
    requires NoneBusy(s) && DoReply(s, c, key).Some?
    ensures NoneBusy(DoReply(s, c, key).value)
  {
    hide FindWaiter, MayReply, NoneBusy;
    NoneBusyKeep(s, DoReply(s, c, key).value);
  }

  lemma {:induction false} QueryNoneBusy(s: State, hasInit: bool, c: nat, id: nat, cls: Option<nat>)
    requires NoneBusy(s) && Ordered(s) && GateOk(s) && DoQuery(s, hasInit, c, id, cls).Some?
    ensures NoneBusy(DoQuery(s, hasInit, c, id, cls).value)
  {
    assert s.conns[c].init.Some? ==> s.conns[c].init.value < s.next by {
      if s.conns[c].init.Some? { InitLive(s, c); }
    }
    assert s.place.Keys == s.bufs.Keys && forall b :: b in s.bufs ==> b < s.next;
    hide GateOk, Ordered, Arrive, NoneBusy;
    if s.conns[c].state {
      ArriveNoneBusy(s, hasInit, c, id, cls);
    } else {
      InitNoneBusy(s, hasInit, c);
      ArriveNoneBusy(ConnInit(s, hasInit, c), hasInit, c, id, cls);
    }
  }

  lemma InitLive(s: State, c: nat)
    requires Based(s) && GateOk(s) && c < |s.conns| && s.conns[c].init.Some?
    ensures s.conns[c].init.value < s.next
  {
    assert ConnAt(s, c);
  }

  lemma InitNoneBusy(s: State, hasInit: bool, c: nat)
    requires NoneBusy(s) && c < |s.conns| && s.place.Keys == s.bufs.Keys
    ensures NoneBusy(ConnInit(s, hasInit, c))
  {
  }

  // What waits for the buffer of _init is another buffer.
  lemma ArriveNoneBusy(s: State, hasInit: bool, c: nat, id: nat, cls: Option<nat>)
    requires NoneBusy(s) && c < |s.conns| && s.conns[c].init != Some(s.next)
    ensures NoneBusy(Arrive(s, hasInit, c, id, cls))
  {
  }

  lemma {:induction false} RunNoneBusy(s: State, hasInit: bool, acts: seq<Action>)
    requires Safe(s, hasInit) && NoneBusy(s) && Run(s, hasInit, acts).Some? && Suspensions(acts) == 0
    ensures NoneBusy(Run(s, hasInit, acts).value)
    decreases acts
  {
    hide Safe, NoneBusy, Step;
    if acts != [] {
      StepNoneBusy(s, hasInit, acts[0]);
      StepSafe(s, hasInit, acts[0]);
      RunNoneBusy(Step(s, hasInit, acts[0]).value, hasInit, acts[1..]);
    }
  }

  lemma {:induction false} NeverSelfWaits(versions: seq<nat>, workers: nat, hasInit: bool, acts: seq<Action>, b: nat)
    requires Reached(versions, workers, hasInit, acts).Some? && Suspensions(acts) == 0
    ensures !SelfWaits(Reached(versions, workers, hasInit, acts).value, b)
  {
    hide Safe, Run;
    StartSafe(versions, workers, hasInit);
    RunNoneBusy(Start(versions, workers), hasInit, acts);
    ReachedSafe(versions, workers, hasInit, acts);
    PlacesLive(Reached(versions, workers, hasInit, acts).value, hasInit);
  }

  lemma PlacesLive(s: State, hasInit: bool)
    requires Safe(s, hasInit)
    ensures s.place.Keys == s.bufs.Keys
  {
    hide Based, Locked, AnswersOk, KeysOk, GateOk, Configured, ReadyOk;
  }

  /* One suspension is enough. */

  lemma {:induction false} SuspensionsThen(a: seq<Action>, b: seq<Action>)
    ensures Suspensions(a + b) == Suspensions(a) + Suspensions(b)
    decreases a
  {
    if a == [] {
      assert a + b == b;
    } else {
      assert (a + b)[0] == a[0] && (a + b)[1..] == a[1..] + b;
      SuspensionsThen(a[1..], b);
    }
  }

  lemma {:induction false} Chain(s: State, hasInit: bool, a: seq<Action>, b: seq<Action>) returns (acts: seq<Action>)
    requires Run(s, hasInit, a).Some?
    ensures Run(s, hasInit, acts) == Run(Run(s, hasInit, a).value, hasInit, b)
    ensures Suspensions(acts) == Suspensions(a) + Suspensions(b)
  {
    acts := a + b;
    RunThen(s, hasInit, a, b);
    SuspensionsThen(a, b);
  }

  lemma {:induction false} Before(s: State, hasInit: bool, a: Action, b: seq<Action>) returns (acts: seq<Action>)
    requires Step(s, hasInit, a).Some?
    ensures Run(s, hasInit, acts) == Run(Step(s, hasInit, a).value, hasInit, b)
    ensures Suspensions(acts) == (if Suspends(a) then 1 else 0) + Suspensions(b)
  {
    RunOne(s, hasInit, a);
    assert [a][1..] == [];
    acts := Chain(s, hasInit, [a], b);
  }

  lemma NoneIn()
    ensures Suspensions([]) == 0 && Suspensions(Begin) == 0
    ensures forall a: Action :: Suspensions([a]) == if Suspends(a) then 1 else 0
  {
    assert Begin[1..] == [Lock(0)] && [Lock(0)][1..] == [];
    forall a: Action ensures Suspensions([a]) == if Suspends(a) then 1 else 0 { assert [a][1..] == []; }
  }

  // The first buffer is that of a request, in which handler 0 is suspended.
  predicate Resumes(s: State, b: nat) {
    IsFirst(s, b) && s.bufs[b].phase < 1000 && s.bufs[b].id.Some? && s.bufs[b].busy == Some(0)
  }

  // The node of handler 0 has vanished, and handler 1 is next.
  lemma {:induction false} ThenRefused(s: State, hasInit: bool, b: nat) returns (acts: seq<Action>)
    requires Resumes(s, b)
    ensures Run(s, hasInit, acts).Some? && SelfWaits(Run(s, hasInit, acts).value, b) && Suspensions(acts) == 0
  {
    BeginRuns(s, hasInit, b);
    var t := Run(s, hasInit, Begin).value;
    hide Run, Suspensions;
    NoneIn();
    RunOne(t, hasInit, Refuse(0, 1));
    acts := Chain(s, hasInit, Begin, [Refuse(0, 1)]);
  }

  // Handler 0 is suspended in the buffer, which waits for an answer.
  predicate Suspended(s: State, b: nat, c: nat, key: Key) {
    && |s.pcs| > 0 && (forall w :: 0 <= w < |s.pcs| ==> s.pcs[w] == Idle) && s.todo == []
    && b in s.bufs && b in s.place && s.place[b] == Wait(c) && c < |s.conns| && s.bufs[b].conn == c
    && s.bufs[b].id.Some? && s.bufs[b].phase < 1000 && s.bufs[b].busy == Some(0) && s.bufs[b].key == Some(key)
    && s.conns[c].waitq == [b] && s.conns[c].reader.None? && s.conns[c].replied == {}
    && Request(key) in s.conns[c].out && s.conns[c].sent <= |s.conns[c].out|
  }

  lemma {:induction false} ThenAnswered(s: State, hasInit: bool, b: nat, c: nat, key: Key) returns (acts: seq<Action>)
    requires Suspended(s, b, c, key)
    ensures Run(s, hasInit, acts).Some? && SelfWaits(Run(s, hasInit, acts).value, b) && Suspensions(acts) == 0
    decreases if c < |s.conns| then |s.conns[c].out| - s.conns[c].sent else 0
  {
    if s.conns[c].sent < |s.conns[c].out| {
      var t := Step(s, hasInit, Write(c)).value;
      hide Run, Suspensions, SelfWaits;
      acts := ThenAnswered(t, hasInit, b, c, key);
      acts := Before(s, hasInit, Write(c), acts);
    } else {
      acts := ThenWoken(s, hasInit, b, c, key);
    }
  }

  lemma {:induction false} ThenWoken(s: State, hasInit: bool, b: nat, c: nat, key: Key) returns (acts: seq<Action>)
    requires Suspended(s, b, c, key) && s.conns[c].sent == |s.conns[c].out|
    ensures Run(s, hasInit, acts).Some? && SelfWaits(Run(s, hasInit, acts).value, b) && Suspensions(acts) == 0
  {
    hide Run, Suspensions, SelfWaits, FindWaiter;
    var k := s.conns[c];
    assert k.out[..|k.out|] == k.out && MayReply(k, key);
    FoundAlone(s.bufs, b, key);
    var t := Step(s, hasInit, Reply(c, key)).value;
    var u := Step(t, hasInit, Wakeup(c)).value;
    assert Resumes(u, b);
    acts := ThenRefused(u, hasInit, b);
    acts := Before(t, hasInit, Wakeup(c), acts);
    acts := Before(s, hasInit, Reply(c, key), acts);
  }

  lemma FoundAlone(bufs: map<nat, Buf>, b: nat, key: Key)
    requires b in bufs && bufs[b].key == Some(key)
    ensures FindWaiter(bufs, [b], key) == 0
  {
  }

  // The one buffer is that of a new request.
  predicate Alone(s: State, b: nat, c: nat) {
    && IsFirst(s, b) && s.todo == [b] && s.bufs[b].conn == c && s.bufs[b].id.Some? && s.bufs[b].phase < 1000
    && s.bufs[b].busy.None? && s.conns[c].waitq == [] && s.conns[c].reader.None? && s.conns[c].replied == {}
    && s.conns[c].sent <= |s.conns[c].out|
  }

  // Its handler fetches.
  lemma {:induction false} ThenSuspended(s: State, hasInit: bool, b: nat, c: nat) returns (acts: seq<Action>)
    requires Alone(s, b, c)
    ensures Run(s, hasInit, acts).Some? && SelfWaits(Run(s, hasInit, acts).value, b) && Suspensions(acts) == 1
  {
    hide Run, Suspensions, SelfWaits, Suspended;
    BeginRuns(s, hasInit, b);
    var t := Run(s, hasInit, Begin).value;
    FetchSuspends(s, hasInit, b, c, t);
    var u := Step(t, hasInit, Ask(0, 0, Fetch, 0, 1)).value;
    hide Alone, IsFirst;
    var v := Step(u, hasInit, Leave(0)).value;
    hide Step;
    acts := ThenAnswered(v, hasInit, b, c, Key(Fetch, 0, s.fetches));
    acts := Before(u, hasInit, Leave(0), acts);
    acts := Before(t, hasInit, Ask(0, 0, Fetch, 0, 1), acts);
    acts := Chain(s, hasInit, Begin, acts);
    NoneIn();
  }

  lemma {:induction false} FetchSuspends(s: State, hasInit: bool, b: nat, c: nat, t: State)
    requires Alone(s, b, c)
    requires t == WithPc(s, 0, Running(b)).(todo := s.todo[1..], place := s.place[b := Worker(0)])
    ensures Step(t, hasInit, Ask(0, 0, Fetch, 0, 1)).Some?
    ensures var u := Step(t, hasInit, Ask(0, 0, Fetch, 0, 1)).value;
      Step(u, hasInit, Leave(0)).Some? &&
        Suspended(Step(u, hasInit, Leave(0)).value, b, c, Key(Fetch, 0, s.fetches))
  {
    var u := Step(t, hasInit, Ask(0, 0, Fetch, 0, 1)).value;
    var v := Step(u, hasInit, Leave(0)).value;
    assert v.pcs == s.pcs;
  }

  // READY is asked for, _init ends if it is configured, and a request arrives.
  lemma {:induction false} Opened(versions: seq<nat>, workers: nat, hasInit: bool, c: nat)
      returns (acts: seq<Action>, b: nat)
    requires c < |versions| && workers > 0
    ensures Reached(versions, workers, hasInit, acts).Some? && Suspensions(acts) == 0
    ensures Alone(Reached(versions, workers, hasInit, acts).value, b, c)
  {
    var s := Start(versions, workers);
    var t := Step(s, hasInit, ReadyRequest(c)).value;
    if hasInit {
      assert IsFirst(t, 0);
      acts, b := InitThenQuery(t, c);
    } else {
      acts, b := [Query(c, 0, None)], 0;
      RunOne(t, false, Query(c, 0, None));
      NoneIn();
    }
    hide Run, Start, Suspensions, Alone;
    acts := Before(s, hasInit, ReadyRequest(c), acts);
  }

  lemma {:induction false} InitThenQuery(s: State, c: nat) returns (acts: seq<Action>, b: nat)
    requires c < |s.conns| && IsFirst(s, 0) && s.todo == [0] && s.bufs[0] == InitBuf(c) && s.next == 1
    requires s.wakes == map[] && s.conns[c].state && s.conns[c].init == Some(0) && Untold(s.conns[c])
    ensures Run(s, true, acts).Some? && Suspensions(acts) == 0 && Alone(Run(s, true, acts).value, b, c)
  {
    hide Run, Suspensions, Turn, Alone;
    TurnRuns(s, true, 0, true);
    var t := Run(s, true, Turn(true)).value;
    b := 1;
    acts := CloseThenArrive(t, c);
    acts := Chain(s, true, Turn(true), acts);
    EndSuspendsNone();
  }

  // The kernel has been told nothing but READY, and has asked for nothing else.
  predicate Untold(k: Conn) {
    !k.draining && k.waitq == [] && k.reader.None? && k.replied == {} && k.ids == {} && k.sent <= |k.out|
  }

  lemma {:induction false} CloseThenArrive(s: State, c: nat) returns (acts: seq<Action>)
    requires c < |s.conns| && IsFirst(s, 0) && s.todo == [0] && s.next == 1 && s.wakes == map[]
    requires s.bufs[0] == InitBuf(c).(phase := 1000, result := 0) && s.conns[c].state && Untold(s.conns[c])
    ensures Run(s, true, acts).Some? && Suspensions(acts) == 0 && Alone(Run(s, true, acts).value, 1, c)
  {
    hide Run, Suspensions, Alone;
    CloseRuns(s, 0);
    var t := Run(s, true, Close).value;
    assert t.todo == [];
    EndSuspendsNone();
    NoneIn();
    RunOne(t, true, Query(c, 0, None));
    QueryAlone(t, c);
    acts := Chain(s, true, Close, [Query(c, 0, None)]);
  }

  lemma {:induction false} QueryAlone(s: State, c: nat)
    requires c < |s.conns| && |s.pcs| > 0 && (forall w :: 0 <= w < |s.pcs| ==> s.pcs[w] == Idle) && s.todo == []
    requires s.next == 1 && s.conns[c].state && s.conns[c].init.None? && Untold(s.conns[c])
    ensures Step(s, true, Query(c, 0, None)).Some? && Alone(Step(s, true, Query(c, 0, None)).value, 1, c)
  {
  }

  lemma EndSuspendsNone()
    ensures Suspensions(Turn(true)) == 0 && Suspensions(Close) == 0
  {
    hide Suspensions;
    NoneIn();
    SuspensionsThen(Begin, [Ended(0, 0)]);
    SuspensionsThen(Begin, [Drain(0), DrainEnd(0)]);
    assert [Drain(0), DrainEnd(0)] == [Drain(0)] + [DrainEnd(0)];
    SuspensionsThen([Drain(0)], [DrainEnd(0)]);
  }

  // A run in which one handler is suspended and its node vanishes: the request
  // waits for itself, so it is never answered.
  lemma {:induction false} SelfWaited(versions: seq<nat>, workers: nat, hasInit: bool, c: nat)
      returns (acts: seq<Action>, b: nat)
    requires c < |versions| && workers > 0
    ensures Reached(versions, workers, hasInit, acts).Some? && Suspensions(acts) == 1
    ensures SelfWaits(Reached(versions, workers, hasInit, acts).value, b)
  {
    acts, b := Opened(versions, workers, hasInit, c);
    var s := Start(versions, workers);
    hide Run, Start, Suspensions, Alone, SelfWaits;
    var more := ThenSuspended(Run(s, hasInit, acts).value, hasInit, b, c);
    acts := Chain(s, hasInit, acts, more);
  }

  ghost predicate NeverWaits(versions: seq<nat>, workers: nat, hasInit: bool, n: nat) {
    forall acts, b :: Reached(versions, workers, hasInit, acts).Some? && Suspensions(acts) <= n ==>
      !SelfWaits(Reached(versions, workers, hasInit, acts).value, b)
  }

  // No request waits for itself, in all runs in which handlers are suspended n
  // times at most, exactly if n is 0.
  lemma {:induction false} NeverWaitsExactly(versions: seq<nat>, workers: nat, hasInit: bool, n: nat)
    requires |versions| > 0 && workers > 0
    ensures NeverWaits(versions, workers, hasInit, n) <==> n == 0
  {
    hide Reached, Suspensions, SelfWaits;
    if n == 0 {
      forall acts, b | Reached(versions, workers, hasInit, acts).Some? && Suspensions(acts) <= n
        ensures !SelfWaits(Reached(versions, workers, hasInit, acts).value, b)
      {
        NeverSelfWaits(versions, workers, hasInit, acts, b);
      }
    } else {
      var acts, b := SelfWaited(versions, workers, hasInit, 0);
    }
  }
}
