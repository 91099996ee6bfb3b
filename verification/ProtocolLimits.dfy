/** How often a kernel may ask for READY: the order of arrival and the one READY
    hold over all runs up to that number, and for no greater one. */
module ProtocolLimits {
  import opened Lists
  import opened Protocol
  import opened ProtocolPlaces
  import opened ProtocolGate
  import opened ProtocolRuns

  lemma {:induction false} RunThen(s: State, hasInit: bool, a: seq<Action>, b: seq<Action>)
    ensures Run(s, hasInit, a + b) == match Run(s, hasInit, a) case None => None case Some(t) => Run(t, hasInit, b)
    decreases a
  {
    hide Step;
    if a == [] {
      assert a + b == b;
    } else {
      assert (a + b)[0] == a[0] && (a + b)[1..] == a[1..] + b;
      match Step(s, hasInit, a[0])
      case None =>
      case Some(t) => RunThen(t, hasInit, a[1..], b);
    }
  }

  lemma {:induction false} AsksThen(a: seq<Action>, b: seq<Action>, c: nat)
    ensures ReadyAsks(a + b, c) == ReadyAsks(a, c) + ReadyAsks(b, c)
    decreases a
  {
    if a == [] {
      assert a + b == b;
    } else {
      assert (a + b)[0] == a[0] && (a + b)[1..] == a[1..] + b;
      AsksThen(a[1..], b, c);
    }
  }

  lemma RunOne(s: State, hasInit: bool, a: Action)
    ensures Run(s, hasInit, [a]) == Step(s, hasInit, a)
    ensures forall c :: ReadyAsks([a], c) == if a == ReadyRequest(c) then 1 else 0
  {
    hide Step;
    assert [a][1..] == [];
  }

  // b is the first of comm_todo, and the first worker is free.
  predicate IsFirst(s: State, b: nat) {
    && s.todo != [] && s.todo[0] == b && b in s.bufs && b in s.place && s.place[b] == Todo && s.bufs[b].conn < |s.conns|
    && |s.pcs| > 0 && forall w :: 0 <= w < |s.pcs| ==> s.pcs[w] == Idle
  }

  // A worker takes and locks the first buffer.
  const Begin: seq<Action> := [Take(0), Lock(0)]

  lemma {:induction false} BeginRuns(s: State, hasInit: bool, b: nat)
    requires IsFirst(s, b)
    ensures Run(s, hasInit, Begin) == Some(WithPc(s, 0, Running(b)).(todo := s.todo[1..],
        place := s.place[b := Worker(0)]))
  {
    var t := Step(s, hasInit, Take(0)).value;
    RunOne(t, hasInit, Lock(0));
    RunThen(s, hasInit, [Take(0)], [Lock(0)]);
    RunOne(s, hasInit, Take(0));
    assert Begin == [Take(0)] + [Lock(0)];
    assert t.pcs[0 := Running(b)] == s.pcs[0 := Running(b)];
  }

  // The handler of the first buffer goes on, or ends, and the buffer comes last.
  function Turn(ends: bool): seq<Action> { Begin + [if ends then Ended(0, 0) else Again(0, 0, 1)] }

  lemma {:induction false} TurnRuns(s: State, hasInit: bool, b: nat, ends: bool)
    requires IsFirst(s, b) && s.bufs[b].phase < 1000 && (ends || s.bufs[b].busy.None? || s.bufs[b].busy == Some(0))
    ensures var x := s.bufs[b];
      var y := if ends then x.(phase := 1000, result := 0) else x.(phase := 1, busy := Some(0));
      Run(s, hasInit, Turn(ends)) == Some(s.(todo := s.todo[1..] + [b], bufs := s.bufs[b := y]))
  {
    BeginRuns(s, hasInit, b);
    var t := WithPc(s, 0, Running(b)).(todo := s.todo[1..], place := s.place[b := Worker(0)]);
    var a := if ends then Ended(0, 0) else Again(0, 0, 1);
    RunThen(s, hasInit, Begin, [a]);
    RunOne(t, hasInit, a);
    assert t.pcs[0 := Idle] == s.pcs;
    assert t.place[b := Todo] == s.place;
  }

  // The first buffer is that of an _init that has ended, for which nothing waits.
  const Close: seq<Action> := Begin + [Drain(0), DrainEnd(0)]

  lemma {:induction false} CloseRuns(s: State, b: nat)
    requires IsFirst(s, b) && s.bufs[b].phase >= 1000 && s.bufs[b].id.None? && WakeOf(s, b) == [] &&
        !s.conns[s.bufs[b].conn].draining
    ensures var c := s.bufs[b].conn;
      var k := s.conns[c];
      var out := if k.version > 2 && k.init == Some(b) then k.out + [ReadyAnswer] else k.out;
      Run(s, true, Close) ==
        Some(WithConn(s, c, k.(out := out, init := None, ended := k.ended + 1)).(todo := s.todo[1..],
          bufs := s.bufs - {b},
          place := s.place - {b}))
  {
    BeginRuns(s, true, b);
    var t := WithPc(s, 0, Running(b)).(todo := s.todo[1..], place := s.place[b := Worker(0)]);
    RunThen(s, true, Begin, [Drain(0), DrainEnd(0)]);
    assert [Drain(0), DrainEnd(0)] == [Drain(0)] + [DrainEnd(0)];
    RunThen(t, true, [Drain(0)], [DrainEnd(0)]);
    RunOne(t, true, Drain(0));
    var u := Step(t, true, Drain(0)).value;
    RunOne(u, true, DrainEnd(0));
    assert u.pcs[0 := Idle] == s.pcs;
    assert u.place - {b} == s.place - {b};
    var c := s.bufs[b].conn;
    var v := Step(u, true, DrainEnd(0)).value;
    assert v.conns == s.conns[c := v.conns[c]];
  }

  /* The order of arrival */

  // The kernel asks for READY n times at most.
  predicate Brings(versions: seq<nat>, workers: nat, hasInit: bool, acts: seq<Action>, c: nat, n: nat) {
    Reached(versions, workers, hasInit, acts).Some? && ReadyAsks(acts, c) <= n
  }

  ghost predicate InOrder(versions: seq<nat>, workers: nat, hasInit: bool, c: nat, n: nat) {
    forall acts :: Brings(versions, workers, hasInit, acts, c, n) ==>
      Keeps(Reached(versions, workers, hasInit, acts).value, c)
  }

  predicate Keeps(s: State, c: nat) { c < |s.conns| && s.conns[c].entered <= s.conns[c].arrived }

  // Requests enter comm_todo in the order they arrived, in all runs with n READY
  // requests at most, exactly if n is at most 1, and 0 before version 3, or if no
  // _init is configured.
  lemma {:induction false} OrderExactly(versions: seq<nat>, workers: nat, hasInit: bool, c: nat, n: nat)
    requires c < |versions| && workers > 0
    ensures InOrder(versions, workers, hasInit, c, n) <==> StartsOnce(versions[c], hasInit, n)
  {
    hide Reached, ReadyAsks;
    if StartsOnce(versions[c], hasInit, n) {
      forall acts | Brings(versions, workers, hasInit, acts, c,
        n) ensures Keeps(Reached(versions, workers, hasInit, acts).value, c) {
        ArrivalOrder(versions, workers, hasInit, acts, c);
      }
    } else {
      var acts;
      if versions[c] > 2 { acts := Overtaken(versions, workers, c); }
        else { acts := OldOvertaken(versions, workers, c); }
      assert Brings(versions, workers, hasInit, acts, c, n);
    }
  }

  // A connection on which n READY requests and a query have come in.
  function Crowded(version: nat, init: nat, asks: nat, inits: nat, request: nat): Conn {
    Fresh(version).(state := true, init := Some(init), asked := asks, inits := inits, ids := {0}, arrived := [request])
  }

  function InitBuf(c: nat): Buf { Buf(c, None, None, 0, -1, None, None) }

  function RequestBuf(c: nat, id: nat): Buf { Buf(c, Some(id), None, 0, -1, None, None) }

  // Two READY requests: the first _init to end opens the gate, though a request
  // waits for the second.
  lemma {:induction false} Overtaken(versions: seq<nat>, workers: nat, c: nat) returns (acts: seq<Action>)
    requires c < |versions| && workers > 0 && versions[c] > 2
    ensures Reached(versions, workers, true, acts).Some? && ReadyAsks(acts, c) == 2
    ensures !Keeps(Reached(versions, workers, true, acts).value, c)
  {
    hide Run, ReadyAsks, Start, CanOvertake, Keeps;
    var opening, s, b, o, request := Doubled(versions, workers, c);
    acts := Overtake(s, b, o, c, request);
    acts := After(Start(versions, workers), s, opening, acts, c);
  }

  // As few READY requests as start _init twice, and a request that waits.
  lemma {:induction false} Doubled(versions: seq<nat>, workers: nat, c: nat)
      returns (acts: seq<Action>, s: State, b: nat, o: nat, request: nat)
    requires c < |versions| && workers > 0
    ensures Reached(versions, workers, true, acts) == Some(s) && ReadyAsks(acts, c) == if versions[c] > 2 then 2 else 1
    ensures CanOvertake(s, b, o, c, request)
  {
    if versions[c] > 2 {
      hide Run, ReadyAsks;
      acts, b, o, request := [ReadyRequest(c), ReadyRequest(c), Query(c, 0, None)], 0, 1, 2;
      TwoAsked(versions, workers, c);
      s := Run(Start(versions, workers), true, acts).value;
    } else {
      hide Run, ReadyAsks, Start, OldStart, Turn, CanOvertake;
      QueriedThenAsked(versions, workers, c);
      TurnAsks(false, c);
      s := OldTurned(versions, workers, c);
      b, o, request := 2, 0, 1;
      acts := After(Start(versions, workers), OldStart(versions, workers, c),
                    [Query(c, 0, None), ReadyRequest(c)], Turn(false), c);
    }
  }

  lemma {:induction false} TwoAsked(versions: seq<nat>, workers: nat, c: nat)
    requires c < |versions| && versions[c] > 2
    ensures var s := Start(versions, workers);
      var opening := [ReadyRequest(c), ReadyRequest(c), Query(c, 0, None)];
      && ReadyAsks(opening, c) == 2
      && Run(s, true, opening) == Some(s.(
           bufs := map[0 := InitBuf(c), 1 := InitBuf(c), 2 := RequestBuf(c, 0)],
             place := map[0 := Todo, 1 := Todo, 2 := Wake(1)],
           todo := [0, 1], wakes := map[1 := [2]], conns := s.conns[c := Crowded(versions[c], 1, 2, 2, 2)], next := 3))
  {
    var s := Start(versions, workers);
    var opening := [ReadyRequest(c), ReadyRequest(c), Query(c, 0, None)];
    assert opening == [ReadyRequest(c)] + ([ReadyRequest(c)] + [Query(c, 0, None)]);
    AsksThen([ReadyRequest(c)], [ReadyRequest(c)] + [Query(c, 0, None)], c);
    AsksThen([ReadyRequest(c)], [Query(c, 0, None)], c);
    hide Run, ReadyAsks;
    RunThen(s, true, [ReadyRequest(c)], [ReadyRequest(c)] + [Query(c, 0, None)]);
    RunOne(s, true, ReadyRequest(c));
    var t := Step(s, true, ReadyRequest(c)).value;
    RunThen(t, true, [ReadyRequest(c)], [Query(c, 0, None)]);
    RunOne(t, true, ReadyRequest(c));
    var u := Step(t, true, ReadyRequest(c)).value;
    RunOne(u, true, Query(c, 0, None));
    var v := Step(u, true, Query(c, 0, None)).value;
    assert v.conns[c].arrived == [2] && v.conns[c].ids == {0} && v.conns[c] == Crowded(versions[c], 1, 2, 2, 2);
    assert v.conns == s.conns[c := Crowded(versions[c], 1, 2, 2, 2)];
    assert v.place == map[0 := Todo, 1 := Todo, 2 := Wake(1)] && v.todo == [0, 1] && v.wakes == map[1 := [2]];
    assert v.bufs == map[0 := InitBuf(c), 1 := InitBuf(c), 2 := RequestBuf(c, 0)];
  }

  // On an old connection a query starts _init, and a READY request once more.
  lemma {:induction false} OldOvertaken(versions: seq<nat>, workers: nat, c: nat) returns (acts: seq<Action>)
    requires c < |versions| && workers > 0 && versions[c] <= 2
    ensures Reached(versions, workers, true, acts).Some? && ReadyAsks(acts, c) == 1
    ensures !Keeps(Reached(versions, workers, true, acts).value, c)
  {
    hide Run, ReadyAsks, Start, CanOvertake, Keeps;
    var opening, s, b, o, request := Doubled(versions, workers, c);
    acts := Overtake(s, b, o, c, request);
    acts := After(Start(versions, workers), s, opening, acts, c);
  }

  // The first _init goes on once, and the second comes first.
  lemma {:induction false} OldTurned(versions: seq<nat>, workers: nat, c: nat) returns (t: State)
    requires c < |versions| && workers > 0 && versions[c] <= 2
    ensures Run(OldStart(versions, workers, c), true, Turn(false)) == Some(t) && CanOvertake(t, 2, 0, c, 1)
  {
    hide Run, Turn;
    var s := OldStart(versions, workers, c);
    assert s.todo[1..] + [0] == [2, 0];
    TurnRuns(s, true, 0, false);
    t := s.(todo := [2, 0], bufs := s.bufs[0 := InitBuf(c).(phase := 1, busy := Some(0))]);
  }

  lemma After(s: State, t: State, a: seq<Action>, b: seq<Action>, c: nat) returns (acts: seq<Action>)
    requires Run(s, true, a) == Some(t)
    ensures Run(s, true, acts) == Run(t, true, b) && ReadyAsks(acts, c) == ReadyAsks(a, c) + ReadyAsks(b, c)
  {
    acts := a + b;
    RunThen(s, true, a, b);
    AsksThen(a, b, c);
  }

  function OldStart(versions: seq<nat>, workers: nat, c: nat): State
    requires c < |versions|
  {
    var s := Start(versions, workers);
    s.(bufs := map[0 := InitBuf(c), 1 := RequestBuf(c, 0), 2 := InitBuf(c)],
      place := map[0 := Todo, 1 := Wake(0), 2 := Todo],
       todo := [0, 2], wakes := map[0 := [1]], conns := s.conns[c := Crowded(versions[c], 2, 1, 2, 1)], next := 3)
  }

  lemma {:induction false} QueriedThenAsked(versions: seq<nat>, workers: nat, c: nat)
    requires c < |versions| && versions[c] <= 2
    ensures var s := Start(versions, workers);
      var opening := [Query(c, 0, None), ReadyRequest(c)];
      && ReadyAsks(opening, c) == 1
      && Run(s, true, opening) == Some(OldStart(versions, workers, c))
  {
    var s := Start(versions, workers);
    assert [Query(c, 0, None), ReadyRequest(c)] == [Query(c, 0, None)] + [ReadyRequest(c)];
    AsksThen([Query(c, 0, None)], [ReadyRequest(c)], c);
    hide Run, ReadyAsks;
    RunThen(s, true, [Query(c, 0, None)], [ReadyRequest(c)]);
    RunOne(s, true, Query(c, 0, None));
    var t := Step(s, true, Query(c, 0, None)).value;
    RunOne(t, true, ReadyRequest(c));
    var u := Step(t, true, ReadyRequest(c)).value;
    assert u.conns[c].arrived == [1] && u.conns[c].ids == {0} && u.conns[c] == Crowded(versions[c], 2, 1, 2, 1);
    assert u.conns == s.conns[c := Crowded(versions[c], 2, 1, 2, 1)];
    assert u.place == map[0 := Todo, 1 := Wake(0), 2 := Todo] && u.todo == [0, 2] && u.wakes == map[0 := [1]];
    assert u.bufs == map[0 := InitBuf(c), 1 := RequestBuf(c, 0), 2 := InitBuf(c)];
  }

  lemma {:induction false} TurnAsks(ends: bool, c: nat)
    ensures ReadyAsks(Turn(ends), c) == 0
  {
    hide ReadyAsks, Run;
    BeginAsks(c);
    var a := if ends then Ended(0, 0) else Again(0, 0, 1);
    RunOne(Start([], 0), false, a);
    AsksThen(Begin, [a], c);
  }

  lemma {:induction false} BeginAsks(c: nat)
    ensures ReadyAsks(Begin, c) == 0
  {
    hide ReadyAsks, Run;
    RunOne(Start([], 0), false, Take(0));
    RunOne(Start([], 0), false, Lock(0));
    assert Begin == [Take(0)] + [Lock(0)];
    AsksThen([Take(0)], [Lock(0)], c);
  }

  lemma {:induction false} CloseAsks(c: nat)
    ensures ReadyAsks(Close, c) == 0
  {
    hide ReadyAsks, Run;
    BeginAsks(c);
    RunOne(Start([], 0), false, Drain(0));
    RunOne(Start([], 0), false, DrainEnd(0));
    assert [Drain(0), DrainEnd(0)] == [Drain(0)] + [DrainEnd(0)];
    AsksThen([Drain(0)], [DrainEnd(0)], c);
    AsksThen(Begin, [Drain(0), DrainEnd(0)], c);
  }

  // The _init in buffer b ends before the one in buffer o, and a request waits for
  // one of them; the next request does not wait.
  lemma {:induction false} Overtake(s: State, b: nat, o: nat, c: nat, request: nat) returns (acts: seq<Action>)
    requires CanOvertake(s, b, o, c, request)
    ensures Run(s, true, acts).Some? && ReadyAsks(acts, c) == 0 && !Keeps(Run(s, true, acts).value, c)
  {
    hide Run, Turn, CanOvertake, Halfway, CanClose, ReadyAsks, Keeps;
    var s1 := FirstEnds(s, b, o, c, request);
    var s2 := OtherGoesOn(s1, b, o, c, request);
    acts := CloseThenQuery(s2, b, o, c, request);
    acts := After(s1, s2, Turn(false), acts, c);
    acts := After(s, s1, Turn(true), acts, c);
    TurnAsks(true, c);
    TurnAsks(false, c);
  }

  // The buffer of an _init that can go on.
  predicate GoesOn(x: Buf, c: nat) {
    x.conn == c && x.id.None? && x.phase < 1000 && (x.busy.None? || x.busy == Some(0))
  }

  predicate Halfway(s: State, b: nat, o: nat, c: nat, request: nat) {
    && c < |s.conns| && IsFirst(s, o) && s.todo == [o, b] && b != o && b in s.bufs && b in s.place && s.place[b] == Todo
    && s.bufs[b] == InitBuf(c).(phase := 1000, result := 0) && GoesOn(s.bufs[o], c) && o < s.next && WakeOf(s, b) == []
    && OneWaits(s, c, request)
  }

  // One request has arrived on connection c, and has not entered comm_todo.
  predicate OneWaits(s: State, c: nat, request: nat)
    requires c < |s.conns|
  {
    var k := s.conns[c];
    && k.state && !k.draining && k.reader.None? && k.ids == {0}
    && k.arrived == [request] && k.entered == [] && request != s.next
  }

  lemma {:induction false} FirstEnds(s: State, b: nat, o: nat, c: nat, request: nat) returns (t: State)
    requires CanOvertake(s, b, o, c, request)
    ensures Run(s, true, Turn(true)) == Some(t) && Halfway(t, b, o, c, request)
  {
    hide Run, Turn;
    t := s.(todo := [o, b], bufs := s.bufs[b := InitBuf(c).(phase := 1000, result := 0)]);
    assert s.todo[1..] + [b] == [o, b];
    TurnRuns(s, true, b, true);
  }

  lemma {:induction false} OtherGoesOn(s: State, b: nat, o: nat, c: nat, request: nat) returns (t: State)
    requires Halfway(s, b, o, c, request)
    ensures Run(s, true, Turn(false)) == Some(t) && CanClose(t, b, o, c, request)
  {
    hide Run, Turn;
    t := s.(todo := [b, o], bufs := s.bufs[o := s.bufs[o].(phase := 1, busy := Some(0))]);
    assert s.todo[1..] + [o] == [b, o];
    TurnRuns(s, true, o, false);
  }

  // The _init in the first buffer has ended, another has not, and one request has
  // arrived, which has not entered comm_todo.
  predicate CanClose(s: State, b: nat, o: nat, c: nat, request: nat) {
    && c < |s.conns| && IsFirst(s, b) && s.todo == [b, o] && b != o && o in s.bufs && o in s.place && s.place[o] == Todo
    && GoesOn(s.bufs[o], c) && o < s.next && s.bufs[b] == InitBuf(c).(phase := 1000, result := 0) && WakeOf(s, b) == []
    && OneWaits(s, c, request)
  }

  lemma {:induction false} CloseThenQuery(s: State, b: nat, o: nat, c: nat, request: nat) returns (acts: seq<Action>)
    requires CanClose(s, b, o, c, request)
    ensures Run(s, true, acts).Some? && ReadyAsks(acts, c) == 0 && !Keeps(Run(s, true, acts).value, c)
  {
    CloseRuns(s, b);
    var t := Run(s, true, Close).value;
    hide Run, IsFirst, WakeOf;
    var last := QueryRuns(t, c, request);
    RunThen(s, true, Close, last);
    CloseAsks(c);
    AsksThen(Close, last, c);
    acts := Close + last;
  }

  predicate CanOvertake(s: State, b: nat, o: nat, c: nat, request: nat) {
    && c < |s.conns| && IsFirst(s, b) && s.todo == [b, o] && b != o && o in s.bufs && o in s.place && s.place[o] == Todo
    && s.bufs[b] == InitBuf(c) && GoesOn(s.bufs[o], c) && o < s.next && WakeOf(s, b) == []
    && OneWaits(s, c, request)
  }

  lemma QueryRuns(s: State, c: nat, request: nat) returns (acts: seq<Action>)
    requires CanEnter(s, c) && s.conns[c].state && s.conns[c].init.None? && s.conns[c].ids == {0}
    requires s.conns[c].arrived == [request] && s.conns[c].entered == [] && request != s.next
    ensures Run(s, true, acts).Some? && ReadyAsks(acts, c) == 0 && !Keeps(Run(s, true, acts).value, c)
  {
    acts := [Query(c, 1, None)];
    RunOne(s, true, Query(c, 1, None));
    var t := Step(s, true, Query(c, 1, None)).value;
    assert t.conns[c].entered == [s.next] && t.conns[c].arrived == [request, s.next];
    assert t.conns[c].entered[0] != t.conns[c].arrived[0];
  }

  /* The gate */

  ghost predicate Gated(versions: seq<nat>, workers: nat, hasInit: bool, c: nat, n: nat) {
    forall acts, w :: Brings(versions, workers, hasInit, acts, c, n) ==>
      GatePasses(Reached(versions, workers, hasInit, acts).value, c, w)
  }

  // A worker that handles a request finds every _init of the connection ended, in
  // all runs with n READY requests at most, exactly if n is at most 1, and 0 before
  // version 3, or if no _init is configured.
  lemma {:induction false} GateExactly(versions: seq<nat>, workers: nat, hasInit: bool, c: nat, n: nat)
    requires c < |versions| && workers > 0
    ensures Gated(versions, workers, hasInit, c, n) <==> StartsOnce(versions[c], hasInit, n)
  {
    hide Reached, ReadyAsks, GatePasses;
    if StartsOnce(versions[c], hasInit, n) {
      forall acts, w | Brings(versions, workers, hasInit, acts, c, n)
        ensures GatePasses(Reached(versions, workers, hasInit, acts).value, c, w)
      {
        InitFirst(versions, workers, hasInit, acts, c, w);
      }
    } else {
      var acts := Ungated(versions, workers, c);
      assert Brings(versions, workers, hasInit, acts, c, n);
    }
  }

  // The first READY request too many starts a second _init; the first to end opens
  // the gate, and a request is handled while the second is suspended.
  lemma {:induction false} Ungated(versions: seq<nat>, workers: nat, c: nat) returns (acts: seq<Action>)
    requires c < |versions| && workers > 0
    ensures Reached(versions, workers, true, acts).Some? && ReadyAsks(acts, c) == if versions[c] > 2 then 2 else 1
    ensures !GatePasses(Reached(versions, workers, true, acts).value, c, 0)
  {
    hide Run, ReadyAsks, Start, Turn, CanOvertake, GatePasses;
    var opening, s, b, o, request := Doubled(versions, workers, c);
    acts := Ungate(s, b, o, c, request);
    acts := After(Start(versions, workers), s, opening, acts, c);
  }

  lemma {:induction false} Ungate(s: State, b: nat, o: nat, c: nat, request: nat) returns (acts: seq<Action>)
    requires CanOvertake(s, b, o, c, request)
    ensures Run(s, true, acts).Some? && ReadyAsks(acts, c) == 0 && !GatePasses(Run(s, true, acts).value, c, 0)
  {
    hide Run, Turn, CanOvertake, Halfway, CanClose, ReadyAsks, GatePasses;
    var s1 := FirstEnds(s, b, o, c, request);
    var s2 := OtherGoesOn(s1, b, o, c, request);
    acts := CloseThenRun(s2, b, o, c, request);
    acts := After(s1, s2, Turn(false), acts, c);
    acts := After(s, s1, Turn(true), acts, c);
    TurnAsks(true, c);
    TurnAsks(false, c);
  }

  lemma {:induction false} CloseThenRun(s: State, b: nat, o: nat, c: nat, request: nat) returns (acts: seq<Action>)
    requires CanClose(s, b, o, c, request)
    ensures Run(s, true, acts).Some? && ReadyAsks(acts, c) == 0 && !GatePasses(Run(s, true, acts).value, c, 0)
  {
    CloseRuns(s, b);
    var t := Run(s, true, Close).value;
    var query := [Query(c, 1, None)];
    RunOne(t, true, Query(c, 1, None));
    var u := Step(t, true, Query(c, 1, None)).value;
    assert u.todo == [o, s.next] && IsFirst(u, o);
    hide Run, ReadyAsks, GatePasses, Turn;
    acts := GoOnThenRun(u, o, s.next, c);
    acts := After(t, u, query, acts, c);
    acts := After(s, t, Close, acts, c);
    CloseAsks(c);
  }

  // The _init in buffer o goes on once more, and then buffer n is handled.
  lemma {:induction false} GoOnThenRun(s: State, o: nat, n: nat, c: nat) returns (acts: seq<Action>)
    requires c < |s.conns| && IsFirst(s, o) && s.todo == [o, n] && o != n && GoesOn(s.bufs[o], c)
    requires n in s.bufs && n in s.place && s.place[n] == Todo && s.bufs[n].conn == c && s.bufs[n].id.Some?
    ensures Run(s, true, acts).Some? && ReadyAsks(acts, c) == 0 && !GatePasses(Run(s, true, acts).value, c, 0)
  {
    TurnRuns(s, true, o, false);
    var t := Run(s, true, Turn(false)).value;
    assert t.todo == [n, o] && IsFirst(t, n);
    BeginRuns(t, true, n);
    hide Run, ReadyAsks, Turn;
    TurnAsks(false, c);
    BeginAsks(c);
    acts := Turn(false) + Begin;
    RunThen(s, true, Turn(false), Begin);
    AsksThen(Turn(false), Begin, c);
    var u := Run(s, true, acts).value;
    assert o in u.bufs && u.bufs[o].conn == c && u.bufs[o].id.None? && u.bufs[o].phase < 1000;
  }

  /* READY */

  ghost predicate OneReady(versions: seq<nat>, workers: nat, hasInit: bool, c: nat, n: nat) {
    forall acts :: Brings(versions, workers, hasInit, acts, c, n) ==>
      KeepsReady(Reached(versions, workers, hasInit, acts).value, c)
  }

  predicate KeepsReady(s: State, c: nat) { c < |s.conns| && Promised(s.conns[c]) }

  predicate ReadyLimit(version: nat, hasInit: bool, asks: nat) {
    if version > 2 then asks <= 1 else hasInit || asks == 0
  }

  // READY is answered as promised, in all runs with n READY requests at most,
  // exactly if n is at most 1, and 0 before version 3 where no _init is configured.
  lemma {:induction false} ReadyExactly(versions: seq<nat>, workers: nat, hasInit: bool, c: nat, n: nat)
    requires c < |versions| && workers > 0
    ensures OneReady(versions, workers, hasInit, c, n) <==> ReadyLimit(versions[c], hasInit, n)
  {
    hide Reached, ReadyAsks, Promised;
    if ReadyLimit(versions[c], hasInit, n) {
      forall acts | Brings(versions, workers, hasInit, acts, c, n)
        ensures KeepsReady(Reached(versions, workers, hasInit, acts).value, c)
      {
        if hasInit { ReadyAfterInit(versions, workers, acts, c); } else { ReadyPerRequest(versions, workers, acts, c); }
      }
    } else {
      var acts;
      if hasInit { acts := AskedAgain(versions, workers, c); } else { acts := AskedTooOften(versions, workers, c); }
      assert Brings(versions, workers, hasInit, acts, c, n);
    }
  }

  // Without _init: a second READY, or a READY on an old connection.
  lemma {:induction false} AskedTooOften(versions: seq<nat>, workers: nat, c: nat) returns (acts: seq<Action>)
    requires c < |versions|
    ensures Reached(versions, workers, false, acts).Some? && ReadyAsks(acts, c) == if versions[c] > 2 then 2 else 1
    ensures !KeepsReady(Reached(versions, workers, false, acts).value, c)
  {
    var s := Start(versions, workers);
    var one := [ReadyRequest(c)];
    assert ReadyAsks(one, c) == 1 by { assert one[1..] == []; }
    RunOne(s, false, ReadyRequest(c));
    acts := one;
    if versions[c] > 2 {
      RunOne(Step(s, false, ReadyRequest(c)).value, false, ReadyRequest(c));
      RunThen(s, false, one, one);
      AsksThen(one, one, c);
      acts := one + one;
    }
    hide Start, Run, ReadyAsks;
    ReadyPerRequest(versions, workers, acts, c);
  }

  // With _init: READY is asked for again when _init has ended.
  lemma {:induction false} AskedAgain(versions: seq<nat>, workers: nat, c: nat) returns (acts: seq<Action>)
    requires c < |versions| && workers > 0 && versions[c] > 2
    ensures Reached(versions, workers, true, acts).Some? && ReadyAsks(acts, c) == 2
    ensures !KeepsReady(Reached(versions, workers, true, acts).value, c)
  {
    var s := Start(versions, workers);
    var one := [ReadyRequest(c)];
    RunOne(s, true, ReadyRequest(c));
    var s1 := Step(s, true, ReadyRequest(c)).value;
    var s2 := s1.(bufs := s1.bufs[0 := InitBuf(c).(phase := 1000, result := 0)]);
    TurnRuns(s1, true, 0, true);
    assert s1.todo[1..] + [0] == s2.todo;
    hide Run, ReadyAsks, Turn;
    var last := AgainRuns(s2, c);
    hide Start;
    acts := one + (Turn(true) + last);
    RunThen(s1, true, Turn(true), last);
    RunThen(s, true, one, Turn(true) + last);
    TurnAsks(true, c);
    AsksThen(one, Turn(true) + last, c);
    AsksThen(Turn(true), last, c);
  }

  // The _init in the first buffer ends, and READY is asked for again.
  lemma {:induction false} AgainRuns(s: State, c: nat) returns (acts: seq<Action>)
    requires c < |s.conns| && IsFirst(s, 0) && s.bufs[0].phase >= 1000 && s.bufs[0].id.None? && s.bufs[0].conn == c &&
        WakeOf(s, 0) == []
    requires var k := s.conns[c]; !k.draining && k.reader.None? && k.version > 2 && k.init == Some(0) && k.out == []
    ensures Run(s, true, acts).Some? && ReadyAsks(acts, c) == 1 && !KeepsReady(Run(s, true, acts).value, c)
  {
    CloseRuns(s, 0);
    hide Run, ReadyAsks;
    var t := Run(s, true, Close).value;
    acts := Close + [ReadyRequest(c)];
    RunOne(t, true, ReadyRequest(c));
    RunThen(s, true, Close, [ReadyRequest(c)]);
    CloseAsks(c);
    AsksThen(Close, [ReadyRequest(c)], c);
    ReadiesSay([], ReadyAnswer);
    assert [] + [ReadyAnswer] == [ReadyAnswer];
  }
}
