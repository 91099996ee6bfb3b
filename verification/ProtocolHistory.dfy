/** What the messages of a run come from: an answer carries the result that the
    event of its request ended with, and every request for data its cause. */
module ProtocolHistory {
  import opened Lists
  import opened Protocol
  import opened ProtocolPlaces
  import opened ProtocolSafety
  import opened ProtocolGate
  import opened ProtocolRuns
  import opened ProtocolLimits

  // The state before step k of a run.
  ghost predicate Before(s: State, hasInit: bool, acts: seq<Action>, k: nat, t: State) {
    k < |acts| && Run(s, hasInit, acts[..k]) == Some(t)
  }

  // Worker w runs the buffer of request id of connection c.
  predicate RunsRequestOf(s: State, w: nat, c: nat, id: nat) {
    w < |s.pcs| && s.pcs[w].Running? && s.pcs[w].b in s.bufs && s.bufs[s.pcs[w].b].conn == c &&
      s.bufs[s.pcs[w].b].id == Some(id)
  }

  // Step k of the run is the end of the event of request id, with result r.
  ghost predicate EndedWith(s: State, hasInit: bool, acts: seq<Action>, k: nat, c: nat, id: nat, r: int) {
    exists t, w: nat :: Before(s, hasInit, acts, k, t) && acts[k] == Ended(w, r) && RunsRequestOf(t, w, c, id)
  }

  ghost predicate HasEnded(s: State, hasInit: bool, acts: seq<Action>, c: nat, id: nat, r: int) {
    exists k: nat :: EndedWith(s, hasInit, acts, k, c, id, r)
  }

  lemma {:induction false} EndedLonger(s: State, hasInit: bool, acts: seq<Action>, a: Action, c: nat, id: nat, r: int)
    requires HasEnded(s, hasInit, acts, c, id, r)
    ensures HasEnded(s, hasInit, acts + [a], c, id, r)
  {
    var k: nat :| EndedWith(s, hasInit, acts, k, c, id, r);
    var t, w: nat :| Before(s, hasInit, acts, k, t) && acts[k] == Ended(w, r) && RunsRequestOf(t, w, c, id);
    assert (acts + [a])[..k] == acts[..k] && (acts + [a])[k] == acts[k];
    assert Before(s, hasInit, acts + [a], k, t);
    assert EndedWith(s, hasInit, acts + [a], k, c, id, r);
  }

  predicate Sent(s: State, c: nat, id: nat, r: int) { c < |s.conns| && AuthAnswer(id, r) in s.conns[c].out }

  // The event of the request in buffer b has ended with r.
  predicate Decided(s: State, b: nat, c: nat, id: nat, r: int) {
    Asks(s, b, c, id) && s.bufs[b].phase >= 1000 && s.bufs[b].result == r
  }

  // What a worker passes on to an answer has come to its answer.
  ghost predicate PassedOn(s: State) {
    forall w: nat :: w < |s.pcs| && s.pcs[w].Leaving? && s.pcs[w].phase >= 1000 && s.pcs[w].b in s.bufs ==>
      s.bufs[s.pcs[w].b].phase >= 1000
  }

  // Every result that is held or was sent is the one an event has ended with.
  ghost predicate ResultsOk(s0: State, hasInit: bool, acts: seq<Action>, s: State) {
    && PassedOn(s)
    && (forall b: nat, c: nat, id: nat, r: int :: Decided(s, b, c, id, r) ==> HasEnded(s0, hasInit, acts, c, id, r))
    && (forall c: nat, id: nat, r: int :: Sent(s, c, id, r) ==> HasEnded(s0, hasInit, acts, c, id, r))
  }

  // A step that ends no event and answers no request.
  lemma {:induction false} ResultsKeep(s0: State, hasInit: bool, acts: seq<Action>, a: Action, s: State, t: State)
    requires ResultsOk(s0, hasInit, acts, s) && PassedOn(t)
    requires forall b: nat, c: nat, id: nat, r: int :: Decided(t, b, c, id, r) ==> Decided(s, b, c, id, r)
    requires forall c: nat, id: nat, r: int :: Sent(t, c, id, r) ==> Sent(s, c, id, r)
    ensures ResultsOk(s0, hasInit, acts + [a], t)
  {
    hide Decided, Sent, HasEnded, PassedOn;
    forall c: nat, id: nat, r: int | HasEnded(s0, hasInit, acts, c, id, r)
      ensures HasEnded(s0, hasInit, acts + [a], c, id, r)
    {
      EndedLonger(s0, hasInit, acts, a, c, id, r);
    }
  }

  /* Most steps change neither what is decided nor what was answered. */

  predicate NoAnswer(out: seq<Msg>, out': seq<Msg>) {
    out' == out || (|out'| == |out| + 1 && out'[..|out|] == out && !out'[|out|].AuthAnswer?)
  }

  ghost predicate SameBufs(s: State, t: State) {
    forall x :: x in t.bufs ==>
      if x in s.bufs then
        t.bufs[x].conn == s.bufs[x].conn && t.bufs[x].id == s.bufs[x].id && t.bufs[x].cls == s.bufs[x].cls &&
          t.bufs[x].phase == s.bufs[x].phase && t.bufs[x].result == s.bufs[x].result
      else s.next <= x && t.bufs[x].phase == 0
  }

  ghost predicate Mild(s: State, t: State) {
    && |t.pcs| == |s.pcs| && (forall w: nat :: w < |s.pcs| && t.pcs[w].Leaving? ==> t.pcs[w] == s.pcs[w])
    && SameBufs(s, t)
    && |t.conns| == |s.conns| && forall c: nat :: c < |s.conns| ==> NoAnswer(s.conns[c].out, t.conns[c].out)
  }

  predicate MildStep(a: Action) {
    !a.Again? && !a.Ended? && !a.Ask? && !a.Answer? && !a.Leave?
  }

  lemma {:induction false} StepMild(s: State, hasInit: bool, a: Action)
    requires Ordered(s) && Step(s, hasInit, a).Some? && MildStep(a)
    ensures Mild(s, Step(s, hasInit, a).value)
  {
    hide Placed, Locks, DoReply, DoReady, DoQuery;
    if a.ReadyRequest? || a.Query? {
      ReaderMild(s, hasInit, a);
    } else if a.Reply? {
      ReplyMild(s, a.c, a.key);
    } else if a.DrainEnd? {
      assert s.bufs[s.pcs[a.w].b].conn < |s.conns|;
    }
  }

  // Buffers arrive, and nothing else happens.
  ghost predicate OnlyArrives(s: State, t: State) {
    && t.pcs == s.pcs && s.next <= t.next && (forall x :: x in s.bufs ==> x in t.bufs && t.bufs[x] == s.bufs[x])
    && (forall x :: x in t.bufs && x !in s.bufs ==> s.next <= x && t.bufs[x].phase == 0)
    && |t.conns| == |s.conns| && forall c: nat :: c < |s.conns| ==>
      t.conns[c].out == s.conns[c].out && t.conns[c].waitq == s.conns[c].waitq &&
        t.conns[c].replied == s.conns[c].replied
  }

  // What a message of the kernel brings; READY may be said at once.
  lemma {:induction false} MessageArrives(s: State, hasInit: bool, a: Action) returns (t: State)
    requires Based(s) && Step(s, hasInit, a).Some? && (a.ReadyRequest? || a.Query?)
    ensures OnlyArrives(s, t)
    ensures var u := Step(s, hasInit, a).value;
      u == t || (a.ReadyRequest? && a.c < |t.conns| && u == Say(t, a.c, ReadyAnswer))
  {
    hide ConnInit, Arrive, OnlyArrives;
    if a.ReadyRequest? {
      t := ConnInit(Asked(s, a.c), hasInit, a.c);
      InitArrives(Asked(s, a.c), hasInit, a.c);
      AskedArrives(s, t, a.c);
    } else {
      t := Step(s, hasInit, a).value;
      if s.conns[a.c].state {
        QueryArrives(s, hasInit, a.c, a.id, a.cls);
      } else {
        var u := ConnInit(s, hasInit, a.c);
        InitArrives(s, hasInit, a.c);
        QueryArrives(u, hasInit, a.c, a.id, a.cls);
        ArrivesThen(s, u, t);
      }
    }
  }

  lemma ReaderMild(s: State, hasInit: bool, a: Action)
    requires Based(s) && Step(s, hasInit, a).Some? && (a.ReadyRequest? || a.Query?)
    ensures Mild(s, Step(s, hasInit, a).value)
  {
    hide Step;
    var t := MessageArrives(s, hasInit, a);
  }

  lemma AskedArrives(s: State, t: State, c: nat)
    requires c < |s.conns| && OnlyArrives(Asked(s, c), t)
    ensures OnlyArrives(s, t) && |t.conns| == |s.conns|
  {
  }

  lemma ArrivesThen(s: State, t: State, u: State)
    requires OnlyArrives(s, t) && OnlyArrives(t, u)
    ensures OnlyArrives(s, u)
  {
  }

  lemma InitArrives(s: State, hasInit: bool, c: nat)
    requires c < |s.conns| && Based(s)
    ensures Based(ConnInit(s, hasInit, c)) && OnlyArrives(s, ConnInit(s, hasInit, c)) &&
        |ConnInit(s, hasInit, c).conns| == |s.conns|
  {
  }

  lemma QueryArrives(s: State, hasInit: bool, c: nat, id: nat, cls: Option<nat>)
    requires c < |s.conns| && Based(s)
    ensures OnlyArrives(s, Arrive(s, hasInit, c, id, cls))
  {
  }

  lemma ReplyMild(s: State, c: nat, key: Key)
    requires DoReply(s, c, key).Some?
    ensures Mild(s, DoReply(s, c, key).value)
  {
    hide FindWaiter, MayReply;
  }

  lemma {:induction false} SaysNone(out: seq<Msg>, out': seq<Msg>, m: Msg)
    requires NoAnswer(out, out') && m.AuthAnswer?
    ensures m in out' ==> m in out
  {
    if m in out' {
      var i :| 0 <= i < |out'| && out'[i] == m;
      assert i < |out| ==> out'[..|out|][i] == m;
    }
  }

  lemma {:induction false} MildKeeps(s0: State, hasInit: bool, acts: seq<Action>, a: Action, s: State, t: State)
    requires Ordered(s) && ResultsOk(s0, hasInit, acts, s) && Mild(s, t)
    ensures ResultsOk(s0, hasInit, acts + [a], t)
  {
    hide Placed;
    forall w: nat | w < |t.pcs| && t.pcs[w].Leaving? && t.pcs[w].phase >= 1000 && t.pcs[w].b in t.bufs
      ensures t.bufs[t.pcs[w].b].phase >= 1000
    {
      assert Owns(s.pcs[w], s.pcs[w].b);
    }
    forall c: nat, id: nat, r: int | Sent(t, c, id, r) ensures Sent(s, c, id, r) {
      SaysNone(s.conns[c].out, t.conns[c].out, AuthAnswer(id, r));
    }
    hide HasEnded;
    ResultsKeep(s0, hasInit, acts, a, s, t);
  }

  /* The other steps of a worker. */

  // No other worker has b to pass on.
  lemma NoOther(s: State, w: nat)
    requires Locked(s) && w < |s.pcs| && (s.pcs[w].Running? || s.pcs[w].Leaving?)
    ensures forall v: nat :: v < |s.pcs| && v != w && s.pcs[v].Leaving? ==> s.pcs[v].b != s.pcs[w].b
    ensures forall v: nat :: v < |s.pcs| && s.pcs[v].Leaving? ==> s.pcs[v].b in s.bufs
  {
    assert Owns(s.pcs[w], s.pcs[w].b);
    forall v: nat | v < |s.pcs| && s.pcs[v].Leaving? ensures s.pcs[v].b in s.bufs &&
      (v != w ==> s.pcs[v].b != s.pcs[w].b) {
      assert Owns(s.pcs[v], s.pcs[v].b);
    }
  }

  lemma {:induction false} LeaveKeeps(s0: State, hasInit: bool, acts: seq<Action>, s: State, w: nat)
    requires Ordered(s) && ResultsOk(s0, hasInit, acts, s) && DoLeave(s, w).Some?
    ensures ResultsOk(s0, hasInit, acts + [Leave(w)], DoLeave(s, w).value)
  {
    hide Placed, HasEnded;
    NoOther(s, w);
    ResultsKeep(s0, hasInit, acts, Leave(w), s, DoLeave(s, w).value);
  }

  lemma {:induction false} AgainKeeps(s0: State, hasInit: bool, acts: seq<Action>, s: State, w: nat, h: nat, ph: nat)
    requires Ordered(s) && ResultsOk(s0, hasInit, acts, s) && DoAgain(s, w, h, ph).Some?
    ensures ResultsOk(s0, hasInit, acts + [Again(w, h, ph)], DoAgain(s, w, h, ph).value)
  {
    hide Placed, HasEnded;
    NoOther(s, w);
    ResultsKeep(s0, hasInit, acts, Again(w, h, ph), s, DoAgain(s, w, h, ph).value);
  }

  // A worker runs b; a request for data goes out, and the worker passes b on.
  lemma {:induction false} IssueKeeps(s0: State, hasInit: bool, acts: seq<Action>, a: Action, s: State, w: nat,
      busy: Option<nat>, kind: Kind, cid: nat, ph: nat)
    requires Ordered(s) && ResultsOk(s0, hasInit, acts, s) && Runs(s, w)
    requires ph >= 1000 ==> s.bufs[s.pcs[w].b].phase >= 1000
    ensures ResultsOk(s0, hasInit, acts + [a], Issue(WithBusy(s, w, busy), w, kind, cid, ph))
  {
    hide Placed, HasEnded;
    var t := Issue(WithBusy(s, w, busy), w, kind, cid, ph);
    NoOther(s, w);
    forall c: nat, id: nat, r: int | Sent(t, c, id, r) ensures Sent(s, c, id, r) {
      SaysNone(s.conns[c].out, t.conns[c].out, AuthAnswer(id, r));
    }
    ResultsKeep(s0, hasInit, acts, a, s, t);
  }

  lemma {:induction false} EndsHere(s0: State, hasInit: bool, acts: seq<Action>, s: State, w: nat, c: nat, id: nat,
      r: int)
    requires Run(s0, hasInit, acts) == Some(s) && RunsRequestOf(s, w, c, id)
    ensures HasEnded(s0, hasInit, acts + [Ended(w, r)], c, id, r)
  {
    var more := acts + [Ended(w, r)];
    assert more[..|acts|] == acts;
    assert Before(s0, hasInit, more, |acts|, s);
    assert EndedWith(s0, hasInit, more, |acts|, c, id, r);
  }

  lemma {:induction false} EndedKeeps(s0: State, hasInit: bool, acts: seq<Action>, s: State, w: nat, r: int)
    requires Run(s0, hasInit, acts) == Some(s)
    requires Ordered(s) && ResultsOk(s0, hasInit, acts, s) && DoEnded(s, w, r).Some?
    ensures ResultsOk(s0, hasInit, acts + [Ended(w, r)], DoEnded(s, w, r).value)
  {
    var a, t := Ended(w, r), DoEnded(s, w, r).value;
    NoOther(s, w);
    hide Ordered, HasEnded, Run;
    assert PassedOn(t);
    forall b: nat, c: nat, id: nat, x: int | Decided(t, b, c, id, x) ensures HasEnded(s0, hasInit, acts + [a], c, id,
      x) {
      if b == s.pcs[w].b {
        EndsHere(s0, hasInit, acts, s, w, c, id, r);
      } else {
        assert Decided(s, b, c, id, x);
        EndedLonger(s0, hasInit, acts, a, c, id, x);
      }
    }
    forall c: nat, id: nat, x: int | Sent(t, c, id, x) ensures HasEnded(s0, hasInit, acts + [a], c, id, x) {
      assert Sent(s, c, id, x);
      EndedLonger(s0, hasInit, acts, a, c, id, x);
    }
  }

  lemma {:induction false} AnswerKeeps(s0: State, hasInit: bool, acts: seq<Action>, s: State, w: nat)
    requires Ordered(s) && ResultsOk(s0, hasInit, acts, s) && DoAnswer(s, hasInit, w).Some?
    ensures ResultsOk(s0, hasInit, acts + [Answer(w)], DoAnswer(s, hasInit, w).value)
  {
    var b := s.pcs[w].b;
    var x := s.bufs[b];
    if x.phase == 1000 && x.result >= 0 && x.cls.Some? {
      assert s.bufs[b := x.(busy := x.busy)] == s.bufs;
      assert WithBusy(s, w, x.busy) == s;
      IssueKeeps(s0, hasInit, acts, Answer(w), s, w, x.busy, Update, x.cls.value, 1003);
    } else {
      AnswerSays(s0, hasInit, acts, s, w);
    }
  }

  lemma {:induction false} AnswerSays(s0: State, hasInit: bool, acts: seq<Action>, s: State, w: nat)
    requires Ordered(s) && ResultsOk(s0, hasInit, acts, s) && DoAnswer(s, hasInit, w).Some?
    requires var x := s.bufs[s.pcs[w].b]; !(x.phase == 1000 && x.result >= 0 && x.cls.Some?)
    ensures ResultsOk(s0, hasInit, acts + [Answer(w)], DoAnswer(s, hasInit, w).value)
  {
    var a, t := Answer(w), DoAnswer(s, hasInit, w).value;
    var b := s.pcs[w].b;
    NoOther(s, w);
    hide Ordered, HasEnded, Issue;
    assert PassedOn(t);
    forall y: nat, c: nat, id: nat, r: int | Decided(t, y, c, id, r) ensures HasEnded(s0, hasInit, acts + [a], c, id,
      r) {
      assert Decided(s, y, c, id, r);
      EndedLonger(s0, hasInit, acts, a, c, id, r);
    }
    forall c: nat, id: nat, r: int | Sent(t, c, id, r) ensures HasEnded(s0, hasInit, acts + [a], c, id, r) {
      if !Sent(s, c, id, r) { assert Decided(s, b, c, id, r); }
      EndedLonger(s0, hasInit, acts, a, c, id, r);
    }
  }

  lemma {:induction false} StepResults(s0: State, hasInit: bool, acts: seq<Action>, s: State, a: Action)
    requires Run(s0, hasInit, acts) == Some(s) && Ordered(s) && ResultsOk(s0, hasInit, acts, s)
    requires Step(s, hasInit, a).Some?
    ensures ResultsOk(s0, hasInit, acts + [a], Step(s, hasInit, a).value)
  {
    hide Ordered, ResultsOk, DoLeave, DoAgain, DoEnded, DoAnswer, Issue, WithBusy;
    match a {
      case Leave(w) => LeaveKeeps(s0, hasInit, acts, s, w);
      case Again(w, h, ph) => AgainKeeps(s0, hasInit, acts, s, w, h, ph);
      case Ended(w, r) => EndedKeeps(s0, hasInit, acts, s, w, r);
      case Answer(w) => AnswerKeeps(s0, hasInit, acts, s, w);
      case Ask(w, h, kind, cid, ph) => IssueKeeps(s0, hasInit, acts, a, s, w, Some(h), kind, cid, ph);
      case _ =>
        StepMild(s, hasInit, a);
        MildKeeps(s0, hasInit, acts, a, s, Step(s, hasInit, a).value);
    }
  }

  // The last step of a run.
  lemma {:induction false} LastStep(s0: State, hasInit: bool, acts: seq<Action>)
    requires acts != [] && Run(s0, hasInit, acts).Some?
    ensures var n := |acts| - 1; acts == acts[..n] + [acts[n]] && Run(s0, hasInit, acts[..n]).Some?
    ensures var n := |acts| - 1; Run(s0, hasInit, acts) == Step(Run(s0, hasInit, acts[..n]).value, hasInit, acts[n])
  {
    hide Step, Run;
    var n := |acts| - 1;
    assert acts == acts[..n] + [acts[n]];
    RunThen(s0, hasInit, acts[..n], [acts[n]]);
    if Run(s0, hasInit, acts[..n]).Some? { RunOne(Run(s0, hasInit, acts[..n]).value, hasInit, acts[n]); }
  }

  lemma {:induction false} RunResults(versions: seq<nat>, workers: nat, hasInit: bool, acts: seq<Action>)
    requires Reached(versions, workers, hasInit, acts).Some?
    ensures ResultsOk(Start(versions, workers), hasInit, acts, Reached(versions, workers, hasInit, acts).value)
    decreases |acts|
  {
    var s0 := Start(versions, workers);
    if acts != [] {
      hide Start, ResultsOk, Safe, Step, Run;
      var n := |acts| - 1;
      LastStep(s0, hasInit, acts);
      RunResults(versions, workers, hasInit, acts[..n]);
      ReachedSafe(versions, workers, hasInit, acts[..n]);
      var s := Run(s0, hasInit, acts[..n]).value;
      assert Ordered(s) by { SafeOrdered(s, hasInit); }
      StepResults(s0, hasInit, acts[..n], s, acts[n]);
    }
  }

  lemma SafeOrdered(s: State, hasInit: bool)
    requires Safe(s, hasInit)
    ensures Ordered(s)
  {
  }

  // In every run, the answer to a request carries the result that the event of this
  // request has ended with.
  lemma {:induction false} AnswerTells(versions: seq<nat>, workers: nat, hasInit: bool, acts: seq<Action>, c: nat,
      id: nat, r: int)
    requires Reached(versions, workers, hasInit, acts).Some?
    requires c < |Reached(versions, workers, hasInit, acts).value.conns|
    requires AuthAnswer(id, r) in Reached(versions, workers, hasInit, acts).value.conns[c].out
    ensures exists k: nat, w: nat, t ::
      && k < |acts| && acts[k] == Ended(w, r)
      && Reached(versions, workers, hasInit, acts[..k]) == Some(t) && RunsRequestOf(t, w, c, id)
  {
    hide Run, Start;
    var s0 := Start(versions, workers);
    RunResults(versions, workers, hasInit, acts);
    assert Sent(Reached(versions, workers, hasInit, acts).value, c, id, r);
    var k: nat :| EndedWith(s0, hasInit, acts, k, c, id, r);
    var t, w: nat :| Before(s0, hasInit, acts, k, t) && acts[k] == Ended(w, r) && RunsRequestOf(t, w, c, id);
  }

  /* comm_todo is a queue: whatever enters it is taken in that order. */

  // What a step puts into comm_todo, and what it takes from it.
  function Puts(s: State, a: Action, t: State): seq<nat> {
    if !a.Take? && |t.todo| > |s.todo| then [t.todo[|t.todo| - 1]] else []
  }

  function Takes(a: Action, t: State): seq<nat> {
    if a.Take? && a.w < |t.pcs| && t.pcs[a.w].Taken? then [t.pcs[a.w].b] else []
  }

  ghost predicate TodoStep(s: State, a: Action, t: State) { s.todo + Puts(s, a, t) == Takes(a, t) + t.todo }

  lemma {:induction false} StepTodo(s: State, hasInit: bool, a: Action)
    requires Step(s, hasInit, a).Some?
    ensures TodoStep(s, a, Step(s, hasInit, a).value)
  {
    hide Locks, FindWaiter, MayReply, DoQuery, DoAnswer, DoReply;
    if a.Query? {
      QueryTodo(s, hasInit, a.c, a.id, a.cls);
    } else if a.Answer? {
      AnswerTodo(s, hasInit, a.w);
    } else if a.Reply? {
      ReplyTodo(s, a.c, a.key);
    }
  }

  lemma QueryTodo(s: State, hasInit: bool, c: nat, id: nat, cls: Option<nat>)
    requires DoQuery(s, hasInit, c, id, cls).Some?
    ensures TodoStep(s, Query(c, id, cls), DoQuery(s, hasInit, c, id, cls).value)
  {
  }

  lemma AnswerTodo(s: State, hasInit: bool, w: nat)
    requires DoAnswer(s, hasInit, w).Some?
    ensures TodoStep(s, Answer(w), DoAnswer(s, hasInit, w).value)
  {
  }

  lemma ReplyTodo(s: State, c: nat, key: Key)
    requires DoReply(s, c, key).Some?
    ensures TodoStep(s, Reply(c, key), DoReply(s, c, key).value)
  {
    hide FindWaiter, MayReply;
  }

  // What enters comm_todo in a run, and what the workers take, in order.
  function Entering(s: State, hasInit: bool, acts: seq<Action>): seq<nat>
    decreases acts
  {
    if acts == [] || Step(s, hasInit, acts[0]).None? then []
    else
      var t := Step(s, hasInit, acts[0]).value;
      Puts(s, acts[0], t) + Entering(t, hasInit, acts[1..])
  }

  function Taking(s: State, hasInit: bool, acts: seq<Action>): seq<nat>
    decreases acts
  {
    if acts == [] || Step(s, hasInit, acts[0]).None? then []
    else
      var t := Step(s, hasInit, acts[0]).value;
      Takes(acts[0], t) + Taking(t, hasInit, acts[1..])
  }

  lemma {:induction false} TakenInOrder(s: State, hasInit: bool, acts: seq<Action>)
    requires Run(s, hasInit, acts).Some?
    ensures s.todo + Entering(s, hasInit, acts) == Taking(s, hasInit, acts) + Run(s, hasInit, acts).value.todo
    decreases acts
  {
    hide Step, Puts, Takes;
    if acts != [] {
      var t := Step(s, hasInit, acts[0]).value;
      StepTodo(s, hasInit, acts[0]);
      TakenInOrder(t, hasInit, acts[1..]);
      Shift(s.todo, Puts(s, acts[0], t), Takes(acts[0], t), t.todo, Entering(t, hasInit, acts[1..]),
        Taking(t, hasInit, acts[1..]), Run(t, hasInit, acts[1..]).value.todo);
    }
  }

  lemma Shift(a: seq<nat>, n: seq<nat>, g: seq<nat>, t: seq<nat>, e: seq<nat>, k: seq<nat>, f: seq<nat>)
    requires a + n == g + t && t + e == k + f
    ensures a + (n + e) == (g + k) + f
  {
    assert a + (n + e) == (a + n) + e;
    assert (g + t) + e == g + (t + e);
    assert g + (k + f) == (g + k) + f;
  }
}
