/** Whether a request can still be answered: from every state of every run, some
    continuation answers it, exactly if it does not wait for itself. */
module ProtocolAnswers {
  import opened Lists
  import opened Protocol
  import opened ProtocolPlaces
  import opened ProtocolSafety
  import opened ProtocolGate
  import opened ProtocolRuns
  import opened ProtocolLimits
  import opened ProtocolProgress
  import opened ProtocolRefusals

  /* What is left to do: the way of every buffer to its end, and what is to be sent. */

  function Stage(phase: nat): nat { if phase < 1000 then 2 else if phase == 1000 then 1 else 0 }

  function Rank(s: State, p: Place): nat {
    match p
    case Wake(_) => 8
    case Wait(_) => 7
    case Reader(_) => 6
    case Todo => 5
    case Worker(w) =>
      if w >= |s.pcs| then 0
      else if s.pcs[w].Taken? then 4
      else if s.pcs[w].Running? then 3
      else if s.pcs[w].Draining? then 2
      else 0
  }

  function Weight(s: State, b: nat): nat {
    if b in s.bufs && b in s.place then 10 * Stage(s.bufs[b].phase) + Rank(s, s.place[b]) else 0
  }

  function Load(s: State, n: nat): nat { if n == 0 then 0 else Load(s, n - 1) + Weight(s, n - 1) }

  function Left(s: State, c: nat): nat {
    if c < |s.conns| && s.conns[c].sent <= |s.conns[c].out| then |s.conns[c].out| - s.conns[c].sent else 0
  }

  function Unsent(s: State, n: nat): nat { if n == 0 then 0 else Unsent(s, n - 1) + Left(s, n - 1) }

  function Total(s: State): nat { Load(s, s.next) + Unsent(s, |s.conns|) }

  ghost predicate OthersWeigh(s: State, t: State, b: nat) { forall x: nat :: x != b ==> Weight(t, x) == Weight(s, x) }

  ghost predicate OthersLeft(s: State, t: State, c: nat) { forall d: nat :: d != c ==> Left(t, d) == Left(s, d) }

  lemma {:induction false} LoadAt(s: State, t: State, b: nat, n: nat)
    requires OthersWeigh(s, t, b)
    ensures Load(t, n) - Load(s, n) == if b < n then Weight(t, b) - Weight(s, b) else 0
  {
    hide Weight;
    if n > 0 { LoadAt(s, t, b, n - 1); }
  }

  lemma {:induction false} UnsentAt(s: State, t: State, c: nat, n: nat)
    requires OthersLeft(s, t, c)
    ensures Unsent(t, n) - Unsent(s, n) == if c < n then Left(t, c) - Left(s, c) else 0
  {
    hide Left;
    if n > 0 { UnsentAt(s, t, c, n - 1); }
  }

  // One buffer goes on, and one connection is told at most.
  lemma {:induction false} Lighter(s: State, t: State, b: nat, c: nat)
    requires b < s.next && t.next == s.next && c < |s.conns| && |t.conns| == |s.conns|
    requires OthersWeigh(s, t, b) && OthersLeft(s, t, c)
    requires Weight(t, b) + Left(t, c) < Weight(s, b) + Left(s, c)
    ensures Total(t) < Total(s)
  {
    hide Weight, Left;
    LoadAt(s, t, b, s.next);
    UnsentAt(s, t, c, |s.conns|);
  }

  // No worker has a buffer to unlock.
  predicate Settled(s: State) { forall w :: 0 <= w < |s.pcs| ==> !s.pcs[w].Leaving? }

  // Nothing arrives, and nothing comes to wait for _init or for itself.
  ghost predicate Onward(s: State, t: State) {
    && t.next == s.next && |t.conns| == |s.conns| && |t.pcs| == |s.pcs| && t.bufs.Keys <= s.bufs.Keys
    && (forall x :: x in t.bufs ==> t.bufs[x].conn == s.bufs[x].conn && t.bufs[x].id == s.bufs[x].id)
    && (forall c: nat :: c < |s.conns| ==> t.conns[c].ids == s.conns[c].ids)
    && (forall x :: x in t.place && t.place[x].Wake? ==> x in s.place && t.place[x] == s.place[x])
  }

  lemma OnwardThen(s: State, t: State, u: State)
    requires Onward(s, t) && Onward(t, u)
    ensures Onward(s, u)
  {
  }

  // A step towards the answers.
  ghost predicate Nearer(s: State, t: State) { Onward(s, t) && Settled(t) && Total(t) < Total(s) }

  lemma OnlyOne(s: State, w: nat)
    requires Placed(s)
    ensures forall x :: x in s.place && s.place[x] == Worker(w) <==> x in At(s, Worker(w))
  {
    assert QueueOk(At(s, Worker(w)), s.place, Worker(w));
  }

  /* Every step of a thread that does not start a handler comes nearer. */

  lemma {:induction false} TakeNearer(s: State, w: nat)
    requires Ordered(s) && Settled(s) && DoTake(s, w).Some?
    ensures Nearer(s, DoTake(s, w).value)
  {
    var t := DoTake(s, w).value;
    AtPlace(s, Todo, 0);
    OnlyOne(s, w);
    hide Placed, Locked;
    Lighter(s, t, s.todo[0], s.bufs[s.todo[0]].conn);
  }

  lemma {:induction false} LockNearer(s: State, w: nat)
    requires Ordered(s) && Settled(s) && DoLock(s, w).Some?
    ensures Nearer(s, DoLock(s, w).value)
  {
    var t := DoLock(s, w).value;
    HasIt(s, w);
    OnlyOne(s, w);
    hide Placed, Locked, Locks;
    Lighter(s, t, s.pcs[w].b, s.bufs[s.pcs[w].b].conn);
  }

  lemma {:induction false} EndedNearer(s: State, w: nat, result: int)
    requires Ordered(s) && Settled(s) && DoEnded(s, w, result).Some?
    ensures Nearer(s, DoEnded(s, w, result).value)
  {
    var t := DoEnded(s, w, result).value;
    HasIt(s, w);
    OnlyOne(s, w);
    hide Placed, Locked;
    Lighter(s, t, s.pcs[w].b, s.bufs[s.pcs[w].b].conn);
  }

  lemma {:induction false} DrainNearer(s: State, hasInit: bool, w: nat)
    requires Ordered(s) && Settled(s) && DoDrain(s, hasInit, w).Some?
    ensures Nearer(s, DoDrain(s, hasInit, w).value)
  {
    var t := DoDrain(s, hasInit, w).value;
    HasIt(s, w);
    OnlyOne(s, w);
    hide Placed, Locked;
    Lighter(s, t, s.pcs[w].b, s.bufs[s.pcs[w].b].conn);
  }

  lemma {:induction false} DrainOneNearer(s: State, w: nat)
    requires Ordered(s) && Settled(s) && DoDrainOne(s, w).Some?
    ensures Nearer(s, DoDrainOne(s, w).value)
  {
    var t := DoDrainOne(s, w).value;
    AtPlace(s, Wake(s.pcs[w].b), 0);
    hide Placed, Locked;
    var b := WakeOf(s, s.pcs[w].b)[0];
    Lighter(s, t, b, s.bufs[b].conn);
  }

  lemma {:induction false} DrainEndNearer(s: State, w: nat)
    requires Ordered(s) && Settled(s) && DoDrainEnd(s, w).Some?
    ensures Nearer(s, DoDrainEnd(s, w).value)
  {
    var t := DoDrainEnd(s, w).value;
    HasIt(s, w);
    OnlyOne(s, w);
    hide Placed, Locked;
    Lighter(s, t, s.pcs[w].b, s.bufs[s.pcs[w].b].conn);
  }

  lemma {:induction false} WriteNearer(s: State, c: nat, b: nat)
    requires Ordered(s) && Settled(s) && DoWrite(s, c).Some? && b in s.bufs
    ensures Nearer(s, DoWrite(s, c).value)
  {
    hide Placed, Locked;
    Lighter(s, DoWrite(s, c).value, b, c);
  }

  lemma {:induction false} ReplyNearer(s: State, c: nat, key: Key)
    requires Ordered(s) && KeysOk(s) && Settled(s) && DoReply(s, c, key).Some?
    ensures Nearer(s, DoReply(s, c, key).value)
  {
    hide FindWaiter, KeysOk, MayReply;
    var t := DoReply(s, c, key).value;
    AnswerFindsWaiter(s, c, key);
    var n := FindWaiter(s.bufs, s.conns[c].waitq, key);
    AtPlace(s, Wait(c), n);
    hide Placed, Locked;
    Lighter(s, t, s.conns[c].waitq[n], c);
  }

  lemma {:induction false} WakeupNearer(s: State, c: nat)
    requires Ordered(s) && Settled(s) && DoWakeup(s, c).Some?
    ensures Nearer(s, DoWakeup(s, c).value)
  {
    var t := DoWakeup(s, c).value;
    AtPlace(s, Reader(c), 0);
    hide Placed, Locked;
    Lighter(s, t, s.conns[c].reader.value, c);
  }

  // mcp_answer updates the subject first.
  predicate Updates(s: State, w: nat) {
    Runs(s, w) && s.bufs[s.pcs[w].b].phase == 1000 && s.bufs[s.pcs[w].b].result >= 0 && s.bufs[s.pcs[w].b].cls.Some?
  }

  lemma {:induction false} AnswerNearer(s: State, hasInit: bool, w: nat)
    requires Ordered(s) && Settled(s) && DoAnswer(s, hasInit, w).Some? && !Updates(s, w)
    ensures Nearer(s, DoAnswer(s, hasInit, w).value)
  {
    var t := DoAnswer(s, hasInit, w).value;
    HasIt(s, w);
    OnlyOne(s, w);
    hide Placed, Locked, Issue;
    Lighter(s, t, s.pcs[w].b, s.bufs[s.pcs[w].b].conn);
  }

  lemma {:induction false} UpdateNearer(s: State, hasInit: bool, w: nat)
    requires Ordered(s) && Settled(s) && DoAnswer(s, hasInit, w).Some? && Updates(s, w)
    ensures var t := DoAnswer(s, hasInit, w).value; DoLeave(t, w).Some? && Nearer(s, DoLeave(t, w).value)
  {
    var t := DoLeave(DoAnswer(s, hasInit, w).value, w).value;
    HasIt(s, w);
    OnlyOne(s, w);
    hide Placed, Locked;
    Lighter(s, t, s.pcs[w].b, s.bufs[s.pcs[w].b].conn);
  }

  lemma {:induction false} StepNearer(s: State, hasInit: bool, a: Action, b: nat)
    requires Ordered(s) && KeysOk(s) && Settled(s) && b in s.bufs && Inside(a) && Step(s, hasInit, a).Some?
    requires !(a.Answer? && Updates(s, a.w))
    ensures Nearer(s, Step(s, hasInit, a).value)
  {
    hide Ordered, KeysOk, Nearer, Settled, DoTake, DoLock, DoEnded, DoDrain, DoDrainOne, DoDrainEnd, DoWrite, DoReply,
      DoWakeup, DoAnswer;
    match a {
      case Take(w) => TakeNearer(s, w);
      case Lock(w) => LockNearer(s, w);
      case Ended(w, result) => EndedNearer(s, w, result);
      case Answer(w) => AnswerNearer(s, hasInit, w);
      case Leave(w) => assert false by { NoneLeaves(s, w); }
      case Drain(w) => DrainNearer(s, hasInit, w);
      case DrainOne(w) => DrainOneNearer(s, w);
      case DrainEnd(w) => DrainEndNearer(s, w);
      case Write(c) => WriteNearer(s, c, b);
      case Reply(c, key) => ReplyNearer(s, c, key);
      case Wakeup(c) => WakeupNearer(s, c);
    }
  }

  lemma NoneLeaves(s: State, w: nat)
    requires Settled(s)
    ensures DoLeave(s, w).None?
  {
  }

  // While a request is live that does not wait for itself, one step, or two, come
  // nearer to its answer.
  lemma {:induction false} GoesNearer(s: State, hasInit: bool, b: nat) returns (acts: seq<Action>)
    requires Safe(s, hasInit) && Settled(s) && |s.pcs| > 0 && b in s.bufs && !SelfWaits(s, b)
    ensures Run(s, hasInit, acts).Some? && Nearer(s, Run(s, hasInit, acts).value)
  {
    hide AnswersOk, GateOk, ReadyOk, Configured, Ordered, KeysOk, Nearer, Settled, Run, SelfWaits, Inside;
    var a := NeverStuck(s, hasInit, b);
    RunOne(s, hasInit, a);
    acts := [a];
    if a.Answer? && Updates(s, a.w) {
      assert Step(s, hasInit, a) == DoAnswer(s, hasInit, a.w);
      var t := Step(s, hasInit, a).value;
      hide Step;
      UpdateNearer(s, hasInit, a.w);
      acts := [a] + [Leave(a.w)];
      RunThen(s, hasInit, [a], [Leave(a.w)]);
      RunOne(t, hasInit, Leave(a.w));
      LeaveStep(t, hasInit, a.w);
    } else {
      StepNearer(s, hasInit, a, b);
    }
  }

  lemma LeaveStep(s: State, hasInit: bool, w: nat)
    ensures Step(s, hasInit, Leave(w)) == DoLeave(s, w)
  {
  }

  // The workers from w on unlock what they have passed on.
  lemma {:induction false} AllLeave(s: State, hasInit: bool, w: nat) returns (acts: seq<Action>)
    requires Safe(s, hasInit) && w <= |s.pcs| && forall v :: 0 <= v < w ==> !s.pcs[v].Leaving?
    ensures Run(s, hasInit, acts).Some?
    ensures var t := Run(s, hasInit, acts).value; Onward(s, t) && Settled(t) && t.bufs.Keys == s.bufs.Keys
    decreases |s.pcs| - w
  {
    hide AnswersOk, GateOk, ReadyOk, Configured, Ordered, KeysOk, Onward, Run;
    if w == |s.pcs| {
      acts := [];
      assert Onward(s, s) && Run(s, hasInit, []) == Some(s) by { NoStep(s, hasInit); }
    } else if s.pcs[w].Leaving? {
      LeaveStep(s, hasInit, w);
      LeavesOn(s, w);
      var t := Step(s, hasInit, Leave(w)).value;
      StepSafe(s, hasInit, Leave(w));
      acts := AllLeave(t, hasInit, w + 1);
      RunOne(s, hasInit, Leave(w));
      RunThen(s, hasInit, [Leave(w)], acts);
      OnwardThen(s, t, Run(t, hasInit, acts).value);
      acts := [Leave(w)] + acts;
    } else {
      acts := AllLeave(s, hasInit, w + 1);
    }
  }

  lemma NoStep(s: State, hasInit: bool)
    ensures Onward(s, s) && Run(s, hasInit, []) == Some(s)
  {
  }

  lemma LeavesOn(s: State, w: nat)
    requires Ordered(s) && w < |s.pcs| && s.pcs[w].Leaving?
    ensures DoLeave(s, w).Some?
    ensures var t := DoLeave(s, w).value;
      Onward(s, t) && t.pcs == s.pcs[w := Idle] && t.bufs.Keys == s.bufs.Keys
  {
    hide Placed;
    assert Owns(s.pcs[w], s.pcs[w].b);
  }

  // A request whose buffer has been freed has been answered.
  lemma {:induction false} FreedIsAnswered(s: State, t: State, b: nat)
    requires AnswersOk(s) && AnswersOk(t) && Onward(s, t) && b in s.bufs && b !in t.bufs && s.bufs[b].id.Some? &&
        s.bufs[b].conn < |s.conns|
    ensures Answered(t.conns[s.bufs[b].conn].out, s.bufs[b].id.value)
  {
    var c, id := s.bufs[b].conn, s.bufs[b].id.value;
    hide Answered, OnceEach;
    assert Asks(s, b, c, id) && id in t.conns[c].ids;
    assert forall x: nat :: Asks(t, x, c, id) ==> Asks(s, x, c, id);
  }

  predicate AnsweredIn(s: State, c: nat, id: nat) { c < |s.conns| && Answered(s.conns[c].out, id) }

  lemma {:induction false} Finish(s: State, hasInit: bool, b: nat) returns (acts: seq<Action>)
    requires Safe(s, hasInit) && Settled(s) && |s.pcs| > 0 && b in s.bufs && s.bufs[b].id.Some? && !SelfWaits(s, b)
    ensures Run(s, hasInit, acts).Some?
    ensures AnsweredIn(Run(s, hasInit, acts).value, s.bufs[b].conn, s.bufs[b].id.value)
    decreases Total(s)
  {
    hide Placed, Locked, GateOk, AnswersOk, KeysOk, ReadyOk, Configured, Settled, Total, Run, Answered;
    acts := GoesNearer(s, hasInit, b);
    var t := Run(s, hasInit, acts).value;
    assert Safe(t, hasInit) by { RunSafe(s, hasInit, acts); }
    if b in t.bufs {
      var more := Finish(t, hasInit, b);
      RunThen(s, hasInit, acts, more);
      acts := acts + more;
    } else {
      FreedIsAnswered(s, t, b);
    }
  }

  // Some continuation answers the request of buffer b.
  ghost predicate CanBeAnswered(s: State, hasInit: bool, b: nat)
    requires b in s.bufs && s.bufs[b].id.Some?
  {
    exists acts :: Run(s, hasInit, acts).Some? &&
      AnsweredIn(Run(s, hasInit, acts).value, s.bufs[b].conn, s.bufs[b].id.value)
  }

  // From every state of every run, a live request can still be answered exactly if
  // it does not wait for itself.
  lemma {:induction false} AnswerableExactly(s: State, hasInit: bool, b: nat)
    requires Safe(s, hasInit) && |s.pcs| > 0 && b in s.bufs && s.bufs[b].id.Some?
    ensures CanBeAnswered(s, hasInit, b) <==> !SelfWaits(s, b)
  {
    hide Safe, Run, Answered;
    if SelfWaits(s, b) {
      forall acts | Run(s, hasInit, acts).Some?
        ensures !AnsweredIn(Run(s, hasInit, acts).value, s.bufs[b].conn, s.bufs[b].id.value)
      {
        RefusedForever(s, hasInit, acts, b);
      }
    } else {
      var first := AllLeave(s, hasInit, 0);
      var t := Run(s, hasInit, first).value;
      RunSafe(s, hasInit, first);
      var more := Finish(t, hasInit, b);
      RunThen(s, hasInit, first, more);
      assert Run(s, hasInit, first + more).Some?;
    }
  }

  /* Over all runs */

  lemma {:induction false} StepWorkers(s: State, hasInit: bool, a: Action)
    requires Step(s, hasInit, a).Some?
    ensures |Step(s, hasInit, a).value.pcs| == |s.pcs|
  {
    hide FindWaiter, Locks, MayReply;
  }

  lemma {:induction false} RunWorkers(s: State, hasInit: bool, acts: seq<Action>)
    requires Run(s, hasInit, acts).Some?
    ensures |Run(s, hasInit, acts).value.pcs| == |s.pcs|
    decreases acts
  {
    hide Step;
    if acts != [] {
      StepWorkers(s, hasInit, acts[0]);
      RunWorkers(Step(s, hasInit, acts[0]).value, hasInit, acts[1..]);
    }
  }

  // Request id of connection c has been answered, or some continuation answers it.
  ghost predicate WillDo(s: State, hasInit: bool, c: nat, id: nat) {
    exists acts :: Run(s, hasInit, acts).Some? && AnsweredIn(Run(s, hasInit, acts).value, c, id)
  }

  predicate Arrived(s: State, c: nat, id: nat) { c < |s.conns| && id in s.conns[c].ids }

  ghost predicate NoneLost(versions: seq<nat>, workers: nat, hasInit: bool, n: nat) {
    forall acts, c: nat, id: nat ::
      Reached(versions, workers, hasInit, acts).Some? && Suspensions(acts) <= n &&
        Arrived(Reached(versions, workers, hasInit, acts).value, c, id) ==>
      WillDo(Reached(versions, workers, hasInit, acts).value, hasInit, c, id)
  }

  // Every request that has arrived has been answered or can still be, in all runs
  // in which handlers are suspended n times at most, exactly if n is 0.
  lemma {:induction false} NoneLostExactly(versions: seq<nat>, workers: nat, hasInit: bool, n: nat)
    requires |versions| > 0 && workers > 0
    ensures NoneLost(versions, workers, hasInit, n) <==> n == 0
  {
    hide Reached, Suspensions, SelfWaits, Arrived, WillDo;
    if n == 0 {
      forall acts, c: nat, id: nat | Reached(versions, workers, hasInit, acts).Some? && Suspensions(acts) <= n &&
          Arrived(Reached(versions, workers, hasInit, acts).value, c, id)
        ensures WillDo(Reached(versions, workers, hasInit, acts).value, hasInit, c, id)
      {
        forall b ensures !SelfWaits(Reached(versions, workers, hasInit, acts).value, b) {
          NeverSelfWaits(versions, workers, hasInit, acts, b);
        }
        ReachedParts(versions, workers, hasInit, acts);
        ArrivedWillDo(Reached(versions, workers, hasInit, acts).value, hasInit, c, id);
      }
    } else {
      var acts, b := SelfWaited(versions, workers, hasInit, 0);
      ReachedParts(versions, workers, hasInit, acts);
      var c, id := Lost(Reached(versions, workers, hasInit, acts).value, hasInit, b);
    }
  }

  lemma ReachedParts(versions: seq<nat>, workers: nat, hasInit: bool, acts: seq<Action>)
    requires Reached(versions, workers, hasInit, acts).Some?
    ensures Safe(Reached(versions, workers, hasInit, acts).value, hasInit)
    ensures |Reached(versions, workers, hasInit, acts).value.pcs| == workers
  {
    hide Safe, Run;
    ReachedSafe(versions, workers, hasInit, acts);
    RunWorkers(Start(versions, workers), hasInit, acts);
  }

  lemma {:induction false} ArrivedWillDo(s: State, hasInit: bool, c: nat, id: nat)
    requires Safe(s, hasInit) && |s.pcs| > 0 && Arrived(s, c, id) && forall b :: !SelfWaits(s, b)
    ensures WillDo(s, hasInit, c, id)
  {
    hide Ordered, KeysOk, GateOk, Configured, ReadyOk, Run, Answered, OnceEach, SelfWaits;
    if Answered(s.conns[c].out, id) {
      assert Run(s, hasInit, []) == Some(s) by { NoStep(s, hasInit); }
    } else {
      var b: nat :| Asks(s, b, c, id);
      AnswerableExactly(s, hasInit, b);
    }
  }

  lemma {:induction false} Lost(s: State, hasInit: bool, b: nat) returns (c: nat, id: nat)
    requires Safe(s, hasInit) && SelfWaits(s, b)
    ensures Arrived(s, c, id) && !WillDo(s, hasInit, c, id)
  {
    hide KeysOk, Configured, ReadyOk, Run, Answered, OnceEach, SelfWaits, Placed, Based, Locked, GateOk;
    SelfWaiter(s, b);
    c, id := s.bufs[b].conn, s.bufs[b].id.value;
    assert Asks(s, b, c, id);
    forall acts | Run(s, hasInit, acts).Some? ensures !AnsweredIn(Run(s, hasInit, acts).value, c, id) {
      RefusedForever(s, hasInit, acts, b);
    }
  }
}
