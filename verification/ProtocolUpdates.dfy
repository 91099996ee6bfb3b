/** mcp_answer updates the subject before the answer goes out: in every run, an
    answer that does not carry an error comes after an update of the subject of its
    request that the kernel has answered. */
module ProtocolUpdates {
  import opened Lists
  import opened Protocol
  import opened ProtocolPlaces
  import opened ProtocolSafety
  import opened ProtocolGate
  import opened ProtocolRuns
  import opened ProtocolLimits
  import opened ProtocolHistory

  /* What waits goes on waiting until its answer comes. */

  ghost predicate KeepsWaits(s: State, t: State) {
    && |t.conns| == |s.conns| && (forall c: nat :: c < |s.conns| ==> s.conns[c].replied <= t.conns[c].replied)
    && forall b: nat, c: nat, key :: Waits(s, b, c, key) ==> Waits(t, b, c, key) || key in t.conns[c].replied
  }

  // A step after which every queue of waiters is the same, or longer.
  lemma {:induction false} LongerWaits(s: State, t: State)
    requires |t.conns| == |s.conns|
    requires forall c: nat :: c < |s.conns| ==>
      s.conns[c].replied <= t.conns[c].replied && s.conns[c].waitq <= t.conns[c].waitq
    requires forall b: nat, c: nat :: c < |s.conns| && b in s.conns[c].waitq && b in s.bufs ==>
        b in t.bufs && t.bufs[b].key == s.bufs[b].key
    ensures KeepsWaits(s, t)
  {
    forall b: nat, c: nat, key | Waits(s, b, c, key) ensures Waits(t, b, c, key) {
      var i :| 0 <= i < |s.conns[c].waitq| && s.conns[c].waitq[i] == b;
      assert t.conns[c].waitq[i] == b;
    }
  }

  lemma {:induction false} ReplyWaits(s: State, c: nat, key: Key)
    requires Ordered(s) && DoReply(s, c, key).Some?
    ensures KeepsWaits(s, DoReply(s, c, key).value)
  {
    hide FindWaiter, MayReply, Based, Locked;
    var t := DoReply(s, c, key).value;
    var q := s.conns[c].waitq;
    var n := FindWaiter(s.bufs, q, key);
    if n < |q| {
      assert QueueOk(At(s, Wait(c)), s.place, Wait(c));
      OthersStay(s, c, n);
    }
  }

  lemma {:induction false} IssueWaits(s: State, w: nat, busy: Option<nat>, kind: Kind, cid: nat, ph: nat)
    requires Ordered(s) && Runs(s, w)
    ensures KeepsWaits(s, Issue(WithBusy(s, w, busy), w, kind, cid, ph))
  {
    hide Locked;
    WaitersLive(s);
    HasIt(s, w);
    hide Placed;
    LongerWaits(s, Issue(WithBusy(s, w, busy), w, kind, cid, ph));
  }

  lemma {:induction false} StepWaits(s: State, hasInit: bool, a: Action)
    requires Ordered(s) && Step(s, hasInit, a).Some?
    ensures KeepsWaits(s, Step(s, hasInit, a).value)
  {
    hide QueueOk, Locked, Locks, Issue, DoReply, KeepsWaits, DoReady, DoQuery, DoAnswer;
    if a.Reply? {
      ReplyWaits(s, a.c, a.key);
    } else if a.Ask? {
      IssueWaits(s, a.w, Some(a.h), a.kind, a.cid, a.ph);
    } else if a.Answer? {
      AnswerWaits(s, hasInit, a.w);
    } else if a.ReadyRequest? || a.Query? {
      ReaderWaits(s, hasInit, a);
    } else {
      ThreadWaits(s, hasInit, a);
    }
  }

  lemma {:induction false} ThreadWaits(s: State, hasInit: bool, a: Action)
    requires Ordered(s) && Step(s, hasInit, a).Some?
    requires a.Take? || a.Lock? || a.Again? || a.Return? || a.Refuse? || a.Ended? || a.Leave? || a.Drain? ||
        a.DrainOne? || a.DrainEnd? || a.Write? || a.Wakeup?
    ensures KeepsWaits(s, Step(s, hasInit, a).value)
  {
    hide QueueOk, Locked, Locks, KeepsWaits, DoDrainEnd, DoWakeup;
    if a.DrainEnd? {
      DrainEndWaits(s, a.w);
    } else if a.Wakeup? {
      WakeupWaits(s, a.c);
    } else {
      LongerWaits(s, Step(s, hasInit, a).value);
    }
  }

  lemma DrainEndWaits(s: State, w: nat)
    requires Ordered(s) && DoDrainEnd(s, w).Some?
    ensures KeepsWaits(s, DoDrainEnd(s, w).value)
  {
    hide QueueOk, Locked, KeepsWaits;
    WaitersLive(s);
    HasIt(s, w);
    LongerWaits(s, DoDrainEnd(s, w).value);
  }

  lemma WakeupWaits(s: State, c: nat)
    requires Ordered(s) && DoWakeup(s, c).Some?
    ensures KeepsWaits(s, DoWakeup(s, c).value)
  {
    hide QueueOk, Locked, KeepsWaits;
    WaitersLive(s);
    AtPlace(s, Reader(c), 0);
    LongerWaits(s, DoWakeup(s, c).value);
  }

  lemma {:induction false} AnswerWaits(s: State, hasInit: bool, w: nat)
    requires Ordered(s) && DoAnswer(s, hasInit, w).Some?
    ensures KeepsWaits(s, DoAnswer(s, hasInit, w).value)
  {
    hide QueueOk, Locked, KeepsWaits;
    var x := s.bufs[s.pcs[w].b];
    if x.phase == 1000 && x.result >= 0 && x.cls.Some? {
      assert s.bufs[s.pcs[w].b := x.(busy := x.busy)] == s.bufs;
      assert WithBusy(s, w, x.busy) == s;
      hide Issue;
      IssueWaits(s, w, x.busy, Update, x.cls.value, 1003);
    } else {
      WaitersLive(s);
      HasIt(s, w);
      LongerWaits(s, DoAnswer(s, hasInit, w).value);
    }
  }

  lemma {:induction false} ReaderWaits(s: State, hasInit: bool, a: Action)
    requires Ordered(s) && Step(s, hasInit, a).Some? && (a.ReadyRequest? || a.Query?)
    ensures KeepsWaits(s, Step(s, hasInit, a).value)
  {
    hide Placed, Locked, KeepsWaits, Step;
    var t := MessageArrives(s, hasInit, a);
    LongerWaits(s, Step(s, hasInit, a).value);
  }

  /* The requests that have arrived, and their subjects. */

  ghost predicate ArrivalsOk(acts: seq<Action>, s: State) {
    && (forall b: nat, c: nat, id: nat :: Asks(s, b, c, id) ==> Query(c, id, s.bufs[b].cls) in acts)
    && (forall c: nat, id: nat, x :: Query(c, id, x) in acts ==> c < |s.conns| && id in s.conns[c].ids)
    && (forall c: nat, id: nat, x, y :: Query(c, id, x) in acts && Query(c, id, y) in acts ==> x == y)
  }

  // A step brings the request it says, and no other.
  ghost predicate Brings1(s: State, a: Action, t: State) {
    && |t.conns| == |s.conns|
    && (forall b: nat, c: nat, id: nat :: Asks(t, b, c, id) ==>
          (Asks(s, b, c, id) && t.bufs[b].cls == s.bufs[b].cls) || a == Query(c, id, t.bufs[b].cls))
    && (forall c: nat :: c < |s.conns| ==>
          t.conns[c].ids == if a.Query? && a.c == c then s.conns[c].ids + {a.id} else s.conns[c].ids)
    && (a.Query? ==> a.c < |s.conns| && a.id !in s.conns[a.c].ids)
  }

  lemma {:induction false} StepBrings(s: State, hasInit: bool, a: Action)
    requires Based(s) && Step(s, hasInit, a).Some?
    ensures Brings1(s, a, Step(s, hasInit, a).value)
  {
    hide Locks, DoReply, DoQuery, DoAnswer, DoAsk, Brings1;
    if a.Query? {
      QueryBrings(s, hasInit, a.c, a.id, a.cls);
    } else if a.Reply? {
      ReplyBrings(s, a.c, a.key);
    } else if a.Answer? {
      AnswerBrings(s, hasInit, a.w);
    } else if a.Ask? {
      AskBrings(s, a.w, a.h, a.kind, a.cid, a.ph);
    } else {
      ThreadBrings(s, hasInit, a);
    }
  }

  lemma {:induction false} ThreadBrings(s: State, hasInit: bool, a: Action)
    requires Based(s) && Step(s, hasInit, a).Some?
    requires !a.Query? && !a.Reply? && !a.Answer? && !a.Ask?
    ensures Brings1(s, a, Step(s, hasInit, a).value)
  {
    hide Locks;
  }

  lemma QueryBrings(s: State, hasInit: bool, c: nat, id: nat, cls: Option<nat>)
    requires Based(s) && DoQuery(s, hasInit, c, id, cls).Some?
    ensures Brings1(s, Query(c, id, cls), DoQuery(s, hasInit, c, id, cls).value)
  {
    hide ConnInit, Arrive, Brings1;
    if s.conns[c].state {
      ArriveBrings(s, s, hasInit, c, id, cls);
    } else {
      InitBrings(s, hasInit, c);
      ArriveBrings(s, ConnInit(s, hasInit, c), hasInit, c, id, cls);
    }
  }

  // The same requests.
  ghost predicate SameAsks(s: State, t: State) {
    && |t.conns| == |s.conns|
    && (forall b: nat, c: nat, id: nat :: Asks(t, b, c, id) ==> Asks(s, b, c, id) && t.bufs[b].cls == s.bufs[b].cls)
    && (forall c: nat :: c < |s.conns| ==> t.conns[c].ids == s.conns[c].ids)
  }

  lemma InitBrings(s: State, hasInit: bool, c: nat)
    requires c < |s.conns|
    ensures SameAsks(s, ConnInit(s, hasInit, c))
  {
  }

  lemma ArriveBrings(s0: State, s: State, hasInit: bool, c: nat, id: nat, cls: Option<nat>)
    requires c < |s.conns| && SameAsks(s0, s) && id !in s0.conns[c].ids
    ensures Brings1(s0, Query(c, id, cls), Arrive(s, hasInit, c, id, cls))
  {
  }

  lemma ReplyBrings(s: State, c: nat, key: Key)
    requires DoReply(s, c, key).Some?
    ensures Brings1(s, Reply(c, key), DoReply(s, c, key).value)
  {
    hide FindWaiter, MayReply;
  }

  lemma AnswerBrings(s: State, hasInit: bool, w: nat)
    requires DoAnswer(s, hasInit, w).Some?
    ensures Brings1(s, Answer(w), DoAnswer(s, hasInit, w).value)
  {
  }

  lemma AskBrings(s: State, w: nat, h: nat, kind: Kind, cid: nat, ph: nat)
    requires DoAsk(s, w, h, kind, cid, ph).Some?
    ensures Brings1(s, Ask(w, h, kind, cid, ph), DoAsk(s, w, h, kind, cid, ph).value)
  {
  }

  lemma {:induction false} ArrivalsStep(acts: seq<Action>, a: Action, s: State, t: State)
    requires ArrivalsOk(acts, s) && Brings1(s, a, t)
    ensures ArrivalsOk(acts + [a], t)
  {
    hide Asks;
    forall c: nat, id: nat, x ensures Query(c, id, x) in acts + [a] <==>
      Query(c, id, x) in acts || a == Query(c, id, x) { }
    forall b: nat, c: nat, id: nat | Asks(t, b, c, id) ensures b in t.bufs &&
      Query(c, id, t.bufs[b].cls) in acts + [a] {
      AsksLive(t, b, c, id);
      assert Query(c, id, t.bufs[b].cls) in acts || a == Query(c, id, t.bufs[b].cls) by {
        if Asks(s, b, c, id) { AsksLive(s, b, c, id); }
      }
    }
  }

  lemma AsksLive(s: State, b: nat, c: nat, id: nat)
    requires Asks(s, b, c, id)
    ensures b in s.bufs
  {
  }

  /* The update of a subject. */

  // In step j a request for data went out while a worker ran the buffer of request
  // id of connection c.
  ghost predicate IssuedAt(s0: State, hasInit: bool, acts: seq<Action>, j: nat, c: nat, id: nat, key: Key) {
    exists t, u, w: nat :: Before(s0, hasInit, acts, j, t) && Run(s0, hasInit, acts[..j + 1]) == Some(u)
      && RunsRequestOf(t, w, c, id) && Tells(t, u, c, key)
  }

  predicate Tells(t: State, u: State, c: nat, key: Key) {
    c < |t.conns| && c < |u.conns| && u.conns[c].out == t.conns[c].out + [Request(key)]
  }

  ghost predicate Issued(s0: State, hasInit: bool, acts: seq<Action>, c: nat, id: nat, key: Key) {
    exists j: nat :: IssuedAt(s0, hasInit, acts, j, c, id, key)
  }

  lemma {:induction false} IssuedLonger(s0: State, hasInit: bool, acts: seq<Action>, a: Action, c: nat, id: nat,
      key: Key)
    requires Issued(s0, hasInit, acts, c, id, key)
    ensures Issued(s0, hasInit, acts + [a], c, id, key)
  {
    hide Run;
    var j: nat :| IssuedAt(s0, hasInit, acts, j, c, id, key);
    var t, u, w: nat :| Before(s0, hasInit, acts, j, t) && Run(s0, hasInit, acts[..j + 1]) == Some(u)
      && RunsRequestOf(t, w, c, id) && Tells(t, u, c, key);
    assert (acts + [a])[..j] == acts[..j] && (acts + [a])[..j + 1] == acts[..j + 1];
    assert Before(s0, hasInit, acts + [a], j, t);
    assert IssuedAt(s0, hasInit, acts + [a], j, c, id, key);
  }

  // An update of class k was sent for the request, and is answered.
  ghost predicate Updated(s0: State, hasInit: bool, acts: seq<Action>, s: State, c: nat, id: nat, k: nat) {
    exists n: nat :: c < |s.conns| && Key(Update, k, n) in s.conns[c].replied &&
      Issued(s0, hasInit, acts, c, id, Key(Update, k, n))
  }

  // It was sent, and is answered or waited for.
  ghost predicate Updating(s0: State, hasInit: bool, acts: seq<Action>, s: State, b: nat, c: nat, id: nat, k: nat) {
    exists n: nat :: Issued(s0, hasInit, acts, c, id, Key(Update, k, n)) && c < |s.conns| &&
      (Key(Update, k, n) in s.conns[c].replied || Waits(s, b, c, Key(Update, k, n)))
  }

  // A worker passes b on while its answer is made.
  predicate Passing(s: State, b: nat) {
    exists w: nat :: w < |s.pcs| && s.pcs[w].Leaving? && s.pcs[w].b == b && s.pcs[w].phase >= 1000
  }

  // The subject, of class k, of the request in buffer b has been updated.
  predicate Due(s: State, b: nat, c: nat, id: nat, k: nat) {
    Asks(s, b, c, id) && s.bufs[b].result >= 0 && s.bufs[b].cls == Some(k) && (s.bufs[b].phase > 1000 || Passing(s, b))
  }

  ghost predicate UpdatesOk(s0: State, hasInit: bool, acts: seq<Action>, s: State) {
    && (forall b: nat, c: nat, id: nat, k: nat :: Due(s, b, c, id, k) ==> Updating(s0, hasInit, acts, s, b, c, id, k))
    && (forall c: nat, id: nat, r: int, k: nat :: Sent(s, c, id, r) && r >= 0 && Query(c, id, Some(k)) in acts ==>
          Updated(s0, hasInit, acts, s, c, id, k))
  }

  lemma {:induction false} UpdatedLonger(s0: State, hasInit: bool, acts: seq<Action>, a: Action, s: State, t: State,
      c: nat, id: nat, k: nat)
    requires Updated(s0, hasInit, acts, s, c, id, k) && KeepsWaits(s, t)
    ensures Updated(s0, hasInit, acts + [a], t, c, id, k)
  {
    hide Issued;
    var n: nat :| c < |s.conns| && Key(Update, k, n) in s.conns[c].replied &&
      Issued(s0, hasInit, acts, c, id, Key(Update, k, n));
    IssuedLonger(s0, hasInit, acts, a, c, id, Key(Update, k, n));
  }

  lemma {:induction false} UpdatingLonger(s0: State, hasInit: bool, acts: seq<Action>, a: Action, s: State, t: State,
      b: nat, c: nat, id: nat, k: nat)
    requires Updating(s0, hasInit, acts, s, b, c, id, k) && KeepsWaits(s, t)
    ensures Updating(s0, hasInit, acts + [a], t, b, c, id, k)
  {
    hide Issued, Waits;
    var n: nat :| Issued(s0, hasInit, acts, c, id, Key(Update, k, n)) && c < |s.conns| &&
      (Key(Update, k, n) in s.conns[c].replied || Waits(s, b, c, Key(Update, k, n)));
    IssuedLonger(s0, hasInit, acts, a, c, id, Key(Update, k, n));
  }

  // What has been answered did not arrive just now.
  lemma SentBefore(acts: seq<Action>, a: Action, s: State, t: State, c: nat, id: nat, r: int, k: nat)
    requires AnswersOk(s) && Brings1(s, a, t) && Sent(s, c, id, r) && Query(c, id, Some(k)) in acts + [a]
    ensures Query(c, id, Some(k)) in acts
  {
    assert Answered(s.conns[c].out, id);
  }

  // A step that makes no buffer due and answers no request.
  lemma {:induction false} UpdatesKeep(s0: State, hasInit: bool, acts: seq<Action>, a: Action, s: State, t: State)
    requires UpdatesOk(s0, hasInit, acts, s) && KeepsWaits(s, t) && AnswersOk(s) && Brings1(s, a, t)
    requires forall b: nat, c: nat, id: nat, k: nat :: Due(t, b, c, id, k) ==> Due(s, b, c, id, k)
    requires forall c: nat, id: nat, r: int :: Sent(t, c, id, r) ==> Sent(s, c, id, r)
    ensures UpdatesOk(s0, hasInit, acts + [a], t)
  {
    hide Due, Sent, Updating, Updated, KeepsWaits, AnswersOk, Brings1;
    forall b: nat, c: nat, id: nat, k: nat | Due(t, b, c, id, k) ensures Updating(s0, hasInit, acts + [a], t, b, c, id,
      k) {
      UpdatingLonger(s0, hasInit, acts, a, s, t, b, c, id, k);
    }
    forall c: nat, id: nat, r: int, k: nat | Sent(t, c, id, r) && r >= 0 && Query(c, id, Some(k)) in acts + [a]
      ensures Updated(s0, hasInit, acts + [a], t, c, id, k)
    {
      SentBefore(acts, a, s, t, c, id, r, k);
      UpdatedLonger(s0, hasInit, acts, a, s, t, c, id, k);
    }
  }

  lemma PassingLive(s: State, b: nat)
    requires Locked(s) && Passing(s, b)
    ensures b in s.bufs
  {
    var w: nat :| w < |s.pcs| && s.pcs[w].Leaving? && s.pcs[w].b == b && s.pcs[w].phase >= 1000;
    assert Owns(s.pcs[w], b);
  }

  lemma PassingIs(s: State, t: State, b: nat)
    requires Passing(t, b) && |t.pcs| == |s.pcs|
    requires forall w: nat :: w < |s.pcs| && t.pcs[w].Leaving? ==> t.pcs[w] == s.pcs[w]
    ensures Passing(s, b)
  {
    var w: nat :| w < |t.pcs| && t.pcs[w].Leaving? && t.pcs[w].b == b && t.pcs[w].phase >= 1000;
    assert s.pcs[w] == t.pcs[w];
  }

  lemma {:induction false} MildUpdates(s0: State, hasInit: bool, acts: seq<Action>, a: Action, s: State, t: State)
    requires UpdatesOk(s0, hasInit, acts, s) && KeepsWaits(s, t) && AnswersOk(s) && Brings1(s, a, t) && Mild(s, t)
    requires Locked(s)
    ensures UpdatesOk(s0, hasInit, acts + [a], t)
  {
    hide Updating, Updated, KeepsWaits, AnswersOk;
    forall b: nat | Passing(t, b) ensures Passing(s, b) && b in s.bufs {
      PassingIs(s, t, b);
      PassingLive(s, b);
    }
    hide Passing, Locked;
    forall b: nat, c: nat, id: nat, k: nat | Due(t, b, c, id, k) ensures Due(s, b, c, id, k) {
      assert b in s.bufs;
    }
    forall c: nat, id: nat, r: int | Sent(t, c, id, r) ensures Sent(s, c, id, r) {
      SaysNone(s.conns[c].out, t.conns[c].out, AuthAnswer(id, r));
    }
    hide Due, Sent, Mild, Brings1;
    UpdatesKeep(s0, hasInit, acts, a, s, t);
  }

  // The buffer of a worker that leaves, goes on later, or ends its event, comes to
  // no update by this.
  lemma {:induction false} WorkerDue(s: State, hasInit: bool, a: Action, b: nat, c: nat, id: nat, k: nat)
    requires Locked(s) && Step(s, hasInit, a).Some? && (a.Leave? || a.Again? || a.Ended?)
    requires Due(Step(s, hasInit, a).value, b, c, id, k)
    ensures Due(s, b, c, id, k)
  {
    NoOther(s, a.w);
    var t := Step(s, hasInit, a).value;
    if Passing(t, b) {
      var w: nat :| w < |t.pcs| && t.pcs[w].Leaving? && t.pcs[w].b == b && t.pcs[w].phase >= 1000;
      assert s.pcs[w] == t.pcs[w];
    }
  }

  lemma {:induction false} WorkerUpdates(s0: State, hasInit: bool, acts: seq<Action>, a: Action, s: State)
    requires UpdatesOk(s0, hasInit, acts, s) && Ordered(s) && AnswersOk(s) && Step(s, hasInit, a).Some?
    requires a.Leave? || a.Again? || a.Ended?
    ensures UpdatesOk(s0, hasInit, acts + [a], Step(s, hasInit, a).value)
  {
    var t := Step(s, hasInit, a).value;
    StepWaits(s, hasInit, a);
    StepBrings(s, hasInit, a);
    hide Placed, Updating, Updated, KeepsWaits, AnswersOk, Brings1, Due;
    forall b: nat, c: nat, id: nat, k: nat | Due(t, b, c, id, k) ensures Due(s, b, c, id, k) {
      WorkerDue(s, hasInit, a, b, c, id, k);
    }
    forall c: nat, id: nat, r: int | Sent(t, c, id, r) ensures Sent(s, c, id, r) { }
    UpdatesKeep(s0, hasInit, acts, a, s, t);
  }

  // A handler that asks is not at its answer.
  lemma {:induction false} AskDue(s: State, w: nat, h: nat, kind: Kind, cid: nat, ph: nat, b: nat, c: nat, id: nat,
      k: nat)
    requires Locked(s) && DoAsk(s, w, h, kind, cid, ph).Some? && Due(DoAsk(s, w, h, kind, cid, ph).value, b, c, id, k)
    ensures Due(s, b, c, id, k)
  {
    NoOther(s, w);
    var t := DoAsk(s, w, h, kind, cid, ph).value;
    if Passing(t, b) {
      var v: nat :| v < |t.pcs| && t.pcs[v].Leaving? && t.pcs[v].b == b && t.pcs[v].phase >= 1000;
      assert s.pcs[v] == t.pcs[v];
    }
  }

  lemma {:induction false} AskUpdates(s0: State, hasInit: bool, acts: seq<Action>, a: Action, s: State)
    requires UpdatesOk(s0, hasInit, acts, s) && Ordered(s) && AnswersOk(s) && Step(s, hasInit, a).Some? && a.Ask?
    ensures UpdatesOk(s0, hasInit, acts + [a], Step(s, hasInit, a).value)
  {
    var t := Step(s, hasInit, a).value;
    StepWaits(s, hasInit, a);
    StepBrings(s, hasInit, a);
    hide Placed, Updating, Updated, KeepsWaits, AnswersOk, Brings1, Due;
    forall b: nat, c: nat, id: nat, k: nat | Due(t, b, c, id, k) ensures Due(s, b, c, id, k) {
      AskDue(s, a.w, a.h, a.kind, a.cid, a.ph, b, c, id, k);
    }
    forall c: nat, id: nat, r: int | Sent(t, c, id, r) ensures Sent(s, c, id, r) {
      SaysNone(s.conns[c].out, t.conns[c].out, AuthAnswer(id, r));
    }
    hide Ordered, Locked, DoAsk, Step;
    UpdatesKeep(s0, hasInit, acts, a, s, t);
  }

  // The update that the answer waits for.
  lemma {:induction false} IssuesHere(s0: State, hasInit: bool, acts: seq<Action>, a: Action, s: State, t: State,
      w: nat, c: nat, id: nat, key: Key)
    requires Run(s0, hasInit, acts) == Some(s) && Step(s, hasInit, a) == Some(t) && RunsRequestOf(s, w, c, id)
    requires Tells(s, t, c, key)
    ensures Issued(s0, hasInit, acts + [a], c, id, key)
  {
    hide Run, Step;
    var more := acts + [a];
    assert more[..|acts|] == acts && more[..|acts| + 1] == more;
    RunThen(s0, hasInit, acts, [a]);
    RunOne(s, hasInit, a);
    assert Before(s0, hasInit, more, |acts|, s);
    assert IssuedAt(s0, hasInit, more, |acts|, c, id, key);
  }

  predicate FirstPass(x: Buf) { x.phase == 1000 && x.result >= 0 && x.cls.Some? }

  lemma {:induction false} AnswerDue(s: State, hasInit: bool, w: nat, b: nat, c: nat, id: nat, k: nat)
    requires Locked(s) && DoAnswer(s, hasInit, w).Some? && Due(DoAnswer(s, hasInit, w).value, b, c, id, k)
    ensures Due(s, b, c, id, k) || (b == s.pcs[w].b && FirstPass(s.bufs[b]) && s.bufs[b].cls == Some(k) &&
        Asks(s, b, c, id))
  {
    NoOther(s, w);
    var t := DoAnswer(s, hasInit, w).value;
    if Passing(t, b) && b != s.pcs[w].b {
      var v: nat :| v < |t.pcs| && t.pcs[v].Leaving? && t.pcs[v].b == b && t.pcs[v].phase >= 1000;
      assert s.pcs[v] == t.pcs[v];
    }
  }

  lemma {:induction false} PassUpdates(s0: State, hasInit: bool, acts: seq<Action>, s: State, w: nat)
    requires UpdatesOk(s0, hasInit, acts, s) && Ordered(s) && AnswersOk(s) && Run(s0, hasInit, acts) == Some(s)
    requires DoAnswer(s, hasInit, w).Some? && FirstPass(s.bufs[s.pcs[w].b])
    ensures UpdatesOk(s0, hasInit, acts + [Answer(w)], DoAnswer(s, hasInit, w).value)
  {
    var a, t := Answer(w), DoAnswer(s, hasInit, w).value;
    StepWaits(s, hasInit, a);
    StepBrings(s, hasInit, a);
    hide Ordered, Updating, Updated, KeepsWaits, AnswersOk, Brings1, Due, Run, DoAnswer, Sent, Step;
    forall b: nat, c: nat, id: nat, k: nat | Due(t, b, c, id, k) ensures Updating(s0, hasInit, acts + [a], t, b, c, id,
      k) {
      assert Locked(s) by { OrderedParts(s); }
      AnswerDue(s, hasInit, w, b, c, id, k);
      if Due(s, b, c, id, k) {
        UpdatingLonger(s0, hasInit, acts, a, s, t, b, c, id, k);
      } else {
        UpdateIssued(s0, hasInit, acts, s, w, c, id, k);
      }
    }
    forall c: nat, id: nat, r: int, k: nat | Sent(t, c, id, r) && r >= 0 && Query(c, id, Some(k)) in acts + [a]
      ensures Updated(s0, hasInit, acts + [a], t, c, id, k)
    {
      PassSays(s, hasInit, w, c, id, r);
      SentBefore(acts, a, s, t, c, id, r, k);
      UpdatedLonger(s0, hasInit, acts, a, s, t, c, id, k);
    }
  }

  lemma PassSays(s: State, hasInit: bool, w: nat, c: nat, id: nat, r: int)
    requires DoAnswer(s, hasInit, w).Some? && FirstPass(s.bufs[s.pcs[w].b])
    requires Sent(DoAnswer(s, hasInit, w).value, c, id, r)
    ensures Sent(s, c, id, r)
  {
    SaysNone(s.conns[c].out, DoAnswer(s, hasInit, w).value.conns[c].out, AuthAnswer(id, r));
  }

  lemma OrderedParts(s: State)
    requires Ordered(s)
    ensures Locked(s) && Placed(s) && Based(s)
  {
  }

  lemma {:induction false} UpdateIssued(s0: State, hasInit: bool, acts: seq<Action>, s: State, w: nat, c: nat, id: nat,
      k: nat)
    requires Run(s0, hasInit, acts) == Some(s) && DoAnswer(s, hasInit, w).Some? && FirstPass(s.bufs[s.pcs[w].b])
    requires s.bufs[s.pcs[w].b].cls == Some(k) && Asks(s, s.pcs[w].b, c, id)
    ensures Updating(s0, hasInit, acts + [Answer(w)], DoAnswer(s, hasInit, w).value, s.pcs[w].b, c, id, k)
  {
    var t := DoAnswer(s, hasInit, w).value;
    var key := Key(Update, k, s.updates);
    assert Tells(s, t, c, key) && Waits(t, s.pcs[w].b, c, key);
    hide Run, Issued;
    IssuesHere(s0, hasInit, acts, Answer(w), s, t, w, c, id, key);
  }

  lemma {:induction false} LastUpdates(s0: State, hasInit: bool, acts: seq<Action>, s: State, w: nat)
    requires UpdatesOk(s0, hasInit, acts, s) && ArrivalsOk(acts, s) && Ordered(s) && AnswersOk(s)
    requires DoAnswer(s, hasInit, w).Some? && !FirstPass(s.bufs[s.pcs[w].b])
    ensures UpdatesOk(s0, hasInit, acts + [Answer(w)], DoAnswer(s, hasInit, w).value)
  {
    var a, t := Answer(w), DoAnswer(s, hasInit, w).value;
    StepWaits(s, hasInit, a);
    StepBrings(s, hasInit, a);
    hide Ordered, Updating, Updated, KeepsWaits, AnswersOk, Brings1, Due, ArrivalsOk, Issue;
    forall b: nat, c: nat, id: nat, k: nat | Due(t, b, c, id, k) ensures Updating(s0, hasInit, acts + [a], t, b, c, id,
      k) {
      assert Locked(s) by { OrderedParts(s); }
      AnswerDue(s, hasInit, w, b, c, id, k);
      UpdatingLonger(s0, hasInit, acts, a, s, t, b, c, id, k);
    }
    forall c: nat, id: nat, r: int, k: nat | Sent(t, c, id, r) && r >= 0 && Query(c, id, Some(k)) in acts + [a]
      ensures Updated(s0, hasInit, acts + [a], t, c, id, k)
    {
      if Sent(s, c, id, r) {
        SentBefore(acts, a, s, t, c, id, r, k);
      } else {
        AnsweredNow(s0, hasInit, acts, s, w, c, id, k);
      }
      UpdatedLonger(s0, hasInit, acts, a, s, t, c, id, k);
    }
  }

  // The request that is answered now has been updated for.
  lemma {:induction false} AnsweredNow(s0: State, hasInit: bool, acts: seq<Action>, s: State, w: nat, c: nat, id: nat,
      k: nat)
    requires UpdatesOk(s0, hasInit, acts, s) && ArrivalsOk(acts, s) && Ordered(s) && Runs(s, w)
    requires var x := s.bufs[s.pcs[w].b];
      x.phase >= 1000 && x.result >= 0 && !FirstPass(x) && x.conn == c && x.id == Some(id)
    requires Query(c, id, Some(k)) in acts + [Answer(w)]
    ensures Updated(s0, hasInit, acts, s, c, id, k)
  {
    var b := s.pcs[w].b;
    assert Asks(s, b, c, id);
    assert Query(c, id, s.bufs[b].cls) in acts;
    assert Query(c, id, Some(k)) in acts;
    assert Due(s, b, c, id, k);
    hide Issued, UpdatesOk, ArrivalsOk;
    HasIt(s, w);
    WaitersLive(s);
    var n: nat :| Issued(s0, hasInit, acts, c, id, Key(Update, k, n)) && c < |s.conns| &&
      (Key(Update, k, n) in s.conns[c].replied || Waits(s, b, c, Key(Update, k, n)));
  }

  lemma {:induction false} StepUpdates(s0: State, hasInit: bool, acts: seq<Action>, s: State, a: Action)
    requires Run(s0, hasInit, acts) == Some(s) && Ordered(s) && AnswersOk(s) && Step(s, hasInit, a).Some?
    requires ArrivalsOk(acts, s) && UpdatesOk(s0, hasInit, acts, s)
    ensures UpdatesOk(s0, hasInit, acts + [a], Step(s, hasInit, a).value)
  {
    hide Placed, Locked, AnswersOk, ArrivalsOk, UpdatesOk, DoLeave, DoAgain, DoEnded, DoAsk, DoAnswer, Run;
    if a.Leave? || a.Again? || a.Ended? {
      WorkerUpdates(s0, hasInit, acts, a, s);
    } else if a.Ask? {
      AskUpdates(s0, hasInit, acts, a, s);
    } else if a.Answer? {
      StepAnswerUpdates(s0, hasInit, acts, s, a.w);
    } else {
      hide Step;
      StepMild(s, hasInit, a);
      StepWaits(s, hasInit, a);
      StepBrings(s, hasInit, a);
      MildUpdates(s0, hasInit, acts, a, s, Step(s, hasInit, a).value);
    }
  }

  lemma {:induction false} StepAnswerUpdates(s0: State, hasInit: bool, acts: seq<Action>, s: State, w: nat)
    requires Run(s0, hasInit, acts) == Some(s) && Ordered(s) && AnswersOk(s) && DoAnswer(s, hasInit, w).Some?
    requires ArrivalsOk(acts, s) && UpdatesOk(s0, hasInit, acts, s)
    ensures UpdatesOk(s0, hasInit, acts + [Answer(w)], DoAnswer(s, hasInit, w).value)
  {
    hide Ordered, AnswersOk, ArrivalsOk, UpdatesOk, Run, Issue;
    if FirstPass(s.bufs[s.pcs[w].b]) {
      PassUpdates(s0, hasInit, acts, s, w);
    } else {
      LastUpdates(s0, hasInit, acts, s, w);
    }
  }

  lemma {:induction false} RunUpdates(versions: seq<nat>, workers: nat, hasInit: bool, acts: seq<Action>)
    requires Reached(versions, workers, hasInit, acts).Some?
    ensures var s := Reached(versions, workers, hasInit, acts).value;
      ArrivalsOk(acts, s) && UpdatesOk(Start(versions, workers), hasInit, acts, s)
    decreases |acts|
  {
    var s0 := Start(versions, workers);
    if acts != [] {
      hide Start, ArrivalsOk, UpdatesOk, Safe, Step, Run, AnswersOk, Ordered, Brings1;
      var n := |acts| - 1;
      LastStep(s0, hasInit, acts);
      RunUpdates(versions, workers, hasInit, acts[..n]);
      ReachedSafe(versions, workers, hasInit, acts[..n]);
      var s := Run(s0, hasInit, acts[..n]).value;
      assert Ordered(s) && Based(s) && AnswersOk(s) by { SafeParts(s, hasInit); }
      StepUpdates(s0, hasInit, acts[..n], s, acts[n]);
      StepBrings(s, hasInit, acts[n]);
      ArrivalsStep(acts[..n], acts[n], s, Step(s, hasInit, acts[n]).value);
    }
  }

  lemma SafeParts(s: State, hasInit: bool)
    requires Safe(s, hasInit)
    ensures Ordered(s) && Based(s) && AnswersOk(s)
  {
  }

  // In every run: where a request with a subject of class k has been answered, and
  // not with an error, an update of that class went out while a worker handled the
  // request, and the kernel has answered it.
  lemma {:induction false} UpdatedFirst(versions: seq<nat>, workers: nat, hasInit: bool, acts: seq<Action>, c: nat,
      id: nat, r: int, k: nat)
    requires Reached(versions, workers, hasInit, acts).Some?
    requires c < |Reached(versions, workers, hasInit, acts).value.conns| && r >= 0 && Query(c, id, Some(k)) in acts
    requires AuthAnswer(id, r) in Reached(versions, workers, hasInit, acts).value.conns[c].out
    ensures exists n: nat ::
      && Key(Update, k, n) in Reached(versions, workers, hasInit, acts).value.conns[c].replied
      && Issued(Start(versions, workers), hasInit, acts, c, id, Key(Update, k, n))
  {
    hide Run, Start, Issued;
    RunUpdates(versions, workers, hasInit, acts);
    assert Sent(Reached(versions, workers, hasInit, acts).value, c, id, r);
  }
}
