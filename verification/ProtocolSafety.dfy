/** What every run keeps: one answer for every request, one waiter for every key,
    the gate of _init, the order of arrival, and one READY. */
module ProtocolSafety {
  import opened Lists
  import opened Protocol
  import opened ProtocolPlaces

  // Nothing, or one message that is not of interest, has been said.
  predicate Adds(out: seq<Msg>, out': seq<Msg>) { out' == out || (|out'| == |out| + 1 && out'[..|out|] == out) }

  /* Answers */

  predicate Answered(out: seq<Msg>, id: nat) { exists i :: 0 <= i < |out| && out[i].AuthAnswer? && out[i].id == id }

  predicate OnceEach(out: seq<Msg>) {
    forall i, j :: 0 <= i < j < |out| && out[i].AuthAnswer? && out[j].AuthAnswer? ==> out[i].id != out[j].id
  }

  // A live buffer of connection c holds request id.
  predicate Asks(s: State, b: nat, c: nat, id: nat) { b in s.bufs && s.bufs[b].conn == c && s.bufs[b].id == Some(id) }

  // A request has one live buffer until it is answered, and none afterwards.
  ghost predicate AnswersOk(s: State) {
    && (forall a: nat, b: nat, c: nat, id: nat :: Asks(s, a, c, id) && Asks(s, b, c, id) ==> a == b)
    && (forall b: nat, c: nat, id: nat :: Asks(s, b, c, id) && c < |s.conns| ==>
      id in s.conns[c].ids && !Answered(s.conns[c].out, id))
    && (forall c: nat, id: nat :: c < |s.conns| && id in s.conns[c].ids ==>
      Answered(s.conns[c].out, id) || exists b: nat :: Asks(s, b, c, id))
    && (forall c: nat, id: nat :: c < |s.conns| && Answered(s.conns[c].out, id) ==> id in s.conns[c].ids)
    && (forall c: nat :: c < |s.conns| ==> OnceEach(s.conns[c].out))
  }

  lemma AnsweredAdds(out: seq<Msg>, out': seq<Msg>, id: nat)
    requires Adds(out, out') && (out' != out ==> !out'[|out|].AuthAnswer?)
    ensures Answered(out', id) <==> Answered(out, id)
    ensures OnceEach(out) ==> OnceEach(out')
  {
    if Answered(out, id) {
      var i :| 0 <= i < |out| && out[i].AuthAnswer? && out[i].id == id;
      assert out'[..|out|][i] == out[i];
    }
    if Answered(out', id) {
      var i :| 0 <= i < |out'| && out'[i].AuthAnswer? && out'[i].id == id;
      assert i < |out| && out'[..|out|][i] == out'[i];
    }
    assert forall i :: 0 <= i < |out| ==> out'[i] == out'[..|out|][i] == out[i];
  }

  // Same requests, and no answer.
  lemma {:induction false} AnswersKeep(s: State, t: State)
    requires AnswersOk(s) && |t.conns| == |s.conns|
    requires forall b: nat, c: nat, id: nat :: Asks(t, b, c, id) <==> Asks(s, b, c, id)
    requires forall c: nat :: c < |s.conns| ==> t.conns[c].ids == s.conns[c].ids
    requires forall c: nat :: c < |s.conns| ==>
      var o, o' := s.conns[c].out, t.conns[c].out; Adds(o, o') && (o' != o ==> !o'[|o|].AuthAnswer?)
    ensures AnswersOk(t)
  {
    hide Asks, Adds, Answered, OnceEach;
    forall c: nat, id: nat | c < |s.conns|
      ensures Answered(t.conns[c].out, id) <==> Answered(s.conns[c].out, id)
      ensures OnceEach(t.conns[c].out)
    {
      AnsweredAdds(s.conns[c].out, t.conns[c].out, id);
    }
    forall c: nat, id: nat | c < |t.conns| && id in t.conns[c].ids ensures Answered(t.conns[c].out, id) ||
      exists b: nat :: Asks(t, b, c, id) {
      if !Answered(t.conns[c].out, id) {
        var b: nat :| Asks(s, b, c, id);
        assert Asks(t, b, c, id);
      }
    }
    forall c: nat | c < |t.conns| ensures OnceEach(t.conns[c].out) { AnsweredAdds(s.conns[c].out, t.conns[c].out, 0); }
  }

  // A new request.
  lemma {:induction false} AnswersNew(s: State, t: State, b: nat, c: nat, id: nat)
    requires AnswersOk(s) && |t.conns| == |s.conns| && c < |s.conns| && b !in s.bufs && id !in s.conns[c].ids
    requires forall x: nat, d: nat, i: nat :: Asks(t, x, d, i) <==> Asks(s, x, d, i) || (x == b && d == c && i == id)
    requires forall d: nat :: d < |s.conns| ==> t.conns[d].out == s.conns[d].out
    requires forall d: nat :: d < |s.conns| ==> t.conns[d].ids == if d == c then s.conns[d].ids + {id}
        else s.conns[d].ids
    ensures AnswersOk(t)
  {
    hide Answered, OnceEach;
    assert !Asks(s, b, c, id) && forall x :: !Asks(s, x, c, id);
    forall d: nat, i: nat | d < |t.conns| && i in t.conns[d].ids ensures Answered(t.conns[d].out, i) ||
      exists x: nat :: Asks(t, x, d, i) {
      if d == c && i == id {
        assert Asks(t, b, c, id);
      } else if !Answered(s.conns[d].out, i) {
        var x: nat :| Asks(s, x, d, i);
        assert Asks(t, x, d, i);
      }
    }
  }

  lemma {:induction false} AnsweredSay(out: seq<Msg>, id: nat, result: int, i: nat)
    ensures Answered(out + [AuthAnswer(id, result)], i) <==> Answered(out, i) || i == id
    ensures OnceEach(out) && !Answered(out, id) ==> OnceEach(out + [AuthAnswer(id, result)])
  {
    var o := out + [AuthAnswer(id, result)];
    if Answered(out, i) {
      var k :| 0 <= k < |out| && out[k].AuthAnswer? && out[k].id == i;
      assert o[k] == out[k];
    }
    if Answered(o, i) {
      var k :| 0 <= k < |o| && o[k].AuthAnswer? && o[k].id == i;
      if k < |out| { assert out[k] == o[k]; }
    }
    assert o[|out|] == AuthAnswer(id, result);
  }

  // The answer to a request, whose buffer is freed.
  lemma {:induction false} AnswersSaid(s: State, t: State, b: nat, c: nat, id: nat, result: int)
    requires AnswersOk(s) && |t.conns| == |s.conns| && c < |s.conns| && Asks(s, b, c, id)
    requires forall x: nat, d: nat, i: nat :: Asks(t, x, d, i) <==> Asks(s, x, d, i) && x != b
    requires forall d: nat :: d < |s.conns| ==> t.conns[d].ids == s.conns[d].ids
    requires forall d: nat :: d < |s.conns| ==> t.conns[d].out == if d == c then
        s.conns[d].out + [AuthAnswer(id, result)] else s.conns[d].out
    ensures AnswersOk(t)
  {
    hide Answered, OnceEach;
    forall i: nat
      ensures Answered(t.conns[c].out, i) <==> Answered(s.conns[c].out, i) || i == id
      ensures OnceEach(t.conns[c].out)
    {
      AnsweredSay(s.conns[c].out, id, result, i);
    }
    AnsweredSay(s.conns[c].out, id, result, 0);
    forall d: nat, i: nat | d < |t.conns| && i in t.conns[d].ids ensures Answered(t.conns[d].out, i) ||
      exists x: nat :: Asks(t, x, d, i) {
      if !Answered(t.conns[d].out, i) {
        var x: nat :| Asks(s, x, d, i);
        assert Asks(t, x, d, i);
      }
    }
    forall x: nat, d: nat, i: nat | Asks(t, x, d, i) && d < |t.conns| ensures !Answered(t.conns[d].out, i) {
      assert Asks(s, x, d, i);
    }
  }

  // Only the buffer of _init is drained.
  ghost predicate DrainsInit(s: State) {
    forall w: nat :: w < |s.pcs| && s.pcs[w].Draining? && s.pcs[w].b in s.bufs ==> s.bufs[s.pcs[w].b].id.None?
  }

  lemma AnswersReady(s: State, hasInit: bool, c: nat)
    requires Based(s) && AnswersOk(s) && c < |s.conns|
    ensures AnswersOk(ConnInit(s, hasInit, c)) && AnswersOk(Say(ConnInit(s, hasInit, c), c, ReadyAnswer))
  {
    hide AnswersOk;
    AnswersKeep(s, ConnInit(s, hasInit, c));
    AnswersKeep(s, Say(ConnInit(s, hasInit, c), c, ReadyAnswer));
  }

  lemma AnswersArrive(s: State, hasInit: bool, c: nat, id: nat, cls: Option<nat>)
    requires Based(s) && AnswersOk(s) && c < |s.conns| && id !in s.conns[c].ids
    ensures AnswersOk(Arrive(s, hasInit, c, id, cls))
  {
    hide AnswersOk;
    AnswersNew(s, Arrive(s, hasInit, c, id, cls), s.next, c, id);
  }

  lemma AnswersIssue(s: State, w: nat, kind: Kind, cid: nat, ph: nat)
    requires AnswersOk(s) && Runs(s, w)
    ensures AnswersOk(Issue(s, w, kind, cid, ph))
  {
    hide AnswersOk;
    AnswersKeep(s, Issue(s, w, kind, cid, ph));
  }

  lemma AnswersAsk(s: State, w: nat, h: nat, kind: Kind, cid: nat, ph: nat)
    requires AnswersOk(s) && DoAsk(s, w, h, kind, cid, ph).Some?
    ensures AnswersOk(DoAsk(s, w, h, kind, cid, ph).value)
  {
    hide AnswersOk, Issue;
    AnswersKeep(s, WithBusy(s, w, Some(h)));
    AnswersIssue(WithBusy(s, w, Some(h)), w, kind, cid, ph);
  }

  lemma AnswersAnswer(s: State, hasInit: bool, w: nat)
    requires AnswersOk(s) && DoAnswer(s, hasInit, w).Some?
    ensures AnswersOk(DoAnswer(s, hasInit, w).value)
  {
    hide AnswersOk;
    var x := s.bufs[s.pcs[w].b];
    if x.phase == 1000 && x.result >= 0 && x.cls.Some? {
      AnswersIssue(s, w, Update, x.cls.value, 1003);
    } else {
      AnswersSaid(s, DoAnswer(s, hasInit, w).value, s.pcs[w].b, x.conn, x.id.value, x.result);
    }
  }

  lemma AnswersDrainEnd(s: State, w: nat)
    requires AnswersOk(s) && DrainsInit(s) && DoDrainEnd(s, w).Some?
    ensures AnswersOk(DoDrainEnd(s, w).value)
  {
    hide AnswersOk;
    AnswersKeep(s, DoDrainEnd(s, w).value);
  }

  lemma AnswersReply(s: State, c: nat, key: Key)
    requires AnswersOk(s) && DoReply(s, c, key).Some?
    ensures AnswersOk(DoReply(s, c, key).value)
  {
    hide AnswersOk, FindWaiter;
    AnswersKeep(s, DoReply(s, c, key).value);
  }

  // The steps of a worker on its buffer say nothing.
  predicate ByWorker(a: Action) { a.Take? || a.Lock? || a.Again? || a.Ended? || a.Return? || a.Refuse? || a.Leave? ||
      a.Drain? }

  lemma {:induction false} WorkerAnswers(s: State, hasInit: bool, a: Action)
    requires AnswersOk(s) && Step(s, hasInit, a).Some? && ByWorker(a)
    ensures AnswersOk(Step(s, hasInit, a).value)
  {
    hide AnswersOk;
    var t := Step(s, hasInit, a).value;
    assert t.bufs.Keys == s.bufs.Keys && forall b :: b in s.bufs ==>
      t.bufs[b].conn == s.bufs[b].conn && t.bufs[b].id == s.bufs[b].id;
    AnswersKeep(s, t);
  }

  lemma {:induction false} StepAnswers(s: State, hasInit: bool, a: Action)
    requires Ordered(s) && AnswersOk(s) && DrainsInit(s) && Step(s, hasInit, a).Some?
    ensures AnswersOk(Step(s, hasInit, a).value)
  {
    hide AnswersOk, Placed, Locked, ConnInit, Arrive, DoAnswer, DoAsk, DoDrainEnd, DoReply;
    var t := Step(s, hasInit, a).value;
    match a {
      case ReadyRequest(c) =>
        AnswersKeep(s, Asked(s, c));
        AnswersReady(Asked(s, c), hasInit, c);
      case Query(c, id, cls) =>
        if s.conns[c].state {
          AnswersArrive(s, hasInit, c, id, cls);
        } else {
          AnswersReady(s, hasInit, c);
          InitFacts(s, hasInit, c);
          AnswersArrive(ConnInit(s, hasInit, c), hasInit, c, id, cls);
        }
      case Answer(w) => AnswersAnswer(s, hasInit, w);
      case Ask(w, h, kind, cid, ph) => AnswersAsk(s, w, h, kind, cid, ph);
      case DrainEnd(w) => AnswersDrainEnd(s, w);
      case Reply(c, key) => AnswersReply(s, c, key);
      case Write(c) => AnswersKeep(s, t);
      case DrainOne(w) => AnswersKeep(s, t);
      case Wakeup(c) => AnswersKeep(s, t);
      case _ => WorkerAnswers(s, hasInit, a);
    }
  }

  lemma InitFacts(s: State, hasInit: bool, c: nat)
    requires Based(s) && c < |s.conns|
    ensures var t := ConnInit(s, hasInit, c);
      Based(t) && |t.conns| == |s.conns| && t.conns[c].ids == s.conns[c].ids
  {
  }

  /* Waiters */

  function Used(s: State, kind: Kind): nat { if kind == Fetch then s.fetches else s.updates }

  // Buffer b waits at connection c for key.
  predicate Waits(s: State, b: nat, c: nat, key: Key) {
    c < |s.conns| && b in s.conns[c].waitq && b in s.bufs && s.bufs[b].key == Some(key)
  }

  // Every waiter has sent a request that is not answered; no two wait for the
  // same number of one kind; every request not answered has its waiter.
  ghost predicate KeysOk(s: State) {
    && (forall b: nat, c: nat :: c < |s.conns| && b in s.conns[c].waitq ==> exists key :: Waits(s, b, c, key))
    && (forall b: nat, c: nat, key :: Waits(s, b, c, key) ==>
      Request(key) in s.conns[c].out && key !in s.conns[c].replied)
    && (forall a: nat, b: nat, c: nat, d: nat, k, l ::
          Waits(s, a, c, k) && Waits(s, b, d, l) && k.kind == l.kind && k.num == l.num ==> a == b)
    && (forall c: nat, key :: c < |s.conns| && Request(key) in s.conns[c].out ==>
          key.num < Used(s, key.kind) && (key in s.conns[c].replied || exists b: nat :: Waits(s, b, c, key)))
    && (forall c: nat, key :: c < |s.conns| && key in s.conns[c].replied ==> Request(key) in s.conns[c].out)
  }

  ghost predicate SameRequests(out: seq<Msg>, out': seq<Msg>) {
    forall key :: Request(key) in out' <==> Request(key) in out
  }

  lemma SaysOther(out: seq<Msg>, m: Msg)
    requires !m.Request?
    ensures SameRequests(out, out + [m])
  {
  }

  lemma {:induction false} KeysKeep(s: State, t: State)
    requires KeysOk(s) && |t.conns| == |s.conns| && t.fetches == s.fetches && t.updates == s.updates
    requires forall c: nat :: c < |s.conns| ==>
        t.conns[c].waitq == s.conns[c].waitq && t.conns[c].replied == s.conns[c].replied
    requires forall c: nat :: c < |s.conns| ==> SameRequests(s.conns[c].out, t.conns[c].out)
    requires forall b: nat, c: nat :: c < |s.conns| && b in s.conns[c].waitq ==>
        b in t.bufs && b in s.bufs && t.bufs[b].key == s.bufs[b].key
    ensures KeysOk(t)
  {
    assert forall b: nat, c: nat, key :: Waits(t, b, c, key) <==> Waits(s, b, c, key);
    hide Waits;
    forall b: nat, c: nat | c < |t.conns| && b in t.conns[c].waitq ensures exists key :: Waits(t, b, c, key) {
      var key :| Waits(s, b, c, key);
      assert Waits(t, b, c, key);
    }
    forall c: nat, key | c < |t.conns| && Request(key) in t.conns[c].out &&
      key !in t.conns[c].replied ensures exists b: nat :: Waits(t, b, c, key) {
      assert Request(key) in s.conns[c].out;
      var b: nat :| Waits(s, b, c, key);
      assert Waits(t, b, c, key);
    }
  }

  // A request with the next number; its buffer waits.
  lemma {:induction false} KeysAsk(s: State, t: State, b: nat, c: nat, key: Key)
    requires KeysOk(s) && |t.conns| == |s.conns| && c < |s.conns|
    requires key.num == Used(s, key.kind) && Used(t, key.kind) == Used(s, key.kind) + 1
    requires forall kind :: kind != key.kind ==> Used(t, kind) == Used(s, kind)
    requires forall d: nat :: d < |s.conns| ==> t.conns[d].replied == s.conns[d].replied
    requires forall d: nat :: d < |s.conns| && d != c ==> t.conns[d].out == s.conns[d].out
    requires t.conns[c].out == s.conns[c].out + [Request(key)]
    requires forall x: nat, d: nat, k :: Waits(t, x, d, k) <==> Waits(s, x, d, k) || (x == b && d == c && k == key)
    requires forall x: nat, d: nat :: d < |s.conns| && x in t.conns[d].waitq ==>
        x in s.conns[d].waitq || (x == b && d == c)
    ensures KeysOk(t)
  {
    hide Waits;
    assert Waits(t, b, c, key);
    forall x: nat, d: nat, k | Waits(s, x, d, k) ensures k.num < Used(s, k.kind) &&
      d < |s.conns| { WaitsAt(s, x, d, k); }
    forall x: nat, d: nat | d < |t.conns| && x in t.conns[d].waitq ensures exists k :: Waits(t, x, d, k) {
      if x in s.conns[d].waitq {
        var k :| Waits(s, x, d, k);
        assert Waits(t, x, d, k);
      }
    }
    forall k ensures Request(k) in t.conns[c].out <==> Request(k) in s.conns[c].out || k == key { }
    assert key !in s.conns[c].replied;
    forall d: nat, k | d < |t.conns| && Request(k) in t.conns[d].out &&
      k !in t.conns[d].replied ensures exists x: nat :: Waits(t, x, d, k) {
      if Request(k) in s.conns[d].out {
        var x: nat :| Waits(s, x, d, k);
        assert Waits(t, x, d, k);
      }
    }
  }

  lemma WaitsAt(s: State, b: nat, c: nat, key: Key)
    requires Waits(s, b, c, key)
    ensures c < |s.conns| && b in s.conns[c].waitq
  {
  }

  // An answer: its waiter leaves.
  lemma {:induction false} KeysReply(s: State, t: State, b: nat, c: nat, key: Key)
    requires KeysOk(s) && |t.conns| == |s.conns| && t.fetches == s.fetches && t.updates == s.updates &&
        Waits(s, b, c, key)
    requires forall d: nat :: d < |s.conns| ==> t.conns[d].out == s.conns[d].out
    requires forall d: nat :: d < |s.conns| ==> t.conns[d].replied == if d == c then s.conns[d].replied + {key}
        else s.conns[d].replied
    requires forall x: nat, d: nat, k :: Waits(t, x, d, k) <==> Waits(s, x, d, k) && !(x == b && d == c)
    requires forall x: nat, d: nat :: d < |s.conns| && x in t.conns[d].waitq ==>
        x in s.conns[d].waitq && !(x == b && d == c)
    ensures KeysOk(t)
  {
    hide Waits;
    forall x: nat, d: nat | d < |t.conns| && x in t.conns[d].waitq ensures exists k :: Waits(t, x, d, k) {
      var k :| Waits(s, x, d, k);
      assert Waits(t, x, d, k);
    }
    forall k | Waits(s, b, c, k) ensures k == key { OneKey(s, b, c, k, key); }
    forall x: nat, d: nat, k | Waits(t, x, d, k) ensures d < |s.conns| && Request(k) in t.conns[d].out &&
      k !in t.conns[d].replied {
      assert Waits(s, x, d, k);
      WaitsAt(s, x, d, k);
    }
    forall d: nat, k | d < |t.conns| && Request(k) in t.conns[d].out &&
      k !in t.conns[d].replied ensures exists x: nat :: Waits(t, x, d, k) {
      var x: nat :| Waits(s, x, d, k);
      assert Waits(t, x, d, k);
    }
  }

  lemma OneKey(s: State, b: nat, c: nat, k: Key, l: Key)
    requires Waits(s, b, c, k) && Waits(s, b, c, l)
    ensures k == l
  {
  }

  // An answer the kernel may send finds its waiter, and no other buffer waits
  // for that number.
  lemma {:induction false} AnswerFindsWaiter(s: State, c: nat, key: Key)
    requires KeysOk(s) && c < |s.conns| && MayReply(s.conns[c], key)
    ensures var n := FindWaiter(s.bufs, s.conns[c].waitq, key);
      && n < |s.conns[c].waitq| && Waits(s, s.conns[c].waitq[n], c, key)
      && forall b: nat, d: nat, k :: Waits(s, b, d, k) && k.kind == key.kind && k.num == key.num ==>
        b == s.conns[c].waitq[n]
  {
    hide FindWaiter;
    assert Request(key) in s.conns[c].out;
    var b: nat :| Waits(s, b, c, key);
    var q := s.conns[c].waitq;
    var n := FindWaiter(s.bufs, q, key);
    var i :| 0 <= i < |q| && q[i] == b;
    assert n <= i;
    var p := q[n];
    assert Waits(s, p, c, key);
    forall x: nat, d: nat, k | Waits(s, x, d, k) && k.kind == key.kind && k.num == key.num ensures x == p { }
  }

  lemma KeysReady(s: State, hasInit: bool, c: nat)
    requires Based(s) && KeysOk(s) && Placed(s) && c < |s.conns|
    ensures KeysOk(ConnInit(s, hasInit, c)) && KeysOk(Say(ConnInit(s, hasInit, c), c, ReadyAnswer))
  {
    hide KeysOk, SameRequests, QueueOk;
    WaitersLive(s);
    SaysOther(s.conns[c].out, ReadyAnswer);
    SaysNothing(s);
    KeysKeep(s, ConnInit(s, hasInit, c));
    KeysKeep(s, Say(ConnInit(s, hasInit, c), c, ReadyAnswer));
  }

  lemma KeysAsked(s: State, c: nat)
    requires Based(s) && KeysOk(s) && Placed(s) && c < |s.conns|
    ensures Based(Asked(s, c)) && KeysOk(Asked(s, c)) && Placed(Asked(s, c))
  {
    hide KeysOk, SameRequests, QueueOk;
    WaitersLive(s);
    SaysNothing(s);
    KeysKeep(s, Asked(s, c));
    Still(s, Asked(s, c));
  }

  lemma SaysNothing(s: State)
    ensures forall c: nat :: c < |s.conns| ==> SameRequests(s.conns[c].out, s.conns[c].out)
  {
  }

  // A waiter is live, and in no other place.
  lemma {:induction false} WaitersLive(s: State)
    requires Placed(s)
    ensures forall c: nat, b: nat :: c < |s.conns| && b in s.conns[c].waitq ==>
        b in s.bufs && b in s.place && s.place[b] == Wait(c)
  {
    forall c: nat, b: nat | c < |s.conns| && b in s.conns[c].waitq ensures b in s.bufs && b in s.place &&
      s.place[b] == Wait(c) {
      assert QueueOk(At(s, Wait(c)), s.place, Wait(c));
    }
  }

  lemma KeysArrive(s: State, hasInit: bool, c: nat, id: nat, cls: Option<nat>)
    requires Based(s) && KeysOk(s) && Placed(s) && c < |s.conns|
    ensures KeysOk(Arrive(s, hasInit, c, id, cls))
  {
    hide KeysOk, SameRequests, QueueOk;
    WaitersLive(s);
    SaysNothing(s);
    KeysKeep(s, Arrive(s, hasInit, c, id, cls));
  }

  lemma {:induction false} KeysBusy(s: State, w: nat, busy: Option<nat>)
    requires KeysOk(s) && Placed(s) && Runs(s, w)
    ensures KeysOk(WithBusy(s, w, busy))
  {
    hide KeysOk, QueueOk, SameRequests;
    WaitersLive(s);
    SaysNothing(s);
    KeysKeep(s, WithBusy(s, w, busy));
  }

  lemma {:induction false} KeysIssue(s: State, w: nat, kind: Kind, cid: nat, ph: nat)
    requires KeysOk(s) && Placed(s) && Based(s) && Runs(s, w)
    ensures KeysOk(Issue(s, w, kind, cid, ph))
  {
    hide KeysOk, QueueOk;
    WaitersLive(s);
    HasIt(s, w);
    var b := s.pcs[w].b;
    var t := Issue(s, w, kind, cid, ph);
    KeysAsk(s, t, b, s.bufs[b].conn, t.bufs[b].key.value);
  }

  // A worker frees or moves a buffer that does not wait.
  lemma {:induction false} KeysWorker(s: State, hasInit: bool, a: Action)
    requires KeysOk(s) && Ordered(s) && Step(s, hasInit, a).Some?
    requires ByWorker(a) || a.DrainOne? || a.DrainEnd? || a.Write?
    ensures KeysOk(Step(s, hasInit, a).value)
  {
    hide KeysOk, QueueOk, SameRequests, Locked, DoDrainOne, DoDrainEnd, DoWrite;
    if a.DrainOne? || a.DrainEnd? || a.Write? {
      KeysDrain(s, hasInit, a);
    } else {
      WaitersLive(s);
      SaysNothing(s);
      KeysKeep(s, Step(s, hasInit, a).value);
    }
  }

  lemma {:induction false} KeysDrain(s: State, hasInit: bool, a: Action)
    requires KeysOk(s) && Ordered(s) && Step(s, hasInit, a).Some? && (a.DrainOne? || a.DrainEnd? || a.Write?)
    ensures KeysOk(Step(s, hasInit, a).value)
  {
    hide KeysOk, QueueOk, SameRequests, Locked;
    WaitersLive(s);
    SaysNothing(s);
    if a.DrainEnd? {
      HasIt(s, a.w);
      SaysOther(s.conns[s.bufs[s.pcs[a.w].b].conn].out, ReadyAnswer);
    }
    KeysKeep(s, Step(s, hasInit, a).value);
  }

  lemma {:induction false} KeysAnswer(s: State, hasInit: bool, w: nat)
    requires KeysOk(s) && Ordered(s) && DoAnswer(s, hasInit, w).Some?
    ensures KeysOk(DoAnswer(s, hasInit, w).value)
  {
    hide KeysOk, QueueOk, SameRequests, Locked;
    var x := s.bufs[s.pcs[w].b];
    if x.phase == 1000 && x.result >= 0 && x.cls.Some? {
      KeysIssue(s, w, Update, x.cls.value, 1003);
    } else {
      HasIt(s, w);
      WaitersLive(s);
      SaysNothing(s);
      SaysOther(s.conns[x.conn].out, AuthAnswer(x.id.value, x.result));
      KeysKeep(s, DoAnswer(s, hasInit, w).value);
    }
  }

  lemma {:induction false} KeysReplied(s: State, c: nat, key: Key)
    requires KeysOk(s) && Ordered(s) && DoReply(s, c, key).Some?
    ensures KeysOk(DoReply(s, c, key).value)
  {
    hide KeysOk, FindWaiter, QueueOk, Locked;
    AnswerFindsWaiter(s, c, key);
    var q := s.conns[c].waitq;
    var n := FindWaiter(s.bufs, q, key);
    var t := DoReply(s, c, key).value;
    assert QueueOk(At(s, Wait(c)), s.place, Wait(c));
    OthersStay(s, c, n);
    WaitersLive(s);
    KeysReply(s, t, q[n], c, key);
  }

  lemma OthersStay(s: State, c: nat, n: nat)
    requires c < |s.conns| && n < |s.conns[c].waitq| && QueueOk(At(s, Wait(c)), s.place, Wait(c))
    ensures var q := s.conns[c].waitq; forall x :: x in q[..n] + q[n + 1..] <==> x in q && x != q[n]
  {
    var q := s.conns[c].waitq;
    var r := q[..n] + q[n + 1..];
    assert NoDup(q);
    forall x ensures x in r <==> x in q && x != q[n] {
      if x in q && x != q[n] {
        var k :| 0 <= k < |q| && q[k] == x;
        assert r[if k < n then k else k - 1] == x;
      }
    }
  }

  lemma {:induction false} KeysWakeup(s: State, c: nat)
    requires KeysOk(s) && Ordered(s) && DoWakeup(s, c).Some?
    ensures KeysOk(DoWakeup(s, c).value)
  {
    hide KeysOk, QueueOk, SameRequests, Locked;
    WaitersLive(s);
    SaysNothing(s);
    AtPlace(s, Reader(c), 0);
    KeysKeep(s, DoWakeup(s, c).value);
  }

  lemma {:induction false} StepKeys(s: State, hasInit: bool, a: Action)
    requires Ordered(s) && KeysOk(s) && Step(s, hasInit, a).Some?
    ensures KeysOk(Step(s, hasInit, a).value)
  {
    hide KeysOk, Locked, Issue, ConnInit, Arrive, DoAnswer, DoReply, DoWakeup;
    match a {
      case ReadyRequest(c) =>
        KeysAsked(s, c);
        KeysReady(Asked(s, c), hasInit, c);
      case Query(c, id, cls) =>
        if s.conns[c].state {
          KeysArrive(s, hasInit, c, id, cls);
        } else {
          KeysReady(s, hasInit, c);
          InitFacts(s, hasInit, c);
          AnyInitOrdered(s, hasInit, c);
          KeysArrive(ConnInit(s, hasInit, c), hasInit, c, id, cls);
        }
      case Answer(w) => KeysAnswer(s, hasInit, w);
      case Ask(w, h, kind, cid, ph) =>
        BusyOrdered(s, w, Some(h));
        KeysBusy(s, w, Some(h));
        KeysIssue(WithBusy(s, w, Some(h)), w, kind, cid, ph);
      case Reply(c, key) => KeysReplied(s, c, key);
      case Wakeup(c) => KeysWakeup(s, c);
      case _ => KeysWorker(s, hasInit, a);
    }
  }
}
