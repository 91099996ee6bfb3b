/** What the kernel is asked for: in every run, each request for data names the kind
    and the class that a handler asked for, or is the update of the subject of a
    request whose event has ended. */
module ProtocolRequests {
  import opened Lists
  import opened Protocol
  import opened ProtocolPlaces
  import opened ProtocolSafety
  import opened ProtocolGate
  import opened ProtocolRuns
  import opened ProtocolHistory

  // Worker w runs a buffer of connection c.
  predicate RunsFor(s: State, w: nat, c: nat) {
    w < |s.pcs| && s.pcs[w].Running? && s.pcs[w].b in s.bufs && s.bufs[s.pcs[w].b].conn == c
  }

  // It is about to answer a request, without an error, whose subject is of class k.
  predicate AtUpdate(s: State, w: nat, k: nat) {
    w < |s.pcs| && s.pcs[w].Running? && s.pcs[w].b in s.bufs && s.bufs[s.pcs[w].b].phase == 1000
      && s.bufs[s.pcs[w].b].result >= 0 && s.bufs[s.pcs[w].b].cls == Some(k)
  }

  predicate Causes(s: State, a: Action, c: nat, key: Key) {
    || (a.Ask? && a.kind == key.kind && a.cid == key.cid && RunsFor(s, a.w, c))
    || (a.Answer? && key.kind == Update && RunsFor(s, a.w, c) && AtUpdate(s, a.w, key.cid))
  }

  ghost predicate CausedAt(s0: State, hasInit: bool, acts: seq<Action>, k: nat, c: nat, key: Key) {
    exists t :: Before(s0, hasInit, acts, k, t) && Causes(t, acts[k], c, key)
  }

  ghost predicate Caused(s0: State, hasInit: bool, acts: seq<Action>, c: nat, key: Key) {
    exists k: nat :: CausedAt(s0, hasInit, acts, k, c, key)
  }

  predicate Asked1(s: State, c: nat, key: Key) { c < |s.conns| && Request(key) in s.conns[c].out }

  lemma {:induction false} CausedLonger(s0: State, hasInit: bool, acts: seq<Action>, a: Action, c: nat, key: Key)
    requires Caused(s0, hasInit, acts, c, key)
    ensures Caused(s0, hasInit, acts + [a], c, key)
  {
    hide Causes, Run;
    var k: nat :| CausedAt(s0, hasInit, acts, k, c, key);
    var t :| Before(s0, hasInit, acts, k, t) && Causes(t, acts[k], c, key);
    assert (acts + [a])[..k] == acts[..k] && (acts + [a])[k] == acts[k];
    assert Before(s0, hasInit, acts + [a], k, t);
    assert CausedAt(s0, hasInit, acts + [a], k, c, key);
  }

  lemma {:induction false} CausedNow(s0: State, hasInit: bool, acts: seq<Action>, s: State, a: Action, c: nat, key: Key)
    requires Run(s0, hasInit, acts) == Some(s) && Causes(s, a, c, key)
    ensures Caused(s0, hasInit, acts + [a], c, key)
  {
    hide Causes, Run;
    var more := acts + [a];
    assert more[..|acts|] == acts;
    assert Before(s0, hasInit, more, |acts|, s);
    assert CausedAt(s0, hasInit, more, |acts|, c, key);
  }

  // A step that asks for something has the cause for it.
  lemma {:induction false} StepCauses(s: State, hasInit: bool, a: Action, c: nat, key: Key)
    requires Based(s) && Step(s, hasInit, a).Some? && Asked1(Step(s, hasInit, a).value, c, key) && !Asked1(s, c, key)
    ensures Causes(s, a, c, key)
  {
    hide Locks, DoReply, DoReady, DoQuery, DoAnswer, DoAsk;
    if a.Ask? {
      AskCauses(s, a.w, a.h, a.kind, a.cid, a.ph, c, key);
    } else if a.Answer? {
      AnswerCauses(s, hasInit, a.w, c, key);
    } else if a.Reply? {
      ReplyQuiet(s, a.c, a.key, c, key);
    } else if a.Query? || a.ReadyRequest? {
      var t := MessageArrives(s, hasInit, a);
    }
  }

  lemma AskCauses(s: State, w: nat, h: nat, kind: Kind, cid: nat, ph: nat, c: nat, key: Key)
    requires DoAsk(s, w, h, kind, cid, ph).Some? && Asked1(DoAsk(s, w, h, kind, cid, ph).value, c, key) &&
        !Asked1(s, c, key)
    ensures Causes(s, Ask(w, h, kind, cid, ph), c, key)
  {
  }

  lemma AnswerCauses(s: State, hasInit: bool, w: nat, c: nat, key: Key)
    requires DoAnswer(s, hasInit, w).Some? && Asked1(DoAnswer(s, hasInit, w).value, c, key) && !Asked1(s, c, key)
    ensures Causes(s, Answer(w), c, key)
  {
  }

  lemma ReplyQuiet(s: State, d: nat, answered: Key, c: nat, key: Key)
    requires DoReply(s, d, answered).Some? && Asked1(DoReply(s, d, answered).value, c, key)
    ensures Asked1(s, c, key)
  {
    hide FindWaiter, MayReply;
  }

  lemma {:induction false} RunCauses(versions: seq<nat>, workers: nat, hasInit: bool, acts: seq<Action>, c: nat,
      key: Key)
    requires Reached(versions, workers, hasInit, acts).Some?
    requires Asked1(Reached(versions, workers, hasInit, acts).value, c, key)
    ensures Caused(Start(versions, workers), hasInit, acts, c, key)
    decreases |acts|
  {
    var s0 := Start(versions, workers);
    if acts != [] {
      hide Start, Safe, Step, Run, Asked1, Causes, Caused;
      var n := |acts| - 1;
      LastStep(s0, hasInit, acts);
      var s := Run(s0, hasInit, acts[..n]).value;
      ReachedSafe(versions, workers, hasInit, acts[..n]);
      SafeOrdered(s, hasInit);
      if Asked1(s, c, key) {
        RunCauses(versions, workers, hasInit, acts[..n], c, key);
        CausedLonger(s0, hasInit, acts[..n], acts[n], c, key);
      } else {
        StepCauses(s, hasInit, acts[n], c, key);
        CausedNow(s0, hasInit, acts[..n], s, acts[n], c, key);
      }
    }
  }

  // In every run: a request for data on connection c was caused by a handler that
  // asked for this kind and class while a worker ran a buffer of c, or by the answer
  // to a request of c with a subject of this class.
  lemma {:induction false} RequestTells(versions: seq<nat>, workers: nat, hasInit: bool, acts: seq<Action>, c: nat,
      key: Key)
    requires Reached(versions, workers, hasInit, acts).Some?
    requires c < |Reached(versions, workers, hasInit, acts).value.conns|
    requires Request(key) in Reached(versions, workers, hasInit, acts).value.conns[c].out
    ensures exists k: nat, t ::
      && k < |acts| && (acts[k].Ask? || acts[k].Answer?) &&
        Reached(versions, workers, hasInit, acts[..k]) == Some(t) && RunsFor(t, acts[k].w, c)
      && (if acts[k].Ask? then acts[k].kind == key.kind && acts[k].cid == key.cid
          else key.kind == Update && AtUpdate(t, acts[k].w, key.cid))
  {
    hide Run, Start;
    var s0 := Start(versions, workers);
    RunCauses(versions, workers, hasInit, acts, c, key);
    var k: nat :| CausedAt(s0, hasInit, acts, k, c, key);
    var t :| Before(s0, hasInit, acts, k, t) && Causes(t, acts[k], c, key);
    assert RunsFor(t, acts[k].w, c);
  }
}
