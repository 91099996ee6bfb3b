/** The protocol over every run: one place, one answer, the order of arrival, the
    gate of _init and READY, and exactly when the last three hold. */
module ProtocolRuns {
  import opened Lists
  import opened Protocol
  import opened ProtocolPlaces
  import opened ProtocolSafety
  import opened ProtocolGate

  ghost predicate Safe(s: State, hasInit: bool) {
    Ordered(s) && AnswersOk(s) && KeysOk(s) && GateOk(s) && Configured(s, hasInit) && ReadyOk(s, hasInit)
  }

  lemma {:induction false} StartSafe(versions: seq<nat>, workers: nat, hasInit: bool)
    ensures Safe(Start(versions, workers), hasInit)
  {
    hide ConnAt, GateAt;
    var s := Start(versions, workers);
    forall p ensures QueueOk(At(s, p), s.place, p) { assert At(s, p) == []; }
    forall c: nat | c < |s.conns| ensures s.conns[c] == Fresh(versions[c]) && ConnAt(s, c) && GateAt(s, c) {
      NothingYet(s, c, versions[c]);
    }
  }

  lemma NothingYet(s: State, c: nat, version: nat)
    requires c < |s.conns| && s.bufs == map[] && s.conns[c] == Fresh(version)
    ensures ConnAt(s, c) && GateAt(s, c)
  {
  }

  lemma DrainsOnly(s: State)
    requires GateOk(s)
    ensures DrainsInit(s)
  {
    forall w: nat | w < |s.pcs| && s.pcs[w].Draining? ensures s.pcs[w].b in s.bufs &&
      s.bufs[s.pcs[w].b].id.None? { assert DrainAt(s, w); }
  }

  lemma {:induction false} StepSafe(s: State, hasInit: bool, a: Action)
    requires Safe(s, hasInit) && Step(s, hasInit, a).Some?
    ensures Safe(Step(s, hasInit, a).value, hasInit)
  {
    hide Ordered, AnswersOk, KeysOk, GateOk, Configured, ReadyOk, Step, DrainsInit;
    DrainsOnly(s);
    StepOrdered(s, hasInit, a);
    StepAnswers(s, hasInit, a);
    StepKeys(s, hasInit, a);
    StepGate(s, hasInit, a);
    StepReady(s, hasInit, a);
  }

  // Every state of every run is safe.
  lemma {:induction false} RunSafe(s: State, hasInit: bool, acts: seq<Action>)
    requires Safe(s, hasInit) && Run(s, hasInit, acts).Some?
    ensures Safe(Run(s, hasInit, acts).value, hasInit)
    decreases acts
  {
    hide Safe, Step;
    if acts != [] {
      StepSafe(s, hasInit, acts[0]);
      RunSafe(Step(s, hasInit, acts[0]).value, hasInit, acts[1..]);
    }
  }

  function Reached(versions: seq<nat>, workers: nat, hasInit: bool, acts: seq<Action>): Option<State> {
    Run(Start(versions, workers), hasInit, acts)
  }

  lemma ReachedSafe(versions: seq<nat>, workers: nat, hasInit: bool, acts: seq<Action>)
    requires Reached(versions, workers, hasInit, acts).Some?
    ensures Safe(Reached(versions, workers, hasInit, acts).value, hasInit)
  {
    hide Safe, Run, Start;
    StartSafe(versions, workers, hasInit);
    RunSafe(Start(versions, workers), hasInit, acts);
  }

  /* Counting READY requests */

  // The READY requests for connection c in a run.
  function ReadyAsks(acts: seq<Action>, c: nat): nat {
    if acts == [] then 0 else (if acts[0] == ReadyRequest(c) then 1 else 0) + ReadyAsks(acts[1..], c)
  }

  lemma {:induction false} StepAsks(s: State, hasInit: bool, a: Action)
    requires Step(s, hasInit, a).Some?
    ensures var t := Step(s, hasInit, a).value;
      |t.conns| == |s.conns| && forall c: nat :: c < |s.conns| ==>
        && t.conns[c].version == s.conns[c].version
        && t.conns[c].asked == s.conns[c].asked + if a == ReadyRequest(c) then 1 else 0
  {
    if a.ReadyRequest? || a.Query? || a.DrainEnd? {
      hide Runs, Locks, FindWaiter;
    } else {
      hide Step, SaysQuietly;
      Quiet(s, hasInit, a);
      forall c: nat | c < |s.conns| ensures SaysQuietly(s.conns[c], Step(s, hasInit, a).value.conns[c]) { }
      SameAsks(s, Step(s, hasInit, a).value);
    }
  }

  lemma SameAsks(s: State, t: State)
    requires |t.conns| == |s.conns| && forall c: nat :: c < |s.conns| ==> SaysQuietly(s.conns[c], t.conns[c])
    ensures forall c: nat :: c < |s.conns| ==>
        t.conns[c].version == s.conns[c].version && t.conns[c].asked == s.conns[c].asked
  {
  }

  lemma {:induction false} RunAsks(s: State, hasInit: bool, acts: seq<Action>, c: nat)
    requires Run(s, hasInit, acts).Some? && c < |s.conns|
    ensures var t := Run(s, hasInit, acts).value;
      |t.conns| == |s.conns| && t.conns[c].version == s.conns[c].version &&
        t.conns[c].asked == s.conns[c].asked + ReadyAsks(acts, c)
    decreases acts
  {
    hide Step;
    if acts != [] {
      StepAsks(s, hasInit, acts[0]);
      RunAsks(Step(s, hasInit, acts[0]).value, hasInit, acts[1..], c);
    }
  }

  lemma ReachedAsks(versions: seq<nat>, workers: nat, hasInit: bool, acts: seq<Action>, c: nat)
    requires Reached(versions, workers, hasInit, acts).Some? && c < |versions|
    ensures var s := Reached(versions, workers, hasInit, acts).value;
      && |s.conns| == |versions| && s.conns[c].version == versions[c] && s.conns[c].asked == ReadyAsks(acts, c)
      && ReadyAt(s.conns[c], hasInit) && (!hasInit ==> s.conns[c].init.None? && s.conns[c].inits == 0)
  {
    hide Run, Ordered, AnswersOk, KeysOk, GateOk, ReadyAt;
    ReachedSafe(versions, workers, hasInit, acts);
    RunAsks(Start(versions, workers), hasInit, acts, c);
  }

  /* Places and answers */

  lemma AtIs(s: State, p: Place, b: nat)
    requires Placed(s)
    ensures NoDup(At(s, p)) && (b in At(s, p) <==> b in s.place && s.place[b] == p) && s.place.Keys == s.bufs.Keys
  {
    assert QueueOk(At(s, p), s.place, p);
  }

  // In every interleaving no live buffer is in two queues or twice in one, and a
  // freed one is in none.
  lemma {:induction false} OnePlace(versions: seq<nat>, workers: nat, hasInit: bool, acts: seq<Action>, p: Place,
      q: Place, b: nat)
    requires Reached(versions, workers, hasInit, acts).Some?
    ensures var s := Reached(versions, workers, hasInit, acts).value;
      && NoDup(At(s, p))
      && (b in At(s, p) ==> b in s.bufs)
      && (b in At(s, p) && b in At(s, q) ==> p == q)
  {
    hide Reached, AnswersOk, KeysOk, GateOk, Placed, At, NoDup;
    ReachedSafe(versions, workers, hasInit, acts);
    var s := Reached(versions, workers, hasInit, acts).value;
    AtIs(s, p, b);
    AtIs(s, q, b);
  }

  // In every interleaving a request that has arrived has been answered once, or
  // has one live buffer and has not been answered.
  lemma {:induction false} AnsweredOnce(versions: seq<nat>, workers: nat, hasInit: bool, acts: seq<Action>, c: nat,
      id: nat)
    requires Reached(versions, workers, hasInit, acts).Some? &&
        c < |Reached(versions, workers, hasInit, acts).value.conns|
    requires id in Reached(versions, workers, hasInit, acts).value.conns[c].ids
    ensures var s := Reached(versions, workers, hasInit, acts).value;
      && OnceEach(s.conns[c].out)
      && (Answered(s.conns[c].out, id) <==> !exists b: nat :: Asks(s, b, c, id))
      && forall a: nat, b: nat :: Asks(s, a, c, id) && Asks(s, b, c, id) ==> a == b
  {
    hide Reached, Ordered, KeysOk, GateOk, Asks, Answered, OnceEach;
    ReachedSafe(versions, workers, hasInit, acts);
  }

  /* The order of arrival, and the gate */

  // What the kernel may send for the gate to work: with _init, a connection asks
  // for READY once at most, and not at all before version 3.
  predicate StartsOnce(version: nat, hasInit: bool, asks: nat) { !hasInit || asks <= if version > 2 then 1 else 0 }

  lemma InitsOnce(versions: seq<nat>, workers: nat, hasInit: bool, acts: seq<Action>, c: nat)
    requires Reached(versions, workers, hasInit, acts).Some? && c < |versions| &&
        StartsOnce(versions[c], hasInit, ReadyAsks(acts, c))
    ensures var s := Reached(versions, workers, hasInit, acts).value;
      Safe(s, hasInit) && |s.conns| == |versions| && s.conns[c].inits <= 1
  {
    hide Reached, Safe;
    ReachedSafe(versions, workers, hasInit, acts);
    ReachedAsks(versions, workers, hasInit, acts, c);
  }

  // Then, in every interleaving, requests enter comm_todo in the order they
  // arrived, across the hand-over from _init.
  lemma {:induction false} ArrivalOrder(versions: seq<nat>, workers: nat, hasInit: bool, acts: seq<Action>, c: nat)
    requires Reached(versions, workers, hasInit, acts).Some? && c < |versions| &&
        StartsOnce(versions[c], hasInit, ReadyAsks(acts, c))
    ensures var s := Reached(versions, workers, hasInit, acts).value;
      && |s.conns| == |versions|
      && s.conns[c].entered <= s.conns[c].arrived && s.conns[c].arrived == s.conns[c].entered + Waiting(s, s.conns[c])
      && (s.conns[c].init.None? ==> s.conns[c].entered == s.conns[c].arrived)
  {
    hide Reached, Ordered, KeysOk, AnswersOk, ReadyOk, Configured, ConnAt;
    InitsOnce(versions, workers, hasInit, acts, c);
    var s := Reached(versions, workers, hasInit, acts).value;
    assert OnceAt(s, c);
  }

  // Then, in every interleaving, a worker that runs a request finds the
  // connection initialised and its _init ended, if it is configured.
  lemma {:induction false} InitFirst(versions: seq<nat>, workers: nat, hasInit: bool, acts: seq<Action>, c: nat, w: nat)
    requires Reached(versions, workers, hasInit, acts).Some? && c < |versions| &&
        StartsOnce(versions[c], hasInit, ReadyAsks(acts, c))
    ensures GatePasses(Reached(versions, workers, hasInit, acts).value, c, w)
  {
    hide Reached, AnswersOk, KeysOk, ReadyOk, Configured, InitEnded, GateOk, Placed;
    InitsOnce(versions, workers, hasInit, acts, c);
    var s := Reached(versions, workers, hasInit, acts).value;
    if RunsRequest(s, c, w) { GateHolds(s, w); }
  }

  predicate RunsRequest(s: State, c: nat, w: nat) {
    w < |s.pcs| && s.pcs[w].Running? && s.pcs[w].b in s.bufs && s.bufs[s.pcs[w].b].conn == c &&
      s.bufs[s.pcs[w].b].id.Some?
  }

  ghost predicate GatePasses(s: State, c: nat, w: nat) { RunsRequest(s, c, w) ==> InitEnded(s, c) }

  // Where no _init is configured, one READY is sent for every READY request,
  // whatever the version: what is promised holds exactly if the kernel asks once
  // at most, and not at all before version 3.
  lemma {:induction false} ReadyPerRequest(versions: seq<nat>, workers: nat, acts: seq<Action>, c: nat)
    requires Reached(versions, workers, false, acts).Some? && c < |versions|
    ensures var s := Reached(versions, workers, false, acts).value;
      && |s.conns| == |versions| && Readies(s.conns[c].out) == ReadyAsks(acts, c)
      && (Promised(s.conns[c]) <==> ReadyAsks(acts, c) <= if versions[c] > 2 then 1 else 0)
  {
    hide Reached, Readies;
    ReachedAsks(versions, workers, false, acts, c);
  }

  // With _init, what is promised holds if the kernel asks once at most, and
  // always before version 3.
  lemma {:induction false} ReadyAfterInit(versions: seq<nat>, workers: nat, acts: seq<Action>, c: nat)
    requires Reached(versions, workers, true, acts).Some? && c < |versions|
    requires versions[c] > 2 ==> ReadyAsks(acts, c) <= 1
    ensures var s := Reached(versions, workers, true, acts).value; |s.conns| == |versions| && Promised(s.conns[c])
  {
    hide Reached, Readies;
    ReachedAsks(versions, workers, true, acts, c);
  }
}
