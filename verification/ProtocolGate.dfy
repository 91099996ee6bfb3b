/** The gate of _init, the order of arrival and READY: what every step keeps. */
module ProtocolGate {
  import opened Lists
  import opened Protocol
  import opened ProtocolPlaces
  import opened ProtocolSafety

  // A worker drains the to_wake queue of connection c.
  ghost predicate Drainer(s: State, w: nat, c: nat) {
    w < |s.pcs| && s.pcs[w].Draining? && s.pcs[w].b in s.bufs && s.bufs[s.pcs[w].b].conn == c
  }

  // What has to wait for the _init that is to run or runs.
  function Waiting(s: State, k: Conn): seq<nat> { if k.init.Some? then WakeOf(s, k.init.value) else [] }

  // A connection that is not initialised has no buffers; the buffer of _init is
  // live; whoever is said to drain does.
  ghost predicate ConnAt(s: State, c: nat)
    requires c < |s.conns|
  {
    var k := s.conns[c];
    && (!k.state ==> k.init.None? && k.inits == 0 && k.arrived == [] && forall b :: b in s.bufs ==> s.bufs[b].conn != c)
    && (forall p :: k.init == Some(p) ==> p in s.bufs && s.bufs[p].conn == c && s.bufs[p].id.None?)
    && (k.draining ==> exists w: nat :: Drainer(s, w, c))
  }

  // As long as _init was started once at most, it has one buffer, and while it is
  // to run or runs, the requests of the connection wait.
  ghost predicate GateAt(s: State, c: nat)
    requires c < |s.conns|
  {
    var k := s.conns[c];
    && (forall b :: b in s.bufs && s.bufs[b].conn == c && s.bufs[b].id.None? ==> k.init == Some(b))
    && (k.init.Some? && !k.draining ==>
          forall b :: b in s.bufs && b in s.place && s.bufs[b].conn == c && k.init != Some(b) ==>
            s.place[b] == Wake(k.init.value))
    && k.arrived == k.entered + Waiting(s, k)
  }

  ghost predicate OnceAt(s: State, c: nat)
    requires c < |s.conns|
  {
    s.conns[c].inits <= 1 ==> GateAt(s, c)
  }

  // A request waits for the buffer of an _init of its connection, or for itself.
  ghost predicate WakeAt(s: State, b: nat)
    requires b in s.bufs && b in s.place
  {
    s.place[b].Wake? ==>
      var p := s.place[b].p;
      s.bufs[b].id.Some? && p in s.bufs && s.bufs[p].conn == s.bufs[b].conn && (s.bufs[p].id.Some? ==> p == b)
  }

  // Whoever drains has the buffer of an _init whose handler has ended.
  ghost predicate DrainAt(s: State, w: nat)
    requires w < |s.pcs|
  {
    s.pcs[w].Draining? ==>
      && s.pcs[w].b in s.bufs && s.bufs[s.pcs[w].b].id.None? && s.bufs[s.pcs[w].b].phase >= 1000
      && s.bufs[s.pcs[w].b].conn < |s.conns| && s.conns[s.bufs[s.pcs[w].b].conn].draining
  }

  ghost predicate DrainsAlone(s: State) {
    forall v: nat, w: nat, c: nat :: Drainer(s, v, c) && Drainer(s, w, c) ==> v == w
  }

  ghost predicate GateOk(s: State) {
    && (forall c: nat :: c < |s.conns| ==> ConnAt(s, c) && OnceAt(s, c))
    && (forall b :: b in s.bufs && b in s.place ==> WakeAt(s, b))
    && (forall w: nat :: w < |s.pcs| ==> DrainAt(s, w))
    && DrainsAlone(s)
  }

  // Where _init was started once at most, no request is handled before it has ended.
  lemma {:induction false} GateHolds(s: State, w: nat)
    requires Ordered(s) && GateOk(s) && w < |s.pcs| && s.pcs[w].Running?
    requires s.pcs[w].b in s.bufs && s.bufs[s.pcs[w].b].id.Some?
    requires s.conns[s.bufs[s.pcs[w].b].conn].inits <= 1
    ensures InitEnded(s, s.bufs[s.pcs[w].b].conn)
  {
    HasIt(s, w);
    var c := s.bufs[s.pcs[w].b].conn;
    assert ConnAt(s, c) && OnceAt(s, c);
    if s.conns[c].init.Some? && s.conns[c].draining {
      var v: nat :| Drainer(s, v, c);
      assert DrainAt(s, v);
    }
  }

  // The connection is initialised, and no _init of it is to run or runs.
  ghost predicate InitEnded(s: State, c: nat) {
    c < |s.conns| && s.conns[c].state && forall p :: p in s.bufs && s.bufs[p].conn == c && s.bufs[p].id.None? ==>
      s.bufs[p].phase >= 1000
  }

  predicate SameGate(k: Conn, l: Conn) {
    && l.state == k.state && l.init == k.init && l.draining == k.draining && l.inits == k.inits
    && l.arrived == k.arrived && l.entered == k.entered
  }

  // The same drainers, with their buffers.
  lemma {:induction false} DrainersKeep(s: State, t: State)
    requires DrainsAlone(s)
    requires forall w: nat, c: nat :: Drainer(t, w, c) ==> Drainer(s, w, c)
    ensures DrainsAlone(t)
  {
    hide Drainer;
  }

  // A step that moves one buffer b, which did not wait for _init, and changes
  // neither the connections' gates nor the phase of a buffer that is drained.
  lemma {:induction false} GateKeep(s: State, t: State, b: nat)
    requires GateOk(s) && |t.conns| == |s.conns| && t.bufs.Keys == s.bufs.Keys && s.place.Keys == s.bufs.Keys &&
        t.place.Keys == s.place.Keys
    requires t.wakes == s.wakes && forall c: nat :: c < |s.conns| ==> SameGate(s.conns[c], t.conns[c])
    requires forall x :: x in s.bufs ==> t.bufs[x].conn == s.bufs[x].conn && t.bufs[x].id == s.bufs[x].id
    requires forall x :: x in s.place && x != b ==> t.place[x] == s.place[x]
    requires b in s.place && t.place[b] != s.place[b] ==> !s.place[b].Wake? && !t.place[b].Wake?
    requires |t.pcs| == |s.pcs| && forall w: nat :: w < |s.pcs| ==>
        if s.pcs[w].Draining? then t.pcs[w] == s.pcs[w] else !t.pcs[w].Draining?
    requires forall w: nat :: w < |s.pcs| && s.pcs[w].Draining? && s.pcs[w].b in s.bufs ==>
        t.bufs[s.pcs[w].b].phase == s.bufs[s.pcs[w].b].phase
    ensures GateOk(t)
  {
    forall c: nat | c < |t.conns| ensures ConnAt(t, c) && OnceAt(t, c) {
      assert ConnAt(s, c) && OnceAt(s, c);
      if s.conns[c].draining {
        var w: nat :| Drainer(s, w, c);
        assert Drainer(t, w, c);
      }
    }
    forall x | x in t.bufs && x in t.place ensures WakeAt(t, x) { assert WakeAt(s, x); }
    forall w: nat | w < |t.pcs| ensures DrainAt(t, w) { assert DrainAt(s, w); }
    DrainersKeep(s, t);
  }

  // Whoever drains has its buffer, and no other worker has it.
  lemma {:induction false} DrainersHold(s: State)
    requires Ordered(s)
    ensures forall w: nat :: w < |s.pcs| && s.pcs[w].Draining? ==>
        s.pcs[w].b in s.place && s.place[s.pcs[w].b] == Worker(w)
  {
    hide Placed;
    forall w: nat | w < |s.pcs| && s.pcs[w].Draining? ensures s.pcs[w].b in s.place &&
      s.place[s.pcs[w].b] == Worker(w) {
      HasIt(s, w);
    }
  }

  lemma {:induction false} GateTake(s: State, w: nat)
    requires Ordered(s) && GateOk(s) && DoTake(s, w).Some?
    ensures GateOk(DoTake(s, w).value)
  {
    hide GateOk, QueueOk, Locked;
    DrainersHold(s);
    AtPlace(s, Todo, 0);
    GateKeep(s, DoTake(s, w).value, s.todo[0]);
  }

  lemma {:induction false} GateLeave(s: State, w: nat)
    requires Ordered(s) && GateOk(s) && DoLeave(s, w).Some?
    ensures GateOk(DoLeave(s, w).value)
  {
    forall v: nat | v < |s.pcs| && s.pcs[v].Draining? ensures s.pcs[v].b != s.pcs[w].b {
      assert Owns(s.pcs[v], s.pcs[v].b) && Owns(s.pcs[w], s.pcs[w].b);
    }
    hide GateOk, QueueOk, Locked;
    GateKeep(s, DoLeave(s, w).value, s.pcs[w].b);
  }

  lemma {:induction false} GateMoves(s: State, hasInit: bool, a: Action)
    requires Ordered(s) && GateOk(s) && Step(s, hasInit, a).Some?
    requires a.Lock? || a.Again? || a.Ended?
    ensures GateOk(Step(s, hasInit, a).value)
  {
    hide GateOk, QueueOk, Locks, Locked;
    DrainersHold(s);
    HasIt(s, a.w);
    GateKeep(s, Step(s, hasInit, a).value, s.pcs[a.w].b);
  }

  lemma {:induction false} GateBusy(s: State, w: nat, busy: Option<nat>)
    requires Ordered(s) && GateOk(s) && Runs(s, w)
    ensures GateOk(WithBusy(s, w, busy))
  {
    hide GateOk, QueueOk, Locked;
    DrainersHold(s);
    HasIt(s, w);
    GateKeep(s, WithBusy(s, w, busy), s.pcs[w].b);
  }

  lemma {:induction false} GateIssue(s: State, w: nat, kind: Kind, cid: nat, ph: nat)
    requires Ordered(s) && GateOk(s) && Runs(s, w)
    ensures GateOk(Issue(s, w, kind, cid, ph))
  {
    hide GateOk, QueueOk, Locked;
    var t := Issue(s, w, kind, cid, ph);
    HasIt(s, w);
    GateKeep(s, t, s.pcs[w].b);
  }

  lemma {:induction false} GateWrite(s: State, c: nat)
    requires Ordered(s) && GateOk(s) && DoWrite(s, c).Some?
    ensures GateOk(DoWrite(s, c).value)
  {
    hide GateOk, QueueOk, Locked;
    GateKeep(s, DoWrite(s, c).value, 0);
  }

  lemma {:induction false} GateWakeup(s: State, c: nat)
    requires Ordered(s) && GateOk(s) && DoWakeup(s, c).Some?
    ensures GateOk(DoWakeup(s, c).value)
  {
    hide GateOk, QueueOk, Locked;
    AtPlace(s, Reader(c), 0);
    GateKeep(s, DoWakeup(s, c).value, s.conns[c].reader.value);
  }

  lemma {:induction false} GateReply(s: State, c: nat, key: Key)
    requires Ordered(s) && GateOk(s) && DoReply(s, c, key).Some?
    ensures GateOk(DoReply(s, c, key).value)
  {
    hide GateOk, QueueOk, Locked, FindWaiter, MayReply;
    var n := FindWaiter(s.bufs, s.conns[c].waitq, key);
    if n < |s.conns[c].waitq| {
      AtPlace(s, Wait(c), n);
      GateKeep(s, DoReply(s, c, key).value, s.conns[c].waitq[n]);
    } else {
      GateKeep(s, DoReply(s, c, key).value, 0);
    }
  }

  // A buffer that waits for itself.
  lemma {:induction false} GateRefuse(s: State, w: nat, h: nat)
    requires Ordered(s) && GateOk(s) && DoRefuse(s, w, h).Some?
    ensures GateOk(DoRefuse(s, w, h).value)
  {
    var t := DoRefuse(s, w, h).value;
    HasIt(s, w);
    hide Ordered, DrainsAlone;
    forall v: nat, c: nat ensures Drainer(t, v, c) <==> Drainer(s, v, c) { }
    forall c: nat | c < |t.conns| ensures ConnAt(t, c) && OnceAt(t, c) { RefuseConns(s, w, h, c); }
    hide ConnAt, OnceAt;
    forall x | x in t.bufs && x in t.place ensures WakeAt(t, x) { assert x in s.place ==> WakeAt(s, x); }
    forall v: nat | v < |t.pcs| ensures DrainAt(t, v) { assert DrainAt(s, v); }
    hide GateOk, WakeAt, DrainAt, Drainer;
    GateFrom(s, t);
  }

  lemma {:induction false} RefuseConns(s: State, w: nat, h: nat, c: nat)
    requires GateOk(s) && DoRefuse(s, w, h).Some? && c < |s.conns| && s.place.Keys == s.bufs.Keys
    requires s.pcs[w].b in s.place && s.place[s.pcs[w].b] == Worker(w)
    requires DrainersStay(s, DoRefuse(s, w, h).value)
    ensures ConnAt(DoRefuse(s, w, h).value, c) && OnceAt(DoRefuse(s, w, h).value, c)
  {
    assert ConnAt(s, c) && OnceAt(s, c);
    hide GateOk;
    var t := DoRefuse(s, w, h).value;
    if s.conns[c].draining {
      var v: nat :| Drainer(s, v, c);
      assert Drainer(t, v, c);
    }
  }

  // A request is answered and its buffer freed.
  lemma {:induction false} GateFree(s: State, t: State, b: nat, w: nat)
    requires GateOk(s) && Ordered(s) && w < |s.pcs| && s.pcs[w] == Running(b) && b in s.bufs && s.bufs[b].id.Some?
    requires t.bufs == s.bufs - {b} && t.place == s.place - {b} && t.pcs == s.pcs[w := Idle] && |t.conns| == |s.conns|
    requires t.wakes == s.wakes && forall c: nat :: c < |s.conns| ==> SameGate(s.conns[c], t.conns[c])
    ensures GateOk(t)
  {
    HasIt(s, w);
    hide Ordered;
    forall c: nat | c < |t.conns| ensures ConnAt(t, c) && OnceAt(t, c) {
      assert ConnAt(s, c) && OnceAt(s, c);
      if s.conns[c].draining {
        var v: nat :| Drainer(s, v, c);
        assert DrainAt(s, v);
        assert Drainer(t, v, c);
      }
    }
    forall x | x in t.bufs && x in t.place ensures WakeAt(t, x) { assert WakeAt(s, x); }
    forall v: nat | v < |t.pcs| ensures DrainAt(t, v) { assert DrainAt(s, v); }
    DrainersKeep(s, t);
  }

  lemma {:induction false} GateAnswer(s: State, hasInit: bool, w: nat)
    requires Ordered(s) && GateOk(s) && DoAnswer(s, hasInit, w).Some?
    ensures GateOk(DoAnswer(s, hasInit, w).value)
  {
    hide GateOk, Ordered;
    var x := s.bufs[s.pcs[w].b];
    if x.phase == 1000 && x.result >= 0 && x.cls.Some? {
      GateIssue(s, w, Update, x.cls.value, 1003);
    } else {
      GateFree(s, DoAnswer(s, hasInit, w).value, s.pcs[w].b, w);
    }
  }

  // A buffer that is not live has no queue.
  lemma NoQueue(s: State, p: nat)
    requires Ordered(s) && GateOk(s) && p !in s.bufs
    ensures WakeOf(s, p) == []
  {
    hide GateOk;
    if WakeOf(s, p) != [] {
      AtPlace(s, Wake(p), 0);
      WakeLive(s, WakeOf(s, p)[0]);
    }
  }

  lemma WakeLive(s: State, b: nat)
    requires GateOk(s) && b in s.bufs && b in s.place && s.place[b].Wake?
    ensures s.place[b].p in s.bufs
  {
    assert WakeAt(s, b);
  }

  // The connections of the drainers stay the same, and the drainers too.
  ghost predicate DrainersStay(s: State, t: State) { forall w: nat, c: nat :: Drainer(t, w, c) <==> Drainer(s, w, c) }

  // A state that gives every buffer and drainer what it had, with drainers as before.
  lemma {:induction false} GateFrom(s: State, t: State)
    requires GateOk(s) && |t.conns| == |s.conns| && |t.pcs| == |s.pcs| && DrainersStay(s, t)
    requires forall c: nat :: c < |s.conns| ==> ConnAt(t, c) && OnceAt(t, c)
    requires forall x :: x in t.bufs && x in t.place ==> WakeAt(t, x)
    requires forall w: nat :: w < |t.pcs| ==> DrainAt(t, w)
    ensures GateOk(t)
  {
    hide Drainer, ConnAt, OnceAt, WakeAt, DrainAt;
    DrainersKeep(s, t);
  }

  // A new buffer of connection c.
  ghost predicate Grows(s: State, t: State) {
    && s.next !in s.bufs && t.bufs.Keys == s.bufs.Keys + {s.next} &&
      (forall x :: x in s.bufs ==> t.bufs[x] == s.bufs[x])
    && t.place.Keys == s.place.Keys + {s.next} && (forall x :: x in s.place && x != s.next ==> t.place[x] == s.place[x])
    && t.pcs == s.pcs && |t.conns| == |s.conns|
    && forall d: nat :: d < |s.conns| ==> t.conns[d].draining == s.conns[d].draining
  }

  lemma {:induction false} GrowsRest(s: State, t: State)
    requires GateOk(s) && Grows(s, t) && s.place.Keys == s.bufs.Keys
    ensures forall x :: x in s.bufs ==> WakeAt(t, x)
    ensures forall w: nat :: w < |t.pcs| ==> DrainAt(t, w)
    ensures DrainersStay(s, t)
  {
    hide ConnAt, OnceAt;
    forall x | x in s.bufs ensures WakeAt(t, x) { assert WakeAt(s, x); }
    forall v: nat | v < |t.pcs| ensures DrainAt(t, v) { assert DrainAt(s, v); }
    forall w: nat, d: nat ensures Drainer(t, w, d) <==> Drainer(s, w, d) {
      if w < |s.pcs| { assert DrainAt(s, w); }
    }
  }

  lemma {:induction false} GateInit(s: State, hasInit: bool, c: nat)
    requires Ordered(s) && GateOk(s) && Configured(s, hasInit) && c < |s.conns|
    ensures GateOk(ConnInit(s, hasInit, c)) && Configured(ConnInit(s, hasInit, c), hasInit)
  {
    var t := ConnInit(s, hasInit, c);
    assert s.next !in s.bufs;
    if hasInit {
      NoQueue(s, s.next);
      hide Ordered;
      GrowsRest(s, t);
      forall d: nat | d < |t.conns| ensures ConnAt(t, d) && OnceAt(t, d) { InitConns(s, c, d); }
      hide GateOk, DrainersStay, ConnAt, OnceAt, DrainAt;
      GateFrom(s, t);
    } else {
      InitQuietly(s, c);
    }
  }

  lemma {:induction false} InitConns(s: State, c: nat, d: nat)
    requires GateOk(s) && Configured(s, true) && c < |s.conns| && d < |s.conns| && s.next !in s.bufs &&
        WakeOf(s, s.next) == []
    requires s.place.Keys == s.bufs.Keys && DrainersStay(s, ConnInit(s, true, c))
    ensures ConnAt(ConnInit(s, true, c), d) && OnceAt(ConnInit(s, true, c), d)
  {
    assert ConnAt(s, d) && OnceAt(s, d);
    hide GateOk;
    var t := ConnInit(s, true, c);
    if s.conns[d].draining {
      var v: nat :| Drainer(s, v, d);
      assert Drainer(t, v, d);
    }
  }

  lemma {:induction false} InitQuietly(s: State, c: nat)
    requires GateOk(s) && Configured(s, false) && c < |s.conns|
    ensures GateOk(ConnInit(s, false, c)) && Configured(ConnInit(s, false, c), false)
  {
    var t := ConnInit(s, false, c);
    forall d: nat | d < |t.conns| ensures ConnAt(t, d) && OnceAt(t, d) {
      assert ConnAt(s, d) && OnceAt(s, d);
      if s.conns[d].draining {
        var v: nat :| Drainer(s, v, d);
        assert Drainer(t, v, d);
      }
    }
    forall x | x in t.bufs && x in t.place ensures WakeAt(t, x) { assert WakeAt(s, x); }
    forall w: nat | w < |t.pcs| ensures DrainAt(t, w) { assert DrainAt(s, w); }
    DrainersKeep(s, t);
  }

  lemma {:induction false} GateArrive(s: State, hasInit: bool, c: nat, id: nat, cls: Option<nat>)
    requires Ordered(s) && GateOk(s) && Configured(s, hasInit) && c < |s.conns| && s.conns[c].state &&
        !s.conns[c].draining
    ensures GateOk(Arrive(s, hasInit, c, id, cls)) && Configured(Arrive(s, hasInit, c, id, cls), hasInit)
  {
    var t := Arrive(s, hasInit, c, id, cls);
    assert s.next !in s.bufs;
    hide Ordered, ConnAt, OnceAt;
    GrowsRest(s, t);
    assert WakeAt(t, s.next) by { ArriveWake(s, hasInit, c, id, cls); }
    forall d: nat | d < |t.conns| ensures ConnAt(t, d) && OnceAt(t, d) { ArriveConns(s, hasInit, c, id, cls, d); }
    hide GateOk, DrainersStay, DrainAt, WakeAt;
    GateFrom(s, t);
  }

  lemma ArriveWake(s: State, hasInit: bool, c: nat, id: nat, cls: Option<nat>)
    requires GateOk(s) && c < |s.conns| && s.next !in s.bufs
    ensures WakeAt(Arrive(s, hasInit, c, id, cls), s.next)
  {
    hide OnceAt, WakeAt, DrainAt, DrainsAlone;
    assert ConnAt(s, c);
    hide GateOk;
    assert WakeAt(Arrive(s, hasInit, c, id, cls), s.next) by { NewWake(s, hasInit, c, id, cls); }
  }

  lemma NewWake(s: State, hasInit: bool, c: nat, id: nat, cls: Option<nat>)
    requires c < |s.conns| && s.next !in s.bufs && ConnAt(s, c)
    ensures WakeAt(Arrive(s, hasInit, c, id, cls), s.next)
  {
  }

  lemma {:induction false} ArriveConns(s: State, hasInit: bool, c: nat, id: nat, cls: Option<nat>, d: nat)
    requires GateOk(s) && Configured(s, hasInit) && c < |s.conns| && s.conns[c].state && !s.conns[c].draining
    requires d < |s.conns| && s.next !in s.bufs && s.place.Keys == s.bufs.Keys &&
        DrainersStay(s, Arrive(s, hasInit, c, id, cls))
    ensures ConnAt(Arrive(s, hasInit, c, id, cls), d) && OnceAt(Arrive(s, hasInit, c, id, cls), d)
  {
    assert ConnAt(s, d) && OnceAt(s, d) && ConnAt(s, c);
    hide GateOk, GateAt;
    var t := Arrive(s, hasInit, c, id, cls);
    if s.conns[d].draining {
      var v: nat :| Drainer(s, v, d);
      assert Drainer(t, v, d);
    }
    hide DrainersStay;
    if s.conns[d].inits <= 1 {
      if d == c {
        assert hasInit || s.conns[c].init.None?;
        ArriveHere(s, hasInit, c, id, cls);
      } else {
        ArriveElsewhere(s, hasInit, c, id, cls, d);
      }
    }
  }

  lemma {:induction false} ArriveHere(s: State, hasInit: bool, c: nat, id: nat, cls: Option<nat>)
    requires c < |s.conns| && GateAt(s, c) && !s.conns[c].draining && (hasInit || s.conns[c].init.None?)
    requires s.next !in s.bufs && s.place.Keys == s.bufs.Keys
    ensures GateAt(Arrive(s, hasInit, c, id, cls), c)
  {
    var t := Arrive(s, hasInit, c, id, cls);
    assert t.conns[c].arrived == t.conns[c].entered + Waiting(t, t.conns[c]);
  }

  lemma {:induction false} ArriveElsewhere(s: State, hasInit: bool, c: nat, id: nat, cls: Option<nat>, d: nat)
    requires c < |s.conns| && d < |s.conns| && c != d && GateAt(s, d) && ConnAt(s, c) && ConnAt(s, d)
    requires s.next !in s.bufs && s.place.Keys == s.bufs.Keys
    ensures GateAt(Arrive(s, hasInit, c, id, cls), d)
  {
  }

  lemma {:induction false} GateDrain(s: State, hasInit: bool, w: nat)
    requires Ordered(s) && GateOk(s) && DoDrain(s, hasInit, w).Some?
    ensures GateOk(DoDrain(s, hasInit, w).value)
  {
    hide Placed, Locked;
    var t := DoDrain(s, hasInit, w).value;
    var b := s.pcs[w].b;
    assert Drainer(t, w, s.bufs[b].conn);
    forall d: nat | d < |t.conns| ensures ConnAt(t, d) && OnceAt(t, d) {
      assert ConnAt(s, d) && OnceAt(s, d);
      if s.conns[d].draining {
        var v: nat :| Drainer(s, v, d);
        assert Drainer(t, v, d);
      }
    }
    forall x | x in t.bufs && x in t.place ensures WakeAt(t, x) { assert WakeAt(s, x); }
    forall v: nat | v < |t.pcs| ensures DrainAt(t, v) { assert DrainAt(s, v); }
    forall v: nat, x: nat, c: nat | Drainer(t, v, c) && Drainer(t, x, c) ensures v == x {
      if v != w { assert DrainAt(s, v) && Drainer(s, v, c); }
      if x != w { assert DrainAt(s, x) && Drainer(s, x, c); }
    }
  }

  lemma {:induction false} GateDrainOne(s: State, w: nat)
    requires Ordered(s) && GateOk(s) && DoDrainOne(s, w).Some?
    ensures GateOk(DoDrainOne(s, w).value)
  {
    var t := DoDrainOne(s, w).value;
    var p := s.pcs[w].b;
    AtPlace(s, Wake(p), 0);
    hide Ordered, ConnAt, OnceAt;
    assert DrainAt(s, w);
    forall v: nat, d: nat ensures Drainer(t, v, d) <==> Drainer(s, v, d) { }
    forall x | x in t.bufs && x in t.place ensures WakeAt(t, x) { assert x in s.place ==> WakeAt(s, x); }
    forall v: nat | v < |t.pcs| ensures DrainAt(t, v) { assert DrainAt(s, v); }
    forall d: nat | d < |t.conns| ensures ConnAt(t, d) && OnceAt(t, d) { DrainOneConns(s, w, d); }
    hide GateOk, WakeAt, DrainAt, Drainer;
    GateFrom(s, t);
  }

  lemma {:induction false} DrainOneConns(s: State, w: nat, d: nat)
    requires GateOk(s) && DoDrainOne(s, w).Some? && d < |s.conns| && s.bufs[s.pcs[w].b].id.None?
    requires s.conns[s.bufs[s.pcs[w].b].conn].draining && DrainersStay(s, DoDrainOne(s, w).value)
    requires var b := WakeOf(s, s.pcs[w].b)[0]; b in s.place && s.place[b] == Wake(s.pcs[w].b)
    ensures ConnAt(DoDrainOne(s, w).value, d) && OnceAt(DoDrainOne(s, w).value, d)
  {
    assert ConnAt(s, d) && OnceAt(s, d);
    hide GateOk;
    var t := DoDrainOne(s, w).value;
    if s.conns[d].draining {
      var v: nat :| Drainer(s, v, d);
      assert Drainer(t, v, d);
    }
    if d == s.bufs[s.pcs[w].b].conn && s.conns[d].inits <= 1 {
      assert t.conns[d].entered + Waiting(t, t.conns[d]) == s.conns[d].entered + Waiting(s, s.conns[d]);
    }
  }

  lemma NothingWaits(s: State, b: nat)
    requires Placed(s) && WakeOf(s, b) == []
    ensures forall x :: x in s.place ==> s.place[x] != Wake(b)
  {
    assert QueueOk(At(s, Wake(b)), s.place, Wake(b));
  }

  lemma {:induction false} GateDrainEnd(s: State, w: nat)
    requires Ordered(s) && GateOk(s) && DoDrainEnd(s, w).Some?
    ensures GateOk(DoDrainEnd(s, w).value)
  {
    var t := DoDrainEnd(s, w).value;
    var b := s.pcs[w].b;
    assert DrainAt(s, w);
    DrainersLeft(s, w);
    NothingWaits(s, b);
    hide Ordered;
    forall d: nat | d < |t.conns| ensures ConnAt(t, d) && OnceAt(t, d) { DrainEndConns(s, w, d); }
    hide ConnAt, OnceAt, DrainsAlone;
    forall x | x in t.bufs && x in t.place ensures WakeAt(t, x) { assert x in s.place ==> WakeAt(s, x); }
    forall v: nat | v < |t.pcs| ensures DrainAt(t, v) {
      assert DrainAt(s, v);
      if t.pcs[v].Draining? { assert Drainer(s, v, s.bufs[s.pcs[v].b].conn); }
    }
    assert DrainsAlone(t) by { DrainersKeep(s, t); }
  }

  // The other drainers are drainers of other connections.
  lemma {:induction false} DrainersLeft(s: State, w: nat)
    requires Locked(s) && GateOk(s) && DoDrainEnd(s, w).Some?
    ensures forall v: nat, d: nat ::
      Drainer(DoDrainEnd(s, w).value, v, d) <==> Drainer(s, v, d) && d != s.bufs[s.pcs[w].b].conn
    ensures forall v: nat :: v < |s.pcs| && v != w && s.pcs[v].Draining? ==> s.pcs[v].b != s.pcs[w].b
  {
    hide ConnAt, OnceAt, WakeAt;
    var t := DoDrainEnd(s, w).value;
    var b := s.pcs[w].b;
    assert DrainAt(s, w) && Drainer(s, w, s.bufs[b].conn);
    forall v: nat | v < |s.pcs| && v != w && s.pcs[v].Draining? ensures s.pcs[v].b != b {
      assert Owns(s.pcs[v], s.pcs[v].b) && Owns(s.pcs[w], b);
    }
  }

  lemma {:induction false} DrainEndConns(s: State, w: nat, d: nat)
    requires GateOk(s) && DoDrainEnd(s, w).Some? && d < |s.conns| && s.bufs[s.pcs[w].b].id.None? &&
        s.place.Keys == s.bufs.Keys
    requires forall v: nat, e: nat :: Drainer(DoDrainEnd(s, w).value, v, e) <==>
        Drainer(s, v, e) && e != s.bufs[s.pcs[w].b].conn
    ensures ConnAt(DoDrainEnd(s, w).value, d) && OnceAt(DoDrainEnd(s, w).value, d)
  {
    assert ConnAt(s, d) && OnceAt(s, d);
    hide GateOk;
    var t := DoDrainEnd(s, w).value;
    if d != s.bufs[s.pcs[w].b].conn && s.conns[d].draining {
      var v: nat :| Drainer(s, v, d);
      assert Drainer(t, v, d);
    }
  }

  lemma {:induction false} StepGate(s: State, hasInit: bool, a: Action)
    requires Ordered(s) && GateOk(s) && Configured(s, hasInit) && Step(s, hasInit, a).Some?
    ensures GateOk(Step(s, hasInit, a).value)
  {
    hide Ordered, Issue, ConnInit, Arrive, DoAnswer, DoReply, DoWakeup, DoDrain, DoDrainOne, DoDrainEnd, DoTake, DoLock,
      DoAgain, DoEnded, WithBusy, DoLeave, DoRefuse, DoWrite, GateOk, Configured;
    match a {
      case ReadyRequest(c) => GateReady(s, hasInit, c);
      case Query(c, id, cls) =>
        if s.conns[c].state {
          GateArrive(s, hasInit, c, id, cls);
        } else {
          GateInit(s, hasInit, c);
          AnyInitOrdered(s, hasInit, c);
          assert ConnInit(s, hasInit, c).conns[c].state && !ConnInit(s, hasInit, c).conns[c].draining
            && |ConnInit(s, hasInit, c).conns| == |s.conns| by { Initialised(s, hasInit, c); }
          GateArrive(ConnInit(s, hasInit, c), hasInit, c, id, cls);
        }
      case Take(w) => GateTake(s, w);
      case Leave(w) => GateLeave(s, w);
      case Answer(w) => GateAnswer(s, hasInit, w);
      case Ask(w, h, kind, cid, ph) =>
        BusyOrdered(s, w, Some(h));
        GateBusy(s, w, Some(h));
        GateIssue(WithBusy(s, w, Some(h)), w, kind, cid, ph);
      case Return(w) => GateBusy(s, w, None);
      case Refuse(w, h) => GateRefuse(s, w, h);
      case Drain(w) => GateDrain(s, hasInit, w);
      case DrainOne(w) => GateDrainOne(s, w);
      case DrainEnd(w) => GateDrainEnd(s, w);
      case Write(c) => GateWrite(s, c);
      case Reply(c, key) => GateReply(s, c, key);
      case Wakeup(c) => GateWakeup(s, c);
      case _ => GateMoves(s, hasInit, a);
    }
  }

  lemma Initialised(s: State, hasInit: bool, c: nat)
    requires c < |s.conns|
    ensures var t := ConnInit(s, hasInit, c);
      && |t.conns| == |s.conns| && t.conns[c].state && t.conns[c].draining == s.conns[c].draining
      && t.conns[c].version == s.conns[c].version && t.conns[c].asked == s.conns[c].asked &&
        t.conns[c].out == s.conns[c].out
      && t.conns[c].inits == s.conns[c].inits + (if hasInit then 1 else 0)
      && (t.conns[c].init.None? <==> !hasInit && s.conns[c].init.None?)
      && forall d :: 0 <= d < |s.conns| && d != c ==> t.conns[d] == s.conns[d]
  {
  }

  // A step that changes what is said and counted.
  lemma {:induction false} SameGateOk(s: State, t: State)
    requires GateOk(s) && |t.conns| == |s.conns| && s == t.(conns := s.conns)
    requires forall c: nat :: c < |s.conns| ==> SameGate(s.conns[c], t.conns[c])
    ensures GateOk(t)
  {
    forall c: nat | c < |t.conns| ensures ConnAt(t, c) && OnceAt(t, c) {
      assert ConnAt(s, c) && OnceAt(s, c);
      if s.conns[c].draining {
        var w: nat :| Drainer(s, w, c);
        assert Drainer(t, w, c);
      }
    }
    forall x | x in t.bufs && x in t.place ensures WakeAt(t, x) { assert WakeAt(s, x); }
    forall w: nat | w < |t.pcs| ensures DrainAt(t, w) { assert DrainAt(s, w); }
    DrainersKeep(s, t);
  }

  lemma {:induction false} GateReady(s: State, hasInit: bool, c: nat)
    requires Ordered(s) && GateOk(s) && Configured(s, hasInit) && DoReady(s, hasInit, c).Some?
    ensures GateOk(DoReady(s, hasInit, c).value)
  {
    hide Ordered, GateOk;
    SameOrdered(s, Asked(s, c));
    SameGateOk(s, Asked(s, c));
    GateInit(Asked(s, c), hasInit, c);
    if !hasInit { SameGateOk(ConnInit(Asked(s, c), hasInit, c), DoReady(s, hasInit, c).value); }
  }

  /* Configuration and READY */

  // Initialisation starts _init where it is configured, and nowhere else.
  ghost predicate Configured(s: State, hasInit: bool) {
    forall c: nat :: c < |s.conns| ==>
      if hasInit then s.conns[c].state ==> s.conns[c].inits > 0 else s.conns[c].init.None? && s.conns[c].inits == 0
  }

  function Readies(out: seq<Msg>): nat {
    if out == [] then 0 else Readies(out[..|out| - 1]) + if out[|out| - 1].ReadyAnswer? then 1 else 0
  }

  lemma ReadiesSay(out: seq<Msg>, m: Msg)
    ensures Readies(out + [m]) == Readies(out) + if m.ReadyAnswer? then 1 else 0
  {
    assert (out + [m])[..|out|] == out;
  }

  // What is promised: READY is answered once when a connection of version 3 or
  // later is ready, and not before; never on an earlier version.
  predicate Promised(k: Conn) { Readies(k.out) == if k.version > 2 && k.state && k.init.None? then 1 else 0 }

  // What is kept: without _init, one READY for every READY request; with _init,
  // what is promised, if _init was started once at most.
  predicate ReadyAt(k: Conn, hasInit: bool) {
    && k.inits <= k.asked + (if k.version > 2 then 0 else 1)
    && (!hasInit ==> Readies(k.out) == k.asked)
    && (!hasInit && k.version > 2 && k.state ==> k.asked > 0)
    && (hasInit && k.version <= 2 ==> Readies(k.out) == 0)
    && (hasInit && k.version > 2 && k.inits <= 1 ==> Promised(k))
    && (!k.state ==> k.asked == 0)
  }

  ghost predicate ReadyOk(s: State, hasInit: bool) { forall c: nat :: c < |s.conns| ==> ReadyAt(s.conns[c], hasInit) }

  predicate SaysQuietly(k: Conn, l: Conn) {
    && l.version == k.version && l.state == k.state && l.init == k.init && l.asked == k.asked && l.inits == k.inits
    && (l.out == k.out || (|l.out| == |k.out| + 1 && l.out[..|k.out|] == k.out && !l.out[|k.out|].ReadyAnswer?))
  }

  lemma ReadyQuiet(k: Conn, l: Conn, hasInit: bool)
    requires ReadyAt(k, hasInit) && SaysQuietly(k, l)
    ensures ReadyAt(l, hasInit)
  {
    if l.out != k.out {
      assert l.out == k.out + [l.out[|k.out|]];
      ReadiesSay(k.out, l.out[|k.out|]);
    }
  }

  // A step that says no READY and opens no gate.
  lemma {:induction false} ReadyKeep(s: State, t: State, hasInit: bool)
    requires ReadyOk(s, hasInit) && Configured(s, hasInit) && |t.conns| == |s.conns|
    requires forall c: nat :: c < |s.conns| ==> SaysQuietly(s.conns[c], t.conns[c])
    ensures ReadyOk(t, hasInit) && Configured(t, hasInit)
  {
    hide ReadyAt;
    forall c: nat | c < |t.conns| ensures ReadyAt(t.conns[c], hasInit) {
      ReadyQuiet(s.conns[c], t.conns[c], hasInit);
    }
  }

  lemma {:induction false} ReadyReady(s: State, hasInit: bool, c: nat)
    requires ReadyOk(s, hasInit) && GateOk(s) && Configured(s, hasInit) && DoReady(s, hasInit, c).Some?
    ensures ReadyOk(DoReady(s, hasInit, c).value, hasInit) && Configured(DoReady(s, hasInit, c).value, hasInit)
  {
    hide Readies, GateAt;
    assert ConnAt(s, c);
    hide GateOk;
    Initialised(Asked(s, c), hasInit, c);
    ReadiesSay(s.conns[c].out, ReadyAnswer);
    assert ReadyAt(s.conns[c], hasInit);
  }

  lemma {:induction false} ReadyQuery(s: State, hasInit: bool, c: nat, id: nat, cls: Option<nat>)
    requires ReadyOk(s, hasInit) && GateOk(s) && Configured(s, hasInit) && DoQuery(s, hasInit, c, id, cls).Some?
    ensures ReadyOk(DoQuery(s, hasInit, c, id, cls).value, hasInit) &&
        Configured(DoQuery(s, hasInit, c, id, cls).value, hasInit)
  {
    hide ReadyOk, GateOk, Configured, ConnInit, Arrive;
    if s.conns[c].state {
      ReadyArrive(s, hasInit, c, id, cls);
    } else {
      ReadyFirst(s, hasInit, c);
      Initialised(s, hasInit, c);
      ReadyArrive(ConnInit(s, hasInit, c), hasInit, c, id, cls);
    }
  }

  lemma ReadyArrive(s: State, hasInit: bool, c: nat, id: nat, cls: Option<nat>)
    requires ReadyOk(s, hasInit) && Configured(s, hasInit) && c < |s.conns|
    ensures ReadyOk(Arrive(s, hasInit, c, id, cls), hasInit) && Configured(Arrive(s, hasInit, c, id, cls), hasInit)
  {
    hide ReadyOk, Configured;
    ReadyKeep(s, Arrive(s, hasInit, c, id, cls), hasInit);
  }

  // The first query of an old connection.
  lemma {:induction false} ReadyFirst(s: State, hasInit: bool, c: nat)
    requires ReadyOk(s, hasInit) && GateOk(s) && Configured(s, hasInit) && c < |s.conns| && !s.conns[c].state &&
        s.conns[c].version < 3
    ensures ReadyOk(ConnInit(s, hasInit, c), hasInit) && Configured(ConnInit(s, hasInit, c), hasInit)
  {
    assert ConnAt(s, c) && ReadyAt(s.conns[c], hasInit);
    hide Readies, GateOk, ConnInit;
    Initialised(s, hasInit, c);
  }

  lemma {:induction false} ReadyDrained(s: State, hasInit: bool, w: nat)
    requires ReadyOk(s, hasInit) && GateOk(s) && Configured(s, hasInit) && DoDrainEnd(s, w).Some?
    ensures ReadyOk(DoDrainEnd(s, w).value, hasInit) && Configured(DoDrainEnd(s, w).value, hasInit)
  {
    hide Readies;
    var b := s.pcs[w].b;
    var c := s.bufs[b].conn;
    assert DrainAt(s, w);
    assert ConnAt(s, c) && OnceAt(s, c);
    hide GateOk;
    ReadiesSay(s.conns[c].out, ReadyAnswer);
    assert ReadyAt(s.conns[c], hasInit);
  }

  lemma {:induction false} StepReady(s: State, hasInit: bool, a: Action)
    requires Ordered(s) && GateOk(s) && Configured(s, hasInit) && ReadyOk(s, hasInit) && Step(s, hasInit, a).Some?
    ensures ReadyOk(Step(s, hasInit, a).value, hasInit) && Configured(Step(s, hasInit, a).value, hasInit)
  {
    hide Ordered, GateOk, ReadyOk, Configured, ConnInit, DoDrainEnd, DoQuery, DoReady, FindWaiter, Locks;
    match a {
      case ReadyRequest(c) => ReadyReady(s, hasInit, c);
      case Query(c, id, cls) => ReadyQuery(s, hasInit, c, id, cls);
      case DrainEnd(w) => ReadyDrained(s, hasInit, w);
      case _ => ReadyOther(s, hasInit, a);
    }
  }

  lemma {:induction false} ReadyOther(s: State, hasInit: bool, a: Action)
    requires ReadyOk(s, hasInit) && Configured(s, hasInit) && Step(s, hasInit, a).Some?
    requires !a.ReadyRequest? && !a.Query? && !a.DrainEnd?
    ensures ReadyOk(Step(s, hasInit, a).value, hasInit) && Configured(Step(s, hasInit, a).value, hasInit)
  {
    hide ReadyOk, Configured, FindWaiter, Locks;
    Quiet(s, hasInit, a);
    ReadyKeep(s, Step(s, hasInit, a).value, hasInit);
  }

  lemma {:induction false} Quiet(s: State, hasInit: bool, a: Action)
    requires Step(s, hasInit, a).Some? && !a.ReadyRequest? && !a.Query? && !a.DrainEnd?
    ensures var t := Step(s, hasInit, a).value;
      |t.conns| == |s.conns| && forall c: nat :: c < |s.conns| ==> SaysQuietly(s.conns[c], t.conns[c])
  {
    hide FindWaiter, Locks, Issue, DoAnswer, DoReply;
    if a.Ask? {
      QuietIssue(WithBusy(s, a.w, Some(a.h)), a.w, a.kind, a.cid, a.ph);
    } else if a.Answer? {
      QuietAnswer(s, hasInit, a.w);
    } else if a.Reply? {
      QuietReply(s, a.c, a.key);
    }
  }

  lemma QuietIssue(s: State, w: nat, kind: Kind, cid: nat, ph: nat)
    requires Runs(s, w)
    ensures var t := Issue(s, w, kind, cid, ph);
      |t.conns| == |s.conns| && forall c: nat :: c < |s.conns| ==> SaysQuietly(s.conns[c], t.conns[c])
  {
  }

  lemma QuietAnswer(s: State, hasInit: bool, w: nat)
    requires DoAnswer(s, hasInit, w).Some?
    ensures var t := DoAnswer(s, hasInit, w).value;
      |t.conns| == |s.conns| && forall c: nat :: c < |s.conns| ==> SaysQuietly(s.conns[c], t.conns[c])
  {
  }

  lemma QuietReply(s: State, c: nat, key: Key)
    requires DoReply(s, c, key).Some?
    ensures var t := DoReply(s, c, key).value;
      |t.conns| == |s.conns| && forall d: nat :: d < |s.conns| ==> SaysQuietly(s.conns[d], t.conns[d])
  {
    hide FindWaiter, MayReply;
  }
}
