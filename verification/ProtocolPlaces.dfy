/** In every interleaving a live buffer is in one place, and a freed one in none. */
module ProtocolPlaces {
  import opened Lists
  import opened Protocol

  function Held(pc: Pc): seq<nat> { if pc.Taken? || pc.Running? || pc.Draining? then [pc.b] else [] }

  // The buffers at a place, in order.
  function At(s: State, p: Place): seq<nat> {
    match p
    case Todo => s.todo
    case Wake(b) => WakeOf(s, b)
    case Wait(c) => if c < |s.conns| then s.conns[c].waitq else []
    case Reader(c) => if c < |s.conns| && s.conns[c].reader.Some? then [s.conns[c].reader.value] else []
    case Worker(w) => if w < |s.pcs| then Held(s.pcs[w]) else []
  }

  predicate NoDup(q: seq<nat>) { forall i, j :: 0 <= i < j < |q| ==> q[i] != q[j] }

  // The place map says of every buffer where it is.
  ghost predicate QueueOk(q: seq<nat>, place: map<nat, Place>, p: Place) {
    NoDup(q) && forall b :: b in q <==> b in place && place[b] == p
  }

  ghost predicate Placed(s: State) {
    s.place.Keys == s.bufs.Keys && forall p :: QueueOk(At(s, p), s.place, p)
  }

  predicate Home(p: Place, c: nat) {
    match p
    case Wait(d) => d == c
    case Reader(d) => d == c
    case _ => true
  }

  // Buffers wait only at their own connection.
  ghost predicate Based(s: State) {
    && (forall b :: b in s.bufs ==> b < s.next && s.bufs[b].conn < |s.conns|)
    && (forall b :: b in s.bufs && b in s.place ==> Home(s.place[b], s.bufs[b].conn))
  }

  predicate Owns(pc: Pc, b: nat) { (pc.Running? || pc.Leaving? || pc.Draining?) && pc.b == b }

  // A buffer is handled by one worker at a time.
  ghost predicate Locked(s: State) {
    && (forall v, w, b :: 0 <= v < |s.pcs| && 0 <= w < |s.pcs| && Owns(s.pcs[v], b) && Owns(s.pcs[w], b) ==> v == w)
    && (forall w, b :: 0 <= w < |s.pcs| && Owns(s.pcs[w], b) ==> b in s.bufs)
  }

  ghost predicate Ordered(s: State) { Placed(s) && Based(s) && Locked(s) }

  /* Moves */

  predicate Gone(q: seq<nat>, q': seq<nat>, b: nat) {
    exists n :: 0 <= n < |q| && q[n] == b && q' == q[..n] + q[n + 1..]
  }

  lemma {:induction false} GoneOk(q: seq<nat>, q': seq<nat>, b: nat, place: map<nat, Place>, place': map<nat, Place>,
      p: Place)
    requires QueueOk(q, place, p) && Gone(q, q', b)
    requires forall x :: x != b ==> (x in place' <==> x in place) && (x in place ==> place'[x] == place[x])
    requires b in place' ==> place'[b] != p
    ensures QueueOk(q', place', p)
  {
    var n :| 0 <= n < |q| && q[n] == b && q' == q[..n] + q[n + 1..];
    forall x ensures x in q' <==> x in q && x != b {
      if x in q && x != b {
        var k :| 0 <= k < |q| && q[k] == x;
        assert q'[if k < n then k else k - 1] == x;
      }
    }
  }

  lemma {:induction false} JoinOk(q: seq<nat>, b: nat, place: map<nat, Place>, place': map<nat, Place>, p: Place)
    requires QueueOk(q, place, p) && b !in q
    requires forall x :: x != b ==> (x in place' <==> x in place) && (x in place ==> place'[x] == place[x])
    requires b in place' && place'[b] == p
    ensures QueueOk(q + [b], place', p)
  {
    forall x ensures x in q + [b] <==> x in q || x == b { }
  }

  lemma StayOk(q: seq<nat>, b: nat, place: map<nat, Place>, place': map<nat, Place>, p: Place)
    requires QueueOk(q, place, p)
    requires forall x :: x != b ==> (x in place' <==> x in place) && (x in place ==> place'[x] == place[x])
    requires b in place ==> place[b] != p
    requires b in place' ==> place'[b] != p
    ensures QueueOk(q, place', p)
  {
  }

  // A buffer goes from one place to the end of another.
  lemma {:induction false} Moves(s: State, t: State, b: nat, p: Place, p': Place)
    requires Placed(s) && b in s.place && s.place[b] == p && p != p'
    requires t.place == s.place[b := p'] && t.bufs.Keys == s.bufs.Keys
    requires Gone(At(s, p), At(t, p), b) && At(t, p') == At(s, p') + [b]
    requires forall q :: q != p && q != p' ==> At(t, q) == At(s, q)
    ensures Placed(t)
  {
    hide At, QueueOk, Gone;
    forall q ensures QueueOk(At(t, q), t.place, q) {
      if q == p {
        GoneOk(At(s, p), At(t, p), b, s.place, t.place, p);
      } else if q == p' {
        NotAt(At(s, p'), s.place, p', b);
        JoinOk(At(s, p'), b, s.place, t.place, p');
      } else {
        StayOk(At(s, q), b, s.place, t.place, q);
      }
    }
  }

  lemma NotAt(q: seq<nat>, place: map<nat, Place>, p: Place, b: nat)
    requires QueueOk(q, place, p) && (b in place ==> place[b] != p)
    ensures b !in q
  {
  }

  // A new buffer.
  lemma {:induction false} Appears(s: State, t: State, b: nat, p': Place)
    requires Placed(s) && b !in s.place
    requires t.place == s.place[b := p'] && t.bufs.Keys == s.bufs.Keys + {b}
    requires At(t, p') == At(s, p') + [b]
    requires forall q :: q != p' ==> At(t, q) == At(s, q)
    ensures Placed(t)
  {
    hide At, QueueOk;
    forall q ensures QueueOk(At(t, q), t.place, q) {
      if q == p' {
        NotAt(At(s, p'), s.place, p', b);
        JoinOk(At(s, p'), b, s.place, t.place, p');
      } else {
        StayOk(At(s, q), b, s.place, t.place, q);
      }
    }
  }

  // A freed buffer.
  lemma {:induction false} Vanishes(s: State, t: State, b: nat, p: Place)
    requires Placed(s) && b in s.place && s.place[b] == p
    requires t.place == s.place - {b} && t.bufs.Keys == s.bufs.Keys - {b}
    requires Gone(At(s, p), At(t, p), b)
    requires forall q :: q != p ==> At(t, q) == At(s, q)
    ensures Placed(t)
  {
    hide At, QueueOk, Gone;
    forall q ensures QueueOk(At(t, q), t.place, q) {
      if q == p {
        GoneOk(At(s, p), At(t, p), b, s.place, t.place, p);
      } else {
        StayOk(At(s, q), b, s.place, t.place, q);
      }
    }
  }

  lemma Still(s: State, t: State)
    requires Placed(s) && t.place == s.place && t.bufs.Keys == s.bufs.Keys && forall p :: At(t, p) == At(s, p)
    ensures Placed(t)
  {
    hide At, QueueOk;
  }

  lemma GoneFirst(q: seq<nat>)
    requires q != []
    ensures Gone(q, q[1..], q[0])
  {
    assert q[1..] == q[..0] + q[1..];
  }

  lemma GoneOnly(b: nat)
    ensures Gone([b], [], b)
  {
    assert [b][..0] + [b][1..] == [];
  }

  // A worker that has b has it at its place.
  lemma HasIt(s: State, w: nat)
    requires Placed(s) && w < |s.pcs| && (s.pcs[w].Taken? || s.pcs[w].Running? || s.pcs[w].Draining?)
    ensures s.pcs[w].b in s.place && s.place[s.pcs[w].b] == Worker(w) && s.pcs[w].b in s.bufs
    ensures At(s, Worker(w)) == [s.pcs[w].b]
  {
    assert QueueOk(At(s, Worker(w)), s.place, Worker(w));
    assert s.pcs[w].b in At(s, Worker(w));
  }

  /* Every step keeps the order. */

  lemma {:induction false} InitOrdered(s: State, c: nat)
    requires Ordered(s) && c < |s.conns|
    ensures Ordered(ConnInit(s, true, c))
  {
    var t := ConnInit(s, true, c);
    assert s.next !in s.bufs;
    hide QueueOk;
    Appears(s, t, s.next, Todo);
  }

  // comm_conn_init with or without _init, for a READY request or a first query.
  lemma {:induction false} AnyInitOrdered(s: State, hasInit: bool, c: nat)
    requires Ordered(s) && c < |s.conns|
    ensures Ordered(ConnInit(s, hasInit, c))
  {
    hide Ordered;
    if hasInit { InitOrdered(s, c); } else { SameOrdered(s, ConnInit(s, false, c)); }
  }

  lemma {:induction false} ReadyOrdered(s: State, hasInit: bool, c: nat)
    requires Ordered(s) && DoReady(s, hasInit, c).Some?
    ensures Ordered(DoReady(s, hasInit, c).value)
  {
    hide Ordered;
    SameOrdered(s, Asked(s, c));
    AnyInitOrdered(Asked(s, c), hasInit, c);
    if !hasInit {
      SameOrdered(ConnInit(Asked(s, c), hasInit, c), DoReady(s, hasInit, c).value);
    }
  }

  lemma {:induction false} ArriveOrdered(s: State, hasInit: bool, c: nat, id: nat, cls: Option<nat>)
    requires Ordered(s) && c < |s.conns|
    ensures Ordered(Arrive(s, hasInit, c, id, cls))
  {
    hide Placed;
    ArrivePlaced(s, hasInit, c, id, cls);
    assert s.next !in s.bufs;
  }

  lemma {:induction false} ArrivePlaced(s: State, hasInit: bool, c: nat, id: nat, cls: Option<nat>)
    requires Ordered(s) && c < |s.conns|
    ensures Placed(Arrive(s, hasInit, c, id, cls))
  {
    hide QueueOk, Locked;
    var t := Arrive(s, hasInit, c, id, cls);
    assert s.next !in s.bufs;
    if hasInit && s.conns[c].init.Some? {
      Appears(s, t, s.next, Wake(s.conns[c].init.value));
    } else {
      assert t.todo == s.todo + [s.next];
      Appears(s, t, s.next, Todo);
    }
  }

  lemma {:induction false} TakeOrdered(s: State, w: nat)
    requires Ordered(s) && DoTake(s, w).Some?
    ensures Ordered(DoTake(s, w).value)
  {
    var t := DoTake(s, w).value;
    assert QueueOk(At(s, Todo), s.place, Todo) && s.todo[0] in At(s, Todo);
    hide QueueOk, Gone;
    GoneFirst(s.todo);
    Moves(s, t, s.todo[0], Todo, Worker(w));
  }

  lemma {:induction false} LockOrdered(s: State, w: nat)
    requires Ordered(s) && DoLock(s, w).Some?
    ensures Ordered(DoLock(s, w).value)
  {
    var t := DoLock(s, w).value;
    HasIt(s, w);
    hide QueueOk;
    Still(s, t);
    forall v, b | 0 <= v < |s.pcs| && v != w && Owns(t.pcs[v], b) ensures b != s.pcs[w].b {
      if s.pcs[v].Draining? { HasIt(s, v); }
    }
  }

  // A worker puts its buffer back into comm_todo.
  lemma {:induction false} BackOrdered(s: State, w: nat, x: Buf)
    requires Ordered(s) && Runs(s, w) && x.conn == s.bufs[s.pcs[w].b].conn
    ensures Ordered(PutTodo(WithPc(s, w, Idle).(bufs := s.bufs[s.pcs[w].b := x]), s.pcs[w].b))
  {
    var b := s.pcs[w].b;
    var t := PutTodo(WithPc(s, w, Idle).(bufs := s.bufs[b := x]), b);
    HasIt(s, w);
    hide QueueOk, Gone;
    GoneOnly(b);
    Moves(s, t, b, Worker(w), Todo);
  }

  // A handler is suspended in a buffer, or no longer.
  lemma {:induction false} BusyOrdered(s: State, w: nat, busy: Option<nat>)
    requires Ordered(s) && Runs(s, w)
    ensures Ordered(WithBusy(s, w, busy)) && Runs(WithBusy(s, w, busy), w)
  {
    hide QueueOk;
    Still(s, WithBusy(s, w, busy));
  }

  lemma {:induction false} IssueOrdered(s: State, w: nat, kind: Kind, cid: nat, ph: nat)
    requires Ordered(s) && Runs(s, w)
    ensures Ordered(Issue(s, w, kind, cid, ph))
  {
    hide Placed;
    IssuePlaced(s, w, kind, cid, ph);
  }

  lemma {:induction false} IssuePlaced(s: State, w: nat, kind: Kind, cid: nat, ph: nat)
    requires Placed(s) && Runs(s, w)
    ensures Placed(Issue(s, w, kind, cid, ph))
  {
    var b := s.pcs[w].b;
    var t := Issue(s, w, kind, cid, ph);
    HasIt(s, w);
    hide QueueOk, Gone;
    GoneOnly(b);
    Moves(s, t, b, Worker(w), Wait(s.bufs[b].conn));
  }

  // The worker that has a buffer frees it.
  lemma {:induction false} FreeOrdered(s: State, t: State, w: nat)
    requires Ordered(s) && w < |s.pcs| && (s.pcs[w].Running? || s.pcs[w].Draining?)
    requires t.bufs == s.bufs - {s.pcs[w].b} && t.place == s.place - {s.pcs[w].b} && t.pcs == s.pcs[w := Idle]
    requires t.todo == s.todo && t.wakes == s.wakes && t.next == s.next && |t.conns| == |s.conns|
    requires forall c :: 0 <= c < |s.conns| ==>
        t.conns[c].waitq == s.conns[c].waitq && t.conns[c].reader == s.conns[c].reader
    ensures Ordered(t)
  {
    var b := s.pcs[w].b;
    HasIt(s, w);
    hide QueueOk, Gone;
    GoneOnly(b);
    Vanishes(s, t, b, Worker(w));
  }

  // A buffer that waits for itself.
  lemma {:induction false} RefuseOrdered(s: State, w: nat, h: nat)
    requires Ordered(s) && DoRefuse(s, w, h).Some?
    ensures Ordered(DoRefuse(s, w, h).value)
  {
    var b := s.pcs[w].b;
    var t := DoRefuse(s, w, h).value;
    HasIt(s, w);
    hide QueueOk, Gone;
    GoneOnly(b);
    Moves(s, t, b, Worker(w), Wake(b));
  }

  lemma {:induction false} LeaveOrdered(s: State, w: nat)
    requires Ordered(s) && DoLeave(s, w).Some?
    ensures Ordered(DoLeave(s, w).value)
  {
    hide QueueOk;
    Still(s, DoLeave(s, w).value);
  }

  lemma {:induction false} DrainOrdered(s: State, hasInit: bool, w: nat)
    requires Ordered(s) && DoDrain(s, hasInit, w).Some?
    ensures Ordered(DoDrain(s, hasInit, w).value)
  {
    hide QueueOk;
    Still(s, DoDrain(s, hasInit, w).value);
  }

  lemma {:induction false} DrainOneOrdered(s: State, w: nat)
    requires Ordered(s) && DoDrainOne(s, w).Some?
    ensures Ordered(DoDrainOne(s, w).value)
  {
    hide Placed;
    DrainOnePlaced(s, w);
  }

  lemma {:induction false} DrainOnePlaced(s: State, w: nat)
    requires Ordered(s) && DoDrainOne(s, w).Some?
    ensures Placed(DoDrainOne(s, w).value)
  {
    hide QueueOk, Gone, Locked, Home;
    var p := s.pcs[w].b;
    var q := WakeOf(s, p);
    var t := DoDrainOne(s, w).value;
    AtPlace(s, Wake(p), 0);
    GoneFirst(q);
    assert At(t, Wake(p)) == q[1..];
    assert At(t, Todo) == At(s, Todo) + [q[0]];
    Moves(s, t, q[0], Wake(p), Todo);
  }

  lemma {:induction false} ReplyOrdered(s: State, c: nat, key: Key)
    requires Ordered(s) && DoReply(s, c, key).Some?
    ensures Ordered(DoReply(s, c, key).value)
  {
    hide QueueOk, FindWaiter;
    var t := DoReply(s, c, key).value;
    var q := s.conns[c].waitq;
    var n := FindWaiter(s.bufs, q, key);
    if n < |q| {
      AtPlace(s, Wait(c), n);
      ReplyPlaced(s, c, key, n);
    } else {
      Still(s, t);
    }
  }

  lemma AtPlace(s: State, p: Place, n: nat)
    requires Placed(s) && n < |At(s, p)|
    ensures At(s, p)[n] in s.place && s.place[At(s, p)[n]] == p && At(s, p)[n] in s.bufs
  {
    assert QueueOk(At(s, p), s.place, p);
    assert At(s, p)[n] in At(s, p);
  }

  lemma {:induction false} ReplyPlaced(s: State, c: nat, key: Key, n: nat)
    requires Ordered(s) && DoReply(s, c, key).Some? &&
        n == FindWaiter(s.bufs, s.conns[c].waitq, key) < |s.conns[c].waitq|
    ensures Placed(DoReply(s, c, key).value)
  {
    hide QueueOk, FindWaiter, Locked;
    var t := DoReply(s, c, key).value;
    var q := s.conns[c].waitq;
    AtPlace(s, Wait(c), n);
    assert Gone(At(s, Wait(c)), At(t, Wait(c)), q[n]);
    assert At(t, Reader(c)) == At(s, Reader(c)) + [q[n]];
    Moves(s, t, q[n], Wait(c), Reader(c));
  }

  lemma {:induction false} WakeupOrdered(s: State, c: nat)
    requires Ordered(s) && DoWakeup(s, c).Some?
    ensures Ordered(DoWakeup(s, c).value)
  {
    var t := DoWakeup(s, c).value;
    var b := s.conns[c].reader.value;
    assert QueueOk(At(s, Reader(c)), s.place, Reader(c)) && b in At(s, Reader(c));
    hide QueueOk, Gone;
    GoneOnly(b);
    Moves(s, t, b, Reader(c), Todo);
  }

  lemma {:induction false} SameOrdered(s: State, t: State)
    requires Ordered(s) && t.bufs == s.bufs && t.place == s.place && t.todo == s.todo && t.pcs == s.pcs &&
        t.next == s.next
    requires t.wakes == s.wakes && |t.conns| == |s.conns|
    requires forall c :: 0 <= c < |s.conns| ==>
        t.conns[c].waitq == s.conns[c].waitq && t.conns[c].reader == s.conns[c].reader
    ensures Ordered(t)
  {
    hide QueueOk;
    Still(s, t);
  }

  lemma {:induction false} StepOrdered(s: State, hasInit: bool, a: Action)
    requires Ordered(s) && Step(s, hasInit, a).Some?
    ensures Ordered(Step(s, hasInit, a).value)
  {
    hide Ordered;
    match a {
      case ReadyRequest(c) => ReadyOrdered(s, hasInit, c);
      case Query(c, id, cls) =>
        if s.conns[c].state {
          ArriveOrdered(s, hasInit, c, id, cls);
        } else {
          AnyInitOrdered(s, hasInit, c);
          ArriveOrdered(ConnInit(s, hasInit, c), hasInit, c, id, cls);
        }
      case Take(w) => TakeOrdered(s, w);
      case Lock(w) => LockOrdered(s, w);
      case Again(w, h, ph) => BackOrdered(s, w, s.bufs[s.pcs[w].b].(phase := ph, busy := Some(h)));
      case Ended(w, result) => BackOrdered(s, w, s.bufs[s.pcs[w].b].(phase := 1000, result := result));
      case Ask(w, h, kind, cid, ph) =>
        BusyOrdered(s, w, Some(h));
        IssueOrdered(WithBusy(s, w, Some(h)), w, kind, cid, ph);
      case Return(w) => BusyOrdered(s, w, None);
      case Answer(w) =>
        var x := s.bufs[s.pcs[w].b];
        if x.phase == 1000 && x.result >= 0 && x.cls.Some? {
          IssueOrdered(s, w, Update, x.cls.value, 1003);
        } else {
          FreeOrdered(s, Step(s, hasInit, a).value, w);
        }
      case Refuse(w, h) => RefuseOrdered(s, w, h);
      case Leave(w) => LeaveOrdered(s, w);
      case Drain(w) => DrainOrdered(s, hasInit, w);
      case DrainOne(w) => DrainOneOrdered(s, w);
      case DrainEnd(w) => FreeOrdered(s, Step(s, hasInit, a).value, w);
      case Write(c) => SameOrdered(s, Step(s, hasInit, a).value);
      case Reply(c, key) => ReplyOrdered(s, c, key);
      case Wakeup(c) => WakeupOrdered(s, c);
    }
  }
}
