/** Readers, workers and writers as one state machine. A step is what a thread
    does under a lock (constable/comm.c:169-351, constable/mcp/mcp.c:479-1118,
    constable/comm_buf.c:125-149). What do_event does to the event itself is the
    matter of the module Events; here it ends, goes on, or asks the kernel. */
module Protocol {
  import opened Lists

  datatype Kind = Fetch | Update

  // What a waiter waits for: class id and sequence number of its request.
  datatype Key = Key(kind: Kind, cid: nat, num: nat)

  datatype Msg = AuthAnswer(id: nat, result: int) | Request(key: Key) | ReadyAnswer

  // comm_buffer_s. id is the kernel's request id; the buffer of _init has none.
  // cls is the class id of the subject, if it has one; busy is the handler, with
  // its context, that is suspended in the buffer (execute.h and execute.c).
  datatype Buf = Buf(conn: nat, id: Option<nat>, cls: Option<nat>, phase: nat, result: int, key: Option<Key>,
                     busy: Option<nat>)

  // Where a buffer is: in comm_todo, in the to_wake queue of a buffer, in
  // wait_for_answer, with the reader that has found it, or with a worker.
  datatype Place = Todo | Wake(p: nat) | Wait(c: nat) | Reader(c: nat) | Worker(w: nat)

  // A worker: has taken a buffer, has its lock, has passed it on but not yet
  // unlocked it, or moves to_wake into comm_todo under state_lock.
  datatype Pc = Idle | Taken(b: nat) | Running(b: nat) | Leaving(b: nat, phase: nat) | Draining(b: nat)

  // comm_s. out holds every message ever put into the output queue, of which the
  // writer has sent the first sent; arrived and entered are the requests in the
  // order of their arrival and of their first entry into comm_todo; asked counts
  // the READY requests, inits how often _init was started, ended how often one came
  // for its answer.
  datatype Conn = Conn(version: nat, state: bool, init: Option<nat>, draining: bool,
                       reader: Option<nat>, waitq: seq<nat>, out: seq<Msg>, sent: nat,
                       ids: set<nat>, replied: set<Key>, arrived: seq<nat>, entered: seq<nat>,
                       asked: nat, inits: nat, ended: nat)

  // wakes holds the to_wake queues.
  datatype State = State(bufs: map<nat, Buf>, place: map<nat, Place>, todo: seq<nat>, wakes: map<nat, seq<nat>>,
                         conns: seq<Conn>, pcs: seq<Pc>, fetches: nat, updates: nat, next: nat)

  datatype Action =
    | ReadyRequest(c: nat)                       // MEDUSA_COMM_READY_REQUEST
    | Query(c: nat, id: nat, cls: Option<nat>)   // a decision request
    | Take(w: nat) | Lock(w: nat)
    | Again(w: nat, h: nat, ph: nat)             // a handler returns 1, and do_event too
    | Ask(w: nat, h: nat, kind: Kind, cid: nat, ph: nat) // a handler fetches or updates
    | Return(w: nat)                             // the suspended handler goes on and returns
    | Refuse(w: nat, h: nat)                     // handler h is to run, and another is suspended
    | Ended(w: nat, result: int)                 // do_event returns 0 or less
    | Answer(w: nat) | Leave(w: nat)
    | Drain(w: nat) | DrainOne(w: nat) | DrainEnd(w: nat)
    | Write(c: nat)
    | Reply(c: nat, key: Key) | Wakeup(c: nat)   // a fetch or update answer

  /* Buffers move from place to place. In between a buffer is in hand: it is live
     and nowhere. */

  function WithConn(s: State, c: nat, k: Conn): State
    requires c < |s.conns|
  {
    s.(conns := s.conns[c := k])
  }

  function WithPc(s: State, w: nat, pc: Pc): State
    requires w < |s.pcs|
  {
    s.(pcs := s.pcs[w := pc])
  }

  function PutTodo(s: State, b: nat): State { s.(todo := s.todo + [b], place := s.place[b := Todo]) }

  function PutWait(s: State, b: nat, c: nat): State
    requires c < |s.conns|
  {
    WithConn(s, c, s.conns[c].(waitq := s.conns[c].waitq + [b])).(place := s.place[b := Wait(c)])
  }

  function WakeOf(s: State, p: nat): seq<nat> { if p in s.wakes then s.wakes[p] else [] }

  function PutWake(s: State, b: nat, p: nat): State {
    s.(wakes := s.wakes[p := WakeOf(s, p) + [b]], place := s.place[b := Wake(p)])
  }

  function Say(s: State, c: nat, m: Msg): State
    requires c < |s.conns|
  {
    WithConn(s, c, s.conns[c].(out := s.conns[c].out + [m]))
  }

  /* The steps. None if a step cannot be taken now. */

  // comm_conn_init: with _init configured, its buffer goes first.
  function ConnInit(s: State, hasInit: bool, c: nat): State
    requires c < |s.conns|
  {
    if hasInit then
      var b := s.next;
      var s1 := s.(bufs := s.bufs[b := Buf(c, None, None, 0, -1, None, None)], next := b + 1);
      WithConn(PutTodo(s1, b), c, s.conns[c].(state := true, init := Some(b), inits := s.conns[c].inits + 1))
    else WithConn(s, c, s.conns[c].(state := true))
  }

  function Asked(s: State, c: nat): State
    requires c < |s.conns|
  {
    WithConn(s, c, s.conns[c].(asked := s.conns[c].asked + 1))
  }

  // The reader of a connection is free to read; state_lock is free, too.
  predicate CanRead(s: State, c: nat) { c < |s.conns| && s.conns[c].reader.None? }

  predicate CanEnter(s: State, c: nat) { CanRead(s, c) && !s.conns[c].draining }

  // mcp_r_ready_request, whatever the version and however often.
  function DoReady(s: State, hasInit: bool, c: nat): Option<State> {
    if !CanEnter(s, c) then None
    else
      var t := ConnInit(Asked(s, c), hasInit, c);
      Some(if hasInit then t else Say(t, c, ReadyAnswer))
  }

  function Arrive(s: State, hasInit: bool, c: nat, id: nat, cls: Option<nat>): State
    requires c < |s.conns|
  {
    var b := s.next;
    var k := s.conns[c].(ids := s.conns[c].ids + {id}, arrived := s.conns[c].arrived + [b]);
    var s1 := s.(bufs := s.bufs[b := Buf(c, Some(id), cls, 0, -1, None, None)], next := b + 1);
    if hasInit && k.init.Some? then PutWake(WithConn(s1, c, k), b, k.init.value)
    else PutTodo(WithConn(s1, c, k.(entered := k.entered + [b])), b)
  }

  // mcp_r_query. The kernel uses every request id once.
  function DoQuery(s: State, hasInit: bool, c: nat, id: nat, cls: Option<nat>): Option<State> {
    if !CanEnter(s, c) || id in s.conns[c].ids then None
    else if s.conns[c].state then Some(Arrive(s, hasInit, c, id, cls))
    else if s.conns[c].version < 3 then Some(Arrive(ConnInit(s, hasInit, c), hasInit, c, id, cls))
    else None
  }

  // comm_buf_get_todo
  function DoTake(s: State, w: nat): Option<State> {
    if w >= |s.pcs| || s.pcs[w] != Idle || s.todo == [] then None
    else
      var b := s.todo[0];
      Some(WithPc(s, w, Taken(b)).(todo := s.todo[1..], place := s.place[b := Worker(w)]))
  }

  predicate Locks(pc: Pc, b: nat) { (pc.Running? || pc.Leaving?) && pc.b == b }

  function DoLock(s: State, w: nat): Option<State> {
    if w >= |s.pcs| || !s.pcs[w].Taken? then None
    else if exists v :: 0 <= v < |s.pcs| && Locks(s.pcs[v], s.pcs[w].b) then None
    else Some(WithPc(s, w, Running(s.pcs[w].b)))
  }

  predicate Runs(s: State, w: nat) {
    w < |s.pcs| && s.pcs[w].Running? && s.pcs[w].b in s.bufs && s.bufs[s.pcs[w].b].conn < |s.conns|
  }

  // A worker runs do_event for its buffer.
  predicate Decides(s: State, w: nat) { Runs(s, w) && s.bufs[s.pcs[w].b].phase < 1000 }

  // execute_handler does not refuse handler h: none is suspended in the buffer, or
  // h itself. A handler that returns at once leaves no trace.
  predicate MayRun(s: State, w: nat, h: nat) {
    Decides(s, w) && (s.bufs[s.pcs[w].b].busy.None? || s.bufs[s.pcs[w].b].busy == Some(h))
  }

  function WithBusy(s: State, w: nat, busy: Option<nat>): State
    requires Runs(s, w)
  {
    s.(bufs := s.bufs[s.pcs[w].b := s.bufs[s.pcs[w].b].(busy := busy)])
  }

  function DoAgain(s: State, w: nat, h: nat, ph: nat): Option<State> {
    if !MayRun(s, w, h) || ph >= 1000 then None
    else
      var b := s.pcs[w].b;
      Some(PutTodo(WithPc(s, w, Idle).(bufs := s.bufs[b := s.bufs[b].(phase := ph, busy := Some(h))]), b))
  }

  function DoReturn(s: State, w: nat): Option<State> {
    if !Decides(s, w) || s.bufs[s.pcs[w].b].busy.None? then None else Some(WithBusy(s, w, None))
  }

  function DoEnded(s: State, w: nat, result: int): Option<State> {
    if !Decides(s, w) then None
    else
      var b := s.pcs[w].b;
      Some(PutTodo(WithPc(s, w, Idle).(bufs := s.bufs[b := s.bufs[b].(phase := 1000, result := result)]), b))
  }

  // mcp_fetch_object and mcp_update_object, first pass: the buffer waits, and
  // the request goes out.
  function Issue(s: State, w: nat, kind: Kind, cid: nat, ph: nat): State
    requires Runs(s, w)
  {
    var b := s.pcs[w].b;
    var c := s.bufs[b].conn;
    var key := Key(kind, cid, if kind == Fetch then s.fetches else s.updates);
    var s1 := s.(bufs := s.bufs[b := s.bufs[b].(key := Some(key))],
                 fetches := s.fetches + if kind == Fetch then 1 else 0,
                 updates := s.updates + if kind == Update then 1 else 0);
    Say(PutWait(WithPc(s1, w, Leaving(b, ph)), b, c), c, Request(key))
  }

  function DoAsk(s: State, w: nat, h: nat, kind: Kind, cid: nat, ph: nat): Option<State> {
    if !MayRun(s, w, h) || ph >= 1000 then None else Some(Issue(WithBusy(s, w, Some(h)), w, kind, cid, ph))
  }

  // execute_handler, when the node of a suspended handler has vanished and the
  // next handler is tried: the buffer waits for itself. The buffer of _init has one
  // handler only.
  function DoRefuse(s: State, w: nat, h: nat): Option<State> {
    if !Decides(s, w) || MayRun(s, w, h) || s.bufs[s.pcs[w].b].id.None? then None
    else Some(PutWake(WithPc(s, w, Idle), s.pcs[w].b, s.pcs[w].b))
  }

  // mcp_answer: the subject is updated first, unless the result forbids it or
  // the update has been answered; then the answer goes out and the buffer is freed.
  function DoAnswer(s: State, hasInit: bool, w: nat): Option<State> {
    if !Runs(s, w) || s.bufs[s.pcs[w].b].phase < 1000 || s.bufs[s.pcs[w].b].id.None? then None
    else
      var b := s.pcs[w].b;
      var x := s.bufs[b];
      if x.phase == 1000 && x.result >= 0 && x.cls.Some? then Some(Issue(s, w, Update, x.cls.value, 1003))
      else Some(Say(WithPc(s, w, Idle).(bufs := s.bufs - {b}, place := s.place - {b}), x.conn,
        AuthAnswer(x.id.value, x.result)))
  }

  // The worker sets do_phase and unlocks the buffer it has passed on.
  function DoLeave(s: State, w: nat): Option<State> {
    if w >= |s.pcs| || !s.pcs[w].Leaving? || s.pcs[w].b !in s.bufs then None
    else
      var b := s.pcs[w].b;
      Some(WithPc(s, w, Idle).(bufs := s.bufs[b := s.bufs[b].(phase := s.pcs[w].phase)]))
  }

  // The buffer of _init comes for its answer: state_lock is taken.
  function DoDrain(s: State, hasInit: bool, w: nat): Option<State> {
    if !Runs(s, w) || s.bufs[s.pcs[w].b].phase < 1000 || s.bufs[s.pcs[w].b].id.Some? || !hasInit then None
    else
      var b := s.pcs[w].b;
      var c := s.bufs[b].conn;
      if s.conns[c].draining then None
      else Some(WithConn(WithPc(s, w, Draining(b)), c, s.conns[c].(draining := true, ended := s.conns[c].ended + 1)))
  }

  predicate Drains(s: State, w: nat) {
    w < |s.pcs| && s.pcs[w].Draining? && s.pcs[w].b in s.bufs && s.bufs[s.pcs[w].b].conn < |s.conns|
  }

  // comm_buf_free: what waited for _init goes into comm_todo, one by one.
  function DoDrainOne(s: State, w: nat): Option<State> {
    if !Drains(s, w) then None
    else
      var p := s.pcs[w].b;
      var c := s.bufs[p].conn;
      var q := WakeOf(s, p);
      if q == [] then None
      else
        var s1 := s.(wakes := s.wakes[p := q[1..]]);
        Some(PutTodo(WithConn(s1, c, s.conns[c].(entered := s.conns[c].entered + [q[0]])), q[0]))
  }

  // READY is answered, the buffer freed, and the gate opened.
  function DoDrainEnd(s: State, w: nat): Option<State> {
    if !Drains(s, w) then None
    else
      var b := s.pcs[w].b;
      var c := s.bufs[b].conn;
      var k := s.conns[c];
      if WakeOf(s, b) != [] then None
      else
        var out := if k.version > 2 && k.init == Some(b) then k.out + [ReadyAnswer] else k.out;
        Some(WithConn(WithPc(s, w, Idle).(bufs := s.bufs - {b}, place := s.place - {b}), c,
                      k.(out := out, init := None, draining := false)))
  }

  // mcp_write
  function DoWrite(s: State, c: nat): Option<State> {
    if c >= |s.conns| || s.conns[c].sent >= |s.conns[c].out| then None
    else Some(WithConn(s, c, s.conns[c].(sent := s.conns[c].sent + 1)))
  }

  // The first waiter for a key.
  function FindWaiter(bufs: map<nat, Buf>, q: seq<nat>, key: Key): (n: nat)
    ensures n <= |q|
    ensures n < |q| ==> q[n] in bufs && bufs[q[n]].key == Some(key)
    ensures forall i :: 0 <= i < n ==> !(q[i] in bufs && bufs[q[i]].key == Some(key))
  {
    if q == [] then 0
    else if q[0] in bufs && bufs[q[0]].key == Some(key) then 0
    else 1 + FindWaiter(bufs, q[1..], key)
  }

  // The kernel answers what has been sent to it, once.
  predicate MayReply(k: Conn, key: Key) {
    Request(key) in k.out[..if k.sent <= |k.out| then k.sent else |k.out|] && key !in k.replied
  }

  // mcp_r_fetch_answer and mcp_r_update_answer: the waiter leaves the queue.
  function DoReply(s: State, c: nat, key: Key): Option<State> {
    if !CanRead(s, c) || !MayReply(s.conns[c], key) then None
    else
      var k := s.conns[c].(replied := s.conns[c].replied + {key});
      var n := FindWaiter(s.bufs, k.waitq, key);
      if n == |k.waitq| then Some(WithConn(s, c, k))
      else
        var b := k.waitq[n];
        Some(WithConn(s, c, k.(waitq := k.waitq[..n] + k.waitq[n + 1..],
          reader := Some(b))).(place := s.place[b := Reader(c)]))
  }

  // mcp_r_fetch_answer_done, and the end of mcp_r_update_answer.
  function DoWakeup(s: State, c: nat): Option<State> {
    if c >= |s.conns| || s.conns[c].reader.None? || s.conns[c].reader.value !in s.bufs then None
    else
      var b := s.conns[c].reader.value;
      Some(PutTodo(WithConn(s, c, s.conns[c].(reader := None)).(bufs := s.bufs[b := s.bufs[b].(key := None)]), b))
  }

  function Step(s: State, hasInit: bool, a: Action): Option<State> {
    match a
    case ReadyRequest(c) => DoReady(s, hasInit, c)
    case Query(c, id, cls) => DoQuery(s, hasInit, c, id, cls)
    case Take(w) => DoTake(s, w)
    case Lock(w) => DoLock(s, w)
    case Again(w, h, ph) => DoAgain(s, w, h, ph)
    case Ask(w, h, kind, cid, ph) => DoAsk(s, w, h, kind, cid, ph)
    case Return(w) => DoReturn(s, w)
    case Refuse(w, h) => DoRefuse(s, w, h)
    case Ended(w, result) => DoEnded(s, w, result)
    case Answer(w) => DoAnswer(s, hasInit, w)
    case Leave(w) => DoLeave(s, w)
    case Drain(w) => DoDrain(s, hasInit, w)
    case DrainOne(w) => DoDrainOne(s, w)
    case DrainEnd(w) => DoDrainEnd(s, w)
    case Write(c) => DoWrite(s, c)
    case Reply(c, key) => DoReply(s, c, key)
    case Wakeup(c) => DoWakeup(s, c)
  }

  function Run(s: State, hasInit: bool, acts: seq<Action>): Option<State>
    decreases acts
  {
    if acts == [] then Some(s)
    else
      match Step(s, hasInit, acts[0])
      case None => None
      case Some(t) => Run(t, hasInit, acts[1..])
  }

  function Fresh(version: nat): Conn {
    Conn(version, false, None, false, None, [], [], 0, {}, {}, [], [], 0, 0, 0)
  }

  // Connections with the versions of their greetings, and idle workers.
  function Start(versions: seq<nat>, workers: nat): State {
    State(map[], map[], [], map[], seq(|versions|, i requires 0 <= i < |versions| => Fresh(versions[i])),
          seq(workers, _ => Idle), 2, 2, 0)
  }
}
