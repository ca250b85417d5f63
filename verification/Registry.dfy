/** The Control Plane's connections: a bounded send queue per connection, one writer goroutine that drains it, and
    callers that wait until their own message has been written. */
module Registry {

  type Msg = string

  const CAPACITY := 32

  /** The writer between two receives, with a message in hand, after a successful write that is not yet published,
      or gone; a writer that stopped on a failed write keeps what it held. */
  datatype Writer = NotStarted | Idle | Holding(msg: Msg) | Wrote | Stopped(lost: seq<Msg>)

  /** `notify` counts the generations of the progress channel; generation g is closed once `notify` exceeds it.
      `enqueued` and `written` record everything that was ever queued and written. */
  datatype Conn = Conn(agent: string, queue: seq<Msg>, closed: bool, cancelled: bool, queuedSeq: nat, sentSeq: nat,
                       notify: nat, done: bool, writer: Writer, enqueued: seq<Msg>, written: seq<Msg>)

  datatype Stage = Looking | Waiting(gen: nat) | Returned(ok: bool)

  /** A caller of sendSync whose message was queued as number `number` of its connection. */
  datatype Waiter = Waiter(conn: nat, number: nat, msg: Msg, stage: Stage)

  datatype Sys = Sys(conns: map<string, nat>, all: map<nat, Conn>, waiters: map<nat, Waiter>, next: nat, panicked: bool)

  function Start(): Sys { Sys(map[], map[], map[], 0, false) }

  datatype Event =
    | Register(agent: string) | Unregister(id: nat)
    | Send(agent: string, msg: Msg) | SendSync(id: nat, msg: Msg)
    | StartWriter(id: nat) | Receive(id: nat) | Write(id: nat) | Note(id: nat) | StopWriter(id: nat)
    | Look(w: nat) | Wake(w: nat) | GiveUp(w: nat)

  // ---- one connection ----

  function NewConn(agent: string): Conn { Conn(agent, [], false, false, 0, 0, 0, false, NotStarted, [], []) }

  predicate HasRoom(c: Conn) { |c.queue| < CAPACITY }

  /** The non-blocking send: a full queue refuses, and the sequence number is taken with the slot. */
  function Enqueued(c: Conn, msg: Msg): Conn {
    if HasRoom(c) then c.(queue := c.queue + [msg], queuedSeq := c.queuedSeq + 1, enqueued := c.enqueued + [msg]) else c
  }

  function Noted(c: Conn): Conn { c.(sentSeq := c.sentSeq + 1, notify := c.notify + 1, writer := Idle) }

  function Closed(c: Conn): Conn { c.(closed := true, done := true) }

  function Received(c: Conn): Conn
    requires c.queue != []
  {
    c.(writer := Holding(c.queue[0]), queue := c.queue[1..])
  }

  function Written(c: Conn): Conn
    requires c.writer.Holding?
  {
    c.(writer := Wrote, written := c.written + [c.writer.msg])
  }

  function Halted(c: Conn): Conn {
    c.(writer := Stopped(if c.writer.Holding? then [c.writer.msg] else []), done := true)
  }

  // ---- steps ----

  function SetConn(s: Sys, id: nat, c: Conn): Sys { s.(all := s.all[id := c]) }

  /** The registry entry of the connection's agent is the connection itself. */
  predicate Registered(s: Sys, id: nat) { id in s.all && s.all[id].agent in s.conns && s.conns[s.all[id].agent] == id }

  function RegisterStep(s: Sys, agent: string): Sys {
    var all := if agent in s.conns && s.conns[agent] in s.all
               then s.all[s.conns[agent] := s.all[s.conns[agent]].(cancelled := true)] else s.all;
    s.(conns := s.conns[agent := s.next], all := all[s.next := NewConn(agent)], next := s.next + 1)
  }

  function UnregisterStep(s: Sys, id: nat): Sys {
    if !Registered(s, id) then s
    else SetConn(s, id, Closed(s.all[id])).(conns := s.conns - {s.all[id].agent},
                                            panicked := s.panicked || s.all[id].closed)
  }

  /** Sending on a closed channel panics, even from a select with a default. */
  function EnqueueStep(s: Sys, id: nat, msg: Msg): Sys
    requires id in s.all
  {
    SetConn(s, id, Enqueued(s.all[id], msg)).(panicked := s.panicked || s.all[id].closed)
  }

  function SendSyncStep(s: Sys, id: nat, msg: Msg): Sys {
    if !Registered(s, id) then s
    else
      var t := EnqueueStep(s, id, msg);
      if !HasRoom(s.all[id]) then t
      else t.(waiters := t.waiters[t.next := Waiter(id, s.all[id].queuedSeq + 1, msg, Looking)], next := t.next + 1)
  }

  predicate WriterEnabled(s: Sys, ev: Event)
    requires ev.StartWriter? || ev.Receive? || ev.Write? || ev.Note? || ev.StopWriter?
  {
    ev.id in s.all &&
    match ev
    case StartWriter(id) => s.all[id].writer.NotStarted?
    case Receive(id) => s.all[id].writer.Idle? && s.all[id].queue != []
    case Write(id) => s.all[id].writer.Holding?
    case Note(id) => s.all[id].writer.Wrote?
    // The context ended, the queue was closed and drained, or the write failed.
    case StopWriter(id) => s.all[id].writer.Idle? || s.all[id].writer.Holding?
  }

  function WriterStep(s: Sys, ev: Event): Sys
    requires ev.StartWriter? || ev.Receive? || ev.Write? || ev.Note? || ev.StopWriter?
    requires WriterEnabled(s, ev)
  {
    var c := s.all[ev.id];
    match ev
    case StartWriter(id) => SetConn(s, id, c.(writer := Idle))
    case Receive(id) => SetConn(s, id, Received(c))
    case Write(id) => SetConn(s, id, Written(c))
    case Note(id) => SetConn(s, id, Noted(c))
    case StopWriter(id) => SetConn(s, id, Halted(c))
  }

  /** The waiting loop: compare under the lock, then wait for the next generation. */
  function LookStage(c: Conn, w: Waiter): Stage { if c.sentSeq >= w.number then Returned(true) else Waiting(c.notify) }

  function NextStage(c: Conn, w: Waiter, ev: Event): Stage
    requires ev.Look? || ev.Wake? || ev.GiveUp?
  {
    match ev
    case Look(_) => if w.stage.Looking? then LookStage(c, w) else w.stage
    case Wake(_) => if w.stage.Waiting? && w.stage.gen < c.notify then Looking else w.stage
    // The writer stopped, or time ran out.
    case GiveUp(_) => if w.stage.Waiting? then Returned(false) else w.stage
  }

  function WaiterStep(s: Sys, ev: Event): Sys
    requires ev.Look? || ev.Wake? || ev.GiveUp?
  {
    if ev.w !in s.waiters || s.waiters[ev.w].conn !in s.all then s
    else
      var w := s.waiters[ev.w];
      s.(waiters := s.waiters[ev.w := w.(stage := NextStage(s.all[w.conn], w, ev))])
  }

  function Apply(s: Sys, ev: Event): Sys {
    match ev
    case Register(agent) => RegisterStep(s, agent)
    case Unregister(id) => UnregisterStep(s, id)
    case Send(agent, msg) =>
      if agent in s.conns && s.conns[agent] in s.all then EnqueueStep(s, s.conns[agent], msg) else s
    case SendSync(id, msg) => SendSyncStep(s, id, msg)
    case Look(_) => WaiterStep(s, ev)
    case Wake(_) => WaiterStep(s, ev)
    case GiveUp(_) => WaiterStep(s, ev)
    case _ => if WriterEnabled(s, ev) then WriterStep(s, ev) else s
  }

  function Run(s: Sys, events: seq<Event>): Sys
    decreases |events|
  {
    if events == [] then s else Run(Apply(s, events[0]), events[1..])
  }

  // ---- invariant ----

  function Held(w: Writer): seq<Msg> { match w case Holding(m) => [m] case Stopped(lost) => lost case _ => [] }

  /** Nothing is lost, repeated or reordered between the queue and the stream, and the counters count. */
  ghost predicate Fifo(c: Conn) {
    && c.enqueued == c.written + Held(c.writer) + c.queue && |Held(c.writer)| <= 1
    && c.queuedSeq == |c.enqueued| && |c.written| == c.sentSeq + (if c.writer.Wrote? then 1 else 0)
    && |c.queue| <= CAPACITY
  }

  ghost predicate ConnsOk(conns: map<string, nat>, all: map<nat, Conn>, next: nat) {
    && (forall a :: a in conns ==> conns[a] in all && all[conns[a]].agent == a && !all[conns[a]].closed)
    && (forall id :: id in all ==> id < next && Fifo(all[id]))
  }

  /** A connection outside the registry has been cancelled or torn down. */
  ghost predicate NoStrays(conns: map<string, nat>, all: map<nat, Conn>) {
    forall id :: id in all ==>
      (all[id].agent in conns && conns[all[id].agent] == id) || all[id].cancelled || all[id].closed
  }

  ghost predicate WaiterOk(c: Conn, w: Waiter) {
    && 1 <= w.number <= |c.enqueued| && c.enqueued[w.number - 1] == w.msg
    && (w.stage.Waiting? ==> w.stage.gen <= c.notify && (w.stage.gen == c.notify ==> c.sentSeq < w.number))
    && (w.stage == Returned(true) ==> w.number <= c.sentSeq)
  }

  ghost predicate WaitersOk(all: map<nat, Conn>, waiters: map<nat, Waiter>, next: nat) {
    forall w :: w in waiters ==> w < next && waiters[w].conn in all && WaiterOk(all[waiters[w].conn], waiters[w])
  }

  ghost predicate Inv(s: Sys) {
    ConnsOk(s.conns, s.all, s.next) && NoStrays(s.conns, s.all) && WaitersOk(s.all, s.waiters, s.next) && !s.panicked
  }

  // ---- every step keeps it ----

  /** One connection moves on: it stays the same connection, its past stays, and progress opens a new generation. */
  ghost predicate Moves(c: Conn, c': Conn) {
    && c'.agent == c.agent && (c.cancelled ==> c'.cancelled) && (c.closed ==> c'.closed) && c.enqueued <= c'.enqueued
    && c.notify <= c'.notify && c.sentSeq <= c'.sentSeq && (c'.sentSeq > c.sentSeq ==> c'.notify > c.notify)
    && Fifo(c')
  }

  lemma WaiterKeeps(c: Conn, c': Conn, w: Waiter)
    requires Moves(c, c') && WaiterOk(c, w)
    ensures WaiterOk(c', w)
  {
  }

  lemma StoppedWrote(c: Conn)
    requires Fifo(c) && c.writer.Stopped?
    ensures c.sentSeq == |c.written| && c.written <= c.enqueued
    ensures c.writer.lost == [] && c.queue == [] ==> c.written == c.enqueued
  {
  }

  lemma MovesOn(a: Conn, b: Conn, c: Conn)
    requires Moves(a, b) && Moves(b, c)
    ensures Moves(a, c)
  {
  }

  /** A connection in the registry stays open; one outside may do anything but come back. */
  lemma MoveKeeps(s: Sys, id: nat, c: Conn)
    requires Inv(s) && id in s.all && Moves(s.all[id], c) && (c.closed ==> s.all[id].closed)
    ensures Inv(SetConn(s, id, c))
  {
    var t := SetConn(s, id, c);
    assert ConnsOk(t.conns, t.all, t.next);
    assert NoStrays(t.conns, t.all);
    forall w | w in t.waiters ensures WaiterOk(t.all[t.waiters[w].conn], t.waiters[w]) {
      if t.waiters[w].conn == id { WaiterKeeps(s.all[id], c, t.waiters[w]); }
    }
  }

  lemma EnqueueMoves(c: Conn, msg: Msg)
    requires Fifo(c)
    ensures Moves(c, Enqueued(c, msg))
  {
  }

  lemma ReceiveMoves(c: Conn)
    requires Fifo(c) && c.writer.Idle? && c.queue != []
    ensures Moves(c, Received(c))
  {
    assert c.queue == [c.queue[0]] + c.queue[1..];
    assert c.written + [] + c.queue == c.written + [c.queue[0]] + c.queue[1..];
  }

  lemma WriteMoves(c: Conn)
    requires Fifo(c) && c.writer.Holding?
    ensures Moves(c, Written(c))
  {
    assert c.written + [c.writer.msg] + c.queue == (c.written + [c.writer.msg]) + [] + c.queue;
  }

  lemma WriterKeeps(s: Sys, ev: Event)
    requires Inv(s) && (ev.StartWriter? || ev.Receive? || ev.Write? || ev.Note? || ev.StopWriter?)
             && WriterEnabled(s, ev)
    ensures Inv(WriterStep(s, ev))
  {
    var c := s.all[ev.id];
    match ev {
      case StartWriter(id) => MoveKeeps(s, id, c.(writer := Idle));
      case Receive(id) => ReceiveMoves(c); MoveKeeps(s, id, Received(c));
      case Write(id) => WriteMoves(c); MoveKeeps(s, id, Written(c));
      case Note(id) => MoveKeeps(s, id, Noted(c));
      case StopWriter(id) => MoveKeeps(s, id, Halted(c));
    }
  }

  lemma EnqueueKeeps(s: Sys, id: nat, msg: Msg)
    requires Inv(s) && Registered(s, id)
    ensures Inv(EnqueueStep(s, id, msg))
  {
    EnqueueMoves(s.all[id], msg);
    MoveKeeps(s, id, Enqueued(s.all[id], msg));
    assert !s.all[id].closed;
  }

  lemma SendSyncKeeps(s: Sys, id: nat, msg: Msg)
    requires Inv(s)
    ensures Inv(SendSyncStep(s, id, msg))
  {
    if Registered(s, id) {
      EnqueueKeeps(s, id, msg);
      var t := EnqueueStep(s, id, msg);
      if HasRoom(s.all[id]) {
        assert WaiterOk(t.all[id], Waiter(id, s.all[id].queuedSeq + 1, msg, Looking));
        var u := SendSyncStep(s, id, msg);
        assert WaitersOk(u.all, u.waiters, u.next);
      }
    }
  }

  lemma RegisterKeeps(s: Sys, agent: string)
    requires Inv(s)
    ensures Inv(RegisterStep(s, agent))
  {
    var t := if agent in s.conns then SetConn(s, s.conns[agent], s.all[s.conns[agent]].(cancelled := true)) else s;
    if agent in s.conns { MoveKeeps(s, s.conns[agent], t.all[s.conns[agent]]); }
    AddKeeps(t, agent);
  }

  lemma AddKeeps(s: Sys, agent: string)
    requires Inv(s) && (agent in s.conns ==> s.all[s.conns[agent]].cancelled)
    ensures Inv(s.(conns := s.conns[agent := s.next], all := s.all[s.next := NewConn(agent)], next := s.next + 1))
  {
    AddConns(s.conns, s.all, s.next, agent);
    AddWaiters(s.all, s.waiters, s.next, agent);
  }

  lemma AddConns(conns: map<string, nat>, all: map<nat, Conn>, next: nat, agent: string)
    requires ConnsOk(conns, all, next) && NoStrays(conns, all)
    requires agent in conns ==> all[conns[agent]].cancelled
    ensures ConnsOk(conns[agent := next], all[next := NewConn(agent)], next + 1)
    ensures NoStrays(conns[agent := next], all[next := NewConn(agent)]) && next !in all
  {
  }

  lemma AddWaiters(all: map<nat, Conn>, waiters: map<nat, Waiter>, next: nat, agent: string)
    requires WaitersOk(all, waiters, next) && next !in all
    ensures WaitersOk(all[next := NewConn(agent)], waiters, next + 1)
  {
  }

  lemma UnregisterKeeps(s: Sys, id: nat)
    requires Inv(s)
    ensures Inv(UnregisterStep(s, id))
  {
    if Registered(s, id) {
      var t := UnregisterStep(s, id);
      assert ConnsOk(t.conns, t.all, t.next);
      assert NoStrays(t.conns, t.all);
      forall w | w in t.waiters ensures WaiterOk(t.all[t.waiters[w].conn], t.waiters[w]) {
        if t.waiters[w].conn == id { WaiterKeeps(s.all[id], Closed(s.all[id]), t.waiters[w]); }
      }
    }
  }

  lemma NextStageOk(c: Conn, w: Waiter, ev: Event)
    requires WaiterOk(c, w) && (ev.Look? || ev.Wake? || ev.GiveUp?)
    ensures WaiterOk(c, w.(stage := NextStage(c, w, ev)))
  {
  }

  lemma WaiterStepKeeps(s: Sys, ev: Event)
    requires Inv(s) && (ev.Look? || ev.Wake? || ev.GiveUp?)
    ensures Inv(WaiterStep(s, ev))
  {
    if ev.w in s.waiters {
      NextStageOk(s.all[s.waiters[ev.w].conn], s.waiters[ev.w], ev);
      var t := WaiterStep(s, ev);
      assert WaitersOk(t.all, t.waiters, t.next);
    }
  }

  lemma ApplyKeeps(s: Sys, ev: Event)
    requires Inv(s)
    ensures Inv(Apply(s, ev))
  {
    match ev {
      case Register(agent) => RegisterKeeps(s, agent);
      case Unregister(id) => UnregisterKeeps(s, id);
      case Send(agent, msg) => if agent in s.conns { EnqueueKeeps(s, s.conns[agent], msg); }
      case SendSync(id, msg) => SendSyncKeeps(s, id, msg);
      case Look(_) => WaiterStepKeeps(s, ev);
      case Wake(_) => WaiterStepKeeps(s, ev);
      case GiveUp(_) => WaiterStepKeeps(s, ev);
      case _ => if WriterEnabled(s, ev) { WriterKeeps(s, ev); }
    }
  }

  lemma {:induction false} RunKeeps(s: Sys, events: seq<Event>)
    requires Inv(s)
    ensures Inv(Run(s, events))
    decreases |events|
  {
    if events != [] {
      ApplyKeeps(s, events[0]);
      RunKeeps(Apply(s, events[0]), events[1..]);
    }
  }

  // ---- the objects ----

  /** A connection's send queue and its write-confirmation state, changed under their locks. The program does not
      keep where its writer stands, nor the past. */
  class AgentConn {
    const agentId: string
    var sendCh: seq<Msg>
    var closed: bool
    var cancelled: bool
    var queuedSeq: nat
    var sentSeq: nat
    var notify: nat
    var writerDone: bool
    ghost var writer: Writer
    ghost var enqueued: seq<Msg>
    ghost var written: seq<Msg>

    ghost function Value(): Conn
      reads this
    {
      Conn(agentId, sendCh, closed, cancelled, queuedSeq, sentSeq, notify, writerDone, writer, enqueued, written)
    }

    constructor (agentId: string)
      ensures Value() == NewConn(agentId) && Fifo(Value())
    {
      this.agentId := agentId;
      sendCh, closed, cancelled, queuedSeq, sentSeq, notify, writerDone := [], false, false, 0, 0, 0, false;
      writer, enqueued, written := NotStarted, [], [];
    }

    /** Sends without blocking; the number is the place of the message among all that were queued. */
    method Enqueue(msg: Msg) returns (number: nat, ok: bool)
      requires !closed && Fifo(Value())
      modifies this`sendCh, this`queuedSeq, this`enqueued
      ensures Value() == Enqueued(old(Value()), msg) && Moves(old(Value()), Value())
      ensures ok <==> |old(sendCh)| < 32
      ensures ok ==> 1 <= number <= |enqueued| && enqueued[number - 1] == msg
    {
      if |sendCh| < CAPACITY {
        sendCh, queuedSeq := sendCh + [msg], queuedSeq + 1;
        enqueued := enqueued + [msg];
        return queuedSeq, true;
      }
      return 0, false;
    }

    /** After a write: every number up to the count is written now, and whoever saw less finds its generation over. */
    method NoteWritten()
      requires Fifo(Value()) && writer.Wrote?
      modifies this`sentSeq, this`notify, this`writer
      ensures Value() == Noted(old(Value())) && Moves(old(Value()), Value()) && sentSeq == |written|
      ensures forall w :: WaiterOk(old(Value()), w) && w.stage.Waiting? ==> w.stage.gen < notify
    {
      sentSeq, notify := sentSeq + 1, notify + 1;
      writer := Idle;
    }

    /** One round of the send goroutine; a failed write ends it and loses the message in hand. */
    method WriteNext(fails: bool)
      requires Fifo(Value()) && writer.Idle? && sendCh != []
      modifies this`sendCh, this`sentSeq, this`notify, this`writerDone, this`writer, this`written
      ensures Value() == if fails then Halted(Received(old(Value()))) else Noted(Written(Received(old(Value()))))
      ensures Moves(old(Value()), Value())
    {
      ReceiveMoves(Value());
      var msg := sendCh[0];
      sendCh, writer := sendCh[1..], Holding(msg);
      if fails {
        writerDone, writer := true, Stopped([msg]);
      } else {
        WriteMoves(Value());
        writer, written := Wrote, written + [msg];
        NoteWritten();
      }
    }

    /** The send goroutine over what is queued: the context ends after `until` messages, and write `n` fails when
        `fails(n)` says so. Whatever ends it, it wrote a prefix of what was queued, and lost at most one message. */
    method WriteLoop(fails: nat -> bool, until: nat)
      requires Fifo(Value()) && writer.Idle?
      modifies this`sendCh, this`sentSeq, this`notify, this`writerDone, this`writer, this`written
      ensures Moves(old(Value()), Value()) && enqueued == old(enqueued) && writer.Stopped? && writerDone
      ensures sentSeq == |written| && written <= enqueued && |written| + |writer.lost| <= |old(written)| + until
      ensures until >= |old(sendCh)| && (forall n :: 0 <= n < until ==> !fails(n)) ==> written == enqueued
    {
      var n := 0;
      while n < until && sendCh != []
        invariant n <= until && n + |sendCh| == |old(sendCh)| && |written| == |old(written)| + n
        invariant Moves(old(Value()), Value()) && enqueued == old(enqueued) && writer.Idle?
      {
        ghost var before := Value();
        WriteNext(fails(n));
        MovesOn(old(Value()), before, Value());
        if fails(n) {
          StoppedWrote(Value());
          return;
        }
        n := n + 1;
      }
      writerDone, writer := true, Stopped([]);
      StoppedWrote(Value());
    }
  }

  class AgentRegistry {
    var conns: map<string, AgentConn>

    /** Entries are filed under their own agent and accept messages. */
    ghost predicate Valid()
      reads this, conns.Values
    {
      forall a :: a in conns ==> conns[a].agentId == a && !conns[a].closed && Fifo(conns[a].Value())
    }

    ghost predicate Owns(conn: AgentConn)
      reads this
    {
      conn.agentId in conns && conns[conn.agentId] == conn
    }

    method Register(agentId: string) returns (conn: AgentConn)
      requires Valid()
      modifies this, conns.Values
      ensures Valid() && fresh(conn) && conn.Value() == NewConn(agentId) && conns == old(conns)[agentId := conn]
      ensures forall c :: c in old(conns.Values) ==>
                c.Value() == if c.agentId == agentId then old(c.Value()).(cancelled := true) else old(c.Value())
    {
      conn := new AgentConn(agentId);
      if agentId in conns { conns[agentId].cancelled := true; }
      conns := conns[agentId := conn];
    }

    /** Only the connection that owns the entry removes it, and only then is its queue closed, for the first time. */
    method Unregister(conn: AgentConn) returns (owned: bool)
      requires Valid()
      modifies this, conn
      ensures Valid() && (owned <==> old(Owns(conn))) && (owned ==> !old(conn.closed))
      ensures conns == if owned then old(conns) - {conn.agentId} else old(conns)
      ensures conn.Value() == if owned then Closed(old(conn.Value())) else old(conn.Value())
    {
      if conn.agentId !in conns || conns[conn.agentId] != conn { return false; }
      conn.closed, conn.writerDone := true, true;
      conns := conns - {conn.agentId};
      return true;
    }

    /** Queues on the captured connection only while it is the registered one, so never on a closed queue. */
    method SendSyncEnqueue(conn: AgentConn, msg: Msg) returns (number: nat, ok: bool)
      requires Valid()
      modifies conn`sendCh, conn`queuedSeq, conn`enqueued
      ensures Valid() && (ok <==> Owns(conn) && HasRoom(old(conn.Value()))) && (ok ==> !conn.closed)
      ensures conn.Value() == if ok then Enqueued(old(conn.Value()), msg) else old(conn.Value())
      ensures ok ==> WaiterOk(conn.Value(), Waiter(0, number, msg, Looking))
    {
      if conn.agentId !in conns || conns[conn.agentId] != conn { return 0, false; }
      number, ok := conn.Enqueue(msg);
    }
  }

  // ---- what callers may rely on ----

  /** In every interleaving: what was written on a connection is a prefix of what was queued on it, and no channel
      is sent to after it was closed, or closed twice. */
  lemma WrittenIsPrefix(events: seq<Event>, id: nat)
    ensures var s := Run(Start(), events); !s.panicked && (id in s.all ==> s.all[id].written <= s.all[id].enqueued)
  {
    RunKeeps(Start(), events);
  }

  /** No connection lives on unnoticed outside the registry: it was cancelled, or torn down. */
  lemma DisplacedIsCancelled(events: seq<Event>, id: nat)
    requires id in Run(Start(), events).all && !Registered(Run(Start(), events), id)
    ensures Run(Start(), events).all[id].cancelled || Run(Start(), events).all[id].closed
  {
    RunKeeps(Start(), events);
  }

  ghost predicate SameCall(w: Waiter, w': Waiter) { w'.conn == w.conn && w'.number == w.number && w'.msg == w.msg }

  lemma WaiterKeepsCall(s: Sys, ev: Event, w: nat)
    requires w in s.waiters && (ev.Look? || ev.Wake? || ev.GiveUp?)
    ensures w in WaiterStep(s, ev).waiters && SameCall(s.waiters[w], WaiterStep(s, ev).waiters[w])
  {
  }

  lemma SendSyncKeepsCall(s: Sys, id: nat, msg: Msg, w: nat)
    requires w in s.waiters && w < s.next
    ensures w in SendSyncStep(s, id, msg).waiters && SameCall(s.waiters[w], SendSyncStep(s, id, msg).waiters[w])
  {
  }

  lemma ApplyKeepsCall(s: Sys, ev: Event, w: nat)
    requires w in s.waiters && w < s.next
    ensures w in Apply(s, ev).waiters && SameCall(s.waiters[w], Apply(s, ev).waiters[w])
  {
    match ev {
      case SendSync(id, msg) => SendSyncKeepsCall(s, id, msg, w);
      case Look(_) => WaiterKeepsCall(s, ev, w);
      case Wake(_) => WaiterKeepsCall(s, ev, w);
      case GiveUp(_) => WaiterKeepsCall(s, ev, w);
      case _ => assert Apply(s, ev).waiters == s.waiters;
    }
  }

  lemma {:induction false} RunKeepsCall(s: Sys, events: seq<Event>, w: nat)
    requires Inv(s) && w in s.waiters
    ensures w in Run(s, events).waiters && SameCall(s.waiters[w], Run(s, events).waiters[w])
    decreases |events|
  {
    if events != [] {
      ApplyKeeps(s, events[0]);
      assert w < s.next;
      ApplyKeepsCall(s, events[0], w);
      RunKeepsCall(Apply(s, events[0]), events[1..], w);
    }
  }

  lemma Accepted(s: Sys, id: nat, msg: Msg)
    requires Inv(s) && Registered(s, id) && HasRoom(s.all[id])
    ensures s.next in SendSyncStep(s, id, msg).waiters
    ensures SendSyncStep(s, id, msg).waiters[s.next] == Waiter(id, |s.all[id].enqueued| + 1, msg, Looking)
  {
    assert Fifo(s.all[id]);
  }

  ghost predicate Confirmed(t: Sys, w: nat, id: nat, place: nat, msg: Msg) {
    w in t.waiters && (t.waiters[w].stage == Returned(true) ==>
                         id in t.all && place < |t.all[id].written| && t.all[id].written[place] == msg)
  }

  lemma AcceptedStays(m: Sys, w: nat, id: nat, place: nat, msg: Msg, after: seq<Event>)
    requires Inv(m) && w in m.waiters && m.waiters[w] == Waiter(id, place + 1, msg, Looking)
    ensures Confirmed(Run(m, after), w, id, place, msg)
  {
    RunKeepsCall(m, after, w);
    RunKeeps(m, after);
    if Run(m, after).waiters[w].stage == Returned(true) { WrittenAt(Run(m, after), w); }
  }

  /** A call of sendSync that was accepted and later returns true had its own message written on the connection it
      was made on, at its place in the queue. */
  lemma SendSyncTrue(before: seq<Event>, id: nat, msg: Msg, after: seq<Event>)
    requires var s := Run(Start(), before); Registered(s, id) && HasRoom(s.all[id])
    ensures var s := Run(Start(), before);
            Confirmed(Run(Apply(s, SendSync(id, msg)), after), s.next, id, |s.all[id].enqueued|, msg)
  {
    var s := Run(Start(), before);
    RunKeeps(Start(), before);
    ApplyKeeps(s, SendSync(id, msg));
    Accepted(s, id, msg);
    AcceptedStays(Apply(s, SendSync(id, msg)), s.next, id, |s.all[id].enqueued|, msg, after);
  }

  lemma WrittenAt(s: Sys, w: nat)
    requires Inv(s) && w in s.waiters && s.waiters[w].stage == Returned(true)
    ensures var waiter := s.waiters[w];
            && waiter.conn in s.all && 1 <= waiter.number <= |s.all[waiter.conn].written|
            && s.all[waiter.conn].written[waiter.number - 1] == waiter.msg
  {
    var c := s.all[s.waiters[w].conn];
    assert WaiterOk(c, s.waiters[w]) && Fifo(c);
    assert c.written == c.enqueued[..|c.written|];
  }

  /** A waiter never misses its wake-up: once its message is written and published, waking it and looking again
      returns true. */
  lemma NoMissedWakeUp(events: seq<Event>, w: nat)
    requires var s := Run(Start(), events);
             w in s.waiters && s.waiters[w].stage.Waiting? && s.waiters[w].conn in s.all
             && s.all[s.waiters[w].conn].sentSeq >= s.waiters[w].number
    ensures Apply(Apply(Run(Start(), events), Wake(w)), Look(w)).waiters[w].stage == Returned(true)
  {
    RunKeeps(Start(), events);
  }

  /** Teardown is by connection: an entry lasts until its own connection is torn down or the agent reconnects. */
  lemma {:induction false} EntryStays(s: Sys, agent: string, id: nat, events: seq<Event>)
    requires Inv(s) && agent in s.conns && s.conns[agent] == id
    requires Register(agent) !in events && Unregister(id) !in events
    ensures var t := Run(s, events); agent in t.conns && t.conns[agent] == id && id in t.all && !t.all[id].closed
    decreases |events|
  {
    if events != [] {
      ApplyKeeps(s, events[0]);
      assert events[0] in events;
      ApplyKeepsEntry(s, agent, id, events[0]);
      assert forall e :: e in events[1..] ==> e in events;
      EntryStays(Apply(s, events[0]), agent, id, events[1..]);
    }
  }

  lemma ApplyKeepsEntry(s: Sys, agent: string, id: nat, ev: Event)
    requires agent in s.conns && s.conns[agent] == id && ev != Register(agent) && ev != Unregister(id)
    ensures agent in Apply(s, ev).conns && Apply(s, ev).conns[agent] == id
  {
  }
}
