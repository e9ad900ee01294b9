/**
 * The whole system as a state machine: sessions put requests on the event loop's channel, the event loop queues
 * messages for sessions, sessions write them to their sockets, and clients apply what they read.
 */
module System {
  import opened Basics
  import opened Server
  import opened Sessions
  import opened Replica

  type Sid = nat

  const QUEUE_CAP := 120

  /** A connection, from asking to be let in to dropping its session handle. */
  datatype Stage = Greeting | Shaking | Serving | Leaving | Gone

  /**
   * `reply` is an answer of the event loop not yet read, `wire` what the session has written and the client has
   * not read, `client` the replica. `clean` records that the client entered the lobby with no lobby field that
   * the lobby did not have.
   */
  datatype Conn = Conn(
    stage: Stage,
    session: Session,
    reply: Reply,
    wire: seq<ServerMessage>,
    client: Shadow,
    clean: bool)

  datatype Request = Request(from: Option<Sid>, op: Op)

  /**
   * The channel is one queue for all senders. A session's message queue is named by the player it obtained, and
   * is there from the moment the player is admitted until the session ends. The rest is history: the ids ever
   * used, the connection each player belongs to, the players whose queue has overflowed, the connections whose
   * handle is granted and not yet closed, and the calls let through by each address's budget.
   */
  datatype System = System(
    server: State,
    channel: seq<Request>,
    conns: map<Sid, Conn>,
    queues: map<BasicId, seq<ServerMessage>>,
    now: real,
    used: set<BasicId>,
    owner: map<BasicId, Sid>,
    lossy: set<BasicId>,
    open: set<Sid>,
    passed: map<Ip, nat>)

  const START := System(EMPTY, [], map[], map[], 0.0, {}, map[], {}, {}, map[])

  datatype Event =
    | Tick(to: real)
    | Timer
    | Arrive(sid: Sid, ip: Ip, client: Shadow)
    | Shake(sid: Sid)
    | Accept(sid: Sid)
    | Abort(sid: Sid)
    | SessionTurn(sid: Sid, input: Input)
    | Drop(sid: Sid)
    | Take(sid: Sid)
    | Serve(env: Env)

  // Queues.

  /** `try_send` of several messages: what does not fit is lost. */
  function Enqueued(q: seq<ServerMessage>, msgs: seq<ServerMessage>): (r: seq<ServerMessage>)
    ensures |q| <= QUEUE_CAP ==> |r| <= QUEUE_CAP
  {
    if |q| + |msgs| <= QUEUE_CAP then q + msgs
    else if |q| <= QUEUE_CAP then q + msgs[..QUEUE_CAP - |q|]
    else q
  }

  /** Messages are lost only from their end, and only for what would be beyond 120. */
  lemma QueuesTake120(q: seq<ServerMessage>, msgs: seq<ServerMessage>)
    requires |q| <= 120
    ensures Enqueued(q, msgs) == if |q + msgs| <= 120 then q + msgs else (q + msgs)[..120]
  {
  }

  function Deliver(queues: map<BasicId, seq<ServerMessage>>, out: Outbox): map<BasicId, seq<ServerMessage>> {
    map p | p in queues :: if p in queues then Enqueued(queues[p], SentTo(out, p)) else []
  }

  function Overflowing(queues: map<BasicId, seq<ServerMessage>>, out: Outbox): set<BasicId> {
    set p | p in queues && |queues[p]| + |SentTo(out, p)| > QUEUE_CAP
  }

  function Opened(queues: map<BasicId, seq<ServerMessage>>, reply: Reply): map<BasicId, seq<ServerMessage>> {
    if reply.Admitted? then queues[reply.pid := []] else queues
  }

  // Steps.

  function Requests(sid: Sid, ops: seq<Op>): seq<Request> {
    if ops == [] then [] else [Request(Some(sid), ops[0])] + Requests(sid, ops[1..])
  }

  predicate CapOp(op: Op) {
    op.ListLobbies? || op.HostLobby? || op.JoinLobby?
  }

  function CallsPassed(passed: map<Ip, nat>, ip: Ip): nat {
    if ip in passed then passed[ip] else 0
  }

  /** Fresh ids are new to the whole run, not only to the present state. */
  ghost predicate CanServe(y: System, env: Env) {
    && y.channel != []
    && EnvOk(y.server, y.channel[0].op, env)
    && env.now == y.now
    && (y.channel[0].op.HostLobby? || y.channel[0].op.JoinLobby? ==> env.pid !in y.used)
  }

  function Replied(c: Conn, o: Outcome): Conn {
    if o.reply.NoReply? then c
    else if o.reply.Admitted? && Seated(o.state, o.reply.pid) then
      c.(reply := o.reply, clean := c.client.lobbyMeta.Keys <= LobbyOf(o.state, o.reply.pid).metadata.Keys)
    else c.(reply := o.reply)
  }

  /** The event loop takes the first request off the channel. */
  ghost function Served(y: System, env: Env): System
    requires CanServe(y, env)
  {
    Dispatched(y, Step(y.server, y.channel[0].op, env))
  }

  /** What becomes of the system when the first request has had its outcome. */
  function Dispatched(y: System, o: Outcome): System
    requires y.channel != []
  {
    var Request(from, op) := y.channel[0];
    var queues := Opened(y.queues, o.reply);
    System(
      o.state,
      y.channel[1..],
      if from.Some? && from.value in y.conns then y.conns[from.value := Replied(y.conns[from.value], o)] else y.conns,
      Deliver(queues, o.out),
      y.now,
      if o.reply.Admitted? then y.used + {o.reply.pid} else y.used,
      if o.reply.Admitted? && from.Some? then y.owner[o.reply.pid := from.value] else y.owner,
      y.lossy + Overflowing(queues, o.out),
      if from.None? then y.open
      else if op.IntroduceSession? && o.reply == Granted(true) then y.open + {from.value}
      else if op.CloseSession? then y.open - {from.value}
      else y.open,
      if CapOp(op) && PassesCap(y.server, op.ip, y.now) then y.passed[op.ip := CallsPassed(y.passed, op.ip) + 1]
      else y.passed)
  }

  /** The input of a session's turn is really there: a queued message is the first, an answer the one given. */
  predicate InputAt(y: System, c: Conn, input: Input) {
    && Accepts(c.session, input)
    && (input.Answered? ==> input.reply == c.reply)
    && (input.Dequeued? ==>
         && c.session.pid.Some? && c.session.pid.value in y.queues
         && y.queues[c.session.pid.value] != [] && input.msg == y.queues[c.session.pid.value][0])
  }

  function TurnTaken(y: System, sid: Sid, input: Input): System
    requires sid in y.conns && InputAt(y, y.conns[sid], input)
  {
    Progressed(y, sid, input, Turn(y.conns[sid].session, input, y.now))
  }

  function Progressed(y: System, sid: Sid, input: Input, p: Progress): System
    requires sid in y.conns && InputAt(y, y.conns[sid], input)
  {
    var c := y.conns[sid];
    var c' := c.(
      stage := if p.session.stop then Leaving else Serving,
      session := p.session,
      reply := if input.Answered? then NoReply else c.reply,
      wire := c.wire + p.sent);
    var queues :=
      if input.Dequeued? then y.queues[c.session.pid.value := y.queues[c.session.pid.value][1..]] else y.queues;
    y.(conns := y.conns[sid := c'],
       channel := y.channel + Requests(sid, p.ops),
       queues := if p.session.stop && p.session.pid.Some? then queues - {p.session.pid.value} else queues)
  }

  ghost predicate Enabled(y: System, ev: Event) {
    match ev
    case Tick(to) => y.now <= to
    case Timer => true
    case Arrive(sid, _, client) => sid !in y.conns && Newcomer(client)
    case Shake(sid) => sid in y.conns && y.conns[sid].stage.Greeting? && y.conns[sid].reply.Granted?
    case Accept(sid) => sid in y.conns && y.conns[sid].stage.Shaking?
    case Abort(sid) => sid in y.conns && y.conns[sid].stage.Shaking?
    case SessionTurn(sid, input) => sid in y.conns && y.conns[sid].stage.Serving? && InputAt(y, y.conns[sid], input)
    case Drop(sid) => sid in y.conns && y.conns[sid].stage.Leaving?
    case Take(sid) => sid in y.conns && y.conns[sid].wire != []
    case Serve(env) => CanServe(y, env)
  }

  function PutConn(y: System, sid: Sid, c: Conn): System {
    y.(conns := y.conns[sid := c])
  }

  ghost function Fire(y: System, ev: Event): System
    requires Enabled(y, ev)
  {
    match ev
    case Tick(to) => y.(now := to)
    case Timer => y.(channel := y.channel + [Request(None, Prune)])
    case Arrive(sid, ip, client) =>
      PutConn(y, sid, Conn(Greeting, NewSession(ip, y.now), NoReply, [], client, false)).(
        channel := y.channel + [Request(Some(sid), IntroduceSession(ip))])
    case Shake(sid) =>
      var c := y.conns[sid];
      PutConn(y, sid, c.(stage := if c.reply.ok then Shaking else Gone, reply := NoReply))
    case Accept(sid) =>
      var c := y.conns[sid];
      PutConn(y, sid, c.(stage := Serving, session := NewSession(c.session.ip, y.now)))
    case Abort(sid) => PutConn(y, sid, y.conns[sid].(stage := Leaving))
    case SessionTurn(sid, input) => TurnTaken(y, sid, input)
    case Drop(sid) =>
      PutConn(y, sid, y.conns[sid].(stage := Gone)).(
        channel := y.channel + [Request(Some(sid), CloseSession(y.conns[sid].session.ip))])
    case Take(sid) =>
      var c := y.conns[sid];
      PutConn(y, sid, c.(client := Apply(c.client, c.wire[0]), wire := c.wire[1..]))
    case Serve(env) => Served(y, env)
  }

  ghost predicate Next(y: System, z: System) {
    exists ev :: Enabled(y, ev) && z == Fire(y, ev)
  }

  ghost predicate NextAt(run: seq<System>, i: nat)
    requires i + 1 < |run|
  {
    Next(run[i], run[i + 1])
  }

  /** A run: any schedule of the event loop, sessions, clients, clock and timer. */
  ghost predicate IsRun(run: seq<System>) {
    && run != [] && run[0] == START
    && forall i: nat :: i + 1 < |run| ==> NextAt(run, i)
  }

  // The requests of one session, oldest first.

  function Own(r: Request, sid: Sid): seq<Op> {
    if r.from == Some(sid) then [r.op] else []
  }

  function Pending(channel: seq<Request>, sid: Sid): seq<Op> {
    if channel == [] then [] else Own(channel[0], sid) + Pending(channel[1..], sid)
  }

  lemma {:induction false} PendingConcat(a: seq<Request>, b: seq<Request>, sid: Sid)
    ensures Pending(a + b, sid) == Pending(a, sid) + Pending(b, sid)
  {
    if a == [] {
      assert a + b == b;
    } else {
      PendingConcat(a[1..], b, sid);
      assert (a + b)[0] == a[0] && (a + b)[1..] == a[1..] + b;
      Associative(Own(a[0], sid), Pending(a[1..], sid), Pending(b, sid));
    }
  }

  lemma {:induction false} PendingRequests(from: Sid, ops: seq<Op>, sid: Sid)
    ensures Pending(Requests(from, ops), sid) == if sid == from then ops else []
  {
    if ops != [] {
      PendingRequests(from, ops[1..], sid);
      assert Requests(from, ops)[1..] == Requests(from, ops[1..]);
      assert ops == [ops[0]] + ops[1..];
    }
  }

  lemma {:induction false} RequestsAre(from: Sid, ops: seq<Op>)
    ensures |Requests(from, ops)| == |ops|
    ensures forall i :: 0 <= i < |ops| ==> Requests(from, ops)[i] == Request(Some(from), ops[i])
  {
    if ops != [] {
      RequestsAre(from, ops[1..]);
    }
  }
}
