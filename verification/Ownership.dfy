/**
 * Who waits for what, and who owns which player: the discipline of every connection in every reachable state.
 */
module Ownership {
  import opened Basics
  import opened Server
  import opened ServerInvariants
  import opened Sessions
  import opened Replica
  import opened System

  /** An operation that a session with player `pid` issues without waiting. */
  predicate Asks(op: Op, pid: Option<BasicId>) {
    pid.Some? && Unanswered(op, pid.value)
  }

  ghost predicate AllUnanswered(ops: seq<Op>, pid: Option<BasicId>) {
    forall i :: 0 <= i < |ops| ==> Asks(ops[i], pid)
  }

  ghost predicate AllButLastUnanswered(ops: seq<Op>, pid: Option<BasicId>) {
    forall i :: 0 <= i < |ops| - 1 ==> Asks(ops[i], pid)
  }

  /** Pending requests of which only the last is answered. */
  ghost predicate EndsAwaited(s: Session, pend: seq<Op>) {
    pend != [] && Awaited(s, pend[|pend| - 1]) && AllButLastUnanswered(pend, s.pid)
  }

  ghost predicate EndsClosing(s: Session, pend: seq<Op>) {
    pend != [] && pend[|pend| - 1] == CloseSession(s.ip) && AllButLastUnanswered(pend, s.pid)
  }

  predicate Fits(s: Session, reply: Reply) {
    match s.awaiting
    case Idle => false
    case ForPong => s.pid.Some? && reply.Ponged?
    case ForListing => s.pid.None? && (reply.Listed? || reply.Denied?)
    case ForAdmission => s.pid.None? && (reply.Admitted? || reply.Denied?)
  }

  /** Before a player is obtained the client has been told nothing about a lobby. */
  ghost predicate Untold(c: Conn) {
    c.session.pid.None? && !c.session.stop ==> c.wire == [] && Newcomer(c.client)
  }

  /**
   * A connection, its requests still on the channel, and whether the server counts its handle: nothing is
   * pending beside an answer, and the closing of the handle comes after everything else.
   */
  ghost predicate ConnOk(c: Conn, pend: seq<Op>, isOpen: bool) {
    && Untold(c)
    && match c.stage {
         case Greeting =>
           && c.session.pid.None? && c.session.awaiting.Idle? && !c.session.stop
           && (if c.reply.NoReply? then pend == [IntroduceSession(c.session.ip)] && !isOpen
               else c.reply.Granted? && pend == [] && isOpen == c.reply.ok)
         case Shaking =>
           && c.session.pid.None? && c.session.awaiting.Idle? && !c.session.stop && c.reply.NoReply?
           && pend == [] && isOpen
         case Serving =>
           && isOpen && !c.session.stop
           && (if c.session.awaiting.Idle? then c.reply.NoReply? && AllUnanswered(pend, c.session.pid)
               else if c.reply.NoReply? then EndsAwaited(c.session, pend)
               else Fits(c.session, c.reply) && pend == [])
         case Leaving => isOpen && c.session.awaiting.Idle? && c.reply.NoReply? && AllUnanswered(pend, c.session.pid)
         case Gone =>
           && c.session.awaiting.Idle? && c.reply.NoReply?
           && (if isOpen then EndsClosing(c.session, pend) else pend == [])
       }
  }

  ghost predicate Doomed(pend: seq<Op>, pid: BasicId) {
    exists i :: 0 <= i < |pend| && pend[i].RemovePlayer? && pend[i].pid == pid
  }

  predicate Holds(c: Conn, pid: BasicId) {
    c.session.pid == Some(pid) || c.reply == Admitted(pid)
  }

  ghost predicate ChannelOk(y: System) {
    forall i :: 0 <= i < |y.channel| ==>
      && ValidOp(y.channel[i].op)
      && (if y.channel[i].from.None? then y.channel[i].op.Prune? else y.channel[i].from.value in y.conns)
  }

  ghost predicate ConnsOk(y: System) {
    && y.open <= y.conns.Keys
    && forall sid :: sid in y.conns ==> ConnOk(y.conns[sid], Pending(y.channel, sid), sid in y.open)
  }

  ghost predicate OwnedBy(y: System, p: BasicId) {
    && p in y.owner && y.owner[p] in y.conns && Holds(y.conns[y.owner[p]], p)
    && (y.conns[y.owner[p]].stage.Serving? || Doomed(Pending(y.channel, y.owner[p]), p))
  }

  /** A connection is the owner of whatever player it holds. */
  ghost predicate HeldIsOwned(y: System) {
    forall sid, p :: sid in y.conns && Holds(y.conns[sid], p) ==> p in y.owner && y.owner[p] == sid && p in y.used
  }

  /** Every player belongs to one connection, the one that obtained it, which serves it or has asked for its removal. */
  ghost predicate PlayersOwned(y: System) {
    forall p :: p in y.server.players ==> p in y.used && OwnedBy(y, p)
  }

  ghost predicate Owned(y: System) {
    HeldIsOwned(y) && PlayersOwned(y) && NULL !in y.used
  }

  ghost predicate QueuedFor(y: System, p: BasicId) {
    p in y.owner && y.owner[p] in y.conns && Holds(y.conns[y.owner[p]], p) && y.conns[y.owner[p]].stage.Serving?
  }

  /** A player's queue is there exactly while its session serves. */
  ghost predicate QueuesOk(y: System) {
    && (forall p :: p in y.queues ==> QueuedFor(y, p) && |y.queues[p]| <= QUEUE_CAP)
    && (forall sid, p :: sid in y.conns && Holds(y.conns[sid], p) && y.conns[sid].stage.Serving? ==> p in y.queues)
  }

  ghost predicate Disciplined(y: System) {
    LobbiesOk(y.server) && ChannelOk(y) && ConnsOk(y) && Owned(y) && QueuesOk(y)
  }

  // What the event loop answers.

  lemma AnswersUnanswered(s: State, op: Op, env: Env, pid: BasicId)
    requires EnvOk(s, op, env) && Unanswered(op, pid)
    ensures Step(s, op, env).reply == NoReply
  {
  }

  lemma AnswersAwaited(s: State, op: Op, env: Env, session: Session)
    requires EnvOk(s, op, env) && Awaited(session, op)
    ensures Fits(session, Step(s, op, env).reply)
    ensures Step(s, op, env).reply.Admitted? ==> op.HostLobby? || op.JoinLobby?
  {
  }

  lemma AnswersOthers(s: State, op: Op, env: Env)
    requires EnvOk(s, op, env)
    ensures var r := Step(s, op, env).reply;
      && (op.IntroduceSession? ==> r.Granted?)
      && (op.Prune? || op.CloseSession? ==> r.NoReply?)
      && (r.Admitted? ==> r.pid == env.pid && (op.HostLobby? || op.JoinLobby?))
      && (r.Ponged? ==> op.AssemblePong?)
  {
  }

  lemma PlayersStay(s: State, op: Op, env: Env)
    requires EnvOk(s, op, env) && !op.HostLobby? && !op.JoinLobby? && !op.RemovePlayer?
    ensures Step(s, op, env).state.players.Keys == s.players.Keys && !Step(s, op, env).reply.Admitted?
  {
  }

  lemma PlayersComeIn(s: State, op: Op, env: Env, o: Outcome)
    requires EnvOk(s, op, env) && (op.HostLobby? || op.JoinLobby?) && o == Step(s, op, env)
    ensures o.state.players.Keys == if o.reply.Admitted? then s.players.Keys + {env.pid} else s.players.Keys
  {
  }

  /** Players only come in by admission and only go out by removal. */
  lemma PlayersAfter(s: State, op: Op, env: Env)
    requires EnvOk(s, op, env)
    ensures var o := Step(s, op, env);
      o.state.players.Keys == if o.reply.Admitted? then s.players.Keys + {env.pid}
                              else if op.RemovePlayer? then s.players.Keys - {op.pid}
                              else s.players.Keys
  {
    if op.HostLobby? || op.JoinLobby? {
      PlayersComeIn(s, op, env, Step(s, op, env));
    } else if !op.RemovePlayer? {
      PlayersStay(s, op, env);
    }
  }

  // Steps of one connection.

  /** One connection changes, and puts requests on the channel. */
  ghost predicate ConnStep(y: System, z: System, sid: Sid, ops: seq<Op>) {
    && sid in z.conns && z.conns == y.conns[sid := z.conns[sid]]
    && z.channel == y.channel + Requests(sid, ops)
    && z.server == y.server && z.open == y.open && z.owner == y.owner && z.used == y.used
  }

  lemma PendingAfter(y: System, z: System, sid: Sid, ops: seq<Op>, other: Sid)
    requires ConnStep(y, z, sid, ops)
    ensures Pending(z.channel, other) == Pending(y.channel, other) + (if other == sid then ops else [])
  {
    PendingConcat(y.channel, Requests(sid, ops), other);
    PendingRequests(sid, ops, other);
  }

  lemma ChannelAfter(y: System, z: System, sid: Sid, ops: seq<Op>)
    requires ChannelOk(y) && ConnStep(y, z, sid, ops)
    requires forall op :: op in ops ==> ValidOp(op)
    ensures ChannelOk(z)
  {
    RequestsAre(sid, ops);
  }

  lemma ConnsAfter(y: System, z: System, sid: Sid, ops: seq<Op>)
    requires ConnsOk(y) && ConnStep(y, z, sid, ops)
    requires ConnOk(z.conns[sid], Pending(y.channel, sid) + ops, sid in y.open)
    ensures ConnsOk(z)
  {
    forall other | other in z.conns ensures ConnOk(z.conns[other], Pending(z.channel, other), other in z.open) {
      PendingAfter(y, z, sid, ops, other);
      if other != sid {
        assert Pending(z.channel, other) == Pending(y.channel, other);
      }
    }
  }

  lemma DoomedConcat(a: seq<Op>, b: seq<Op>, p: BasicId)
    requires Doomed(a, p) || Doomed(b, p)
    ensures Doomed(a + b, p)
  {
    if Doomed(a, p) {
      var i :| 0 <= i < |a| && a[i].RemovePlayer? && a[i].pid == p;
      assert (a + b)[i] == a[i];
    } else {
      var i :| 0 <= i < |b| && b[i].RemovePlayer? && b[i].pid == p;
      assert (a + b)[|a| + i] == b[i];
    }
  }

  /** A connection that keeps its player, and asks for its removal when it stops serving it. */
  ghost predicate KeepsPlayer(y: System, z: System, sid: Sid, ops: seq<Op>)
    requires ConnStep(y, z, sid, ops)
  {
    && (forall p :: Holds(z.conns[sid], p) <==> sid in y.conns && Holds(y.conns[sid], p))
    && (sid in y.conns && y.conns[sid].stage.Serving? && !z.conns[sid].stage.Serving? ==>
         forall p :: Holds(z.conns[sid], p) ==> Doomed(ops, p))
  }

  lemma OwnedAfter(y: System, z: System, sid: Sid, ops: seq<Op>)
    requires Owned(y) && ConnStep(y, z, sid, ops) && KeepsPlayer(y, z, sid, ops)
    ensures Owned(z)
  {
    forall p | p in z.server.players ensures p in z.used && OwnedBy(z, p) {
      assert OwnedBy(y, p);
      PendingAfter(y, z, sid, ops, y.owner[p]);
      var pend := Pending(y.channel, y.owner[p]);
      if y.owner[p] != sid {
        assert pend + [] == pend;
      } else if !z.conns[sid].stage.Serving? {
        assert Holds(z.conns[sid], p);
        DoomedConcat(pend, ops, p);
      }
    }
  }

  lemma QueuesAfter(y: System, z: System, sid: Sid, ops: seq<Op>)
    requires QueuesOk(y) && ConnStep(y, z, sid, ops) && KeepsPlayer(y, z, sid, ops) && z.queues == y.queues
    requires sid in y.conns && y.conns[sid].stage.Serving? ==> z.conns[sid].stage.Serving?
    requires (forall p :: !Holds(z.conns[sid], p))
      || (sid in y.conns && (y.conns[sid].stage.Serving? <==> z.conns[sid].stage.Serving?))
    ensures QueuesOk(z)
  {
    forall p | p in z.queues ensures QueuedFor(z, p) {
      assert QueuedFor(y, p);
    }
  }

  /** All of it, for a step that leaves every queue alone and ends no session. */
  lemma ConnStepKeeps(y: System, z: System, sid: Sid, ops: seq<Op>)
    requires Disciplined(y) && ConnStep(y, z, sid, ops) && KeepsPlayer(y, z, sid, ops) && z.queues == y.queues
    requires ConnOk(z.conns[sid], Pending(y.channel, sid) + ops, sid in y.open)
    requires forall op :: op in ops ==> ValidOp(op)
    requires sid in y.conns && y.conns[sid].stage.Serving? ==> z.conns[sid].stage.Serving?
    requires (forall p :: !Holds(z.conns[sid], p))
      || (sid in y.conns && (y.conns[sid].stage.Serving? <==> z.conns[sid].stage.Serving?))
    ensures Disciplined(z)
  {
    ChannelAfter(y, z, sid, ops);
    ConnsAfter(y, z, sid, ops);
    OwnedAfter(y, z, sid, ops);
    QueuesAfter(y, z, sid, ops);
  }

  lemma NoRequests(sid: Sid, channel: seq<Request>)
    ensures channel + Requests(sid, []) == channel
  {
  }

  /** No one but its own connection puts requests on the channel in a connection's name. */
  lemma {:induction false} NothingPending(channel: seq<Request>, sid: Sid)
    requires forall i :: 0 <= i < |channel| ==> channel[i].from != Some(sid)
    ensures Pending(channel, sid) == []
  {
    if channel != [] {
      NothingPending(channel[1..], sid);
    }
  }

  lemma ArriveKeeps(y: System, ev: Event)
    requires Disciplined(y) && Enabled(y, ev) && ev.Arrive?
    ensures Disciplined(Fire(y, ev))
  {
    var z := Fire(y, ev);
    var ops := [IntroduceSession(ev.ip)];
    NothingPending(y.channel, ev.sid);
    assert Requests(ev.sid, ops) == [Request(Some(ev.sid), ops[0])] + Requests(ev.sid, ops[1..]);
    assert Pending(y.channel, ev.sid) + ops == ops;
    ConnStepKeeps(y, z, ev.sid, ops);
  }

  lemma HandshakeKeeps(y: System, ev: Event, z: System)
    requires Disciplined(y) && Enabled(y, ev) && (ev.Shake? || ev.Accept? || ev.Abort?) && z == Fire(y, ev)
    ensures Disciplined(z)
  {
    NoRequests(ev.sid, y.channel);
    assert ConnOk(y.conns[ev.sid], Pending(y.channel, ev.sid), ev.sid in y.open);
    assert Pending(y.channel, ev.sid) + [] == Pending(y.channel, ev.sid);
    assert KeepsPlayer(y, z, ev.sid, []);
    ConnStepKeeps(y, z, ev.sid, []);
  }

  lemma TakeKeeps(y: System, ev: Event)
    requires Disciplined(y) && Enabled(y, ev) && ev.Take?
    ensures Disciplined(Fire(y, ev))
  {
    var z := Fire(y, ev);
    NoRequests(ev.sid, y.channel);
    assert ConnOk(y.conns[ev.sid], Pending(y.channel, ev.sid), ev.sid in y.open);
    assert Pending(y.channel, ev.sid) + [] == Pending(y.channel, ev.sid);
    assert KeepsPlayer(y, z, ev.sid, []);
    ConnStepKeeps(y, z, ev.sid, []);
  }

  lemma PendingThenClosing(s: Session, pend: seq<Op>)
    requires AllUnanswered(pend, s.pid)
    ensures EndsClosing(s, pend + [CloseSession(s.ip)])
  {
    AllButLast(pend, CloseSession(s.ip), s.pid);
  }

  lemma AllButLast(pend: seq<Op>, last: Op, pid: Option<BasicId>)
    requires AllUnanswered(pend, pid)
    ensures AllButLastUnanswered(pend + [last], pid)
  {
    var all := pend + [last];
    forall i | 0 <= i < |all| - 1 ensures Asks(all[i], pid) {
      assert all[i] == pend[i];
    }
  }

  lemma DropKeeps(y: System, ev: Event, z: System)
    requires Disciplined(y) && Enabled(y, ev) && ev.Drop? && z == Fire(y, ev)
    ensures Disciplined(z)
  {
    var c := y.conns[ev.sid];
    var ops := [CloseSession(c.session.ip)];
    var pend := Pending(y.channel, ev.sid);
    assert ConnOk(c, pend, ev.sid in y.open);
    assert Requests(ev.sid, ops) == [Request(Some(ev.sid), ops[0])] + Requests(ev.sid, ops[1..]);
    PendingThenClosing(c.session, pend);
    assert KeepsPlayer(y, z, ev.sid, ops);
    ConnStepKeeps(y, z, ev.sid, ops);
  }

  // A turn of a session.

  ghost predicate TurnAt(y: System, sid: Sid, input: Input, p: Progress) {
    && sid in y.conns && y.conns[sid].stage.Serving? && InputAt(y, y.conns[sid], input)
    && DisciplinedTurn(y.conns[sid].session, input, p)
  }

  lemma PendingThenAwaited(s: Session, pend: seq<Op>, op: Op)
    requires AllUnanswered(pend, s.pid) && Awaited(s, op)
    ensures EndsAwaited(s, pend + [op])
  {
    AllButLast(pend, op, s.pid);
  }

  lemma PendingMore(pend: seq<Op>, ops: seq<Op>, pid: Option<BasicId>)
    requires AllUnanswered(pend, pid)
    requires forall op :: op in ops ==> pid.Some? && Unanswered(op, pid.value)
    ensures AllUnanswered(pend + ops, pid)
  {
    var all := pend + ops;
    forall i | 0 <= i < |all| ensures Asks(all[i], pid) {
      if i < |pend| {
        assert all[i] == pend[i];
      } else {
        var op := ops[i - |pend|];
        assert op in ops;
        assert all[i] == op;
      }
    }
  }

  lemma TurnConnOk(y: System, sid: Sid, input: Input, p: Progress)
    requires ConnsOk(y) && TurnAt(y, sid, input, p)
    ensures ConnOk(Progressed(y, sid, input, p).conns[sid], Pending(y.channel, sid) + p.ops, sid in y.open)
  {
    var c := y.conns[sid];
    var pend := Pending(y.channel, sid);
    assert ConnOk(c, pend, sid in y.open);
    assert AllUnanswered(pend, p.session.pid);
    if p.session.awaiting.Idle? {
      PendingMore(pend, p.ops, p.session.pid);
    } else {
      assert p.ops == [p.ops[0]];
      PendingThenAwaited(p.session, pend, p.ops[0]);
    }
    assert c.wire + [] == c.wire;
  }

  /** A connection holds its player either by having read the admission or by having it to read. */
  lemma AdmissionIsUnread(c: Conn, pend: seq<Op>, isOpen: bool)
    requires ConnOk(c, pend, isOpen) && c.reply.Admitted?
    ensures c.session.pid.None? && c.session.awaiting.ForAdmission? && c.stage.Serving?
  {
  }

  /** Two connections never hold one player, nor one connection two. */
  lemma HoldersAreUnique(y: System, sid: Sid, other: Sid, p: BasicId, q: BasicId)
    requires ConnsOk(y) && Owned(y)
    requires sid in y.conns && other in y.conns && Holds(y.conns[sid], p) && Holds(y.conns[other], q)
    ensures p == q <==> sid == other
  {
    assert ConnOk(y.conns[sid], Pending(y.channel, sid), sid in y.open);
    if y.conns[sid].reply.Admitted? {
      AdmissionIsUnread(y.conns[sid], Pending(y.channel, sid), sid in y.open);
    }
    assert y.owner[p] == sid && y.owner[q] == other;
  }

  lemma TurnKeepsHold(y: System, sid: Sid, input: Input, p: Progress, q: BasicId)
    requires ConnsOk(y) && TurnAt(y, sid, input, p)
    ensures Holds(Progressed(y, sid, input, p).conns[sid], q) <==> Holds(y.conns[sid], q)
    ensures p.session.stop && Holds(y.conns[sid], q) ==> Doomed(p.ops, q) && p.session.pid == Some(q)
  {
    assert ConnOk(y.conns[sid], Pending(y.channel, sid), sid in y.open);
    if p.session.stop && p.session.pid == Some(q) {
      assert p.ops[|p.ops| - 1].RemovePlayer? && p.ops[|p.ops| - 1].pid == q;
    }
  }

  lemma TurnKeepsPlayer(y: System, sid: Sid, input: Input, p: Progress)
    requires ConnsOk(y) && TurnAt(y, sid, input, p)
    ensures var z := Progressed(y, sid, input, p); ConnStep(y, z, sid, p.ops) && KeepsPlayer(y, z, sid, p.ops)
  {
    var z := Progressed(y, sid, input, p);
    forall q ensures Holds(z.conns[sid], q) <==> Holds(y.conns[sid], q) {
      TurnKeepsHold(y, sid, input, p, q);
    }
    if p.session.stop {
      forall q | Holds(z.conns[sid], q) ensures Doomed(p.ops, q) {
        TurnKeepsHold(y, sid, input, p, q);
      }
    }
  }

  lemma TurnKeepsQueue(y: System, sid: Sid, input: Input, p: Progress, z: System, other: Sid, q: BasicId)
    requires ConnsOk(y) && Owned(y) && QueuesOk(y) && TurnAt(y, sid, input, p) && z == Progressed(y, sid, input, p)
    requires other in z.conns && Holds(z.conns[other], q) && z.conns[other].stage.Serving?
    ensures q in z.queues
  {
    TurnKeepsHold(y, sid, input, p, q);
    assert Holds(y.conns[other], q) && y.conns[other].stage.Serving?;
    assert q in y.queues;
    if p.session.stop && p.session.pid.Some? {
      TurnKeepsHold(y, sid, input, p, p.session.pid.value);
      HoldersAreUnique(y, sid, other, p.session.pid.value, q);
    }
  }

  lemma TurnQueues(y: System, sid: Sid, input: Input, p: Progress)
    requires ConnsOk(y) && Owned(y) && QueuesOk(y) && TurnAt(y, sid, input, p)
    ensures QueuesOk(Progressed(y, sid, input, p))
  {
    var z := Progressed(y, sid, input, p);
    forall q | q in z.queues ensures QueuedFor(z, q) && |z.queues[q]| <= QUEUE_CAP {
      assert QueuedFor(y, q);
      TurnKeepsHold(y, sid, input, p, q);
    }
    forall other, q | other in z.conns && Holds(z.conns[other], q) && z.conns[other].stage.Serving?
      ensures q in z.queues
    {
      TurnKeepsQueue(y, sid, input, p, z, other, q);
    }
  }

  lemma TurnKeeps(y: System, sid: Sid, input: Input)
    requires Disciplined(y) && Enabled(y, SessionTurn(sid, input))
    ensures Disciplined(TurnTaken(y, sid, input))
  {
    var p := Turn(y.conns[sid].session, input, y.now);
    TurnDiscipline(y.conns[sid].session, input, y.now);
    ProgressKeeps(y, sid, input, p);
  }

  lemma ProgressKeeps(y: System, sid: Sid, input: Input, p: Progress)
    requires Disciplined(y) && TurnAt(y, sid, input, p)
    ensures Disciplined(Progressed(y, sid, input, p))
  {
    var z := Progressed(y, sid, input, p);
    TurnConnOk(y, sid, input, p);
    TurnKeepsPlayer(y, sid, input, p);
    TurnQueues(y, sid, input, p);
    ChannelAfter(y, z, sid, p.ops);
    ConnsAfter(y, z, sid, p.ops);
    OwnedAfter(y, z, sid, p.ops);
  }

  // A step of the event loop.

  /** The requests of the connection served lose their first. */
  lemma PendingServed(y: System, sid: Sid)
    requires y.channel != []
    ensures var rest := Pending(y.channel[1..], sid);
      Pending(y.channel, sid) == if y.channel[0].from == Some(sid) then [y.channel[0].op] + rest else rest
  {
  }

  /** What a reply does to the connection it goes to, and the closing of a handle to the set of open ones. */
  lemma ServedConnOk(c: Conn, op: Op, rest: seq<Op>, isOpen: bool, s: State, env: Env)
    requires ConnOk(c, [op] + rest, isOpen) && EnvOk(s, op, env)
    ensures var o := Step(s, op, env);
      ConnOk(Replied(c, o), rest,
        if op.IntroduceSession? && o.reply == Granted(true) then true else isOpen && !op.CloseSession?)
  {
    var pend := [op] + rest;
    assert pend[0] == op && rest == pend[1..];
    assert forall i :: 0 <= i < |rest| ==> rest[i] == pend[i + 1];
    AnswersOthers(s, op, env);
    if AllUnanswered(pend, c.session.pid) {
      UnansweredServed(c, op, rest, isOpen, s, env);
    } else if rest == [] {
      LastServed(c, op, isOpen, s, env);
    } else if c.stage.Serving? || c.stage.Gone? {
      AnswersUnanswered(s, op, env, c.session.pid.value);
    }
  }

  lemma LastServed(c: Conn, op: Op, isOpen: bool, s: State, env: Env)
    requires ConnOk(c, [op], isOpen) && EnvOk(s, op, env) && !AllUnanswered([op], c.session.pid)
    ensures var o := Step(s, op, env);
      ConnOk(Replied(c, o), [],
        if op.IntroduceSession? && o.reply == Granted(true) then true else isOpen && !op.CloseSession?)
  {
    AnswersOthers(s, op, env);
    assert [op][0] == op;
    if c.stage.Serving? {
      AnswersAwaited(s, op, env, c.session);
    }
  }

  lemma UnansweredServed(c: Conn, op: Op, rest: seq<Op>, isOpen: bool, s: State, env: Env)
    requires ConnOk(c, [op] + rest, isOpen) && EnvOk(s, op, env) && AllUnanswered([op] + rest, c.session.pid)
    ensures Replied(c, Step(s, op, env)) == c && ConnOk(c, rest, isOpen) && !op.IntroduceSession? && !op.CloseSession?
  {
    var pend := [op] + rest;
    assert pend[0] == op && rest == pend[1..];
    assert forall i :: 0 <= i < |rest| ==> rest[i] == pend[i + 1];
    AnswersUnanswered(s, op, env, c.session.pid.value);
  }

  lemma ServedConnsAt(y: System, env: Env, o: Outcome, sid: Sid)
    requires ConnsOk(y) && ChannelOk(y) && CanServe(y, env) && o == Step(y.server, y.channel[0].op, env)
    requires sid in y.conns
    ensures var z := Dispatched(y, o); ConnOk(z.conns[sid], Pending(z.channel, sid), sid in z.open)
  {
    var Request(from, op) := y.channel[0];
    AnswersOthers(y.server, op, env);
    PendingServed(y, sid);
    assert ConnOk(y.conns[sid], Pending(y.channel, sid), sid in y.open);
    if from == Some(sid) {
      ServedConnOk(y.conns[sid], op, Pending(y.channel[1..], sid), sid in y.open, y.server, env);
    }
  }

  lemma ServedConns(y: System, env: Env, o: Outcome, z: System)
    requires ConnsOk(y) && ChannelOk(y) && CanServe(y, env) && o == Step(y.server, y.channel[0].op, env)
    requires z == Dispatched(y, o)
    ensures ConnsOk(z)
  {
    AnswersOthers(y.server, y.channel[0].op, env);
    forall sid | sid in z.conns ensures ConnOk(z.conns[sid], Pending(z.channel, sid), sid in z.open) {
      ServedConnsAt(y, env, o, sid);
    }
  }

  lemma ServedChannel(y: System, env: Env)
    requires ChannelOk(y) && CanServe(y, env)
    ensures ChannelOk(Served(y, env))
  {
    var z := Served(y, env);
    forall i | 0 <= i < |z.channel| ensures z.channel[i] == y.channel[i + 1] {
    }
  }

  /** An admission goes to a connection that holds no player yet. */
  lemma AdmissionIsAwaited(y: System, env: Env)
    requires ConnsOk(y) && ChannelOk(y) && CanServe(y, env) && Step(y.server, y.channel[0].op, env).reply.Admitted?
    ensures var from := y.channel[0].from;
      && from.Some? && from.value in y.conns && y.conns[from.value].stage.Serving?
      && y.conns[from.value].session.pid.None? && y.conns[from.value].reply.NoReply?
      && y.conns[from.value].session.awaiting.ForAdmission?
  {
    var Request(from, op) := y.channel[0];
    AnswersOthers(y.server, op, env);
    var sid := from.value;
    PendingServed(y, sid);
    assert ConnOk(y.conns[sid], Pending(y.channel, sid), sid in y.open);
    assert Pending(y.channel, sid)[0] == op;
  }

  lemma DispatchedHolds(y: System, o: Outcome, sid: Sid, p: BasicId)
    requires ConnsOk(y) && y.channel != [] && sid in y.conns
    ensures Holds(Dispatched(y, o).conns[sid], p)
      <==> Holds(y.conns[sid], p) || (o.reply == Admitted(p) && y.channel[0].from == Some(sid))
  {
    if y.channel[0].from == Some(sid) {
      PendingServed(y, sid);
      assert ConnOk(y.conns[sid], Pending(y.channel, sid), sid in y.open);
      assert Pending(y.channel, sid) != [];
      assert !y.conns[sid].reply.Admitted?;
    }
  }

  lemma ServedHolds(y: System, env: Env, sid: Sid, p: BasicId)
    requires ConnsOk(y) && CanServe(y, env) && sid in y.conns
    ensures var o := Step(y.server, y.channel[0].op, env);
      Holds(Served(y, env).conns[sid], p)
      <==> Holds(y.conns[sid], p) || (o.reply == Admitted(p) && y.channel[0].from == Some(sid))
  {
    DispatchedHolds(y, Step(y.server, y.channel[0].op, env), sid, p);
  }

  lemma DoomedServed(y: System, sid: Sid, p: BasicId)
    requires y.channel != [] && Doomed(Pending(y.channel, sid), p)
    requires !(y.channel[0].op.RemovePlayer? && y.channel[0].op.pid == p)
    ensures Doomed(Pending(y.channel[1..], sid), p)
  {
    var pend, rest := Pending(y.channel, sid), Pending(y.channel[1..], sid);
    PendingServed(y, sid);
    var i :| 0 <= i < |pend| && pend[i].RemovePlayer? && pend[i].pid == p;
    assert rest[if pend == rest then i else i - 1] == pend[i];
  }

  /** Every player after a step was one before, or is the one admitted. */
  lemma ServedPlayers(y: System, env: Env, p: BasicId)
    requires CanServe(y, env) && p in Served(y, env).server.players
    ensures var Request(from, op) := y.channel[0];
      Step(y.server, op, env).reply == Admitted(p) || (p in y.server.players && !(op.RemovePlayer? && op.pid == p))
  {
    PlayersAfter(y.server, y.channel[0].op, env);
    AnswersOthers(y.server, y.channel[0].op, env);
  }

  /** A newcomer's session is there to serve its queue, and its id is new. */
  ghost predicate Welcoming(y: System, o: Outcome)
    requires y.channel != []
  {
    o.reply.Admitted? ==>
      && o.reply.pid !in y.used && y.channel[0].from.Some? && y.channel[0].from.value in y.conns
      && y.conns[y.channel[0].from.value].stage.Serving?
  }

  lemma OwnerDispatched(y: System, o: Outcome, p: BasicId)
    requires ConnsOk(y) && Owned(y) && y.channel != [] && Welcoming(y, o)
    requires o.reply == Admitted(p)
             || (p in y.server.players && !(y.channel[0].op.RemovePlayer? && y.channel[0].op.pid == p))
    ensures p in Dispatched(y, o).used && OwnedBy(Dispatched(y, o), p)
  {
    if o.reply == Admitted(p) {
      DispatchedHolds(y, o, y.channel[0].from.value, p);
    } else {
      assert OwnedBy(y, p) && p in y.used;
      DispatchedHolds(y, o, y.owner[p], p);
      if !y.conns[y.owner[p]].stage.Serving? {
        DoomedServed(y, y.owner[p], p);
      }
    }
  }

  lemma ServedWelcomes(y: System, env: Env, o: Outcome)
    requires ConnsOk(y) && ChannelOk(y) && CanServe(y, env) && o == Step(y.server, y.channel[0].op, env)
    ensures Welcoming(y, o)
  {
    AnswersOthers(y.server, y.channel[0].op, env);
    if o.reply.Admitted? {
      AdmissionIsAwaited(y, env);
    }
  }

  lemma ServedOwner(y: System, env: Env, p: BasicId)
    requires ConnsOk(y) && ChannelOk(y) && Owned(y) && CanServe(y, env) && p in Served(y, env).server.players
    ensures p in Served(y, env).used && OwnedBy(Served(y, env), p)
  {
    var o := Step(y.server, y.channel[0].op, env);
    ServedWelcomes(y, env, o);
    ServedPlayers(y, env, p);
    OwnerDispatched(y, o, p);
  }

  lemma ServedPlayersOwned(y: System, env: Env)
    requires ConnsOk(y) && ChannelOk(y) && Owned(y) && CanServe(y, env)
    ensures PlayersOwned(Served(y, env))
  {
    forall p | p in Served(y, env).server.players ensures p in Served(y, env).used && OwnedBy(Served(y, env), p) {
      ServedOwner(y, env, p);
    }
  }

  lemma ServedUsed(y: System, env: Env)
    requires NULL !in y.used && CanServe(y, env)
    ensures NULL !in Served(y, env).used
  {
    AnswersOthers(y.server, y.channel[0].op, env);
  }

  lemma HolderDispatched(y: System, o: Outcome, sid: Sid, p: BasicId, z: System)
    requires ConnsOk(y) && HeldIsOwned(y) && y.channel != [] && Welcoming(y, o) && z == Dispatched(y, o)
    requires sid in y.conns && Holds(z.conns[sid], p)
    ensures p in z.owner && z.owner[p] == sid && p in z.used
  {
    DispatchedHolds(y, o, sid, p);
    if Holds(y.conns[sid], p) {
      assert p in y.used && y.owner[p] == sid;
    }
  }

  lemma DispatchedHeldIsOwned(y: System, o: Outcome, z: System)
    requires ConnsOk(y) && HeldIsOwned(y) && y.channel != [] && Welcoming(y, o) && z == Dispatched(y, o)
    ensures HeldIsOwned(z)
  {
    forall sid, p | sid in z.conns && Holds(z.conns[sid], p) ensures p in z.owner && z.owner[p] == sid && p in z.used {
      HolderDispatched(y, o, sid, p, z);
    }
  }

  lemma ServedHeldIsOwned(y: System, env: Env, o: Outcome)
    requires ConnsOk(y) && ChannelOk(y) && HeldIsOwned(y) && CanServe(y, env)
    requires o == Step(y.server, y.channel[0].op, env)
    ensures HeldIsOwned(Dispatched(y, o))
  {
    ServedWelcomes(y, env, o);
    DispatchedHeldIsOwned(y, o, Dispatched(y, o));
  }

  lemma QueueDispatched(y: System, o: Outcome, p: BasicId)
    requires ConnsOk(y) && Owned(y) && QueuesOk(y) && y.channel != [] && Welcoming(y, o)
    requires p in Dispatched(y, o).queues
    ensures QueuedFor(Dispatched(y, o), p) && |Dispatched(y, o).queues[p]| <= QUEUE_CAP
  {
    if o.reply == Admitted(p) {
      DispatchedHolds(y, o, y.channel[0].from.value, p);
    } else {
      assert QueuedFor(y, p);
      DispatchedHolds(y, o, y.owner[p], p);
    }
  }

  lemma DispatchedQueues(y: System, o: Outcome, z: System)
    requires ConnsOk(y) && Owned(y) && QueuesOk(y) && y.channel != [] && Welcoming(y, o) && z == Dispatched(y, o)
    ensures QueuesOk(z)
  {
    forall p | p in z.queues ensures QueuedFor(z, p) && |z.queues[p]| <= QUEUE_CAP {
      QueueDispatched(y, o, p);
    }
    forall sid, p | sid in z.conns && Holds(z.conns[sid], p) && z.conns[sid].stage.Serving? ensures p in z.queues {
      DispatchedHolds(y, o, sid, p);
    }
  }

  lemma ServedQueues(y: System, env: Env, o: Outcome)
    requires ConnsOk(y) && ChannelOk(y) && Owned(y) && QueuesOk(y) && CanServe(y, env)
    requires o == Step(y.server, y.channel[0].op, env)
    ensures QueuesOk(Dispatched(y, o))
  {
    ServedWelcomes(y, env, o);
    DispatchedQueues(y, o, Dispatched(y, o));
  }

  lemma ServedKeeps(y: System, env: Env)
    requires Disciplined(y) && CanServe(y, env)
    ensures Disciplined(Served(y, env))
  {
    StepKeepsLobbies(y.server, y.channel[0].op, env);
    ServedChannel(y, env);
    ServedConns(y, env, Step(y.server, y.channel[0].op, env), Served(y, env));
    ServedPlayersOwned(y, env);
    ServedHeldIsOwned(y, env, Step(y.server, y.channel[0].op, env));
    ServedUsed(y, env);
    ServedQueues(y, env, Step(y.server, y.channel[0].op, env));
  }

  lemma TimerPending(y: System, sid: Sid)
    ensures Pending(y.channel + [Request(None, Prune)], sid) == Pending(y.channel, sid)
  {
    var r := Request(None, Prune);
    PendingConcat(y.channel, [r], sid);
    assert Pending([r], sid) == [] + Pending([r][1..], sid);
    assert Pending(y.channel, sid) + [] == Pending(y.channel, sid);
  }

  /** A step that leaves everything but the clock and the channel, and every connection's requests, as they were. */
  lemma ClockKeepsOwners(y: System, z: System)
    requires PlayersOwned(y) && z == y.(now := z.now, channel := z.channel)
    requires forall sid :: Pending(z.channel, sid) == Pending(y.channel, sid)
    ensures PlayersOwned(z)
  {
    forall p | p in z.server.players ensures p in z.used && OwnedBy(z, p) {
      assert OwnedBy(y, p);
    }
  }

  lemma ClockKeepsConns(y: System, z: System)
    requires ConnsOk(y) && z == y.(now := z.now, channel := z.channel)
    requires forall sid :: Pending(z.channel, sid) == Pending(y.channel, sid)
    ensures ConnsOk(z)
  {
  }

  lemma ClockKeepsQueues(y: System, z: System)
    requires HeldIsOwned(y) && QueuesOk(y) && z == y.(now := z.now, channel := z.channel)
    ensures HeldIsOwned(z) && QueuesOk(z)
  {
    forall p | p in z.queues ensures QueuedFor(z, p) {
      assert QueuedFor(y, p);
    }
  }

  lemma ClockKeeps(y: System, z: System)
    requires Disciplined(y) && ChannelOk(z)
    requires z == y.(now := z.now, channel := z.channel)
    requires forall sid :: Pending(z.channel, sid) == Pending(y.channel, sid)
    ensures Disciplined(z)
  {
    ClockKeepsOwners(y, z);
    ClockKeepsConns(y, z);
    ClockKeepsQueues(y, z);
  }

  lemma TimerKeeps(y: System)
    requires Disciplined(y)
    ensures Disciplined(Fire(y, Timer))
  {
    forall sid ensures Pending(Fire(y, Timer).channel, sid) == Pending(y.channel, sid) {
      TimerPending(y, sid);
    }
    ClockKeeps(y, Fire(y, Timer));
  }

  /** The discipline holds in every reachable state. */
  lemma FireKeepsDiscipline(y: System, ev: Event)
    requires Disciplined(y) && Enabled(y, ev)
    ensures Disciplined(Fire(y, ev))
  {
    match ev
    case Tick(_) => ClockKeeps(y, Fire(y, ev));
    case Timer => TimerKeeps(y);
    case Arrive(_, _, _) => ArriveKeeps(y, ev);
    case Shake(_) => HandshakeKeeps(y, ev, Fire(y, ev));
    case Accept(_) => HandshakeKeeps(y, ev, Fire(y, ev));
    case Abort(_) => HandshakeKeeps(y, ev, Fire(y, ev));
    case SessionTurn(sid, input) => TurnKeeps(y, sid, input);
    case Drop(_) => DropKeeps(y, ev, Fire(y, ev));
    case Take(_) => TakeKeeps(y, ev);
    case Serve(env) => ServedKeeps(y, env);
  }

  lemma StartDisciplined()
    ensures Disciplined(START)
  {
    EmptyIsValid();
  }
}
