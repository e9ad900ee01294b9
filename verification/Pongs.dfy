/** Pongs that overtake queued messages, with or without loss: whom they can and cannot take out of a replica. */
module Pongs {
  import opened Basics
  import opened Server
  import opened ServerInvariants
  import opened Sessions
  import opened Replica
  import opened System
  import opened Ownership
  import opened Agreement

  /** The players introduced by a sequence of messages. */
  function Introduced(msgs: seq<ServerMessage>): set<BasicId> {
    set m | m in msgs && m.Joined? :: m.pid
  }

  lemma IntroducedConcat(a: seq<ServerMessage>, b: seq<ServerMessage>)
    ensures Introduced(a + b) == Introduced(a) + Introduced(b)
  {
  }

  lemma AppliedKnows(r: Shadow, m: ServerMessage)
    ensures Apply(r, m).others.Keys <= r.others.Keys + Introduced([m])
  {
    if m.Joined? {
      assert m in [m];
    }
  }

  /**
   * Reading `msgs` with the players `known`: no pong that lists anybody leaves out one of the players met so far
   * who is `present` on the server.
   */
  ghost predicate Safe(known: set<BasicId>, msgs: seq<ServerMessage>, present: set<BasicId>)
    decreases |msgs|
  {
    msgs == [] ||
    (&& (msgs[0].Pong? && msgs[0].players != {} ==> known * present <= msgs[0].players)
     && Safe(known + Introduced([msgs[0]]), msgs[1..], present))
  }

  /** Knowing fewer players, or finding fewer of the known ones present, is as safe. */
  lemma {:induction false} SaferWithFewer(
      known: set<BasicId>, fewer: set<BasicId>, msgs: seq<ServerMessage>, present: set<BasicId>, later: set<BasicId>)
    requires Safe(known, msgs, present) && fewer <= known
    requires (known + Introduced(msgs)) * later <= present
    ensures Safe(fewer, msgs, later)
    decreases |msgs|
  {
    if msgs != [] {
      assert msgs == [msgs[0]] + msgs[1..];
      IntroducedConcat([msgs[0]], msgs[1..]);
      var met := Introduced([msgs[0]]);
      SaferWithFewer(known + met, fewer + met, msgs[1..], present, later);
    }
  }

  lemma {:induction false} SafeConcat(
      known: set<BasicId>, a: seq<ServerMessage>, b: seq<ServerMessage>, present: set<BasicId>)
    requires Safe(known, a, present) && Safe(known + Introduced(a), b, present)
    ensures Safe(known, a + b, present)
    decreases |a|
  {
    if a == [] {
      assert a + b == b;
      assert known + Introduced(a) == known;
    } else {
      var met := Introduced([a[0]]);
      assert a == [a[0]] + a[1..];
      IntroducedConcat([a[0]], a[1..]);
      assert known + Introduced(a) == known + met + Introduced(a[1..]);
      SafeConcat(known + met, a[1..], b, present);
      assert (a + b)[1..] == a[1..] + b;
    }
  }

  /** What a client will read before anything still in its queue. */
  function Ahead(c: Conn): seq<ServerMessage> {
    c.wire + PongOf(c.reply)
  }

  /** Whom a connection's client knows or will be told of before its queue. */
  function Met(c: Conn): set<BasicId> {
    c.client.others.Keys + Introduced(c.wire)
  }

  /** Two players, if both are still there, are in one lobby. */
  ghost predicate Mates(s: State, p: BasicId, q: BasicId) {
    p in s.players && q in s.players ==> s.players[q].lid == s.players[p].lid
  }

  ghost predicate SaneQueued(y: System, p: BasicId, m: ServerMessage) {
    !m.Pong? && (m.Joined? ==> m.pid in y.used && Mates(y.server, p, m.pid))
  }

  ghost predicate QueuesSane(y: System) {
    forall p, m :: p in y.queues && m in y.queues[p] ==> SaneQueued(y, p, m)
  }

  /** A client has only ever met players who share its lobby or are gone. */
  ghost predicate SaneConn(y: System, c: Conn) {
    && Met(c) <= y.used
    && forall p, q :: Holds(c, p) && q in Met(c) ==> Mates(y.server, p, q)
  }

  ghost predicate MetSane(y: System) {
    forall sid :: sid in y.conns ==> SaneConn(y, y.conns[sid])
  }

  /** A pong that lists nobody only goes to someone whose own player is gone. */
  ghost predicate EmptyPongsAreLate(y: System, c: Conn) {
    Pong({}) in Ahead(c) ==> exists p :: Holds(c, p) && p in y.used && p !in y.server.players
  }

  ghost predicate PongsSafe(y: System) {
    forall sid :: sid in y.conns ==>
      && Safe(y.conns[sid].client.others.Keys, Ahead(y.conns[sid]), y.server.players.Keys)
      && EmptyPongsAreLate(y, y.conns[sid])
  }

  ghost predicate PongOk(y: System) {
    QueuesSane(y) && MetSane(y) && PongsSafe(y)
  }

  // The event loop's messages.

  lemma LidsKept(s: State, op: Op, env: Env, p: BasicId)
    requires EnvOk(s, op, env) && p in s.players && p in Step(s, op, env).state.players
    ensures Step(s, op, env).state.players[p].lid == s.players[p].lid
  {
  }

  ghost predicate SaneMessage(t: State, p: BasicId, m: ServerMessage) {
    && !m.Pong?
    && (m.Joined? ==> p in t.players && m.pid in t.players && t.players[m.pid].lid == t.players[p].lid)
  }

  lemma {:induction false} MetaMessagesSane(t: State, p: BasicId, meta: Metadata, keys: seq<Text>)
    requires forall k :: k in keys ==> k in meta
    ensures forall m :: m in MetaMessages(meta, keys) ==> SaneMessage(t, p, m)
  {
    if keys != [] {
      MetaMessagesSane(t, p, meta, keys[..|keys| - 1]);
    }
  }

  lemma {:induction false} JoinedMessagesSane(
      t: State, p: BasicId, players: map<BasicId, Player>, members: seq<BasicId>)
    requires forall q :: q in members ==> q in players
    requires p in t.players && forall q :: q in members ==> q in t.players && t.players[q].lid == t.players[p].lid
    ensures forall m :: m in JoinedMessages(players, members) ==> SaneMessage(t, p, m)
  {
    if members != [] {
      JoinedMessagesSane(t, p, players, members[..|members| - 1]);
    }
  }

  lemma InsertSane(s: State, lid: LobbyId, pid: BasicId, metadata: Metadata, env: Env, p: BasicId, m: ServerMessage)
    requires OrdersOk(s, lid, env) && pid !in s.players
    requires forall q :: q in s.lobbies[lid].players ==> q in s.players && s.players[q].lid == lid
    requires m in SentTo(Insert(s, lid, pid, metadata, env).out, p)
    ensures SaneMessage(Insert(s, lid, pid, metadata, env).state, p, m)
  {
    var o := Insert(s, lid, pid, metadata, env);
    if p == pid {
      var lobby := s.lobbies[lid];
      MetaMessagesSane(o.state, p, lobby.metadata, env.keys);
      JoinedMessagesSane(o.state, p, s.players, env.members);
    } else {
      assert p in s.lobbies[lid].players;
    }
  }

  lemma AdmissionSane(s: State, op: Op, env: Env, p: BasicId, m: ServerMessage)
    requires Linked(s) && EnvOk(s, op, env) && (op.HostLobby? || op.JoinLobby?)
    requires m in SentTo(Step(s, op, env).out, p)
    ensures SaneMessage(Step(s, op, env).state, p, m)
  {
    var s1 := ChargePeer(s, op.ip, env.now);
    if op.HostLobby? {
      HostedState(s1, op, env);
      InsertSane(Founded(s1, op, env), LobbyId(op.gid, env.lid), env.pid, op.playerMetadata, env, p, m);
    } else {
      InsertSane(s1, op.lid, env.pid, op.playerMetadata, env, p, m);
    }
  }

  lemma SentSane(s: State, op: Op, env: Env, p: BasicId, m: ServerMessage)
    requires Linked(s) && EnvOk(s, op, env) && m in SentTo(Step(s, op, env).out, p)
    ensures SaneMessage(Step(s, op, env).state, p, m)
  {
    if op.HostLobby? || op.JoinLobby? {
      AdmissionSane(s, op, env, p, m);
    }
  }

  // Steps outside the event loop.

  lemma {:induction false} NoPongsAreSafe(known: set<BasicId>, msgs: seq<ServerMessage>, present: set<BasicId>)
    requires forall m :: m in msgs ==> !m.Pong?
    ensures Safe(known, msgs, present)
    decreases |msgs|
  {
    if msgs != [] {
      assert msgs[0] in msgs;
      NoPongsAreSafe(known + Introduced([msgs[0]]), msgs[1..], present);
    }
  }

  lemma ReadingIsSafe(r: Shadow, msgs: seq<ServerMessage>, present: set<BasicId>)
    requires msgs != [] && Safe(r.others.Keys, msgs, present)
    ensures Safe(Apply(r, msgs[0]).others.Keys, msgs[1..], present)
  {
    AppliedKnows(r, msgs[0]);
    var known := r.others.Keys + Introduced([msgs[0]]);
    SaferWithFewer(known, Apply(r, msgs[0]).others.Keys, msgs[1..], present, present * (known + Introduced(msgs[1..])));
    SaferWithFewer(known, Apply(r, msgs[0]).others.Keys, msgs[1..], present, present);
  }

  /** What reading one message makes of a connection. */
  predicate Reads(c: Conn, d: Conn) {
    c.wire != [] && d == c.(client := Apply(c.client, c.wire[0]), wire := c.wire[1..])
  }

  lemma ReadingAhead(c: Conn, d: Conn)
    requires Reads(c, d)
    ensures Ahead(c) != [] && Ahead(c)[0] == c.wire[0] && Ahead(c)[1..] == Ahead(d)
  {
  }

  lemma ReadingMeets(c: Conn, d: Conn)
    requires Reads(c, d)
    ensures Met(d) <= Met(c)
  {
    assert c.wire == [c.wire[0]] + c.wire[1..];
    IntroducedConcat([c.wire[0]], c.wire[1..]);
    AppliedKnows(c.client, c.wire[0]);
  }

  lemma ReadingConn(y: System, c: Conn, d: Conn)
    requires Reads(c, d) && SaneConn(y, c) && EmptyPongsAreLate(y, c)
    requires Safe(c.client.others.Keys, Ahead(c), y.server.players.Keys)
    ensures SaneConn(y, d) && EmptyPongsAreLate(y, d)
    ensures Safe(d.client.others.Keys, Ahead(d), y.server.players.Keys)
  {
    ReadingMeets(c, d);
    ReadingAhead(c, d);
    ReadingIsSafe(c.client, Ahead(c), y.server.players.Keys);
    assert forall p :: Holds(d, p) <==> Holds(c, p);
  }

  /** What a turn puts on the wire: its answer's pong, its queue's first message, or farewells and listings. */
  lemma TurnSends(s: Session, input: Input, now: real)
    requires Accepts(s, input) && (input.Dequeued? ==> !input.msg.Pong?)
    ensures var p := Turn(s, input, now);
      if input.Answered? && input.reply.Ponged? then p.sent == [Pong(input.reply.players)]
      else forall m :: m in p.sent ==> !m.Pong? && (m.Joined? ==> input.Dequeued? && m == input.msg)
  {
  }

  lemma TurnMet(y: System, sid: Sid, input: Input, p: Progress)
    requires ConnsOk(y) && QueuesSane(y) && MetSane(y) && TurnAt(y, sid, input, p)
    requires if input.Answered? && input.reply.Ponged? then p.sent == [Pong(input.reply.players)]
             else forall m :: m in p.sent ==> !m.Pong? && (m.Joined? ==> input.Dequeued? && m == input.msg)
    ensures SaneConn(Progressed(y, sid, input, p), Progressed(y, sid, input, p).conns[sid])
  {
    var z := Progressed(y, sid, input, p);
    var c, d := y.conns[sid], z.conns[sid];
    IntroducedConcat(c.wire, p.sent);
    forall q | q in Introduced(p.sent) ensures q in y.used && forall own :: Holds(c, own) ==> Mates(y.server, own, q) {
      var m :| m in p.sent && m.Joined? && m.pid == q;
      assert m in y.queues[c.session.pid.value];
      assert SaneQueued(y, c.session.pid.value, m);
      assert ConnOk(c, Pending(y.channel, sid), sid in y.open);
    }
    forall own, q | Holds(d, own) && q in Met(d) ensures Mates(z.server, own, q) {
      TurnKeepsHold(y, sid, input, p, own);
    }
  }

  lemma TurnAhead(y: System, sid: Sid, input: Input, p: Progress)
    requires ConnsOk(y) && PongsSafe(y) && TurnAt(y, sid, input, p)
    requires if input.Answered? && input.reply.Ponged? then p.sent == [Pong(input.reply.players)]
             else forall m :: m in p.sent ==> !m.Pong?
    ensures var z := Progressed(y, sid, input, p); var d := z.conns[sid];
      Safe(d.client.others.Keys, Ahead(d), z.server.players.Keys) && EmptyPongsAreLate(z, d)
  {
    var z := Progressed(y, sid, input, p);
    var c, d := y.conns[sid], z.conns[sid];
    assert ConnOk(c, Pending(y.channel, sid), sid in y.open);
    if input.Answered? && input.reply.Ponged? {
      assert Ahead(d) == Ahead(c);
    } else {
      assert Ahead(c) == c.wire && Ahead(d) == c.wire + p.sent;
      NoPongsAreSafe(c.client.others.Keys + Introduced(c.wire), p.sent, y.server.players.Keys);
      SafeConcat(c.client.others.Keys, c.wire, p.sent, y.server.players.Keys);
    }
    if Pong({}) in Ahead(d) {
      assert Pong({}) in Ahead(c);
      var own :| Holds(c, own) && own in y.used && own !in y.server.players;
      TurnKeepsHold(y, sid, input, p, own);
    }
  }

  lemma TurnKeepsPongs(y: System, sid: Sid, input: Input)
    requires ConnsOk(y) && PongOk(y) && Enabled(y, SessionTurn(sid, input))
    ensures PongOk(TurnTaken(y, sid, input))
  {
    var p := Turn(y.conns[sid].session, input, y.now);
    TurnDiscipline(y.conns[sid].session, input, y.now);
    if input.Dequeued? {
      assert SaneQueued(y, y.conns[sid].session.pid.value, input.msg);
    }
    TurnSends(y.conns[sid].session, input, y.now);
    TurnMet(y, sid, input, p);
    TurnAhead(y, sid, input, p);
    ProgressKeepsPongs(y, sid, input, p);
  }

  lemma ProgressKeepsPongs(y: System, sid: Sid, input: Input, p: Progress)
    requires PongOk(y) && TurnAt(y, sid, input, p)
    requires var z := Progressed(y, sid, input, p); var d := z.conns[sid];
      SaneConn(z, d) && Safe(d.client.others.Keys, Ahead(d), z.server.players.Keys) && EmptyPongsAreLate(z, d)
    ensures PongOk(Progressed(y, sid, input, p))
  {
    var z := Progressed(y, sid, input, p);
    forall q, m | q in z.queues && m in z.queues[q] ensures SaneQueued(z, q, m) {
      assert m in y.queues[q];
    }
  }

  lemma OneConnKeepsPongs(y: System, z: System, sid: Sid, d: Conn)
    requires PongOk(y) && z.conns == y.conns[sid := d]
    requires z.server == y.server && z.used == y.used && z.queues == y.queues
    requires SaneConn(y, d) && EmptyPongsAreLate(y, d)
    requires Safe(d.client.others.Keys, Ahead(d), y.server.players.Keys)
    ensures PongOk(z)
  {
    forall q, m | q in z.queues && m in z.queues[q] ensures SaneQueued(z, q, m) {
      assert SaneQueued(y, q, m);
    }
    forall other | other in z.conns
      ensures SaneConn(z, z.conns[other]) && EmptyPongsAreLate(z, z.conns[other])
    {
      if other != sid {
        assert SaneConn(y, y.conns[other]) && EmptyPongsAreLate(y, y.conns[other]);
      }
    }
  }

  /** A connection that only changes its stage, or a session that holds no player. */
  lemma HandshakeConn(y: System, ev: Event, d: Conn)
    requires ConnsOk(y) && PongOk(y) && Enabled(y, ev) && (ev.Shake? || ev.Accept? || ev.Abort? || ev.Drop?)
    requires d == Fire(y, ev).conns[ev.sid]
    ensures SaneConn(y, d) && EmptyPongsAreLate(y, d)
    ensures Safe(d.client.others.Keys, Ahead(d), y.server.players.Keys)
  {
    var c := y.conns[ev.sid];
    assert ConnOk(c, Pending(y.channel, ev.sid), ev.sid in y.open);
    assert SaneConn(y, c) && EmptyPongsAreLate(y, c);
    assert Ahead(d) == Ahead(c) && Met(d) == Met(c);
    assert forall p :: Holds(d, p) <==> Holds(c, p);
  }

  lemma HandshakeKeepsPongs(y: System, ev: Event, z: System)
    requires ConnsOk(y) && PongOk(y) && Enabled(y, ev) && (ev.Shake? || ev.Accept? || ev.Abort? || ev.Drop?)
    requires z == Fire(y, ev)
    ensures PongOk(z)
  {
    HandshakeConn(y, ev, z.conns[ev.sid]);
    OneConnKeepsPongs(y, z, ev.sid, z.conns[ev.sid]);
  }

  lemma TakeKeepsPongs(y: System, sid: Sid, z: System)
    requires PongOk(y) && Enabled(y, Take(sid)) && z == Fire(y, Take(sid))
    ensures PongOk(z)
  {
    assert SaneConn(y, y.conns[sid]) && EmptyPongsAreLate(y, y.conns[sid]);
    ReadingConn(y, y.conns[sid], z.conns[sid]);
    OneConnKeepsPongs(y, z, sid, z.conns[sid]);
  }

  lemma ArrivingConn(y: System, ev: Event)
    requires Enabled(y, ev) && ev.Arrive?
    ensures var d := Fire(y, ev).conns[ev.sid];
      && SaneConn(y, d) && EmptyPongsAreLate(y, d)
      && Safe(d.client.others.Keys, Ahead(d), y.server.players.Keys)
  {
    var d := Fire(y, ev).conns[ev.sid];
    assert Ahead(d) == [];
    assert Met(d) == {};
  }

  lemma ArrivingKeepsPongs(y: System, ev: Event, z: System)
    requires PongOk(y) && Enabled(y, ev) && ev.Arrive? && z == Fire(y, ev)
    ensures PongOk(z)
  {
    ArrivingConn(y, ev);
    OneConnKeepsPongs(y, z, ev.sid, z.conns[ev.sid]);
  }

  lemma OtherStepsKeepPongs(y: System, ev: Event, z: System)
    requires ConnsOk(y) && PongOk(y) && Enabled(y, ev) && !ev.Serve? && z == Fire(y, ev)
    ensures PongOk(z)
  {
    if ev.SessionTurn? {
      TurnKeepsPongs(y, ev.sid, ev.input);
    } else if ev.Take? {
      TakeKeepsPongs(y, ev.sid, z);
    } else if ev.Arrive? {
      ArrivingKeepsPongs(y, ev, z);
    } else if ev.Tick? || ev.Timer? {
      ClockKeepsPongs(y, ev);
    } else {
      HandshakeKeepsPongs(y, ev, z);
    }
  }

  lemma ClockKeepsPongs(y: System, ev: Event)
    requires PongOk(y) && (ev.Tick? || ev.Timer?) && Enabled(y, ev)
    ensures PongOk(Fire(y, ev))
  {
    var z := Fire(y, ev);
    forall q, m | q in z.queues && m in z.queues[q] ensures SaneQueued(z, q, m) {
      assert SaneQueued(y, q, m);
    }
    forall other | other in z.conns
      ensures SaneConn(z, z.conns[other]) && EmptyPongsAreLate(z, z.conns[other])
    {
      assert SaneConn(y, y.conns[other]) && EmptyPongsAreLate(y, y.conns[other]);
    }
  }

  // Steps of the event loop.

  /** Those who were somewhere in the run stay what they were to each other, or are gone. */
  lemma MatesLater(y: System, env: Env, p: BasicId, q: BasicId)
    requires CanServe(y, env) && Mates(y.server, p, q) && p in y.used && q in y.used
    ensures Mates(Served(y, env).server, p, q)
    ensures forall x :: x in y.used && x !in y.server.players ==> x !in Served(y, env).server.players
  {
    var op := y.channel[0].op;
    PlayersAfter(y.server, op, env);
    AnswersOthers(y.server, op, env);
    if p in Served(y, env).server.players && q in Served(y, env).server.players {
      LidsKept(y.server, op, env, p);
      LidsKept(y.server, op, env, q);
    }
  }

  lemma EnqueuedFrom(q: seq<ServerMessage>, msgs: seq<ServerMessage>, m: ServerMessage)
    requires m in Enqueued(q, msgs)
    ensures m in q || m in msgs
  {
  }

  lemma ServedQueuesSane(y: System, env: Env)
    requires Linked(y.server) && HeldIsOwned(y) && QueuesOk(y) && PlayersOwned(y) && CanServe(y, env) && QueuesSane(y)
    requires PlayersOwned(Served(y, env))
    ensures QueuesSane(Served(y, env))
  {
    var z := Served(y, env);
    forall p, m | p in z.queues && m in z.queues[p] ensures SaneQueued(z, p, m) {
      ServedMessageSane(y, env, p, m);
    }
  }

  lemma ServedMessageSane(y: System, env: Env, p: BasicId, m: ServerMessage)
    requires Linked(y.server) && HeldIsOwned(y) && QueuesOk(y) && CanServe(y, env) && QueuesSane(y)
    requires PlayersOwned(Served(y, env))
    requires p in Served(y, env).queues && m in Served(y, env).queues[p]
    ensures SaneQueued(Served(y, env), p, m)
  {
    var o := Step(y.server, y.channel[0].op, env);
    var q := Opened(y.queues, o.reply)[p];
    EnqueuedFrom(q, SentTo(o.out, p), m);
    if m in q {
      assert p in y.queues && m in y.queues[p];
      assert SaneQueued(y, p, m) && QueuedFor(y, p);
      if m.Joined? {
        MatesLater(y, env, p, m.pid);
      }
    } else {
      SentSane(y.server, y.channel[0].op, env, p, m);
    }
  }

  lemma AdmittedHasMetNobody(y: System, env: Env, sid: Sid)
    requires ConnsOk(y) && ChannelOk(y) && CanServe(y, env) && sid in y.conns
    requires y.channel[0].from == Some(sid) && Step(y.server, y.channel[0].op, env).reply.Admitted?
    ensures Met(y.conns[sid]) == {}
  {
    AdmissionIsAwaited(y, env);
    assert ConnOk(y.conns[sid], Pending(y.channel, sid), sid in y.open);
    assert Introduced([]) == {};
  }

  lemma ServedMet(y: System, env: Env, sid: Sid)
    requires ConnsOk(y) && ChannelOk(y) && HeldIsOwned(y) && CanServe(y, env) && MetSane(y) && sid in y.conns
    ensures SaneConn(Served(y, env), Served(y, env).conns[sid])
  {
    var z := Served(y, env);
    var c, d := y.conns[sid], z.conns[sid];
    assert Met(d) == Met(c) && SaneConn(y, c);
    forall p, q | Holds(d, p) && q in Met(d) ensures Mates(z.server, p, q) {
      ServedHolds(y, env, sid, p);
      if Holds(c, p) {
        MatesLater(y, env, p, q);
      } else {
        AdmittedHasMetNobody(y, env, sid);
      }
    }
  }

  lemma PongHolder(c: Conn, pend: seq<Op>, isOpen: bool)
    requires ConnOk(c, pend, isOpen) && pend != [] && pend[0].AssemblePong?
    ensures c.session.pid == Some(pend[0].pid) && c.reply.NoReply?
  {
  }

  /** Whoever gets a pong holds the player it asked for. */
  lemma PongIsAsked(y: System, env: Env)
    requires ConnsOk(y) && ChannelOk(y) && CanServe(y, env) && Step(y.server, y.channel[0].op, env).reply.Ponged?
    ensures var Request(from, op) := y.channel[0];
      from.Some? && from.value in y.conns && op.AssemblePong? && y.conns[from.value].session.pid == Some(op.pid)
      && y.conns[from.value].reply.NoReply?
  {
    AnswersOthers(y.server, y.channel[0].op, env);
    var sid := y.channel[0].from.value;
    PendingServed(y, sid);
    PongHolder(y.conns[sid], Pending(y.channel, sid), sid in y.open);
  }

  lemma PongLists(s: State, op: Op, env: Env)
    requires Linked(s) && op.AssemblePong? && EnvOk(s, op, env)
    ensures Step(s, op, env).state == s
    ensures Step(s, op, env).reply == Ponged(if op.pid in s.players then LobbyOf(s, op.pid).players else {})
    ensures op.pid in s.players ==> op.pid in LobbyOf(s, op.pid).players
  {
  }

  lemma PongedAhead(y: System, env: Env, sid: Sid)
    requires ConnsOk(y) && ChannelOk(y) && HeldIsOwned(y) && Linked(y.server) && CanServe(y, env)
    requires MetSane(y) && PongsSafe(y) && sid in y.conns
    requires y.channel[0].from == Some(sid) && Step(y.server, y.channel[0].op, env).reply.Ponged?
    ensures var z := Served(y, env); var d := z.conns[sid];
      Safe(d.client.others.Keys, Ahead(d), z.server.players.Keys) && EmptyPongsAreLate(z, d)
  {
    var op := y.channel[0].op;
    PongIsAsked(y, env);
    PongLists(y.server, op, env);
    var players := if op.pid in y.server.players then LobbyOf(y.server, op.pid).players else {};
    var c, d := y.conns[sid], y.conns[sid].(reply := Ponged(players));
    assert Holds(c, op.pid);
    PongJoinsAhead(y, c, d, op.pid, players);
    var z := Served(y, env);
    assert z.conns[sid] == d && z.server == y.server && z.used == y.used;
  }

  lemma UnpongedAhead(y: System, env: Env, sid: Sid, z: System, c: Conn, d: Conn)
    requires ConnsOk(y) && ChannelOk(y) && CanServe(y, env) && MetSane(y) && PongsSafe(y)
    requires y.channel[0].from != Some(sid) || !Step(y.server, y.channel[0].op, env).reply.Ponged?
    requires z == Served(y, env) && sid in y.conns && c == y.conns[sid] && d == z.conns[sid]
    ensures Safe(d.client.others.Keys, Ahead(d), z.server.players.Keys)
    ensures EmptyPongsAreLate(z, d)
  {
    assert SaneConn(y, c) && EmptyPongsAreLate(y, c);
    ReplyKept(y, env, sid);
    SafeLater(y, env, c);
    LateLater(y, env, sid);
    assert d.client == c.client;
  }

  /** A reply not yet read is not replaced. */
  lemma ReplyKept(y: System, env: Env, sid: Sid)
    requires ConnsOk(y) && ChannelOk(y) && CanServe(y, env) && sid in y.conns
    requires y.channel[0].from != Some(sid) || !Step(y.server, y.channel[0].op, env).reply.Ponged?
    ensures Ahead(Served(y, env).conns[sid]) == Ahead(y.conns[sid])
  {
    if y.channel[0].from == Some(sid) {
      PendingServed(y, sid);
      assert ConnOk(y.conns[sid], Pending(y.channel, sid), sid in y.open);
      assert Pending(y.channel, sid) != [];
      assert y.conns[sid].reply.NoReply?;
    }
  }

  lemma SafeLater(y: System, env: Env, c: Conn)
    requires CanServe(y, env) && SaneConn(y, c)
    requires Safe(c.client.others.Keys, Ahead(c), y.server.players.Keys)
    ensures Safe(c.client.others.Keys, Ahead(c), Served(y, env).server.players.Keys)
  {
    PlayersAfter(y.server, y.channel[0].op, env);
    AnswersOthers(y.server, y.channel[0].op, env);
    IntroducedConcat(c.wire, PongOf(c.reply));
    assert Introduced(PongOf(c.reply)) == {};
    var known := c.client.others.Keys;
    SaferWithFewer(known, known, Ahead(c), y.server.players.Keys, Served(y, env).server.players.Keys);
  }

  lemma LateLater(y: System, env: Env, sid: Sid)
    requires ConnsOk(y) && ChannelOk(y) && CanServe(y, env) && sid in y.conns && EmptyPongsAreLate(y, y.conns[sid])
    requires Ahead(Served(y, env).conns[sid]) == Ahead(y.conns[sid])
    ensures EmptyPongsAreLate(Served(y, env), Served(y, env).conns[sid])
  {
    if Pong({}) in Ahead(y.conns[sid]) {
      var own :| Holds(y.conns[sid], own) && own in y.used && own !in y.server.players;
      ServedHolds(y, env, sid, own);
      MatesLater(y, env, own, own);
    }
  }

  /** A pong assembled now lists every player the client has met who is still there. */
  lemma PongJoinsAhead(y: System, c: Conn, d: Conn, p: BasicId, players: set<BasicId>)
    requires Linked(y.server) && SaneConn(y, c) && EmptyPongsAreLate(y, c) && p in y.used
    requires Safe(c.client.others.Keys, Ahead(c), y.server.players.Keys)
    requires c.session.pid == Some(p) && c.reply.NoReply? && d == c.(reply := Ponged(players))
    requires players == if p in y.server.players then LobbyOf(y.server, p).players else {}
    ensures Safe(d.client.others.Keys, Ahead(d), y.server.players.Keys) && EmptyPongsAreLate(y, d)
  {
    var known, present := c.client.others.Keys, y.server.players.Keys;
    assert Ahead(c) == c.wire && Ahead(d) == c.wire + [Pong(players)];
    if p in y.server.players {
      forall q | q in Met(c) * present ensures q in players {
        assert Mates(y.server, p, q);
      }
    }
    assert Safe(known + Introduced(c.wire) + Introduced([Pong(players)]), [Pong(players)][1..], present);
    SafeConcat(known, c.wire, [Pong(players)], present);
    assert Holds(d, p);
  }

  lemma ServedKeepsPongs(y: System, env: Env)
    requires Disciplined(y) && CanServe(y, env) && PongOk(y)
    ensures PongOk(Served(y, env))
  {
    ServedPlayersOwned(y, env);
    ServedQueuesSane(y, env);
    forall sid | sid in y.conns
      ensures SaneConn(Served(y, env), Served(y, env).conns[sid])
      ensures Safe(Served(y, env).conns[sid].client.others.Keys, Ahead(Served(y, env).conns[sid]),
                   Served(y, env).server.players.Keys)
      ensures EmptyPongsAreLate(Served(y, env), Served(y, env).conns[sid])
    {
      ServedMet(y, env, sid);
      if y.channel[0].from == Some(sid) && Step(y.server, y.channel[0].op, env).reply.Ponged? {
        PongedAhead(y, env, sid);
      } else {
        UnpongedAhead(y, env, sid, Served(y, env), y.conns[sid], Served(y, env).conns[sid]);
      }
    }
  }

  lemma FireKeepsPongs(y: System, ev: Event)
    requires Disciplined(y) && PongOk(y) && Enabled(y, ev)
    ensures PongOk(Fire(y, ev))
  {
    if ev.Serve? {
      ServedKeepsPongs(y, ev.env);
    } else {
      OtherStepsKeepPongs(y, ev, Fire(y, ev));
    }
  }

  /**
   * Whom reading a pong takes out of a replica, with or without lost messages. A pong lists nobody exactly when
   * it was assembled after the client's own player had been removed. Then it empties the replica, and may overtake
   * the farewell; any other pong takes out only players who have left the server.
   */
  lemma PongRemovesOnlyTheDeparted(y: System, sid: Sid, players: set<BasicId>)
    requires PongOk(y) && sid in y.conns && y.conns[sid].wire != [] && y.conns[sid].wire[0] == Pong(players)
    ensures var before, after := y.conns[sid].client.others, Fire(y, Take(sid)).conns[sid].client.others;
      && ((exists q :: q in before && q !in after && q in y.server.players)
          <==> players == {} && exists q :: q in before && q in y.server.players)
      && (players == {} ==> after == map[] && exists p :: Holds(y.conns[sid], p) && p !in y.server.players)
  {
    var c := y.conns[sid];
    assert Ahead(c)[0] == c.wire[0];
    assert EmptyPongsAreLate(y, c);
    assert Safe(c.client.others.Keys, Ahead(c), y.server.players.Keys);
    var after := Fire(y, Take(sid)).conns[sid].client.others;
    assert after == c.client.others - (c.client.others.Keys - players);
    if players == {} {
      assert Pong({}) in Ahead(c);
      assert after == map[];
    } else {
      assert forall q :: q in c.client.others && q in y.server.players ==>
        q in c.client.others.Keys * y.server.players.Keys;
    }
  }
}
