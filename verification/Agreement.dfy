/**
 * Replicas and pongs over whole runs. A client's pipeline is everything sent to it that it has not read: what is
 * on the wire, then an unread pong, then its queue. Applied in that order it brings the replica up to date.
 */
module Agreement {
  import opened Basics
  import opened Server
  import opened ServerInvariants
  import opened Sessions
  import opened Replica
  import opened System
  import opened Ownership

  function PongOf(reply: Reply): seq<ServerMessage> {
    if reply.Ponged? then [Pong(reply.players)] else []
  }

  function QueueOf(y: System, c: Conn): seq<ServerMessage> {
    if c.session.pid.Some? && c.session.pid.value in y.queues then y.queues[c.session.pid.value]
    else if c.reply.Admitted? && c.reply.pid in y.queues then y.queues[c.reply.pid]
    else []
  }

  function Pipeline(y: System, sid: Sid): seq<ServerMessage>
    requires sid in y.conns
  {
    var c := y.conns[sid];
    c.wire + PongOf(c.reply) + QueueOf(y, c)
  }

  function Foretold(y: System, sid: Sid): Shadow
    requires sid in y.conns
  {
    Fold(y.conns[sid].client, Pipeline(y, sid))
  }

  /** Equal in everything but, for a client with left-over lobby fields, the lobby's metadata. */
  ghost predicate Matches(a: Shadow, b: Shadow, clean: bool) {
    a.(lobbyMeta := b.lobbyMeta) == b && (clean ==> a == b)
  }

  /** A connection serving a player who is still in a lobby and has lost no message. */
  ghost predicate InTouch(y: System, sid: Sid, p: BasicId) {
    sid in y.conns && Holds(y.conns[sid], p) && p in y.queues && p in y.server.players && p !in y.lossy
  }

  ghost predicate Agreeing(y: System) {
    forall sid, p :: InTouch(y, sid, p) && Seated(y.server, p) ==>
      Matches(Foretold(y, sid), View(y.server, p), y.conns[sid].clean)
  }

  // Folding and left-over lobby fields.

  lemma MatchingApply(a: Shadow, b: Shadow, clean: bool, m: ServerMessage)
    requires Matches(a, b, clean)
    ensures Matches(Apply(a, m), Apply(b, m), clean)
  {
  }

  lemma {:induction false} MatchingFold(a: Shadow, b: Shadow, clean: bool, msgs: seq<ServerMessage>)
    requires Matches(a, b, clean)
    ensures Matches(Fold(a, msgs), Fold(b, msgs), clean)
    decreases |msgs|
  {
    if msgs != [] {
      MatchingApply(a, b, clean, msgs[0]);
      MatchingFold(Apply(a, msgs[0]), Apply(b, msgs[0]), clean, msgs[1..]);
    }
  }

  // Steps that leave a pipeline's outcome alone.

  lemma TakenPipeline(y: System, sid: Sid)
    requires Enabled(y, Take(sid))
    ensures Foretold(Fire(y, Take(sid)), sid) == Foretold(y, sid)
  {
    var c := y.conns[sid];
    var rest := PongOf(c.reply) + QueueOf(y, c);
    assert c.wire == [c.wire[0]] + c.wire[1..];
    assert Pipeline(y, sid) == [c.wire[0]] + (c.wire[1..] + PongOf(c.reply) + QueueOf(y, c));
    FoldConcat(c.client, [c.wire[0]], c.wire[1..] + PongOf(c.reply) + QueueOf(y, c));
    FoldOne(c.client, c.wire[0]);
  }

  /** What a turn writes was next in the pipeline, or says nothing about the lobby. */
  lemma TurnWrites(s: Session, input: Input, now: real)
    requires Accepts(s, input)
    ensures var sent := Turn(s, input, now).sent;
      if input.Dequeued? then sent == [input.msg]
      else if input.Answered? && input.reply.Ponged? then sent == [Pong(input.reply.players)]
      else sent == [] || Turn(s, input, now).session.stop
  {
  }

  /** A turn that does not end the session moves what is next in the pipeline onto the wire, or nothing. */
  ghost predicate WritesNext(input: Input, p: Progress) {
    if input.Dequeued? then p.sent == [input.msg]
    else if input.Answered? && input.reply.Ponged? then p.sent == [Pong(input.reply.players)]
    else p.sent == []
  }

  lemma DequeuedPipeline(y: System, sid: Sid, input: Input, p: Progress)
    requires TurnAt(y, sid, input, p) && !p.session.stop && input.Dequeued? && WritesNext(input, p)
    requires y.conns[sid].reply.NoReply?
    ensures Pipeline(Progressed(y, sid, input, p), sid) == Pipeline(y, sid)
  {
    var c := y.conns[sid];
    var q := y.queues[c.session.pid.value];
    var z := Progressed(y, sid, input, p);
    assert QueueOf(z, z.conns[sid]) == q[1..];
    assert c.wire + [q[0]] + [] + q[1..] == c.wire + [] + q;
  }

  lemma AnsweredPipeline(y: System, sid: Sid, input: Input, p: Progress)
    requires TurnAt(y, sid, input, p) && !p.session.stop && input.Answered? && WritesNext(input, p)
    ensures Pipeline(Progressed(y, sid, input, p), sid) == Pipeline(y, sid)
  {
    var c := y.conns[sid];
    var z := Progressed(y, sid, input, p);
    assert QueueOf(z, z.conns[sid]) == QueueOf(y, c);
    assert c.wire + p.sent + [] == c.wire + PongOf(c.reply);
  }

  lemma TurnPipeline(y: System, sid: Sid, input: Input, p: Progress)
    requires TurnAt(y, sid, input, p) && !p.session.stop && WritesNext(input, p)
    requires y.conns[sid].session.awaiting.Idle? ==> y.conns[sid].reply.NoReply?
    ensures Pipeline(Progressed(y, sid, input, p), sid) == Pipeline(y, sid)
  {
    var c := y.conns[sid];
    var z := Progressed(y, sid, input, p);
    if input.Dequeued? {
      DequeuedPipeline(y, sid, input, p);
    } else if input.Answered? {
      AnsweredPipeline(y, sid, input, p);
    } else {
      assert QueueOf(z, z.conns[sid]) == QueueOf(y, c);
      assert c.wire + p.sent == c.wire;
    }
  }

  lemma TurnElsewhere(y: System, sid: Sid, input: Input, p: Progress, other: Sid, q: BasicId)
    requires ConnsOk(y) && Owned(y) && TurnAt(y, sid, input, p)
    requires other != sid && other in y.conns && Holds(y.conns[other], q)
    ensures var z := Progressed(y, sid, input, p);
      && (q in z.queues <==> q in y.queues) && (q in z.queues ==> Pipeline(z, other) == Pipeline(y, other))
  {
    var c := y.conns[sid];
    if c.session.pid.Some? {
      HoldersAreUnique(y, sid, other, c.session.pid.value, q);
    }
    if p.session.pid.Some? {
      TurnKeepsHold(y, sid, input, p, p.session.pid.value);
      HoldersAreUnique(y, sid, other, p.session.pid.value, q);
    }
    assert ConnOk(y.conns[other], Pending(y.channel, other), other in y.open);
  }

  /** In touch as before, with the same future. */
  ghost predicate AsBefore(y: System, z: System, sid: Sid, p: BasicId) {
    && InTouch(y, sid, p) && sid in z.conns
    && Foretold(z, sid) == Foretold(y, sid) && z.conns[sid].clean == y.conns[sid].clean
  }

  lemma UntouchedConn(y: System, z: System, sid: Sid, p: BasicId)
    requires InTouch(z, sid, p) && sid in y.conns && z.server == y.server && z.queues == y.queues && z.lossy == y.lossy
    requires var c, d := y.conns[sid], z.conns[sid];
      d.wire == c.wire && d.reply == c.reply && d.client == c.client
        && d.session.pid == c.session.pid && d.clean == c.clean
    ensures AsBefore(y, z, sid, p)
  {
    assert Pipeline(z, sid) == Pipeline(y, sid);
  }

  /** A connection shaking hands holds no player. */
  lemma HandshakesHoldNothing(y: System, ev: Event, p: BasicId)
    requires ConnsOk(y) && Enabled(y, ev) && (ev.Arrive? || ev.Shake? || ev.Accept? || ev.Abort?)
    ensures !Holds(Fire(y, ev).conns[ev.sid], p)
  {
    if !ev.Arrive? {
      assert ConnOk(y.conns[ev.sid], Pending(y.channel, ev.sid), ev.sid in y.open);
    }
  }

  lemma HandshakesAsBefore(y: System, ev: Event, sid: Sid, p: BasicId)
    requires ConnsOk(y) && Enabled(y, ev) && InTouch(Fire(y, ev), sid, p)
    requires !ev.Serve? && !ev.SessionTurn? && !ev.Take?
    ensures AsBefore(y, Fire(y, ev), sid, p)
  {
    if ev.Arrive? || ev.Shake? || ev.Accept? || ev.Abort? {
      HandshakesHoldNothing(y, ev, p);
    }
    UntouchedConn(y, Fire(y, ev), sid, p);
  }

  lemma TurnAsBefore(y: System, at: Sid, input: Input, sid: Sid, p: BasicId)
    requires ConnsOk(y) && Owned(y) && Enabled(y, SessionTurn(at, input)) && InTouch(TurnTaken(y, at, input), sid, p)
    ensures AsBefore(y, TurnTaken(y, at, input), sid, p)
  {
    var t := Turn(y.conns[at].session, input, y.now);
    TurnDiscipline(y.conns[at].session, input, y.now);
    TurnInTouch(y, at, input, t, sid, p);
    if at == sid {
      TurnWrites(y.conns[at].session, input, y.now);
      assert ConnOk(y.conns[sid], Pending(y.channel, sid), sid in y.open);
      TurnPipeline(y, sid, input, t);
    } else {
      TurnElsewhere(y, at, input, t, sid, p);
    }
  }

  lemma TakeAsBefore(y: System, at: Sid, sid: Sid, p: BasicId)
    requires Enabled(y, Take(at)) && InTouch(Fire(y, Take(at)), sid, p)
    ensures AsBefore(y, Fire(y, Take(at)), sid, p)
  {
    if at == sid {
      TakenPipeline(y, sid);
    } else {
      UntouchedConn(y, Fire(y, Take(at)), sid, p);
    }
  }

  /** Outside the event loop's steps, whoever is in touch was so before, with the same future. */
  lemma OtherStepsAsBefore(y: System, ev: Event, sid: Sid, p: BasicId)
    requires ConnsOk(y) && Owned(y) && Enabled(y, ev) && !ev.Serve? && InTouch(Fire(y, ev), sid, p)
    ensures AsBefore(y, Fire(y, ev), sid, p)
  {
    match ev
    case Take(at) => TakeAsBefore(y, at, sid, p);
    case SessionTurn(at, input) => TurnAsBefore(y, at, input, sid, p);
    case Tick(_) => HandshakesAsBefore(y, ev, sid, p);
    case Timer => HandshakesAsBefore(y, ev, sid, p);
    case Arrive(_, _, _) => HandshakesAsBefore(y, ev, sid, p);
    case Shake(_) => HandshakesAsBefore(y, ev, sid, p);
    case Accept(_) => HandshakesAsBefore(y, ev, sid, p);
    case Abort(_) => HandshakesAsBefore(y, ev, sid, p);
    case Drop(_) => HandshakesAsBefore(y, ev, sid, p);
  }

  lemma TurnInTouch(y: System, at: Sid, input: Input, t: Progress, sid: Sid, p: BasicId)
    requires ConnsOk(y) && Owned(y) && TurnAt(y, at, input, t) && InTouch(Progressed(y, at, input, t), sid, p)
    ensures InTouch(y, sid, p) && (at == sid ==> !t.session.stop)
  {
    TurnKeepsHold(y, at, input, t, p);
  }

  // A step of the event loop.

  /** Somebody holding a player before it is served is answered with a pong or not at all. */
  lemma HoldersGetPongs(y: System, env: Env, sid: Sid, p: BasicId)
    requires ConnsOk(y) && ChannelOk(y) && CanServe(y, env) && sid in y.conns && Holds(y.conns[sid], p)
    requires y.channel[0].from == Some(sid)
    ensures var o := Step(y.server, y.channel[0].op, env);
      && y.conns[sid].session.pid == Some(p) && y.conns[sid].reply.NoReply?
      && (o.reply.NoReply? || (o.reply.Ponged? && y.channel[0].op == AssemblePong(p)))
  {
    var op := y.channel[0].op;
    PendingServed(y, sid);
    assert ConnOk(y.conns[sid], Pending(y.channel, sid), sid in y.open);
    assert Pending(y.channel, sid)[0] == op;
    AnswersOthers(y.server, op, env);
    if Unanswered(op, p) {
      AnswersUnanswered(y.server, op, env, p);
    }
  }

  /** The queue of someone who stays and loses nothing grows by exactly what the operation sends. */
  lemma ServedQueue(y: System, env: Env, p: BasicId)
    requires CanServe(y, env) && p in Served(y, env).queues && p !in Served(y, env).lossy
    ensures var o := Step(y.server, y.channel[0].op, env);
      && (p in y.queues || o.reply == Admitted(p))
      && Served(y, env).queues[p] == Opened(y.queues, o.reply)[p] + SentTo(o.out, p)
  {
  }

  /** A pong is read after the wire and before the queue, and makes no difference to what comes of them. */
  lemma PongAbsorbed(client: Shadow, wire: seq<ServerMessage>, queue: seq<ServerMessage>, players: set<BasicId>)
    requires Fold(client, wire + [] + queue).others.Keys <= players
    ensures Fold(client, wire + [Pong(players)] + queue) == Fold(client, wire + [] + queue)
  {
    assert wire + [] + queue == wire + queue;
    FoldConcat(client, wire, queue);
    assert wire + [Pong(players)] + queue == wire + ([Pong(players)] + queue);
    FoldConcat(client, wire, [Pong(players)] + queue);
    OvertakingPongIsAbsorbed(Fold(client, wire), players, queue);
  }

  lemma MatchingOthers(y: System, sid: Sid, p: BasicId)
    requires Agreeing(y) && InTouch(y, sid, p) && Seated(y.server, p)
    ensures Foretold(y, sid).others.Keys <= LobbyOf(y.server, p).players
  {
    assert Foretold(y, sid).others == View(y.server, p).others;
  }

  lemma ServedPipeline(y: System, env: Env, sid: Sid, p: BasicId)
    requires ConnsOk(y) && ChannelOk(y) && HeldIsOwned(y) && CanServe(y, env) && Agreeing(y)
    requires InTouch(y, sid, p) && Seated(y.server, p) && p in Served(y, env).queues && p !in Served(y, env).lossy
    requires !Step(y.server, y.channel[0].op, env).reply.Admitted?
      || Step(y.server, y.channel[0].op, env).reply.pid != p
    ensures var z := Served(y, env); var o := Step(y.server, y.channel[0].op, env);
      sid in z.conns && Foretold(z, sid) == Fold(Foretold(y, sid), SentTo(o.out, p))
        && z.conns[sid].clean == y.conns[sid].clean
  {
    var z := Served(y, env);
    var o := Step(y.server, y.channel[0].op, env);
    var c, d := y.conns[sid], z.conns[sid];
    ServedQueue(y, env, p);
    var q, sent := y.queues[p], SentTo(o.out, p);
    assert z.queues[p] == q + sent;
    HolderQueue(y, sid, p);
    if y.channel[0].from == Some(sid) {
      HoldersGetPongs(y, env, sid, p);
      SameHolderQueue(y, z, sid, p);
      if o.reply.Ponged? {
        MatchingOthers(y, sid, p);
        assert o.reply.players == LobbyOf(y.server, p).players;
        PongAbsorbed(c.client, c.wire, q, o.reply.players);
        PipelineGrows(c.client, c.wire + [Pong(o.reply.players)], q, sent);
      } else {
        PipelineGrows(c.client, c.wire + PongOf(c.reply), q, sent);
      }
    } else {
      PipelineGrows(c.client, c.wire + PongOf(c.reply), q, sent);
    }
  }

  lemma PipelineGrows(client: Shadow, ahead: seq<ServerMessage>, queue: seq<ServerMessage>, sent: seq<ServerMessage>)
    ensures Fold(client, ahead + (queue + sent)) == Fold(Fold(client, ahead + queue), sent)
  {
    assert ahead + (queue + sent) == ahead + queue + sent;
    FoldConcat(client, ahead + queue, sent);
  }

  /** The queue in a holder's pipeline is its player's. */
  lemma HolderQueue(y: System, sid: Sid, p: BasicId)
    requires ConnsOk(y) && sid in y.conns && Holds(y.conns[sid], p) && p in y.queues
    ensures QueueOf(y, y.conns[sid]) == y.queues[p]
  {
    assert ConnOk(y.conns[sid], Pending(y.channel, sid), sid in y.open);
  }

  lemma SameHolderQueue(y: System, z: System, sid: Sid, p: BasicId)
    requires sid in y.conns && y.conns[sid].session.pid == Some(p) && p in z.queues
    requires sid in z.conns && z.conns[sid].session == y.conns[sid].session
    ensures QueueOf(z, z.conns[sid]) == z.queues[p]
  {
  }

  /** Whoever is in touch after a step and was not admitted by it was in touch before. */
  lemma StayerWasInTouch(y: System, env: Env, sid: Sid, p: BasicId)
    requires ConnsOk(y) && ChannelOk(y) && CanServe(y, env) && InTouch(Served(y, env), sid, p)
    requires Step(y.server, y.channel[0].op, env).reply != Admitted(p)
    ensures InTouch(y, sid, p) && !(y.channel[0].op.RemovePlayer? && y.channel[0].op.pid == p)
  {
    ServedHolds(y, env, sid, p);
    ServedPlayers(y, env, p);
    ServedQueue(y, env, p);
  }

  lemma MatchingSent(before: Shadow, view: Shadow, sent: seq<ServerMessage>, after: Shadow, clean: bool)
    requires Matches(before, view, clean) && Fold(view, sent) == after
    ensures Matches(Fold(before, sent), after, clean)
  {
    MatchingFold(before, view, clean, sent);
  }

  lemma StayerAgrees(y: System, env: Env, sid: Sid, p: BasicId, o: Outcome)
    requires ConnsOk(y) && ChannelOk(y) && HeldIsOwned(y) && Linked(y.server) && CanServe(y, env) && Agreeing(y)
    requires o == Step(y.server, y.channel[0].op, env) && o.reply != Admitted(p) && InTouch(Served(y, env), sid, p)
    ensures Seated(o.state, p)
    ensures Matches(Foretold(Served(y, env), sid), View(o.state, p), Served(y, env).conns[sid].clean)
  {
    StayerWasInTouch(y, env, sid, p);
    assert Seated(y.server, p);
    ServedPipeline(y, env, sid, p);
    StepAgrees(y.server, y.channel[0].op, env, p);
    MatchingSent(Foretold(y, sid), View(y.server, p), SentTo(o.out, p), View(o.state, p), y.conns[sid].clean);
  }

  /** What an admission sends the newcomer, whichever way it came in. */
  lemma AdmissionView(s: State, op: Op, env: Env, client: Shadow)
    requires Linked(s) && EnvOk(s, op, env) && Step(s, op, env).reply.Admitted? && Newcomer(client)
    ensures var o := Step(s, op, env);
      && Seated(o.state, env.pid)
      && Fold(client, SentTo(o.out, env.pid))
         == View(o.state, env.pid).(lobbyMeta := client.lobbyMeta + View(o.state, env.pid).lobbyMeta)
  {
    AnswersOthers(s, op, env);
    var s1 := ChargePeer(s, op.ip, env.now);
    if op.HostLobby? {
      HostedState(s1, op, env);
      SnapshotView(client, Founded(s1, op, env), LobbyId(op.gid, env.lid), env.pid, op.playerMetadata, env);
    } else {
      SnapshotView(client, s1, op.lid, env.pid, op.playerMetadata, env);
    }
  }

  /** A newcomer's pipeline is the messages of its admission. */
  lemma DispatchedToNewcomer(y: System, o: Outcome, sid: Sid, p: BasicId, z: System)
    requires y.channel != [] && y.channel[0].from == Some(sid) && sid in y.conns && z == Dispatched(y, o)
    requires o.reply == Admitted(p) && p !in z.lossy && y.conns[sid].wire == [] && y.conns[sid].session.pid.None?
    ensures Pipeline(z, sid) == SentTo(o.out, p) && z.conns[sid] == Replied(y.conns[sid], o)
  {
    assert z.queues[p] == [] + SentTo(o.out, p);
    assert z.conns[sid].wire == [] && PongOf(z.conns[sid].reply) == [];
  }

  lemma NewcomerMessages(y: System, env: Env, sid: Sid, o: Outcome)
    requires ConnsOk(y) && ChannelOk(y) && CanServe(y, env) && o == Step(y.server, y.channel[0].op, env)
    requires o.reply == Admitted(env.pid)
    requires y.channel[0].from == Some(sid) && env.pid !in Served(y, env).lossy
    ensures sid in y.conns && Newcomer(y.conns[sid].client)
    ensures Pipeline(Served(y, env), sid) == SentTo(o.out, env.pid)
    ensures Served(y, env).conns[sid] == Replied(y.conns[sid], o)
  {
    AdmissionIsAwaited(y, env);
    assert ConnOk(y.conns[sid], Pending(y.channel, sid), sid in y.open);
    DispatchedToNewcomer(y, o, sid, env.pid, Served(y, env));
  }

  lemma NewcomerPipeline(y: System, env: Env, sid: Sid, o: Outcome)
    requires ConnsOk(y) && ChannelOk(y) && CanServe(y, env) && o == Step(y.server, y.channel[0].op, env)
    requires o.reply == Admitted(env.pid)
    requires y.channel[0].from == Some(sid) && env.pid !in Served(y, env).lossy
    ensures sid in y.conns && Newcomer(y.conns[sid].client)
    ensures Foretold(Served(y, env), sid) == Fold(y.conns[sid].client, SentTo(o.out, env.pid))
    ensures Served(y, env).conns[sid] == Replied(y.conns[sid], o)
  {
    NewcomerMessages(y, env, sid, o);
    assert Served(y, env).conns[sid].client == y.conns[sid].client;
  }

  lemma NewcomerAgrees(y: System, env: Env, sid: Sid, o: Outcome)
    requires ConnsOk(y) && ChannelOk(y) && Linked(y.server) && CanServe(y, env)
    requires o == Step(y.server, y.channel[0].op, env)
    requires o.reply == Admitted(env.pid)
    requires y.channel[0].from == Some(sid) && env.pid !in Served(y, env).lossy
    ensures Seated(o.state, env.pid) && sid in y.conns
    ensures Matches(Foretold(Served(y, env), sid), View(o.state, env.pid), Served(y, env).conns[sid].clean)
  {
    NewcomerPipeline(y, env, sid, o);
    AdmissionView(y.server, y.channel[0].op, env, y.conns[sid].client);
    MergedKeys(y.conns[sid].client.lobbyMeta, View(o.state, env.pid).lobbyMeta);
  }

  lemma ServedAgreeing(y: System, env: Env)
    requires Disciplined(y) && CanServe(y, env) && Agreeing(y)
    ensures Agreeing(Served(y, env))
  {
    var z := Served(y, env);
    forall sid, p | InTouch(z, sid, p) && Seated(z.server, p)
      ensures Matches(Foretold(z, sid), View(z.server, p), z.conns[sid].clean)
    {
      var o := Step(y.server, y.channel[0].op, env);
      if o.reply == Admitted(p) {
        AnswersOthers(y.server, y.channel[0].op, env);
        ServedHolds(y, env, sid, p);
        FreshIsUnheld(y, env, sid);
        NewcomerAgrees(y, env, sid, o);
      } else {
        StayerAgrees(y, env, sid, p, o);
      }
    }
  }

  lemma FreshIsUnheld(y: System, env: Env, sid: Sid)
    requires HeldIsOwned(y) && CanServe(y, env) && (y.channel[0].op.HostLobby? || y.channel[0].op.JoinLobby?)
    requires sid in y.conns
    ensures !Holds(y.conns[sid], env.pid)
  {
  }

  lemma OtherStepsAgreeing(y: System, ev: Event)
    requires ConnsOk(y) && Owned(y) && Enabled(y, ev) && !ev.Serve? && Agreeing(y)
    ensures Agreeing(Fire(y, ev))
  {
    var z := Fire(y, ev);
    forall sid, p | InTouch(z, sid, p) && Seated(z.server, p)
      ensures Matches(Foretold(z, sid), View(z.server, p), z.conns[sid].clean)
    {
      OtherStepsAsBefore(y, ev, sid, p);
      assert z.server == y.server;
    }
  }

  /**
   * Agreement is kept by every step: by operations, by messages moving towards the client and being applied, and
   * by a pong that overtakes a queue.
   */
  lemma FireKeepsAgreement(y: System, ev: Event)
    requires Disciplined(y) && Enabled(y, ev) && Agreeing(y)
    ensures Agreeing(Fire(y, ev))
  {
    if ev.Serve? {
      ServedAgreeing(y, ev.env);
    } else {
      OtherStepsAgreeing(y, ev);
    }
  }
}
