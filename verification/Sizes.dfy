/** How large a snapshot and a replica can get while no message is lost. */
module Sizes {
  import opened Basics
  import opened Server
  import opened ServerInvariants
  import opened Sessions
  import opened Replica
  import opened System
  import opened Ownership
  import opened Agreement
  import opened Pongs

  /** Other players in a full lobby, and the slots of the client's player list: itself, the others, a terminator. */
  const MOST_OTHERS := MAX_PLAYERS - 2
  const PLAYER_LIST_SLOTS := MAX_PLAYERS + 1

  /** At no point of reading `msgs` does the replica hold more players than fit. */
  ghost predicate Bounded(r: Shadow, msgs: seq<ServerMessage>)
    decreases |msgs|
  {
    |r.others| <= MOST_OTHERS && (msgs != [] ==> Bounded(Apply(r, msgs[0]), msgs[1..]))
  }

  lemma {:induction false} BoundedConcat(r: Shadow, a: seq<ServerMessage>, b: seq<ServerMessage>)
    ensures Bounded(r, a + b) <==> Bounded(r, a) && Bounded(Fold(r, a), b)
    decreases |a|
  {
    if a == [] {
      assert a + b == b;
    } else {
      assert (a + b)[0] == a[0] && (a + b)[1..] == a[1..] + b;
      BoundedConcat(Apply(r, a[0]), a[1..], b);
    }
  }

  lemma {:induction false} BoundedTrimmed(a: Shadow, b: Shadow, gone: set<BasicId>, msgs: seq<ServerMessage>)
    requires Trimmed(a, b, gone) && Bounded(b, msgs)
    ensures Bounded(a, msgs)
    decreases |msgs|
  {
    SubsetSize(a.others.Keys, b.others.Keys);
    if msgs != [] {
      TrimmedApply(a, b, gone, msgs[0]);
      BoundedTrimmed(Apply(a, msgs[0]), Apply(b, msgs[0]), gone, msgs[1..]);
    }
  }

  lemma {:induction false} SilenceIsBounded(r: Shadow, msgs: seq<ServerMessage>)
    requires |r.others| <= MOST_OTHERS && forall m :: m in msgs ==> Silent(m)
    ensures Bounded(r, msgs) && Fold(r, msgs) == r
    decreases |msgs|
  {
    if msgs != [] {
      assert Silent(msgs[0]);
      SilenceIsBounded(r, msgs[1..]);
    }
  }

  /** Reading only about members of a lobby, a replica never outgrows it. */
  lemma {:induction false} IntroductionsBounded(r: Shadow, msgs: seq<ServerMessage>, members: set<BasicId>)
    requires r.others.Keys <= members && |members| <= MOST_OTHERS && Introduced(msgs) <= members
    ensures Bounded(r, msgs)
    decreases |msgs|
  {
    SubsetSize(r.others.Keys, members);
    if msgs != [] {
      assert msgs == [msgs[0]] + msgs[1..];
      IntroducedConcat([msgs[0]], msgs[1..]);
      AppliedKnows(r, msgs[0]);
      IntroductionsBounded(Apply(r, msgs[0]), msgs[1..], members);
    }
  }

  // Snapshots.

  lemma {:induction false} MetaMessagesLength(m: Metadata, keys: seq<Text>)
    requires forall k :: k in keys ==> k in m
    ensures |MetaMessages(m, keys)| == |keys| && Introduced(MetaMessages(m, keys)) == {}
  {
    if keys != [] {
      MetaMessagesLength(m, keys[..|keys| - 1]);
      IntroducedConcat(MetaMessages(m, keys[..|keys| - 1]), [SetLobbyMeta(keys[|keys| - 1], m[keys[|keys| - 1]])]);
    }
  }

  lemma {:induction false} JoinedMessagesLength(players: map<BasicId, Player>, members: seq<BasicId>)
    requires forall p :: p in members ==> p in players
    ensures |JoinedMessages(players, members)| == |members|
    ensures Introduced(JoinedMessages(players, members)) == set p | p in members
  {
    if members != [] {
      var init, p := members[..|members| - 1], members[|members| - 1];
      var m := Joined(p, players[p].metadata, players[p].birth);
      JoinedMessagesLength(players, init);
      IntroducedConcat(JoinedMessages(players, init), [m]);
      assert members == init + [p];
      assert m in [m];
    }
  }

  const LONGEST_SNAPSHOT := 2 + MAX_FIELDS + 1 + MOST_OTHERS + 1

  lemma OpeningSize(listed: bool, capacity: nat, m: Metadata, keys: seq<Text>)
    requires Enumerates(keys, m.Keys)
    ensures var opening := [SetListed(listed), SetCapacity(capacity)] + MetaMessages(m, keys);
      |opening| == 2 + |m| && Introduced(opening) == {}
  {
    EnumerationSize(keys, m.Keys);
    MetaMessagesLength(m, keys);
    IntroducedConcat([SetListed(listed), SetCapacity(capacity)], MetaMessages(m, keys));
  }

  lemma ClosingSize(players: map<BasicId, Player>, members: seq<BasicId>, all: set<BasicId>, master: BasicId)
    requires Enumerates(members, all) && forall p :: p in members ==> p in players
    ensures var closing := JoinedMessages(players, members) + [SetMaster(master)];
      |closing| == |all| + 1 && Introduced(closing) == all
  {
    EnumerationSize(members, all);
    JoinedMessagesLength(players, members);
    IntroducedConcat(JoinedMessages(players, members), [SetMaster(master)]);
    assert (set p | p in members) == all;
  }

  /** A newcomer's snapshot: its length, and whom it introduces. */
  lemma SnapshotSize(s: State, lid: LobbyId, pid: BasicId, birth: nat, env: Env)
    requires OrdersOk(s, lid, env)
    ensures |Snapshot(s, lid, pid, birth, env)| == 4 + |s.lobbies[lid].metadata| + |s.lobbies[lid].players|
    ensures Introduced(Snapshot(s, lid, pid, birth, env)) == s.lobbies[lid].players
  {
    var lobby := s.lobbies[lid];
    var opening := [SetListed(lobby.listed), SetCapacity(lobby.capacity)] + MetaMessages(lobby.metadata, env.keys);
    var greeting := [Connected(pid, lid.lid, birth)];
    var closing := JoinedMessages(s.players, env.members) + [SetMaster(lobby.master)];
    OpeningSize(lobby.listed, lobby.capacity, lobby.metadata, env.keys);
    ClosingSize(s.players, env.members, lobby.players, lobby.master);
    IntroducedThrice(opening, greeting, closing);
    SnapshotParts(s, lid, pid, birth, env, opening, greeting, closing);
  }

  lemma SnapshotParts(
      s: State, lid: LobbyId, pid: BasicId, birth: nat, env: Env,
      opening: seq<ServerMessage>, greeting: seq<ServerMessage>, closing: seq<ServerMessage>)
    requires OrdersOk(s, lid, env) && greeting == [Connected(pid, lid.lid, birth)]
    requires var lobby := s.lobbies[lid];
      opening == [SetListed(lobby.listed), SetCapacity(lobby.capacity)] + MetaMessages(lobby.metadata, env.keys)
    requires closing == JoinedMessages(s.players, env.members) + [SetMaster(s.lobbies[lid].master)]
    ensures Snapshot(s, lid, pid, birth, env) == opening + greeting + closing
  {
  }

  lemma IntroducedThrice(a: seq<ServerMessage>, b: seq<ServerMessage>, c: seq<ServerMessage>)
    ensures Introduced(a + b + c) == Introduced(a) + Introduced(b) + Introduced(c)
  {
    IntroducedConcat(a, b);
    IntroducedConcat(a + b, c);
  }

  lemma HostFits(s: State, op: Op, env: Env)
    requires op.HostLobby? && ValidOp(op) && EnvOk(s, op, env)
    ensures OrdersOk(Founded(s, op, env), LobbyId(op.gid, env.lid), env)
    ensures var o := Insert(Founded(s, op, env), LobbyId(op.gid, env.lid), env.pid, op.playerMetadata, env);
      |SentTo(o.out, env.pid)| <= LONGEST_SNAPSHOT && Introduced(SentTo(o.out, env.pid)) == {}
  {
    HostedState(s, op, env);
    var f, lid := Founded(s, op, env), LobbyId(op.gid, env.lid);
    SnapshotSize(f, lid, env.pid, Millis(env.now - f.lobbies[lid].createdAt), env);
  }

  lemma InsertFits(s: State, lid: LobbyId, metadata: Metadata, env: Env, sent: seq<ServerMessage>)
    requires OrdersOk(s, lid, env) && LobbySized(s.lobbies[lid]) && !s.lobbies[lid].IsFull()
    requires sent == SentTo(Insert(s, lid, env.pid, metadata, env).out, env.pid)
    ensures |sent| <= LONGEST_SNAPSHOT && |Introduced(sent)| <= MOST_OTHERS
  {
    var birth := Millis(env.now - s.lobbies[lid].createdAt);
    assert sent == Snapshot(s, lid, env.pid, birth, env);
    SnapshotSize(s, lid, env.pid, birth, env);
  }

  /** Whoever is let in finds room: the snapshot fits an empty queue, and introduces at most fourteen players. */
  lemma AdmissionFits(s: State, op: Op, env: Env)
    requires LobbiesOk(s) && ValidOp(op) && EnvOk(s, op, env) && Step(s, op, env).reply.Admitted?
    ensures var sent := SentTo(Step(s, op, env).out, env.pid);
      |sent| <= LONGEST_SNAPSHOT < QUEUE_CAP && |Introduced(sent)| <= MOST_OTHERS
  {
    AnswersOthers(s, op, env);
    if op.HostLobby? {
      HostFits(ChargePeer(s, op.ip, env.now), op, env);
    } else {
      InsertFits(ChargePeer(s, op.ip, env.now), op.lid, op.playerMetadata, env, SentTo(Step(s, op, env).out, env.pid));
    }
  }

  // Messages to members.

  lemma ViewSize(s: State, p: BasicId)
    requires LobbiesOk(s) && p in s.players
    ensures Seated(s, p) && |View(s, p).others| <= MOST_OTHERS
  {
    assert p in LobbyOf(s, p).players;
    SubsetSize(View(s, p).others.Keys, LobbyOf(s, p).players - {p});
  }

  lemma SentShape(s: State, op: Op, env: Env, p: BasicId, o: Outcome)
    requires Linked(s) && EnvOk(s, op, env) && p in s.players && o == Step(s, op, env)
    ensures var sent := SentTo(o.out, p);
      || sent == [] || |sent| == 1
      || (|sent| == 2 && sent[0].Left? && sent[1].SetMaster?)
    ensures op.RemovePlayer? && op.pid == p ==> SentTo(o.out, p) == [Disconnected(op.reason)]
  {
    if op.HostLobby? {
      HostShape(s, op, env, p);
    } else if op.RemovePlayer? {
      RemovalShape(s, op.pid, op.reason, env.heir, env.now, p);
    } else {
      OneMessageAtMost(s, op, env, p);
    }
  }

  lemma RemovalShape(s: State, pid: BasicId, reason: Kick, heir: BasicId, now: real, p: BasicId)
    requires Linked(s) && p in s.players
    ensures var sent := SentTo(Remove(s, pid, reason, heir, now).out, p);
      && (sent == [] || |sent| == 1 || (|sent| == 2 && sent[0].Left? && sent[1].SetMaster?))
      && (pid == p ==> sent == [Disconnected(reason)])
  {
  }

  lemma OneMessageAtMost(s: State, op: Op, env: Env, p: BasicId)
    requires EnvOk(s, op, env) && p in s.players && !op.HostLobby? && !op.RemovePlayer?
    ensures |SentTo(Step(s, op, env).out, p)| <= 1
  {
  }

  lemma HostShape(s: State, op: Op, env: Env, p: BasicId)
    requires op.HostLobby? && EnvOk(s, op, env) && p in s.players
    ensures SentTo(Step(s, op, env).out, p) == []
  {
    if HostDenial(s, op, env.now).None? {
      HostedState(ChargePeer(s, op.ip, env.now), op, env);
    }
  }

  lemma SentToStrangers(s: State, op: Op, env: Env, p: BasicId, o: Outcome)
    requires Linked(s) && EnvOk(s, op, env) && p !in s.players && o == Step(s, op, env) && o.reply != Admitted(p)
    ensures SentTo(o.out, p) == []
  {
    if op.HostLobby? {
      HostToStrangers(s, op, env, p);
    } else if op.JoinLobby? {
      JoinToStrangers(s, op, env, p);
    } else {
      OthersToStrangers(s, op, env, p);
    }
  }

  lemma OthersToStrangers(s: State, op: Op, env: Env, p: BasicId)
    requires Linked(s) && EnvOk(s, op, env) && p !in s.players && !op.HostLobby? && !op.JoinLobby?
    ensures SentTo(Step(s, op, env).out, p) == []
  {
  }

  lemma HostToStrangers(s: State, op: Op, env: Env, p: BasicId)
    requires op.HostLobby? && EnvOk(s, op, env) && p !in s.players && Host(s, op, env).reply != Admitted(p)
    ensures SentTo(Host(s, op, env).out, p) == []
  {
    if HostDenial(s, op, env.now).None? {
      HostedState(ChargePeer(s, op.ip, env.now), op, env);
    }
  }

  lemma JoinToStrangers(s: State, op: Op, env: Env, p: BasicId)
    requires Linked(s) && op.JoinLobby? && EnvOk(s, op, env) && p !in s.players && Join(s, op, env).reply != Admitted(p)
    ensures SentTo(Join(s, op, env).out, p) == []
  {
  }

  lemma SentBounded(s: State, op: Op, env: Env, p: BasicId, r: Shadow, clean: bool)
    requires LobbiesOk(s) && ValidOp(op) && EnvOk(s, op, env) && p in s.players && Seated(s, p)
    requires Matches(r, View(s, p), clean)
    ensures Bounded(r, SentTo(Step(s, op, env).out, p))
  {
    var o := Step(s, op, env);
    var sent := SentTo(o.out, p);
    ViewSize(s, p);
    SentShape(s, op, env, p, o);
    if op.RemovePlayer? && op.pid == p {
      SilenceIsBounded(r, sent);
    } else {
      StepKeepsLobbies(s, op, env);
      StepAgrees(s, op, env, p);
      ViewSize(o.state, p);
      MatchingFold(r, View(s, p), clean, sent);
      assert |Fold(r, sent).others| <= MOST_OTHERS;
      ShortIsBounded(r, sent);
    }
  }

  lemma ShortIsBounded(r: Shadow, sent: seq<ServerMessage>)
    requires |r.others| <= MOST_OTHERS && |Fold(r, sent).others| <= MOST_OTHERS
    requires sent == [] || |sent| == 1 || (|sent| == 2 && sent[0].Left? && sent[1].SetMaster?)
    ensures Bounded(r, sent)
  {
    if |sent| == 1 {
      assert sent == [sent[0]];
      FoldOne(r, sent[0]);
      assert Bounded(Apply(r, sent[0]), sent[1..]);
    } else if |sent| == 2 {
      var r1 := Apply(r, sent[0]);
      SubsetSize(r1.others.Keys, r.others.Keys);
      assert sent[1..][0] == sent[1] && sent[1..][1..] == [];
      assert Bounded(Apply(r1, sent[1]), []);
      assert Bounded(r1, sent[1..]);
    }
  }

  // Over runs.

  ghost predicate SizesOk(y: System) {
    && y.lossy <= y.used
    && forall sid, p :: sid in y.conns && Holds(y.conns[sid], p) && p !in y.lossy ==>
         Bounded(y.conns[sid].client, Pipeline(y, sid))
  }

  /** A session that ends has written nothing but farewells and listings in that turn. */
  lemma LastWords(s: Session, input: Input, now: real)
    requires Accepts(s, input) && Turn(s, input, now).session.stop
    ensures forall m :: m in Turn(s, input, now).sent ==> Silent(m)
  {
  }

  lemma TurnBounded(y: System, sid: Sid, input: Input)
    requires ConnsOk(y) && Enabled(y, SessionTurn(sid, input))
    requires Bounded(y.conns[sid].client, Pipeline(y, sid))
    ensures var z := TurnTaken(y, sid, input); Bounded(z.conns[sid].client, Pipeline(z, sid))
  {
    var c := y.conns[sid];
    var p := Turn(c.session, input, y.now);
    TurnDiscipline(c.session, input, y.now);
    assert ConnOk(c, Pending(y.channel, sid), sid in y.open);
    if p.session.stop {
      LastWords(c.session, input, y.now);
      EndBounded(y, sid, input, p);
    } else {
      TurnWrites(c.session, input, y.now);
      TurnPipeline(y, sid, input, p);
    }
  }

  lemma EndBounded(y: System, sid: Sid, input: Input, p: Progress)
    requires TurnAt(y, sid, input, p) && p.session.stop && forall m :: m in p.sent ==> Silent(m)
    requires Bounded(y.conns[sid].client, Pipeline(y, sid))
    requires input.Answered? || y.conns[sid].reply.NoReply?
    ensures var z := Progressed(y, sid, input, p); Bounded(z.conns[sid].client, Pipeline(z, sid))
  {
    var c := y.conns[sid];
    var z := Progressed(y, sid, input, p);
    LastWordsBounded(c.client, c.wire, PongOf(c.reply), QueueOf(y, c), p.sent);
    assert QueueOf(z, z.conns[sid]) == [];
    assert Pipeline(z, sid) == c.wire + p.sent;
  }

  lemma LastWordsBounded(
      r: Shadow, wire: seq<ServerMessage>, pong: seq<ServerMessage>, queue: seq<ServerMessage>,
      sent: seq<ServerMessage>)
    requires Bounded(r, wire + pong + queue) && forall m :: m in sent ==> Silent(m)
    ensures Bounded(r, wire + sent)
  {
    assert wire + pong + queue == wire + (pong + queue);
    BoundedConcat(r, wire, pong + queue);
    SilenceIsBounded(Fold(r, wire), sent);
    BoundedConcat(r, wire, sent);
  }

  lemma SamePipelineBounded(y: System, z: System, sid: Sid)
    requires sid in y.conns && sid in z.conns && z.queues == y.queues
    requires var c, d := y.conns[sid], z.conns[sid];
      d.wire == c.wire && d.reply == c.reply && d.client == c.client && d.session.pid == c.session.pid
    ensures Pipeline(z, sid) == Pipeline(y, sid)
  {
  }

  lemma TakeBounded(y: System, sid: Sid)
    requires Enabled(y, Take(sid)) && Bounded(y.conns[sid].client, Pipeline(y, sid))
    ensures var z := Fire(y, Take(sid)); Bounded(z.conns[sid].client, Pipeline(z, sid))
  {
    var z := Fire(y, Take(sid));
    assert Pipeline(y, sid)[0] == y.conns[sid].wire[0];
    assert Pipeline(y, sid)[1..] == Pipeline(z, sid);
  }

  lemma OtherStepsKeepSizes(y: System, ev: Event)
    requires ConnsOk(y) && Owned(y) && QueuesOk(y) && SizesOk(y) && Enabled(y, ev) && !ev.Serve?
    ensures SizesOk(Fire(y, ev))
  {
    var z := Fire(y, ev);
    forall sid, p | sid in z.conns && Holds(z.conns[sid], p) && p !in z.lossy
      ensures Bounded(z.conns[sid].client, Pipeline(z, sid))
    {
      OtherStepBounded(y, ev, sid, p, Fire(y, ev));
    }
  }

  lemma OtherStepBounded(y: System, ev: Event, sid: Sid, p: BasicId, z: System)
    requires ConnsOk(y) && Owned(y) && QueuesOk(y) && SizesOk(y) && Enabled(y, ev) && !ev.Serve?
    requires z == Fire(y, ev) && sid in z.conns && Holds(z.conns[sid], p) && p !in y.lossy
    ensures Bounded(z.conns[sid].client, Pipeline(z, sid))
  {
    if ev.SessionTurn? {
      var t := Turn(y.conns[ev.sid].session, ev.input, y.now);
      TurnDiscipline(y.conns[ev.sid].session, ev.input, y.now);
      TurnKeepsHold(y, ev.sid, ev.input, t, p);
      if ev.sid == sid {
        TurnBounded(y, sid, ev.input);
      } else {
        TurnElsewherePipeline(y, ev.sid, ev.input, t, sid, p);
      }
    } else if ev.Take? && ev.sid == sid {
      TakeBounded(y, sid);
    } else {
      if ev.Arrive? || ev.Shake? || ev.Accept? || ev.Abort? {
        HandshakesHoldNothing(y, ev, p);
      }
      SamePipelineBounded(y, z, sid);
    }
  }

  lemma TurnElsewherePipeline(y: System, sid: Sid, input: Input, p: Progress, other: Sid, q: BasicId)
    requires ConnsOk(y) && Owned(y) && TurnAt(y, sid, input, p)
    requires other != sid && other in y.conns && Holds(y.conns[other], q)
    ensures Pipeline(Progressed(y, sid, input, p), other) == Pipeline(y, other)
  {
    TurnElsewhere(y, sid, input, p, other, q);
    HolderHasOnePlayer(y.conns[other], Pending(y.channel, other), other in y.open, q);
  }

  lemma HolderHasOnePlayer(c: Conn, pend: seq<Op>, isOpen: bool, p: BasicId)
    requires ConnOk(c, pend, isOpen) && Holds(c, p)
    ensures (c.session.pid == Some(p) && !c.reply.Admitted?) || (c.session.pid.None? && c.reply == Admitted(p))
  {
  }

  // The event loop's steps.

  lemma PongBounded(client: Shadow, wire: seq<ServerMessage>, queue: seq<ServerMessage>, players: set<BasicId>)
    requires Bounded(client, wire + [] + queue)
    ensures Bounded(client, wire + [Pong(players)] + queue)
  {
    assert wire + [] + queue == wire + queue;
    BoundedConcat(client, wire, queue);
    PongAheadBounded(Fold(client, wire), queue, players);
    BoundedThrough(client, wire, [Pong(players)], queue, [Pong(players)] + queue);
  }

  lemma BoundedThrough(
      client: Shadow, wire: seq<ServerMessage>, ahead: seq<ServerMessage>, queue: seq<ServerMessage>,
      rest: seq<ServerMessage>)
    requires rest == ahead + queue && Bounded(client, wire) && Bounded(Fold(client, wire), rest)
    ensures Bounded(client, wire + ahead + queue)
  {
    BoundedConcat(client, wire, rest);
    Associative(wire, ahead, queue);
  }

  lemma PongAheadBounded(r: Shadow, queue: seq<ServerMessage>, players: set<BasicId>)
    requires Bounded(r, queue)
    ensures Bounded(r, [Pong(players)] + queue)
  {
    PongTrims(r, players);
    BoundedTrimmed(Apply(r, Pong(players)), r, r.others.Keys - players, queue);
    PongFirstBounded(r, queue, players);
  }

  lemma PongFirstBounded(r: Shadow, queue: seq<ServerMessage>, players: set<BasicId>)
    requires |r.others| <= MOST_OTHERS && Bounded(Apply(r, Pong(players)), queue)
    ensures Bounded(r, [Pong(players)] + queue)
  {
    assert ([Pong(players)] + queue)[1..] == queue;
  }

  /** What a step adds to a holder's queue, if it is still there. */
  ghost function QueuedBy(y: System, env: Env, p: BasicId): seq<ServerMessage>
    requires CanServe(y, env)
  {
    if p in y.queues then SentTo(Step(y.server, y.channel[0].op, env).out, p) else []
  }

  lemma ServedHolderQueue(y: System, env: Env, sid: Sid, p: BasicId)
    requires ConnsOk(y) && CanServe(y, env) && sid in y.conns && Holds(y.conns[sid], p)
    requires p !in Served(y, env).lossy && Step(y.server, y.channel[0].op, env).reply != Admitted(p)
    ensures p in Served(y, env).queues <==> p in y.queues
    ensures p in y.queues ==> Served(y, env).queues[p] == y.queues[p] + QueuedBy(y, env, p)
  {
    if p in Served(y, env).queues {
      ServedQueue(y, env, p);
    }
  }

  lemma QueueOfHolder(y: System, c: Conn, p: BasicId)
    requires (c.session.pid == Some(p) && !c.reply.Admitted?) || (c.session.pid.None? && c.reply == Admitted(p))
    ensures QueueOf(y, c) == if p in y.queues then y.queues[p] else []
  {
  }

  /** A holder that gets no pong is left as it was. */
  lemma HolderUnanswered(y: System, env: Env, sid: Sid, p: BasicId)
    requires ConnsOk(y) && ChannelOk(y) && CanServe(y, env) && sid in y.conns && Holds(y.conns[sid], p)
    requires !(y.channel[0].from == Some(sid) && Step(y.server, y.channel[0].op, env).reply.Ponged?)
    ensures Served(y, env).conns[sid] == y.conns[sid]
  {
    if y.channel[0].from == Some(sid) {
      HoldersGetPongs(y, env, sid, p);
    }
  }

  /** The pipeline of a holder after a step: a pong may come between, and what is sent comes last. */
  lemma UnansweredHolderPipeline(y: System, env: Env, sid: Sid, p: BasicId)
    requires ConnsOk(y) && CanServe(y, env) && sid in y.conns && Holds(y.conns[sid], p)
    requires p !in Served(y, env).lossy && Step(y.server, y.channel[0].op, env).reply != Admitted(p)
    requires Served(y, env).conns[sid] == y.conns[sid]
    ensures Pipeline(Served(y, env), sid) == Pipeline(y, sid) + QueuedBy(y, env, p)
  {
    HolderHasOnePlayer(y.conns[sid], Pending(y.channel, sid), sid in y.open, p);
    ServedHolderQueue(y, env, sid, p);
    SameConnPipeline(y, Served(y, env), sid, p, QueuedBy(y, env, p));
  }

  lemma SameConnPipeline(y: System, z: System, sid: Sid, p: BasicId, sent: seq<ServerMessage>)
    requires sid in y.conns && sid in z.conns && z.conns[sid] == y.conns[sid]
    requires var c := y.conns[sid];
      (c.session.pid == Some(p) && !c.reply.Admitted?) || (c.session.pid.None? && c.reply == Admitted(p))
    requires (p in z.queues <==> p in y.queues)
    requires if p in y.queues then z.queues[p] == y.queues[p] + sent else sent == []
    ensures Pipeline(z, sid) == Pipeline(y, sid) + sent
  {
    var c := y.conns[sid];
    QueueOfHolder(y, c, p);
    QueueOfHolder(z, c, p);
    assert QueueOf(z, c) == QueueOf(y, c) + sent;
    assert c.wire + PongOf(c.reply) + (QueueOf(y, c) + sent) == c.wire + PongOf(c.reply) + QueueOf(y, c) + sent;
  }

  lemma PongedHolderPipeline(y: System, env: Env, sid: Sid, p: BasicId, players: set<BasicId>)
    requires ConnsOk(y) && ChannelOk(y) && CanServe(y, env) && sid in y.conns && Holds(y.conns[sid], p)
    requires p !in Served(y, env).lossy
    requires y.channel[0].from == Some(sid) && Step(y.server, y.channel[0].op, env).reply == Ponged(players)
    ensures var c := y.conns[sid];
      && c.reply.NoReply? && Served(y, env).conns[sid].client == c.client
      && Pipeline(Served(y, env), sid) == c.wire + [Pong(players)] + (QueueOf(y, c) + QueuedBy(y, env, p))
  {
    var z := Served(y, env);
    HoldersGetPongs(y, env, sid, p);
    ServedHolderQueue(y, env, sid, p);
    assert z.conns[sid] == y.conns[sid].(reply := Ponged(players));
    QueueOfHolder(y, y.conns[sid], p);
    QueueOfHolder(z, z.conns[sid], p);
  }

  lemma HeldBounded(y: System, env: Env, sid: Sid, p: BasicId)
    requires Disciplined(y) && CanServe(y, env) && Agreeing(y) && SizesOk(y)
    requires sid in y.conns && Holds(y.conns[sid], p) && p !in Served(y, env).lossy
    ensures Bounded(Served(y, env).conns[sid].client, Pipeline(Served(y, env), sid))
  {
    AnswersOthers(y.server, y.channel[0].op, env);
    if Step(y.server, y.channel[0].op, env).reply.Admitted? {
      FreshIsUnheld(y, env, sid);
    }
    SentToHolderBounded(y, env, sid, p);
    GrownBounded(y, env, sid, p);
  }

  lemma GrownBounded(y: System, env: Env, sid: Sid, p: BasicId)
    requires ConnsOk(y) && ChannelOk(y) && CanServe(y, env) && sid in y.conns && Holds(y.conns[sid], p)
    requires p !in Served(y, env).lossy && Step(y.server, y.channel[0].op, env).reply != Admitted(p)
    requires Bounded(y.conns[sid].client, Pipeline(y, sid)) && Bounded(Foretold(y, sid), QueuedBy(y, env, p))
    ensures Bounded(Served(y, env).conns[sid].client, Pipeline(Served(y, env), sid))
  {
    var reply := Step(y.server, y.channel[0].op, env).reply;
    BoundedConcat(y.conns[sid].client, Pipeline(y, sid), QueuedBy(y, env, p));
    if y.channel[0].from == Some(sid) && reply.Ponged? {
      PongedHolderPipeline(y, env, sid, p, reply.players);
      PongedGrownBounded(y, Served(y, env), sid, QueuedBy(y, env, p), reply.players);
    } else {
      HolderUnanswered(y, env, sid, p);
      UnansweredHolderPipeline(y, env, sid, p);
    }
  }

  lemma PongedGrownBounded(y: System, z: System, sid: Sid, sent: seq<ServerMessage>, players: set<BasicId>)
    requires sid in y.conns && sid in z.conns && y.conns[sid].reply.NoReply?
    requires z.conns[sid].client == y.conns[sid].client
    requires Pipeline(z, sid) == y.conns[sid].wire + [Pong(players)] + (QueueOf(y, y.conns[sid]) + sent)
    requires Bounded(y.conns[sid].client, Pipeline(y, sid) + sent)
    ensures Bounded(z.conns[sid].client, Pipeline(z, sid))
  {
    var c := y.conns[sid];
    var rest := QueueOf(y, c) + sent;
    assert c.wire + [] + rest == Pipeline(y, sid) + sent;
    PongBounded(c.client, c.wire, rest, players);
  }

  lemma SentToHolderBounded(y: System, env: Env, sid: Sid, p: BasicId)
    requires Disciplined(y) && CanServe(y, env) && Agreeing(y) && SizesOk(y)
    requires sid in y.conns && Holds(y.conns[sid], p) && p !in y.lossy
    requires Step(y.server, y.channel[0].op, env).reply != Admitted(p)
    ensures Bounded(y.conns[sid].client, Pipeline(y, sid)) && Bounded(Foretold(y, sid), QueuedBy(y, env, p))
  {
    BoundedConcat(y.conns[sid].client, Pipeline(y, sid), []);
    assert Pipeline(y, sid) + [] == Pipeline(y, sid);
    if p in y.queues && p in y.server.players {
      assert InTouch(y, sid, p) && Seated(y.server, p);
      SentBounded(y.server, y.channel[0].op, env, p, Foretold(y, sid), y.conns[sid].clean);
    } else if p !in y.server.players {
      SentToStrangers(y.server, y.channel[0].op, env, p, Step(y.server, y.channel[0].op, env));
    }
  }

  /** The first messages to a newcomer. */
  lemma NewcomerBounded(y: System, env: Env, sid: Sid, o: Outcome)
    requires LobbiesOk(y.server) && ConnsOk(y) && ChannelOk(y) && CanServe(y, env)
    requires o == Step(y.server, y.channel[0].op, env) && o.reply == Admitted(env.pid)
    requires y.channel[0].from == Some(sid) && env.pid !in Served(y, env).lossy
    ensures sid in y.conns && Bounded(Served(y, env).conns[sid].client, Pipeline(Served(y, env), sid))
  {
    NewcomerMessages(y, env, sid, o);
    AdmissionFits(y.server, y.channel[0].op, env);
    var sent := SentTo(o.out, env.pid);
    IntroductionsBounded(y.conns[sid].client, sent, Introduced(sent));
    assert Served(y, env).conns[sid].client == y.conns[sid].client;
  }

  /** A newcomer's queue does not overflow. */
  lemma NewcomersLoseNothing(y: System, env: Env)
    requires LobbiesOk(y.server) && ChannelOk(y) && CanServe(y, env) && y.lossy <= y.used
    requires Step(y.server, y.channel[0].op, env).reply.Admitted?
    ensures env.pid !in Served(y, env).lossy
  {
    AnswersOthers(y.server, y.channel[0].op, env);
    AdmissionFits(y.server, y.channel[0].op, env);
  }

  lemma ServedLossy(y: System, env: Env)
    requires HeldIsOwned(y) && QueuesOk(y) && CanServe(y, env) && y.lossy <= y.used
    ensures Served(y, env).lossy <= Served(y, env).used
  {
    var o := Step(y.server, y.channel[0].op, env);
    forall p | p in Overflowing(Opened(y.queues, o.reply), o.out) ensures p in Served(y, env).used {
      if p in y.queues {
        assert QueuedFor(y, p);
      }
    }
  }

  lemma ServedSizes(y: System, env: Env)
    requires Disciplined(y) && CanServe(y, env) && Agreeing(y) && SizesOk(y)
    ensures SizesOk(Served(y, env))
  {
    var z := Served(y, env);
    ServedLossy(y, env);
    forall sid, p | sid in z.conns && Holds(z.conns[sid], p) && p !in z.lossy
      ensures Bounded(z.conns[sid].client, Pipeline(z, sid))
    {
      ServedHolds(y, env, sid, p);
      if Holds(y.conns[sid], p) {
        HeldBounded(y, env, sid, p);
      } else {
        AnswersOthers(y.server, y.channel[0].op, env);
        NewcomerBounded(y, env, sid, Step(y.server, y.channel[0].op, env));
      }
    }
  }

  lemma FireKeepsSizes(y: System, ev: Event)
    requires Disciplined(y) && Agreeing(y) && SizesOk(y) && Enabled(y, ev)
    ensures SizesOk(Fire(y, ev))
  {
    if ev.Serve? {
      ServedSizes(y, ev.env);
    } else {
      OtherStepsKeepSizes(y, ev);
    }
  }

  /** A client that has lost no message never overruns its list of player ids, which ends with a terminator. */
  lemma PlayerListFits(y: System, sid: Sid, p: BasicId)
    requires SizesOk(y) && sid in y.conns && Holds(y.conns[sid], p) && p !in y.lossy
    ensures 1 + |y.conns[sid].client.others| + 1 <= PLAYER_LIST_SLOTS
  {
    assert Bounded(y.conns[sid].client, Pipeline(y, sid));
  }
}
