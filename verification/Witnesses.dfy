/** Runs of the whole system that show what can go otherwise than one would wish. */
module Witnesses {
  import opened Basics
  import opened Tokens
  import opened Server
  import opened ServerInvariants
  import opened Sessions
  import opened Replica
  import opened System
  import opened EventLoop
  import opened HostingCaps

  // Reaching a state, step by step.

  ghost predicate Reachable(y: System) {
    exists run :: IsRun(run) && run[|run| - 1] == y
  }

  lemma StartIsReachable()
    ensures Reachable(START)
  {
    assert IsRun([START]);
  }

  lemma LongerRun(run: seq<System>, z: System)
    requires IsRun(run) && Next(run[|run| - 1], z)
    ensures IsRun(run + [z])
  {
    var longer := run + [z];
    forall i: nat | i + 1 < |longer| ensures NextAt(longer, i) {
      if i + 1 < |run| {
        assert NextAt(run, i);
      }
    }
  }

  lemma OneMoreStep(y: System, ev: Event, z: System)
    requires Reachable(y) && Enabled(y, ev) && z == Fire(y, ev)
    ensures Reachable(z)
  {
    var run :| IsRun(run) && run[|run| - 1] == y;
    assert Next(y, z);
    LongerRun(run, z);
    assert (run + [z])[|run + [z]| - 1] == z;
  }

  ghost predicate Unfilled(y: System) {
    forall p :: p in y.queues ==> |y.queues[p]| <= QUEUE_CAP
  }

  /** Nothing to serve, and no queue over its size. */
  ghost predicate Calm(y: System) {
    Reachable(y) && y.channel == [] && Unfilled(y)
  }

  // The event loop's steps.

  /** The system after the event loop has served the request at the head of the channel, of connection `sid`. */
  ghost predicate After(y: System, sid: Sid, o: Outcome, z: System)
    requires y.channel != [] && sid in y.conns
  {
    && Reachable(z) && Unfilled(z) && z.channel == y.channel[1..] && z.now == y.now && z.server == o.state
    && z.conns == y.conns[sid := Replied(y.conns[sid], o)]
    && z.queues == Deliver(Opened(y.queues, o.reply), o.out)
    && z.used == if o.reply.Admitted? then y.used + {o.reply.pid} else y.used
  }

  lemma ServesOne(y: System, sid: Sid, op: Op, env: Env, o: Outcome) returns (z: System)
    requires Reachable(y) && Unfilled(y) && y.channel != [] && y.channel[0] == Request(Some(sid), op) && sid in y.conns
    requires EnvOk(y.server, op, env) && env.now == y.now && o == Step(y.server, op, env)
    requires op.HostLobby? || op.JoinLobby? ==> env.pid !in y.used
    ensures After(y, sid, o, z)
  {
    z := Served(y, env);
    OneMoreStep(y, Serve(env), z);
  }

  lemma NoOneTold(queues: map<BasicId, seq<ServerMessage>>)
    ensures Deliver(queues, map[]) == queues
  {
    NothingDelivered(queues);
  }

  lemma IntroductionServed(y: System, sid: Sid, ip: Ip) returns (z: System)
    requires Reachable(y) && Unfilled(y) && sid in y.conns && y.channel == [Request(Some(sid), IntroduceSession(ip))]
    requires Grants(y.server, ip)
    ensures After(y, sid, Outcome(Introduce(y.server, ip, y.now).state, map[], Granted(true)), z)
    ensures z.queues == y.queues
  {
    var env := Env(y.now, NULL, NULL, [], [], NULL, []);
    z := ServesOne(y, sid, IntroduceSession(ip), env, Introduce(y.server, ip, y.now));
    NoOneTold(y.queues);
  }

  // The session's steps.

  predicate Live(y: System, sid: Sid) {
    sid in y.conns && y.conns[sid].stage.Serving?
  }

  /** A turn that neither ends the session nor reads its queue. */
  lemma TakesTurn(y: System, sid: Sid, input: Input, p: Progress) returns (z: System)
    requires Reachable(y) && Live(y, sid) && InputAt(y, y.conns[sid], input) && !input.Dequeued?
    requires p == Turn(y.conns[sid].session, input, y.now) && !p.session.stop
    ensures Reachable(z)
    ensures z == y.(
      conns := y.conns[sid := y.conns[sid].(
        session := p.session,
        reply := if input.Answered? then NoReply else y.conns[sid].reply,
        wire := y.conns[sid].wire + p.sent)],
      channel := y.channel + Requests(sid, p.ops))
  {
    z := TurnTaken(y, sid, input);
    OneMoreStep(y, SessionTurn(sid, input), z);
  }

  /** A session that can pay for `n` more empty frames at this moment. */
  predicate Rich(s: Session, n: nat) {
    && !s.stop && s.awaiting.Idle?
    && s.payloads.max == 30.0 && s.payloads.tokens >= 30.0 + n as real
    && s.bandwidth.max == 4096.0 && s.bandwidth.tokens > 4096.0
  }

  function Paid(s: Session, now: real): Session {
    s.(payloads := Taken(s.payloads, now, 1), bandwidth := Taken(s.bandwidth, now, 0))
  }

  lemma RichPays(s: Session, n: nat, m: ClientMessage, now: real)
    requires Rich(s, n) && n > 0
    ensures Rich(Paid(s, now), n - 1) && Paid(s, now).pid == s.pid && Paid(s, now).ip == s.ip
    ensures Receive(s, 0, Text(m), now) == Process(Paid(s, now), Text(m), now)
  {
  }

  /** A session asks the event loop for something; whether it then waits is up to the message. */
  lemma Asks(y: System, sid: Sid, m: ClientMessage, n: nat, p: Progress) returns (z: System)
    requires Reachable(y) && Live(y, sid) && y.conns[sid].reply.NoReply? && ValidMessage(m)
    requires Rich(y.conns[sid].session, n) && n > 0
    requires p == Process(Paid(y.conns[sid].session, y.now), Text(m), y.now)
    requires p.error.None? && !p.session.stop && |p.ops| == 1
    ensures Reachable(z)
    ensures z == y.(
      conns := y.conns[sid := y.conns[sid].(session := p.session, wire := y.conns[sid].wire + p.sent)],
      channel := y.channel + [Request(Some(sid), p.ops[0])])
  {
    var input := Received(0, Text(m));
    RichPays(y.conns[sid].session, n, m, y.now);
    assert Turn(y.conns[sid].session, input, y.now) == p;
    z := TakesTurn(y, sid, input, p);
    assert p.ops == [p.ops[0]];
    RequestsAre(sid, p.ops);
  }

  // Connecting.

  function Caller(ip: Ip, now: real, client: Shadow, stage: Stage, reply: Reply): Conn {
    Conn(stage, NewSession(ip, now), reply, [], client, false)
  }

  lemma Arrives(y: System, sid: Sid, ip: Ip, client: Shadow) returns (z: System)
    requires Calm(y) && sid !in y.conns && Newcomer(client)
    ensures Reachable(z)
    ensures z == y.(
      conns := y.conns[sid := Caller(ip, y.now, client, Greeting, NoReply)],
      channel := [Request(Some(sid), IntroduceSession(ip))])
  {
    z := Fire(y, Arrive(sid, ip, client));
    OneMoreStep(y, Arrive(sid, ip, client), z);
    assert y.channel + [Request(Some(sid), IntroduceSession(ip))] == [Request(Some(sid), IntroduceSession(ip))];
  }

  lemma ShakesHands(y: System, sid: Sid, ip: Ip, client: Shadow) returns (z: System)
    requires Reachable(y) && sid in y.conns && y.conns[sid] == Caller(ip, y.now, client, Greeting, Granted(true))
    ensures Reachable(z)
    ensures z == y.(conns := y.conns[sid := Caller(ip, y.now, client, Serving, NoReply)])
  {
    var shaken := Fire(y, Shake(sid));
    OneMoreStep(y, Shake(sid), shaken);
    z := Fire(shaken, Accept(sid));
    OneMoreStep(shaken, Accept(sid), z);
    assert z.conns == y.conns[sid := Caller(ip, y.now, client, Serving, NoReply)];
  }

  lemma IsLetIn(y: System, sid: Sid, ip: Ip, client: Shadow) returns (z: System)
    requires Reachable(y) && Unfilled(y)
    requires sid in y.conns && y.conns[sid] == Caller(ip, y.now, client, Greeting, NoReply)
    requires y.channel == [Request(Some(sid), IntroduceSession(ip))] && Grants(y.server, ip)
    ensures Calm(z) && z.now == y.now && z.used == y.used && z.queues == y.queues
    ensures z.server == Introduce(y.server, ip, y.now).state
    ensures z.conns == y.conns[sid := Caller(ip, y.now, client, Serving, NoReply)]
  {
    var y1 := IntroductionServed(y, sid, ip);
    assert y1.conns[sid] == Caller(ip, y.now, client, Greeting, Granted(true));
    z := ShakesHands(y1, sid, ip, client);
    assert z.conns == y.conns[sid := Caller(ip, y.now, client, Serving, NoReply)];
  }

  /** A client gets a session, if the address has one to spare. */
  lemma Connects(y: System, sid: Sid, ip: Ip, client: Shadow) returns (z: System)
    requires Calm(y) && sid !in y.conns && Newcomer(client) && Grants(y.server, ip)
    ensures Calm(z) && z.now == y.now && z.used == y.used && z.queues == y.queues
    ensures z.server == Introduce(y.server, ip, y.now).state
    ensures z.conns == y.conns[sid := Caller(ip, y.now, client, Serving, NoReply)]
  {
    var y1 := Arrives(y, sid, ip, client);
    z := IsLetIn(y1, sid, ip, client);
    assert z.conns == y.conns[sid := Caller(ip, y.now, client, Serving, NoReply)];
  }

  // Getting into a lobby.

  /** A connection that has its player, has read its answer, and can pay for `n` more frames. */
  predicate Settled(c: Conn, pid: BasicId, client: Shadow, n: nat) {
    && c.stage.Serving? && c.reply.NoReply? && c.wire == [] && c.client == client
    && c.session.pid == Some(pid) && Rich(c.session, n)
  }

  /** A connection that waits to be let in. */
  predicate Knocking(c: Conn, client: Shadow, reply: Reply, n: nat) {
    && c.stage.Serving? && c.reply == reply && c.wire == [] && c.client == client
    && c.session.awaiting.ForAdmission? && c.session.pid.None? && Rich(c.session.(awaiting := Idle), n)
  }

  predicate Entry(m: ClientMessage) {
    m.HostRequest? || m.JoinRequest?
  }

  function EntryOp(ip: Ip, m: ClientMessage): Op
    requires Entry(m)
  {
    match m
    case HostRequest(gid, capacity, listed, playerMetadata, lobbyMetadata) =>
      HostLobby(ip, gid, lobbyMetadata, capacity, listed, playerMetadata)
    case JoinRequest(lid, playerMetadata) => JoinLobby(ip, lid, playerMetadata)
  }

  lemma Knocks(y: System, sid: Sid, ip: Ip, client: Shadow, m: ClientMessage) returns (z: System)
    requires Calm(y) && sid in y.conns && y.conns[sid] == Caller(ip, y.now, client, Serving, NoReply)
    requires Entry(m) && ValidMessage(m)
    ensures Reachable(z) && sid in z.conns && Knocking(z.conns[sid], client, NoReply, 29)
    ensures z == y.(
      conns := y.conns[sid := z.conns[sid]], channel := [Request(Some(sid), EntryOp(ip, m))])
  {
    var s := NewSession(ip, y.now);
    RichPays(s, 30, m, y.now);
    var p := Process(Paid(s, y.now), Text(m), y.now);
    assert p == Progress(Paid(s, y.now).(awaiting := ForAdmission), [EntryOp(ip, m)], [], None);
    z := Asks(y, sid, m, 30, p);
    assert y.channel + [Request(Some(sid), EntryOp(ip, m))] == [Request(Some(sid), EntryOp(ip, m))];
  }

  lemma Settles(y: System, sid: Sid, client: Shadow, pid: BasicId, n: nat) returns (z: System)
    requires Calm(y) && sid in y.conns && Knocking(y.conns[sid], client, Admitted(pid), n)
    ensures Calm(z) && sid in z.conns && Settled(z.conns[sid], pid, client, n)
    ensures z == y.(conns := y.conns[sid := z.conns[sid]])
  {
    var s := y.conns[sid].session;
    var input := Answered(Admitted(pid));
    var p := Turn(s, input, y.now);
    assert p == Progress(s.(awaiting := Idle, pid := Some(pid)), [], [], None);
    z := TakesTurn(y, sid, input, p);
    assert z.channel == y.channel + Requests(sid, []) == y.channel;
    assert z.conns[sid].wire == [] + [];
  }

  /** The choices made when a lobby without metadata is hosted. */
  function Drawing(pid: BasicId, lid: BasicId, now: real): Env {
    Env(now, pid, lid, [], [], NULL, [])
  }

  /** The state after a hosting. */
  function Lodge(s: State, op: Op, pid: BasicId, lid: BasicId, now: real): State
    requires op.HostLobby?
  {
    var id := LobbyId(op.gid, lid);
    State(
      Indexed(s.gidLobbies, id),
      s.lobbies[id := NewLobby(op, pid, now).(players := {pid})],
      s.players[pid := Player(id, op.playerMetadata, 0, FreshMetadata("player_metadata", now))],
      ChargePeer(s, op.ip, now).peers)
  }

  /** A hosting without metadata that is let through, under ids not in use. */
  ghost predicate Housable(s: State, op: Op, pid: BasicId, lid: BasicId, now: real) {
    && op.HostLobby? && op.lobbyMetadata == map[] && HostDenial(s, op, now).None?
    && pid != NULL && pid !in s.players && LobbyId(op.gid, lid) !in s.lobbies
  }

  lemma HostingLodges(s: State, op: Op, pid: BasicId, lid: BasicId, now: real)
    requires Housable(s, op, pid, lid, now)
    ensures var env := Drawing(pid, lid, now);
      EnvOk(s, op, env) && Host(s, op, env).state == Lodge(s, op, pid, lid, now)
        && Host(s, op, env).reply == Admitted(pid)
  {
    HostedAs(s, op, Drawing(pid, lid, now));
  }

  lemma HostServed(y: System, sid: Sid, op: Op, pid: BasicId, lid: BasicId) returns (o: Outcome, z: System)
    requires Reachable(y) && Unfilled(y) && sid in y.conns && y.channel == [Request(Some(sid), op)]
    requires Housable(y.server, op, pid, lid, y.now) && pid !in y.used
    ensures After(y, sid, o, z) && o.state == Lodge(y.server, op, pid, lid, y.now) && o.reply == Admitted(pid)
  {
    HostingLodges(y.server, op, pid, lid, y.now);
    o := Host(y.server, op, Drawing(pid, lid, y.now));
    z := ServesOne(y, sid, op, Drawing(pid, lid, y.now), o);
  }

  /** A new connection is let in as a player. */
  lemma AdmissionSeen(y: System, sid: Sid, client: Shadow, pid: BasicId, n: nat, o: Outcome, z: System)
    requires y.channel != [] && sid in y.conns && After(y, sid, o, z) && o.reply == Admitted(pid)
    requires Knocking(y.conns[sid], client, NoReply, n)
    ensures sid in z.conns && z.conns.Keys == y.conns.Keys && Knocking(z.conns[sid], client, Admitted(pid), n)
    ensures z.used == y.used + {pid}
  {
  }

  lemma HostEnters(y: System, sid: Sid, client: Shadow, op: Op, pid: BasicId, lid: BasicId) returns (z: System)
    requires Reachable(y) && Unfilled(y) && sid in y.conns && y.channel == [Request(Some(sid), op)]
    requires Housable(y.server, op, pid, lid, y.now) && pid !in y.used && Knocking(y.conns[sid], client, NoReply, 29)
    ensures Calm(z) && z.now == y.now && z.used == y.used + {pid} && z.server == Lodge(y.server, op, pid, lid, y.now)
    ensures sid in z.conns && z.conns.Keys == y.conns.Keys && Knocking(z.conns[sid], client, Admitted(pid), 29)
  {
    var o;
    o, z := HostServed(y, sid, op, pid, lid);
    AdmissionSeen(y, sid, client, pid, 29, o, z);
  }

  /** A new connection hosts. */
  lemma Hosts(y: System, sid: Sid, ip: Ip, client: Shadow, m: ClientMessage, op: Op, pid: BasicId, lid: BasicId)
    returns (z: System)
    requires Calm(y) && sid in y.conns && y.conns[sid] == Caller(ip, y.now, client, Serving, NoReply)
    requires m.HostRequest? && ValidMessage(m) && op == EntryOp(ip, m)
    requires Housable(y.server, op, pid, lid, y.now) && pid !in y.used
    ensures Calm(z) && z.now == y.now && z.used == y.used + {pid}
    ensures z.server == Lodge(y.server, op, pid, lid, y.now)
    ensures sid in z.conns && z.conns.Keys == y.conns.Keys && Settled(z.conns[sid], pid, client, 29)
  {
    var y1 := Knocks(y, sid, ip, client, m);
    var y2 := HostEnters(y1, sid, client, op, pid, lid);
    z := Settles(y2, sid, client, pid, 29);
  }

  // What one sees in the lobby.

  /** One message off the queue and onto the wire. */
  lemma WritesOne(y: System, sid: Sid, p: BasicId, q: seq<ServerMessage>, n: nat) returns (z: System)
    requires Calm(y) && sid in y.conns && Settled(y.conns[sid], p, y.conns[sid].client, n)
    requires p in y.queues && y.queues[p] == q && q != [] && !q[0].Disconnected?
    ensures Calm(z)
    ensures z == y.(conns := y.conns[sid := y.conns[sid].(wire := [q[0]])], queues := y.queues[p := q[1..]])
  {
    var c := y.conns[sid];
    var input := Dequeued(q[0]);
    var t := Turn(c.session, input, y.now);
    assert t == Progress(c.session, [], [q[0]], None);
    z := TurnTaken(y, sid, input);
    OneMoreStep(y, SessionTurn(sid, input), z);
    assert y.channel + Requests(sid, []) == y.channel && c.wire + t.sent == [q[0]];
  }

  /** One message off the queue, onto the wire, and into the replica. */
  lemma ReadsOne(y: System, sid: Sid, p: BasicId, q: seq<ServerMessage>, n: nat) returns (z: System)
    requires Calm(y) && sid in y.conns && Settled(y.conns[sid], p, y.conns[sid].client, n)
    requires p in y.queues && y.queues[p] == q && q != [] && !q[0].Disconnected?
    ensures Calm(z)
    ensures z == y.(
      conns := y.conns[sid := y.conns[sid].(client := Apply(y.conns[sid].client, q[0]))],
      queues := y.queues[p := q[1..]])
  {
    var y1 := WritesOne(y, sid, p, q, n);
    z := Fire(y1, Take(sid));
    OneMoreStep(y1, Take(sid), z);
    assert [q[0]][1..] == [];
    assert z.conns == y.conns[sid := y.conns[sid].(client := Apply(y.conns[sid].client, q[0]))];
  }

  lemma {:induction false} ReadsAll(y: System, sid: Sid, p: BasicId, q: seq<ServerMessage>, n: nat) returns (z: System)
    requires Calm(y) && sid in y.conns && Settled(y.conns[sid], p, y.conns[sid].client, n)
    requires p in y.queues && y.queues[p] == q && forall i :: 0 <= i < |q| ==> !q[i].Disconnected?
    ensures Calm(z) && z.server == y.server && z.now == y.now && z.used == y.used
    ensures z.conns == y.conns[sid := y.conns[sid].(client := Fold(y.conns[sid].client, q))]
    ensures p in z.queues
    decreases |q|
  {
    if q == [] {
      z := y;
      assert y.conns == y.conns[sid := y.conns[sid]];
    } else {
      var y1 := ReadsOne(y, sid, p, q, n);
      z := ReadsAll(y1, sid, p, q[1..], n);
    }
  }

  // One address shows two lobbies.

  const HOME: Ip := 7
  const GAME: GameId := [103]
  const BLANK := Shadow(NULL, NULL, 0, true, 0, map[], NULL, map[])
  const ONE := LobbyId(GAME, 11)
  const TWO := LobbyId(GAME, 12)

  function Hosting(listed: bool): ClientMessage {
    HostRequest(GAME, 2, listed, map[], map[])
  }

  function PeerWith(sessions: nat, tokens: real): map<Ip, Peer> {
    map[HOME := Peer(Active(sessions), NewPeer(0.0).budget.(tokens := tokens))]
  }

  lemma PeerGrants(s: State, sessions: nat, tokens: real)
    requires s.peers == PeerWith(sessions, tokens) && sessions < SESSIONS_PER_IP_CAP
    ensures Grants(s, HOME) && Introduce(s, HOME, 0.0).state == s.(peers := PeerWith(sessions + 1, tokens))
  {
    TotalWithout(s.peers, HOME);
    assert s.peers - {HOME} == map[];
    assert s.peers[HOME := s.peers[HOME].(sessions := Active(sessions + 1))] == PeerWith(sessions + 1, tokens);
  }

  lemma PeerPays(s: State, sessions: nat, tokens: real)
    requires s.peers == PeerWith(sessions, tokens) && 1.0 <= tokens && (tokens <= 3.0 || tokens == 4.0)
    ensures PassesCap(s, HOME, 0.0) && ChargePeer(s, HOME, 0.0).peers == PeerWith(sessions, tokens - 1.0)
  {
  }

  /** The first lobby is there and listed. */
  ghost predicate OneShown(y: System, sessions: nat) {
    && Calm(y) && y.now == 0.0 && y.used == {1} && y.conns.Keys == (if sessions == 1 then {0} else {0, 1})
    && ShowsOne(y.server, sessions)
  }

  ghost predicate ShowsOne(s: State, sessions: nat) {
    && s.peers == PeerWith(sessions, 3.0) && s.players.Keys == {1} && s.lobbies.Keys == {ONE}
    && s.lobbies[ONE].initiator == HOME && s.lobbies[ONE].listed && Together(s, {1})
  }

  /** The players of the first lobby, of whom 1 is the master. */
  predicate Together(s: State, players: set<BasicId>) {
    && ONE in s.lobbies && s.lobbies[ONE].players == players && s.lobbies[ONE].capacity == 2
    && s.lobbies[ONE].metadata == map[] && s.lobbies[ONE].master == 1
    && s.players.Keys == players && forall p :: p in players ==> s.players[p].lid == ONE
  }

  function HostingOp(listed: bool): Op {
    HostLobby(HOME, GAME, map[], 2, listed, map[])
  }

  lemma FirstIsHosted(s: State)
    requires s == State(map[], map[], map[], PeerWith(1, 4.0))
    ensures Housable(s, HostingOp(true), 1, 11, 0.0) && ShowsOne(Lodge(s, HostingOp(true), 1, 11, 0.0), 1)
  {
    PeerPays(s, 1, 4.0);
    assert LobbiesFrom(s, HOME) == {} && ListedFrom(s, HOME) == {} && ListedUnder(s, GAME) == {};
  }

  lemma FirstIsIn() returns (y: System)
    ensures Calm(y) && y.now == 0.0 && y.used == {} && y.server == State(map[], map[], map[], PeerWith(1, 4.0))
    ensures y.conns == map[0 := Caller(HOME, 0.0, BLANK, Serving, NoReply)]
  {
    StartIsReachable();
    assert TotalSessions(map[]) == 0;
    y := Connects(START, 0, HOME, BLANK);
  }

  lemma HostingIsEntry(listed: bool)
    ensures ValidMessage(Hosting(listed)) && EntryOp(HOME, Hosting(listed)) == HostingOp(listed)
  {
  }

  lemma FirstIsShown() returns (y: System)
    ensures OneShown(y, 1)
  {
    var a := FirstIsIn();
    FirstIsHosted(a.server);
    HostingIsEntry(true);
    y := Hosts(a, 0, HOME, BLANK, Hosting(true), HostingOp(true), 1, 11);
  }

  lemma AnotherSession(y: System) returns (z: System)
    requires OneShown(y, 1)
    ensures OneShown(z, 2) && z.conns[1] == Caller(HOME, 0.0, BLANK, Serving, NoReply)
  {
    PeerGrants(y.server, 1, 3.0);
    z := Connects(y, 1, HOME, BLANK);
  }

  /** The second lobby is there too, not listed, and its master's session idle. */
  ghost predicate TwoOwned(y: System) {
    Calm(y) && y.now == 0.0 && 1 in y.conns && Settled(y.conns[1], 2, BLANK, 29) && OwnsTwo(y.server)
  }

  ghost predicate OwnsTwo(s: State) {
    && ONE in s.lobbies && s.lobbies[ONE].initiator == HOME && s.lobbies[ONE].listed
    && TWO in s.lobbies && s.lobbies[TWO].initiator == HOME
    && IsMaster(s, 2) && s.players[2].lid == TWO && Allows(s.lobbies[TWO].alterations, 0.0, 1)
  }

  lemma AnotherIsHosted(s: State)
    requires ShowsOne(s, 2)
    ensures Housable(s, HostingOp(false), 2, 12, 0.0) && OwnsTwo(Lodge(s, HostingOp(false), 2, 12, 0.0))
  {
    PeerPays(s, 2, 3.0);
    assert LobbiesFrom(s, HOME) == {ONE};
  }

  lemma SecondIsHosted(y: System) returns (z: System)
    requires OneShown(y, 2) && y.conns[1] == Caller(HOME, 0.0, BLANK, Serving, NoReply)
    ensures TwoOwned(z)
  {
    AnotherIsHosted(y.server);
    z := Hosts(y, 1, HOME, BLANK, Hosting(false), HostingOp(false), 2, 12);
  }

  lemma SecondIsListed(y: System) returns (z: System)
    requires TwoOwned(y)
    ensures Reachable(z) && {ONE, TWO} <= ListedFrom(z.server, HOME)
  {
    var s := y.conns[1].session;
    RichPays(s, 29, ChangeListed(true), 0.0);
    var op := SetListedOp(2, true);
    var p := Process(Paid(s, 0.0), Text(ChangeListed(true)), 0.0);
    assert p == Progress(Paid(s, 0.0), [op], [], None);
    var y1 := Asks(y, 1, ChangeListed(true), 29, p);
    z := ListingServed(y1, 1, 2);
  }

  lemma ListingServed(y: System, sid: Sid, pid: BasicId) returns (z: System)
    requires Reachable(y) && Unfilled(y) && sid in y.conns && y.channel == [Request(Some(sid), SetListedOp(pid, true))]
    requires IsMaster(y.server, pid) && Allows(LobbyOf(y.server, pid).alterations, y.now, 1)
    ensures Reachable(z) && z.server.lobbies.Keys == y.server.lobbies.Keys
    ensures z.server.lobbies[y.server.players[pid].lid].listed
    ensures forall l :: l in y.server.lobbies ==>
      && z.server.lobbies[l].initiator == y.server.lobbies[l].initiator
      && (y.server.lobbies[l].listed ==> z.server.lobbies[l].listed)
  {
    var op := SetListedOp(pid, true);
    z := ServesOne(y, sid, op, Drawing(NULL, NULL, y.now), Alteration(y.server, op, y.now));
  }

  /** The limits on listed lobbies do not hold of every run: one address can come to show two. */
  lemma ListedLimitsCanBeExceeded()
    ensures exists y :: Reachable(y) && |ListedFrom(y.server, HOME)| > LISTED_LOBBIES_PER_IP
  {
    var a := FirstIsShown();
    var b := AnotherSession(a);
    var c := SecondIsHosted(b);
    var d := SecondIsListed(c);
    SubsetSize({ONE, TWO}, ListedFrom(d.server, HOME));
  }

  // A pong empties a client's list while the others are there.

  const JOINING: Op := JoinLobby(HOME, ONE, map[])
  const GOING := Natural("leave", "")

  function Invitation(y: System): seq<ServerMessage>
    requires Together(y.server, {1})
  {
    Snapshot(y.server, ONE, 2, Millis(y.now - y.server.lobbies[ONE].createdAt), Drawn(y.now))
  }

  function Drawn(now: real): Env {
    Env(now, 2, NULL, [1], [], NULL, [])
  }

  lemma JoinIsAllowed(s: State)
    requires Together(s, {1}) && s.peers == PeerWith(2, 3.0)
    ensures EnvOk(s, JOINING, Drawn(0.0)) && JoinDenial(s, JOINING, 0.0).None?
  {
  }

  /** The outcome of the second player's joining. */
  ghost predicate Seats(s: State, o: Outcome, snapshot: seq<ServerMessage>) {
    Together(o.state, {1, 2}) && o.reply == Admitted(2) && SentTo(o.out, 2) == snapshot
  }

  lemma InsertSeats(s: State, birth: nat, o: Outcome, env: Env)
    requires Together(s, {1}) && OrdersOk(s, ONE, env) && o == Insert(s, ONE, 2, map[], env)
    requires birth == Millis(env.now - s.lobbies[ONE].createdAt)
    ensures Seats(s, o, Snapshot(s, ONE, 2, birth, env))
  {
  }

  lemma JoinSeats(y: System, o: Outcome)
    requires Together(y.server, {1}) && y.server.peers == PeerWith(2, 3.0) && y.now == 0.0
    requires EnvOk(y.server, JOINING, Drawn(0.0)) && o == Step(y.server, JOINING, Drawn(0.0))
    ensures Seats(y.server, o, Invitation(y))
  {
    JoinIsAllowed(y.server);
    var s1, birth := ChargePeer(y.server, HOME, 0.0), Millis(0.0 - y.server.lobbies[ONE].createdAt);
    InsertSeats(s1, birth, o, Drawn(0.0));
    assert Snapshot(s1, ONE, 2, birth, Drawn(0.0)) == Snapshot(y.server, ONE, 2, birth, Drawn(0.0));
  }

  lemma InvitationShows(y: System, birth: nat)
    requires Together(y.server, {1}) && birth == Millis(y.now - y.server.lobbies[ONE].createdAt)
    ensures Telling(Invitation(y))
  {
    var s, env := y.server, Drawn(y.now);
    var met := [Joined(1, s.players[1].metadata, s.players[1].birth)];
    assert MetaMessages(s.lobbies[ONE].metadata, []) == [];
    assert env.members[..0] == [] && JoinedMessages(s.players, []) == [];
    assert JoinedMessages(s.players, env.members) == met;
    assert Invitation(y) == [SetListed(s.lobbies[ONE].listed), SetCapacity(2), Connected(2, ONE.lid, birth)]
                            + met + [SetMaster(1)];
    FoldSnapshot(BLANK, s, ONE, 2, birth, env);
    assert 1 in Companions(s, s.lobbies[ONE].players);
  }

  /** What tells a newcomer of player 1, without a farewell. */
  predicate Telling(q: seq<ServerMessage>) {
    |q| == 5 && (forall i :: 0 <= i < |q| ==> !q[i].Disconnected?) && 1 in Fold(BLANK, q).others
  }

  /** The second session has become player 2, and its queue holds what it has not yet read. */
  ghost predicate Invited(y: System, q: seq<ServerMessage>) {
    && Calm(y) && y.now == 0.0 && Together(y.server, {1, 2})
    && 1 in y.conns && Settled(y.conns[1], 2, BLANK, 29)
    && 2 in y.queues && y.queues[2] == q
  }

  lemma JoinSeen(y: System, o: Outcome, z: System, q: seq<ServerMessage>)
    requires y.channel != [] && 1 in y.conns && After(y, 1, o, z) && Seats(y.server, o, q) && |q| <= QUEUE_CAP
    ensures 2 in z.queues && z.queues[2] == q && Together(z.server, {1, 2})
  {
    assert [] + q == q;
  }

  lemma JoinServed(y: System, q: seq<ServerMessage>) returns (o: Outcome, z: System)
    requires Reachable(y) && Unfilled(y) && 1 in y.conns && y.channel == [Request(Some(1), JOINING)]
    requires y.now == 0.0 && y.used == {1} && Together(y.server, {1}) && y.server.peers == PeerWith(2, 3.0)
    requires q == Invitation(y)
    ensures After(y, 1, o, z) && Seats(y.server, o, q)
  {
    JoinIsAllowed(y.server);
    o := Step(y.server, JOINING, Drawn(0.0));
    JoinSeats(y, o);
    z := ServesOne(y, 1, JOINING, Drawn(0.0), o);
  }

  lemma SecondKnocks(y: System) returns (z: System)
    requires OneShown(y, 2) && y.conns[1] == Caller(HOME, 0.0, BLANK, Serving, NoReply)
    ensures Reachable(z) && Unfilled(z) && z.now == 0.0 && z.used == {1} && z.server == y.server
    ensures z.channel == [Request(Some(1), JOINING)] && 1 in z.conns && Knocking(z.conns[1], BLANK, NoReply, 29)
  {
    z := Knocks(y, 1, HOME, BLANK, JoinRequest(ONE, map[]));
  }

  lemma SecondEnters(y: System, q: seq<ServerMessage>) returns (z: System)
    requires Reachable(y) && Unfilled(y) && 1 in y.conns && y.channel == [Request(Some(1), JOINING)]
    requires y.now == 0.0 && y.used == {1} && Together(y.server, {1}) && y.server.peers == PeerWith(2, 3.0)
    requires q == Invitation(y) && Telling(q) && Knocking(y.conns[1], BLANK, NoReply, 29)
    ensures Calm(z) && z.now == 0.0 && Together(z.server, {1, 2}) && 2 in z.queues && z.queues[2] == q
    ensures 1 in z.conns && Knocking(z.conns[1], BLANK, Admitted(2), 29)
  {
    var o;
    o, z := JoinServed(y, q);
    AdmissionSeen(y, 1, BLANK, 2, 29, o, z);
    JoinSeen(y, o, z, q);
  }

  lemma SecondJoins(y: System) returns (z: System, q: seq<ServerMessage>)
    requires OneShown(y, 2) && y.conns[1] == Caller(HOME, 0.0, BLANK, Serving, NoReply)
    ensures Invited(z, q) && Telling(q)
  {
    var y1 := SecondKnocks(y);
    q := Invitation(y1);
    InvitationShows(y1, Millis(y1.now - y1.server.lobbies[ONE].createdAt));
    var y2 := SecondEnters(y1, q);
    z := Settles(y2, 1, BLANK, 2, 29);
  }

  /** The second player knows of the first. */
  ghost predicate Acquainted(y: System) {
    && Calm(y) && Together(y.server, {1, 2}) && 1 in y.conns
    && Settled(y.conns[1], 2, y.conns[1].client, 29) && 1 in y.conns[1].client.others
  }

  lemma SecondReads(y: System, q: seq<ServerMessage>) returns (z: System)
    requires Invited(y, q) && Telling(q)
    ensures Acquainted(z)
  {
    z := ReadsAll(y, 1, 2, q, 29);
  }

  /** The second player has asked to go, and then for a list, without waiting. */
  ghost predicate Restless(y: System) {
    && Reachable(y) && Unfilled(y) && Together(y.server, {1, 2}) && 1 in y.conns
    && y.channel == [Request(Some(1), RemovePlayer(2, GOING)), Request(Some(1), AssemblePong(2))]
    && Waiting(y.conns[1], NoReply)
  }

  /** A session that waits for its list, of a client that knows player 1. */
  predicate Waiting(c: Conn, reply: Reply) {
    && c.stage.Serving? && c.reply == reply && c.wire == [] && 1 in c.client.others
    && c.session.pid == Some(2) && c.session.awaiting.ForPong? && !c.session.stop
  }

  lemma SecondLeavesAndPings(y: System) returns (z: System)
    requires Acquainted(y)
    ensures Restless(z)
  {
    var bye := Leave("leave", "");
    var s := y.conns[1].session;
    RichPays(s, 29, bye, y.now);
    var p := Progress(Paid(s, y.now), [RemovePlayer(2, GOING)], [], None);
    var y1 := Asks(y, 1, bye, 29, p);
    var s1 := y1.conns[1].session;
    RichPays(s1, 28, Ping, y.now);
    var p1 := Progress(Paid(s1, y.now).(awaiting := ForPong), [AssemblePong(2)], [], None);
    z := Asks(y1, 1, Ping, 28, p1);
  }

  lemma RemovalServed(y: System) returns (z: System)
    requires Restless(y)
    ensures Reachable(z) && Unfilled(z) && Together(z.server, {1}) && 1 in z.conns
    ensures z.channel == [Request(Some(1), AssemblePong(2))] && Waiting(z.conns[1], NoReply)
  {
    var op := RemovePlayer(2, GOING);
    var env := Env(y.now, NULL, NULL, [], [], 1, []);
    RemovedOne(y.server, 2, GOING, 1, y.now);
    z := ServesOne(y, 1, op, env, Remove(y.server, 2, GOING, 1, y.now));
  }

  lemma PongServed(y: System) returns (z: System)
    requires Reachable(y) && Unfilled(y) && Together(y.server, {1}) && 1 in y.conns
    requires y.channel == [Request(Some(1), AssemblePong(2))] && Waiting(y.conns[1], NoReply)
    ensures Reachable(z) && Together(z.server, {1}) && 1 in z.conns && Waiting(z.conns[1], Ponged({}))
  {
    z := ServesOne(y, 1, AssemblePong(2), Drawing(NULL, NULL, y.now), Outcome(y.server, map[], Ponged({})));
  }

  /** The next message of the connection takes a player out of the client's list who is on the server. */
  predicate TakesOutThePresent(y: System, sid: Sid, q: BasicId) {
    && sid in y.conns && y.conns[sid].wire == [Pong({})] && q in y.conns[sid].client.others && q in y.server.players
    && q !in Apply(y.conns[sid].client, Pong({})).others
  }

  lemma EmptyPongArrives(y: System) returns (z: System)
    requires Reachable(y) && Together(y.server, {1}) && 1 in y.conns && Waiting(y.conns[1], Ponged({}))
    ensures Reachable(z) && TakesOutThePresent(z, 1, 1)
  {
    var s := y.conns[1].session;
    z := TakesTurn(y, 1, Answered(Ponged({})), Progress(s.(awaiting := Idle), [], [Pong({})], None));
  }

  /** A pong can remove a player who is still in the lobby. */
  lemma PongCanRemoveThePresent()
    ensures exists y, sid, q :: Reachable(y) && TakesOutThePresent(y, sid, q)
  {
    var a := FirstIsShown();
    var b := AnotherSession(a);
    var c, q := SecondJoins(b);
    var d := SecondReads(c, q);
    var e := SecondLeavesAndPings(d);
    var f := RemovalServed(e);
    var g := PongServed(f);
    var h := EmptyPongArrives(g);
  }
}
