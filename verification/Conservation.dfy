/** Counting: sessions against the handles granted, players against sessions, and nothing left behind at the end. */
module Conservation {
  import opened Basics
  import opened Server
  import opened ServerInvariants
  import opened Sessions
  import opened System
  import opened Ownership

  function SessionsOf(peers: map<Ip, Peer>, ip: Ip): nat {
    if ip in peers then peers[ip].Count() else 0
  }

  /** The connections of an address whose handle is granted and not yet closed. */
  ghost function OpenFrom(y: System, ip: Ip): set<Sid> {
    set sid | sid in y.open && sid in y.conns && y.conns[sid].session.ip == ip
  }

  /** An address's session count is the number of its open handles, and the total is the number of all of them. */
  ghost predicate Counted(y: System) {
    && PeersOk(y.server.peers)
    && TotalSessions(y.server.peers) == |y.open|
    && forall ip :: SessionsOf(y.server.peers, ip) == |OpenFrom(y, ip)|
  }

  /** The change of an address's count and of the total that an operation makes. */
  ghost function CountChange(s: State, op: Op, env: Env): int
    requires EnvOk(s, op, env)
  {
    if op.IntroduceSession? && Grants(s, op.ip) then 1
    else if op.CloseSession? && SessionsOf(s.peers, op.ip) > 0 then -1
    else 0
  }

  lemma CountsAfter(s: State, op: Op, env: Env, ip: Ip)
    requires PeersOk(s.peers) && EnvOk(s, op, env)
    ensures var t := Step(s, op, env).state;
      SessionsOf(t.peers, ip) == SessionsOf(s.peers, ip)
        + (if (op.IntroduceSession? || op.CloseSession?) && op.ip == ip then CountChange(s, op, env) else 0)
  {
    if LeavesPeers(op) {
      PeersLeft(s, op, env);
    } else if op.ListLobbies? || op.HostLobby? || op.JoinLobby? {
      PeersCharged(s, op, env);
    }
  }

  lemma TotalAfter(s: State, op: Op, env: Env)
    requires PeersOk(s.peers) && EnvOk(s, op, env)
    ensures TotalSessions(Step(s, op, env).state.peers) == TotalSessions(s.peers) + CountChange(s, op, env)
  {
    var t := Step(s, op, env).state;
    if LeavesPeers(op) {
      PeersLeft(s, op, env);
    } else if op.ListLobbies? || op.HostLobby? || op.JoinLobby? {
      PeersCharged(s, op, env);
      if op.ip in s.peers {
        TotalUpdated(s.peers, op.ip, t.peers[op.ip]);
      }
    } else if op.Prune? {
      TotalPruned(s.peers, env.now);
    } else if op.ip in t.peers && t.peers != s.peers {
      TotalUpdated(s.peers, op.ip, t.peers[op.ip]);
    }
  }

  lemma GrantedIffGrants(s: State, op: Op, env: Env)
    requires op.IntroduceSession? && EnvOk(s, op, env)
    ensures Step(s, op, env).reply == Granted(Grants(s, op.ip))
  {
  }

  /** A connection whose request is being served is the one the request names. */
  lemma ServedFrom(y: System)
    requires ConnsOk(y) && ChannelOk(y) && y.channel != []
    ensures var Request(from, op) := y.channel[0];
      && (op.IntroduceSession? ==> from.Some? && y.conns[from.value].session.ip == op.ip && from.value !in y.open)
      && (op.CloseSession? ==> from.Some? && y.conns[from.value].session.ip == op.ip && from.value in y.open)
      && (CapOp(op) ==> from.Some? && y.conns[from.value].session.ip == op.ip && from.value in y.open)
  {
    var Request(from, op) := y.channel[0];
    if from.Some? {
      PendingServed(y, from.value);
      assert ConnOk(y.conns[from.value], Pending(y.channel, from.value), from.value in y.open);
      assert Pending(y.channel, from.value)[0] == op;
    }
  }

  lemma SameIps(y: System, z: System)
    requires z.open == y.open && y.open <= y.conns.Keys
    requires forall sid :: sid in y.conns ==> sid in z.conns && z.conns[sid].session.ip == y.conns[sid].session.ip
    ensures forall ip :: OpenFrom(z, ip) == OpenFrom(y, ip)
  {
  }

  ghost predicate SameAddresses(y: System, z: System) {
    z.conns.Keys == y.conns.Keys && forall sid :: sid in y.conns ==> z.conns[sid].session.ip == y.conns[sid].session.ip
  }

  lemma OpenedOne(y: System, z: System, sid: Sid, ip: Ip)
    requires SameAddresses(y, z) && sid in y.conns && sid !in y.open && z.open == y.open + {sid}
    ensures |z.open| == |y.open| + 1
    ensures |OpenFrom(z, ip)| == |OpenFrom(y, ip)| + (if ip == y.conns[sid].session.ip then 1 else 0)
  {
    if ip == y.conns[sid].session.ip {
      assert OpenFrom(z, ip) == OpenFrom(y, ip) + {sid};
    } else {
      assert OpenFrom(z, ip) == OpenFrom(y, ip);
    }
  }

  lemma ClosedOne(y: System, z: System, sid: Sid, ip: Ip)
    requires SameAddresses(y, z) && sid in y.conns && sid in y.open && z.open == y.open - {sid}
    ensures |z.open| == |y.open| - 1
    ensures |OpenFrom(z, ip)| == |OpenFrom(y, ip)| - (if ip == y.conns[sid].session.ip then 1 else 0)
  {
    if ip == y.conns[sid].session.ip {
      assert OpenFrom(z, ip) == OpenFrom(y, ip) - {sid};
      assert sid in OpenFrom(y, ip);
    } else {
      assert OpenFrom(z, ip) == OpenFrom(y, ip);
    }
  }

  lemma ServedAddresses(y: System, env: Env)
    requires CanServe(y, env)
    ensures SameAddresses(y, Served(y, env))
  {
  }

  /** The open handles move with the counts. */
  lemma ServedOpen(y: System, env: Env, ip: Ip)
    requires ConnsOk(y) && ChannelOk(y) && Counted(y) && CanServe(y, env)
    ensures var z := Served(y, env); var op := y.channel[0].op;
      && |z.open| == |y.open| + CountChange(y.server, op, env)
      && |OpenFrom(z, ip)| == |OpenFrom(y, ip)|
         + (if (op.IntroduceSession? || op.CloseSession?) && op.ip == ip then CountChange(y.server, op, env) else 0)
  {
    var z := Served(y, env);
    var Request(from, op) := y.channel[0];
    ServedFrom(y);
    ServedAddresses(y, env);
    if op.IntroduceSession? {
      GrantedIffGrants(y.server, op, env);
    }
    if op.IntroduceSession? && Grants(y.server, op.ip) {
      OpenedOne(y, z, from.value, ip);
    } else if op.CloseSession? {
      ClosedOne(y, z, from.value, ip);
      assert from.value in OpenFrom(y, op.ip);
      assert |OpenFrom(y, op.ip)| > 0;
    } else {
      SameIps(y, z);
    }
  }

  lemma ServedCounted(y: System, env: Env)
    requires ConnsOk(y) && ChannelOk(y) && Counted(y) && CanServe(y, env)
    ensures Counted(Served(y, env))
  {
    var z := Served(y, env);
    var op := y.channel[0].op;
    PeersKept(y.server, op, env);
    TotalAfter(y.server, op, env);
    forall ip ensures SessionsOf(z.server.peers, ip) == |OpenFrom(z, ip)| {
      CountsAfter(y.server, op, env, ip);
      ServedOpen(y, env, ip);
    }
    ServedOpen(y, env, 0);
  }

  /** Only the event loop grants and closes handles, and no connection changes its address. */
  lemma OtherStepsCountNothing(y: System, ev: Event)
    requires Enabled(y, ev) && !ev.Serve?
    ensures var z := Fire(y, ev);
      && z.open == y.open && z.server == y.server
      && forall sid :: sid in y.conns ==> sid in z.conns && z.conns[sid].session.ip == y.conns[sid].session.ip
  {
    if ev.SessionTurn? {
      TurnDiscipline(y.conns[ev.sid].session, ev.input, y.now);
    }
  }

  lemma FireKeepsCounts(y: System, ev: Event)
    requires Disciplined(y) && Counted(y) && Enabled(y, ev)
    ensures Counted(Fire(y, ev))
  {
    if ev.Serve? {
      ServedCounted(y, ev.env);
    } else {
      OtherStepsCountNothing(y, ev);
      UnmovedCounted(y, Fire(y, ev));
    }
  }

  lemma UnmovedCounted(y: System, z: System)
    requires Counted(y) && z.open == y.open && z.server == y.server && y.open <= y.conns.Keys
    requires forall sid :: sid in y.conns ==> sid in z.conns && z.conns[sid].session.ip == y.conns[sid].session.ip
    ensures Counted(z)
  {
    SameIps(y, z);
    assert forall ip :: OpenFrom(z, ip) == OpenFrom(y, ip);
  }

  lemma StartCounted()
    ensures Counted(START)
  {
    forall ip ensures OpenFrom(START, ip) == {} {
    }
  }

  // Consequences.

  /** A player's connection is one whose handle the server still counts. */
  lemma OwnersAreOpen(y: System, p: BasicId)
    requires Disciplined(y) && p in y.server.players
    ensures p in y.owner && y.owner[p] in y.open
  {
    assert OwnedBy(y, p);
    assert ConnOk(y.conns[y.owner[p]], Pending(y.channel, y.owner[p]), y.owner[p] in y.open);
  }

  /** The chain of counts that bounds everything the server holds. */
  lemma ConservationChain(y: System)
    requires Disciplined(y) && Counted(y)
    ensures |y.server.lobbies| <= |y.server.players| <= |y.open| == TotalSessions(y.server.peers) <= GLOBAL_SESSIONS_CAP
    ensures |y.server.peers| <= GLOBAL_PEERS_CAP
    ensures forall ip :: ip in y.server.peers && y.server.peers[ip].sessions.Active? ==>
      1 <= y.server.peers[ip].sessions.count == |OpenFrom(y, ip)| <= SESSIONS_PER_IP_CAP
  {
    FewerLobbiesThanPlayers(y.server);
    forall p | p in y.server.players ensures p in y.owner && y.owner[p] in y.open {
      OwnersAreOpen(y, p);
    }
    forall p, q | p in y.server.players && q in y.server.players && y.owner[p] == y.owner[q] ensures p == q {
      assert OwnedBy(y, p) && OwnedBy(y, q);
      HoldersAreUnique(y, y.owner[p], y.owner[q], p, q);
    }
    InjectiveImageSize(y.server.players.Keys, y.owner, y.open);
    forall ip | ip in y.server.peers && y.server.peers[ip].sessions.Active?
      ensures y.server.peers[ip].sessions.count == |OpenFrom(y, ip)|
    {
      assert SessionsOf(y.server.peers, ip) == |OpenFrom(y, ip)|;
    }
  }

  /** Every connection has run its course and the channel is drained. */
  ghost predicate Over(y: System) {
    y.channel == [] && forall sid :: sid in y.conns ==> y.conns[sid].stage.Gone?
  }

  lemma LobbiesHavePlayers(s: State)
    requires Linked(s)
    ensures s.lobbies != map[] ==> s.players != map[]
  {
    if s.lobbies != map[] {
      var l :| l in s.lobbies;
      assert s.lobbies[l].master in s.players;
    }
  }

  lemma IndexedLobbiesExist(s: State)
    requires IndexExact(s)
    ensures s.gidLobbies != map[] ==> s.lobbies != map[]
  {
    if s.gidLobbies != map[] {
      var g :| g in s.gidLobbies;
      var id :| id in s.gidLobbies[g];
      assert LobbyId(g, id) in s.lobbies;
    }
  }

  /** Nothing leaks: once all is over the server holds no player, lobby or index entry, and no address has a session. */
  lemma NothingLeaks(y: System)
    requires Disciplined(y) && Counted(y) && Over(y)
    ensures y.server.players == map[] && y.server.lobbies == map[] && y.server.gidLobbies == map[]
    ensures y.open == {} && y.queues == map[]
    ensures forall ip :: ip in y.server.peers ==> y.server.peers[ip].sessions.Decaying?
  {
    forall sid | sid in y.conns ensures sid !in y.open {
      assert ConnOk(y.conns[sid], Pending(y.channel, sid), sid in y.open);
    }
    forall p | p in y.server.players ensures false {
      OwnersAreOpen(y, p);
    }
    assert y.server.players == map[];
    LobbiesHavePlayers(y.server);
    IndexedLobbiesExist(y.server);
    forall p | p in y.queues ensures false {
    }
    forall ip | ip in y.server.peers ensures y.server.peers[ip].sessions.Decaying? {
      assert OpenFrom(y, ip) == {};
      assert SessionsOf(y.server.peers, ip) == 0;
    }
  }
}
